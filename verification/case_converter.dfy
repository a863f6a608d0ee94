/**
 * The PascalCase normaliser applied to property names before they become
 * declaration names (`CaseConveter.ToPascalCase`).
 *
 * Characters are classified as ASCII: `A`-`Z` are upper case, `a`-`z` lower
 * case, and letters together with `0`-`9` are the alphanumeric characters that
 * survive; everything else is a separator.
 */
module CaseConverter {

  predicate IsUpper(c: char) { 'A' <= c <= 'Z' }

  predicate IsLower(c: char) { 'a' <= c <= 'z' }

  predicate IsLetterOrDigit(c: char)
  {
    IsUpper(c) || IsLower(c) || '0' <= c <= '9'
  }

  function ToUpper(c: char): (u: char)
    ensures IsLetterOrDigit(c) ==> IsLetterOrDigit(u) && !IsLower(u)
    ensures !IsLower(c) ==> u == c
  {
    if IsLower(c) then (c as int - 32) as char else c
  }

  function ToLower(c: char): (l: char)
    ensures IsLetterOrDigit(c) ==> IsLetterOrDigit(l) && !IsUpper(l)
    ensures !IsUpper(c) ==> l == c
  {
    if IsUpper(c) then (c as int + 32) as char else c
  }

  /** Number of alphanumeric characters among the first i characters of text. */
  function Rank(text: string, i: nat): nat
    requires i <= |text|
  {
    if i == 0 then 0 else Rank(text, i - 1) + (if IsLetterOrDigit(text[i - 1]) then 1 else 0)
  }

  lemma {:induction false} RankMonotone(text: string, i: nat, j: nat)
    requires i <= j <= |text|
    ensures Rank(text, i) <= Rank(text, j)
    decreases j - i
  {
    if i < j {
      RankMonotone(text, i, j - 1);
    }
  }

  /**
   * One step of the source loop, from position i with the current value of
   * its `flag` (true when the next alphanumeric character starts a word).
   */
  function PascalFrom(text: string, i: nat, flag: bool): (r: string)
    requires i <= |text|
    ensures |r| == Rank(text, |text|) - Rank(text, i)
    ensures forall k :: 0 <= k < |r| ==> IsLetterOrDigit(r[k])
    decreases |text| - i
  {
    if i == |text| then ""
    else
      var c := text[i];
      var emitted :=
        if !IsLetterOrDigit(c) then ""
        else if flag then [ToUpper(c)]
        else if i < |text| - 1 && IsUpper(c) && IsLower(text[i + 1]) then [c]
        else [ToLower(c)];
      var next := !IsLetterOrDigit(c) || (i < |text| - 1 && IsLower(c) && IsUpper(text[i + 1]));
      RankMonotone(text, i + 1, |text|);
      emitted + PascalFrom(text, i + 1, next)
  }

  /** `ToPascalCase`: the loop started at the first character with the flag raised. */
  function ToPascalCase(text: string): (r: string)
    ensures |r| == Rank(text, |text|)
    ensures forall k :: 0 <= k < |r| ==> IsLetterOrDigit(r[k])
  {
    PascalFrom(text, 0, true)
  }

  /*
   * A reference definition that needs no loop state: each alphanumeric
   * character is rendered by looking only at its neighbours.
   */

  /**
   * The value the loop's flag holds on reaching position i: raised at the
   * start, after a separator, and in front of a lower-to-upper transition.
   */
  predicate StartsWord(text: string, i: nat)
    requires i <= |text|
  {
    i == 0 || !IsLetterOrDigit(text[i - 1]) || (i < |text| && IsLower(text[i - 1]) && IsUpper(text[i]))
  }

  /** How the alphanumeric character at position i appears in the output. */
  function Rendered(text: string, i: nat): char
    requires i < |text|
  {
    if StartsWord(text, i) then ToUpper(text[i])
    else if i + 1 < |text| && IsUpper(text[i]) && IsLower(text[i + 1]) then text[i]
    else ToLower(text[i])
  }

  /** The rendered alphanumeric characters from position i on, in order. */
  function RenderedFrom(text: string, i: nat): string
    requires i <= |text|
    decreases |text| - i
  {
    if i == |text| then ""
    else (if IsLetterOrDigit(text[i]) then [Rendered(text, i)] else "") + RenderedFrom(text, i + 1)
  }

  /** The loop with its flag agrees with the stateless per-position rule, from every position. */
  lemma {:induction false} PascalFromMatchesRendered(text: string, i: nat)
    requires i <= |text|
    ensures PascalFrom(text, i, StartsWord(text, i)) == RenderedFrom(text, i)
    decreases |text| - i
  {
    if i < |text| {
      var c := text[i];
      var next := !IsLetterOrDigit(c) || (i < |text| - 1 && IsLower(c) && IsUpper(text[i + 1]));
      assert next == StartsWord(text, i + 1);
      PascalFromMatchesRendered(text, i + 1);
      assert PascalFrom(text, i, StartsWord(text, i)) ==
        (if IsLetterOrDigit(c) then [Rendered(text, i)] else "") + PascalFrom(text, i + 1, next);
    }
  }

  /** The output is exactly the per-position rendering of the input's alphanumeric characters. */
  lemma PascalCaseIsRendered(text: string)
    ensures ToPascalCase(text) == RenderedFrom(text, 0)
  {
    PascalFromMatchesRendered(text, 0);
  }

  lemma {:induction false} RenderedFromAt(text: string, j: nat, i: nat)
    requires j <= i < |text|
    requires IsLetterOrDigit(text[i])
    ensures Rank(text, j) <= Rank(text, i)
    ensures Rank(text, i) - Rank(text, j) < |RenderedFrom(text, j)|
    ensures RenderedFrom(text, j)[Rank(text, i) - Rank(text, j)] == Rendered(text, i)
    decreases i - j
  {
    RankMonotone(text, j, i);
    var head := if IsLetterOrDigit(text[j]) then [Rendered(text, j)] else "";
    assert RenderedFrom(text, j) == head + RenderedFrom(text, j + 1);
    if j < i {
      RenderedFromAt(text, j + 1, i);
      assert Rank(text, j + 1) == Rank(text, j) + |head|;
      var d := Rank(text, i) - Rank(text, j + 1);
      assert (head + RenderedFrom(text, j + 1))[|head| + d] == RenderedFrom(text, j + 1)[d];
    }
  }

  /**
   * The alphanumeric character at position i lands at output position
   * Rank(text, i), the number of alphanumeric characters before it.
   */
  lemma PascalCaseAt(text: string, i: nat)
    requires i < |text| && IsLetterOrDigit(text[i])
    ensures Rank(text, i) < |ToPascalCase(text)|
    ensures ToPascalCase(text)[Rank(text, i)] == Rendered(text, i)
  {
    PascalCaseIsRendered(text);
    RenderedFromAt(text, 0, i);
  }

  /** The first alphanumeric character of the input is upper-cased and comes first. */
  lemma FirstCharacterUpper(text: string, i: nat)
    requires i < |text| && IsLetterOrDigit(text[i])
    requires forall j :: 0 <= j < i ==> !IsLetterOrDigit(text[j])
    ensures |ToPascalCase(text)| > 0 && ToPascalCase(text)[0] == ToUpper(text[i])
  {
    assert Rank(text, i) == 0 by {
      var k := 0;
      while k < i
        invariant k <= i && Rank(text, k) == 0
      {
        k := k + 1;
      }
    }
    PascalCaseAt(text, i);
  }

  /** An alphanumeric character right after a separator is upper-cased. */
  lemma UpperAfterSeparator(text: string, i: nat)
    requires 0 < i < |text| && IsLetterOrDigit(text[i]) && !IsLetterOrDigit(text[i - 1])
    ensures Rank(text, i) < |ToPascalCase(text)|
    ensures ToPascalCase(text)[Rank(text, i)] == ToUpper(text[i])
  {
    PascalCaseAt(text, i);
  }

  /** An upper-case letter right after a lower-case letter stays upper case. */
  lemma UpperAfterCaseBoundary(text: string, i: nat)
    requires 0 < i < |text| && IsLower(text[i - 1]) && IsUpper(text[i])
    ensures Rank(text, i) < |ToPascalCase(text)|
    ensures ToPascalCase(text)[Rank(text, i)] == text[i]
  {
    PascalCaseAt(text, i);
  }

  /**
   * Inside a word, a character is kept when it is upper case and followed by
   * a lower-case letter, and lower-cased otherwise.
   */
  lemma InsideWord(text: string, i: nat)
    requires 0 < i < |text| && IsLetterOrDigit(text[i - 1]) && IsLetterOrDigit(text[i])
    requires !(IsLower(text[i - 1]) && IsUpper(text[i]))
    ensures Rank(text, i) < |ToPascalCase(text)|
    ensures ToPascalCase(text)[Rank(text, i)] ==
      if i + 1 < |text| && IsUpper(text[i]) && IsLower(text[i + 1]) then text[i] else ToLower(text[i])
  {
    PascalCaseAt(text, i);
  }

  /**
   * Text the normaliser leaves unchanged: letters and digits only, no
   * lower-case letter first, and every later upper-case letter directly after
   * a lower-case one.
   */
  predicate PascalFixed(text: string)
  {
    forall i :: 0 <= i < |text| ==>
      && IsLetterOrDigit(text[i])
      && (i == 0 ==> !IsLower(text[i]))
      && (0 < i && IsUpper(text[i]) ==> IsLower(text[i - 1]))
  }

  lemma RenderedKeeps(text: string, i: nat)
    requires PascalFixed(text) && i < |text|
    ensures Rendered(text, i) == text[i]
  {
    if i > 0 {
      assert IsLetterOrDigit(text[i - 1]);
    }
  }

  lemma {:induction false} RenderedFromFixed(text: string, i: nat)
    requires PascalFixed(text) && i <= |text|
    ensures RenderedFrom(text, i) == text[i..]
    decreases |text| - i
  {
    if i < |text| {
      RenderedKeeps(text, i);
      RenderedFromFixed(text, i + 1);
      assert text[i..] == [text[i]] + text[i + 1..];
    }
  }

  /** Text that is already in the normal form comes back unchanged. */
  lemma PascalFixedUnchanged(text: string)
    requires PascalFixed(text)
    ensures ToPascalCase(text) == text
  {
    PascalCaseIsRendered(text);
    RenderedFromFixed(text, 0);
  }

  /** Appending digits to normal-form text keeps it in normal form. */
  lemma PascalFixedDigits(text: string, digits: string)
    requires PascalFixed(text) && |text| > 0
    requires forall i :: 0 <= i < |digits| ==> '0' <= digits[i] <= '9'
    ensures PascalFixed(text + digits)
  {
    var all := text + digits;
    forall i | 0 <= i < |all|
      ensures IsLetterOrDigit(all[i])
      ensures i == 0 ==> !IsLower(all[i])
      ensures 0 < i && IsUpper(all[i]) ==> IsLower(all[i - 1])
    {
      if i < |text| {
        assert all[i] == text[i];
        if i > 0 {
          assert all[i - 1] == text[i - 1];
        }
      } else {
        assert all[i] == digits[i - |text|];
      }
    }
  }

  /** The normaliser is not idempotent: "a_b" becomes "AB", which becomes "Ab". */
  lemma NotIdempotent()
    ensures ToPascalCase("a_b") == "AB"
    ensures ToPascalCase("AB") == "Ab"
  {
  }
}
