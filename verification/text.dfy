/**
 * Text helpers shared by the converter: decimal rendering of the numeric
 * suffixes appended to colliding names, the substring test used when
 * naming the root declaration, and joining lines with a separator.
 */
module Text {

  /** 10 to the power n. */
  function Pow10(n: nat): (r: nat)
    ensures r >= 1
    ensures n >= 1 ==> r >= 10
  {
    if n == 0 then 1 else 10 * Pow10(n - 1)
  }

  predicate IsDigitChar(c: char)
  {
    '0' <= c <= '9'
  }

  function DigitChar(d: nat): (c: char)
    requires d < 10
    ensures IsDigitChar(c)
  {
    ('0' as int + d) as char
  }

  /** Decimal rendering of a natural number, as `int.ToString()` writes a non-negative value. */
  function NatToString(n: nat): (s: string)
    ensures |s| >= 1
    ensures forall i :: 0 <= i < |s| ==> IsDigitChar(s[i])
  {
    if n < 10 then [DigitChar(n)] else NatToString(n / 10) + [DigitChar(n % 10)]
  }

  /** The value of a string of decimal digits. */
  function DigitsValue(s: string): nat
    requires forall i :: 0 <= i < |s| ==> IsDigitChar(s[i])
  {
    if |s| == 0 then 0
    else
      assert IsDigitChar(s[|s| - 1]);
      10 * DigitsValue(s[..|s| - 1]) + (s[|s| - 1] as int - '0' as int)
  }

  /** Reading the rendering back gives the number: distinct suffixes for distinct indices. */
  lemma {:induction false} NatToStringRoundTrip(n: nat)
    ensures DigitsValue(NatToString(n)) == n
  {
    if n >= 10 {
      NatToStringRoundTrip(n / 10);
      var s := NatToString(n);
      assert s[..|s| - 1] == NatToString(n / 10);
    }
  }

  /** A number of at least 10^m needs more than m digits. */
  lemma {:induction false} NatToStringLength(n: nat, m: nat)
    requires n >= Pow10(m)
    ensures |NatToString(n)| > m
  {
    if m > 0 {
      assert n >= 10;
      assert n / 10 >= Pow10(m - 1);
      NatToStringLength(n / 10, m - 1);
    }
  }

  /** True when `part` occurs in `s` as a contiguous run of characters (C#'s `string.Contains`). */
  predicate Contains(s: string, part: string)
  {
    part <= s || (|s| > 0 && Contains(s[1..], part))
  }

  /** `part` occurs in `s` starting at position i. */
  predicate OccursAt(s: string, part: string, i: nat)
  {
    i + |part| <= |s| && s[i..i + |part|] == part
  }

  /** Where `Contains` finds `part`. */
  lemma {:induction false} ContainsWitness(s: string, part: string) returns (i: nat)
    requires Contains(s, part)
    ensures OccursAt(s, part, i)
    decreases |s|
  {
    if part <= s {
      i := 0;
    } else {
      var j := ContainsWitness(s[1..], part);
      assert s[1..][j..j + |part|] == s[j + 1..j + 1 + |part|];
      i := j + 1;
    }
  }

  /** An occurrence at any position is found by `Contains`. */
  lemma {:induction false} OccursContains(s: string, part: string, i: nat)
    requires OccursAt(s, part, i)
    ensures Contains(s, part)
    decreases i
  {
    if i > 0 {
      assert i + |part| <= |s| && s[i..i + |part|] == part;
      assert s[1..][i - 1..i - 1 + |part|] == part;
      OccursContains(s[1..], part, i - 1);
    }
  }

  /** `Contains` agrees with the positional definition: `part` is a slice of `s`. */
  lemma ContainsAt(s: string, part: string)
    ensures Contains(s, part) <==> exists i: nat :: OccursAt(s, part, i)
  {
    if Contains(s, part) {
      var i := ContainsWitness(s, part);
    }
    forall i: nat | OccursAt(s, part, i)
      ensures Contains(s, part)
    {
      OccursContains(s, part, i);
    }
  }

  lemma {:induction false} ContainsLength(s: string, part: string)
    requires Contains(s, part)
    ensures |part| <= |s|
  {
    if !(part <= s) {
      ContainsLength(s[1..], part);
    }
  }

  /**
   * The k-th name tried when `base` collides: `base` itself for k = 1,
   * then `base2`, `base3`, ... (the loops bump the index before retrying).
   */
  function Candidate(base: string, k: nat): string
  {
    if k <= 1 then base else base + NatToString(k)
  }

  /** A suffixed candidate ends in a digit. */
  lemma CandidateEndsInDigit(base: string, k: nat)
    requires k >= 2
    ensures IsDigitChar(Candidate(base, k)[|Candidate(base, k)| - 1])
  {
    var c := Candidate(base, k);
    assert c[|c| - 1] == NatToString(k)[|NatToString(k)| - 1];
  }

  /** A suffixed candidate no longer than `len` characters has an index below 10^len. */
  lemma CandidateIndexBound(base: string, k: nat, len: nat)
    requires k >= 2
    requires |Candidate(base, k)| <= len
    ensures k < Pow10(len)
  {
    if k >= Pow10(len) {
      NatToStringLength(k, len);
    }
  }

  /** `string.Join(sep, lines)`. */
  function Join(sep: string, lines: seq<string>): (r: string)
    ensures |lines| == 1 ==> r == lines[0]
  {
    if |lines| == 0 then ""
    else if |lines| == 1 then lines[0]
    else lines[0] + sep + Join(sep, lines[1..])
  }

  /** Joining two non-empty blocks of lines: the first block, the separator, the second block. */
  lemma {:induction false} JoinAppend(sep: string, a: seq<string>, b: seq<string>)
    requires |a| > 0 && |b| > 0
    ensures Join(sep, a + b) == Join(sep, a) + sep + Join(sep, b)
    decreases |a|
  {
    if |a| == 1 {
      assert (a + b)[1..] == b;
    } else {
      JoinAppend(sep, a[1..], b);
      assert (a + b)[1..] == a[1..] + b;
    }
  }

  lemma ConcatAssoc(a: string, b: string, c: string)
    ensures (a + b) + c == a + (b + c)
  {
  }

  predicate EndsWith(s: string, suffix: string)
  {
    |suffix| <= |s| && s[|s| - |suffix|..] == suffix
  }

  /** A suffix of the second part is a suffix of the whole. */
  lemma EndsWithAppend(a: string, b: string, suffix: string)
    requires EndsWith(b, suffix)
    ensures EndsWith(a + b, suffix)
  {
    assert (a + b)[|a + b| - |suffix|..] == b[|b| - |suffix|..];
  }

  /** Sum of the lengths of some strings: a bound on the length of each of them. */
  function TotalLength(names: seq<string>): (n: nat)
    ensures forall i :: 0 <= i < |names| ==> |names[i]| <= n
  {
    if |names| == 0 then 0 else |names[0]| + TotalLength(names[1..])
  }
}
