/**
 * `JsonToPythonConverter`: walks a parsed JSON object and emits one Python
 * class per distinct object fingerprint (shapes whose fingerprints collide
 * share a class), in the order the fingerprints are first completed
 * (children before the parents that refer to them), behind the import lines
 * the emitted classes need.
 *
 * The converter's mutable fields (the output list and the two flags) are an
 * explicit `State` value threaded through the walk.
 */
module Converter {

  import opened Optional
  import opened Text
  import opened Json
  import opened Fingerprint
  import opened CaseConverter

  /** The three class styles. */
  datatype PythonDataType = DataClass | TypedDict | Pydantic

  /** How JSON numbers are typed. */
  datatype NumberType = Union | DefineNumber | Int | Float

  /** The options of one conversion; `newLine` is the platform line separator. */
  datatype Config = Config(output: PythonDataType, number: NumberType, hasher: Hasher, newLine: string)

  const Indent := "    "
  const RootNameBase := "JsonRootElement"
  const NumberTypeName := "Number"
  const NumberAlias := "type Number = int | float"

  /** One emitted class: its name, its rendered code and its fingerprint. */
  datatype Decl = Decl(name: string, code: string, hash: bv32)

  /** The output list and the `_useAny` / `_defineNumber` flags. */
  datatype State = State(decls: seq<Decl>, useAny: bool, defineNumber: bool)

  /** `InitFlag` together with a new, empty output list. */
  const Initial := State([], false, false)

  /** A type reference with its fingerprint, and the state after producing it. */
  datatype Typed = Typed(name: string, hash: bv32, st: State)

  /** A scalar type name and the state after producing it. */
  datatype Named = Named(name: string, st: State)

  /** The member lines and fingerprint accumulated over an object's properties so far. */
  datatype MemberList = MemberList(lines: string, hash: bv32, st: State)

  datatype Outcome = Document(text: string) | Error

  function Names(decls: seq<Decl>): (names: seq<string>)
    ensures |names| == |decls|
    ensures forall i :: 0 <= i < |decls| ==> names[i] == decls[i].name
  {
    seq(|decls|, i requires 0 <= i < |decls| => decls[i].name)
  }

  /** Some class in the list has the fingerprint. */
  predicate HasHash(decls: seq<Decl>, hash: bv32)
  {
    exists i :: 0 <= i < |decls| && decls[i].hash == hash
  }

  function Codes(decls: seq<Decl>): (codes: seq<string>)
    ensures |codes| == |decls|
    ensures forall i :: 0 <= i < |decls| ==> codes[i] == decls[i].code
  {
    seq(|decls|, i requires 0 <= i < |decls| => decls[i].code)
  }

  /**
   * The invariant of the output list: names are pairwise distinct,
   * fingerprints are pairwise distinct, and in `DefineNumber` mode no class
   * takes the alias name `Number`.
   */
  predicate Valid(number: NumberType, decls: seq<Decl>)
  {
    && (forall i, j :: 0 <= i < j < |decls| ==> decls[i].name != decls[j].name)
    && (forall i, j :: 0 <= i < j < |decls| ==> decls[i].hash != decls[j].hash)
    && (number == DefineNumber ==> forall i :: 0 <= i < |decls| ==> decls[i].name != NumberTypeName)
  }

  /** `outputList.FirstOrDefault(item => item.Hash == hash)`, as an index. */
  function FirstWithHash(decls: seq<Decl>, hash: bv32): (r: Option<nat>)
    ensures r.Some? ==> r.value < |decls| && decls[r.value].hash == hash
    ensures r.Some? ==> forall j :: 0 <= j < r.value ==> decls[j].hash != hash
    ensures r.None? <==> !HasHash(decls, hash)
  {
    if |decls| == 0 then None
    else if decls[0].hash == hash then Some(0)
    else
      match FirstWithHash(decls[1..], hash)
      case None => None
      case Some(i) => Some(i + 1)
  }

  /** Appending a class with a fresh fingerprint makes it the first (and only) one with that fingerprint. */
  lemma FirstWithHashAppend(decls: seq<Decl>, d: Decl)
    requires !HasHash(decls, d.hash)
    ensures FirstWithHash(decls + [d], d.hash) == Some(|decls|)
  {
    var all := decls + [d];
    assert all[|decls|].hash == d.hash;
  }

  /** Appending a class whose name and fingerprint are both new keeps the list valid. */
  lemma AppendKeepsValid(number: NumberType, decls: seq<Decl>, d: Decl)
    requires !HasHash(decls, d.hash) && d.name !in Names(decls)
    requires number == DefineNumber ==> d.name != NumberTypeName
    ensures Valid(number, decls) ==> Valid(number, decls + [d])
  {
    var all := decls + [d];
    assert forall i :: 0 <= i < |decls| ==> all[i] == decls[i] && decls[i].name == Names(decls)[i];
  }

  /*
   * Root naming: `JsonRootElement`, or the first `JsonRootElement<k>`,
   * k >= 2, that does not occur in the raw JSON text.
   */

  lemma RootCandidateBound(raw: string, k: nat)
    requires k >= 1 && Contains(raw, Candidate(RootNameBase, k))
    ensures k < Pow10(|raw|)
  {
    ContainsLength(raw, Candidate(RootNameBase, k));
    if k >= 2 {
      CandidateIndexBound(RootNameBase, k, |raw|);
    } else {
      assert |raw| >= 1;
    }
  }

  function RootIndexFrom(raw: string, k: nat): (r: nat)
    requires k >= 1
    ensures r >= k
    ensures !Contains(raw, Candidate(RootNameBase, r))
    ensures forall j :: k <= j < r ==> Contains(raw, Candidate(RootNameBase, j))
    decreases Pow10(|raw|) - k
  {
    if !Contains(raw, Candidate(RootNameBase, k)) then k
    else
      RootCandidateBound(raw, k);
      RootIndexFrom(raw, k + 1)
  }

  /**
   * The index of the root name: the smallest k >= 1 whose candidate does not
   * occur in the raw text (the search always ends, since long enough
   * candidates cannot occur in it).
   */
  function RootIndex(raw: string): (k: nat)
    ensures k >= 1
    ensures !Contains(raw, Candidate(RootNameBase, k))
    ensures forall j :: 1 <= j < k ==> Contains(raw, Candidate(RootNameBase, j))
  {
    RootIndexFrom(raw, 1)
  }

  function RootName(raw: string): string
  {
    Candidate(RootNameBase, RootIndex(raw))
  }

  /*
   * Class naming: the PascalCased base, or the first `<base><k>`, k >= 2,
   * that is neither an existing class name nor, in `DefineNumber` mode, the
   * alias name.
   */

  predicate Taken(number: NumberType, decls: seq<Decl>, name: string)
  {
    name in Names(decls) || (number == DefineNumber && name == NumberTypeName)
  }

  lemma ClassCandidateBound(number: NumberType, base: string, decls: seq<Decl>, k: nat)
    requires k >= 1 && Taken(number, decls, Candidate(base, k))
    ensures k < Pow10(TotalLength(Names(decls)) + 1)
  {
    var len := TotalLength(Names(decls));
    var c := Candidate(base, k);
    if k >= 2 {
      CandidateEndsInDigit(base, k);
      assert c != NumberTypeName by {
        assert !IsDigitChar(NumberTypeName[|NumberTypeName| - 1]);
      }
      CandidateIndexBound(base, k, len);
    }
  }

  function ClassIndexFrom(number: NumberType, base: string, decls: seq<Decl>, k: nat): (r: nat)
    requires k >= 1
    ensures r >= k
    ensures !Taken(number, decls, Candidate(base, r))
    ensures forall j :: k <= j < r ==> Taken(number, decls, Candidate(base, j))
    decreases Pow10(TotalLength(Names(decls)) + 1) - k
  {
    if !Taken(number, decls, Candidate(base, k)) then k
    else
      ClassCandidateBound(number, base, decls, k);
      ClassIndexFrom(number, base, decls, k + 1)
  }

  /**
   * The name given to a new class whose PascalCased candidate is `base`: the
   * base itself when it is free, otherwise the base followed by the least
   * decimal suffix k >= 2 that is free.
   */
  function ClassName(number: NumberType, base: string, decls: seq<Decl>): (name: string)
    ensures name !in Names(decls)
    ensures number == DefineNumber ==> name != NumberTypeName
    ensures !Taken(number, decls, base) ==> name == base
    ensures Taken(number, decls, base) ==>
              exists k :: k >= 2 && name == base + NatToString(k)
                          && forall j :: 2 <= j < k ==> Taken(number, decls, base + NatToString(j))
  {
    var k := ClassIndexFrom(number, base, decls, 1);
    assert Taken(number, decls, base) ==> forall j :: 2 <= j < k ==> Taken(number, decls, base + NatToString(j)) by {
      forall j | 2 <= j < k
        ensures Candidate(base, j) == base + NatToString(j)
      {
      }
    }
    Candidate(base, k)
  }

  /*
   * Scalar typing.
   */

  /** The Python type written for a value of kind k. */
  function ScalarTypeName(number: NumberType, k: Kind): string
  {
    match k
    case String => "str"
    case Array => "list"
    case Number =>
      (match number
       case Union => "int | float"
       case Int => "int"
       case Float => "float"
       case DefineNumber => NumberTypeName)
    case True => "bool"
    case False => "bool"
    case _ => "Any"
  }

  /** `ToPythonType`: the scalar type name, raising the flags it calls for. */
  function ToPythonType(number: NumberType, k: Kind, st: State): (r: Named)
    ensures r.st.decls == st.decls
    ensures r.name == "Any" <==> k == Null || k == Object
    ensures r.name == NumberTypeName <==> number == DefineNumber && k == Number
    ensures r.st.useAny == (st.useAny || k == Null || k == Object)
    ensures r.st.defineNumber == (st.defineNumber || (number == DefineNumber && k == Number))
  {
    var name := ScalarTypeName(number, k);
    Named(name, st.(useAny := st.useAny || name == "Any",
                    defineNumber := st.defineNumber || (name == NumberTypeName && number == DefineNumber)))
  }

  /*
   * Which kinds of scalar the walk types, independent of any state: the
   * values of properties and the first item of each non-empty array, inside
   * every object it visits.
   */

  predicate ValueMentions(v: Json, k: Kind)
    decreases Size(v), 1
  {
    match v
    case JObject(props) => PropsMention(props, k)
    case JArray(items) =>
      |items| > 0 &&
      assert ItemsSize(items) == Size(items[0]) + ItemsSize(items[1..]);
      ItemMentions(items[0], k)
    case _ => KindOf(v) == k
  }

  predicate ItemMentions(item: Json, k: Kind)
    decreases Size(item), 0
  {
    match item
    case JObject(props) => PropsMention(props, k)
    case _ => KindOf(item) == k
  }

  predicate PropsMention(props: seq<(string, Json)>, k: Kind)
    decreases PropsSize(props), 2
  {
    if |props| == 0 then false
    else
      assert PropsSize(props) == 1 + Size(props[0].1) + PropsSize(props[1..]);
      ValueMentions(props[0].1, k) || PropsMention(props[1..], k)
  }

  /*
   * The walk: `CreateClassDefinition` and the property switch inside it.
   */

  /** What follows the class name on the class line of each style. */
  function ClassLineEnd(output: PythonDataType): string
  {
    match output
    case TypedDict => "(TypedDict):"
    case DataClass => ":"
    case Pydantic => "(BaseModel):"
  }

  /**
   * The declaration lines of a class, each written with `AppendLine`: the
   * dataclass style alone has a `@dataclass` decorator line in front, then
   * every style has one `class <name>...:` line.
   */
  function DeclarationHeader(output: PythonDataType, name: string, nl: string): (h: string)
    ensures EndsWith(h, nl)
    ensures |h| > 0 && (h[0] == '@' <==> output == DataClass)
  {
    var decorator := if output == DataClass then "@dataclass" + nl else "";
    EndsWithAppend(decorator + "class " + name + ClassLineEnd(output), nl, nl);
    decorator + "class " + name + ClassLineEnd(output) + nl
  }

  /**
   * The header's lines, piece by piece: the decorator line for dataclasses
   * only, then `class ` and the name, then the style's ending and the line
   * separator, and nothing else.
   */
  lemma DeclarationHeaderLines(output: PythonDataType, name: string, nl: string)
    ensures var h := DeclarationHeader(output, name, nl);
      && (output == DataClass ==> "@dataclass" + nl <= h)
      && var start := if output == DataClass then |"@dataclass" + nl| else 0;
      && |h| == start + |"class " + name| + |ClassLineEnd(output)| + |nl|
      && h[start..start + |"class " + name|] == "class " + name
      && EndsWith(h, ClassLineEnd(output) + nl)
  {
    var decorator := if output == DataClass then "@dataclass" + nl else "";
    var line := "class " + name;
    var tail := ClassLineEnd(output) + nl;
    var h := DeclarationHeader(output, name, nl);
    assert h == decorator + (line + tail) by {
      ConcatAssoc(decorator + line, ClassLineEnd(output), nl);
      ConcatAssoc(decorator, line, tail);
    }
    assert h[..|decorator|] == decorator;
    assert h[|decorator|..|decorator| + |line|] == line;
    assert h[|h| - |tail|..] == tail;
  }

  /** One indented `name: type` line of a class body. */
  function MemberLine(name: string, typeName: string, nl: string): string
  {
    Indent + name + ": " + typeName + nl
  }

  /** The type of one property value, with its fingerprint contribution. */
  function PropertyType(cfg: Config, propName: string, v: Json, st: State): (r: Typed)
    ensures r.hash == TypeHash(cfg.hasher, v)
    ensures st.decls <= r.st.decls
    ensures Valid(cfg.number, st.decls) ==> Valid(cfg.number, r.st.decls)
    ensures r.st.useAny == (st.useAny || ValueMentions(v, Null))
    ensures r.st.defineNumber == (st.defineNumber || (cfg.number == DefineNumber && ValueMentions(v, Number)))
    decreases Size(v), 1
  {
    match v
    case JObject(props) => ClassDef(cfg, props, ToPascalCase(propName), st)
    case JArray(items) =>
      if |items| == 0 then Typed("list", KindCode(Array), st)
      else
        assert ItemsSize(items) == Size(items[0]) + ItemsSize(items[1..]);
        var item := items[0];
        if item.JObject? then
          var t := ClassDef(cfg, item.props, ToPascalCase(propName) + "Item", st);
          Typed("list[" + t.name + "]", cfg.hasher.listOf(t.hash), t.st)
        else
          var t := ToPythonType(cfg.number, KindOf(item), st);
          Typed("list[" + t.name + "]", cfg.hasher.listOf(KindCode(KindOf(item))), t.st)
    case _ =>
      var t := ToPythonType(cfg.number, KindOf(v), st);
      Typed(t.name, KindCode(KindOf(v)), t.st)
  }

  /** The loop over an object's properties, in document order. */
  function MembersFrom(cfg: Config, props: seq<(string, Json)>, acc: MemberList): (r: MemberList)
    ensures r.hash == acc.hash ^ ObjectHash(cfg.hasher, props)
    ensures acc.st.decls <= r.st.decls
    ensures Valid(cfg.number, acc.st.decls) ==> Valid(cfg.number, r.st.decls)
    ensures r.st.useAny == (acc.st.useAny || PropsMention(props, Null))
    ensures r.st.defineNumber == (acc.st.defineNumber || (cfg.number == DefineNumber && PropsMention(props, Number)))
    decreases PropsSize(props), 2
  {
    if |props| == 0 then acc
    else
      assert PropsSize(props) == 1 + Size(props[0].1) + PropsSize(props[1..]);
      var (name, value) := props[0];
      var t := PropertyType(cfg, name, value, acc.st);
      var line := MemberLine(name, t.name, cfg.newLine);
      var hash := CombineHashes(acc.hash, cfg.hasher.named(name, t.hash));
      MembersFrom(cfg, props[1..], MemberList(acc.lines + line, hash, t.st))
  }

  /**
   * The not-found branch of `CreateClassDefinition`: a class with a fresh
   * fingerprint gets a name no other class has (nor the alias name, in
   * `DefineNumber` mode) and is appended after everything already listed.
   */
  function NewClass(cfg: Config, elementName: string, m: MemberList): (r: Typed)
    requires !HasHash(m.st.decls, m.hash)
    ensures r.hash == m.hash
    ensures r.name !in Names(m.st.decls)
    ensures cfg.number == DefineNumber ==> r.name != NumberTypeName
    ensures !Taken(cfg.number, m.st.decls, ToPascalCase(elementName)) ==> r.name == ToPascalCase(elementName)
    ensures r.st == m.st.(decls := m.st.decls + [Decl(r.name, DeclarationHeader(cfg.output, r.name, cfg.newLine) + m.lines, m.hash)])
    ensures FirstWithHash(r.st.decls, r.hash) == Some(|m.st.decls|)
    ensures Valid(cfg.number, m.st.decls) ==> Valid(cfg.number, r.st.decls)
  {
    var name := ClassName(cfg.number, ToPascalCase(elementName), m.st.decls);
    var d := Decl(name, DeclarationHeader(cfg.output, name, cfg.newLine) + m.lines, m.hash);
    FirstWithHashAppend(m.st.decls, d);
    AppendKeepsValid(cfg.number, m.st.decls, d);
    Typed(name, m.hash, m.st.(decls := m.st.decls + [d]))
  }

  /**
   * `CreateClassDefinition` for an object with the given properties and
   * candidate name: the class's name and fingerprint, and the state after it.
   */
  function ClassDef(cfg: Config, props: seq<(string, Json)>, elementName: string, st: State): (r: Typed)
    ensures r.hash == ObjectHash(cfg.hasher, props)
    ensures st.decls <= r.st.decls
    ensures FirstWithHash(r.st.decls, r.hash).Some?
    ensures r.st.decls[FirstWithHash(r.st.decls, r.hash).value].name == r.name
    ensures Valid(cfg.number, st.decls) ==> Valid(cfg.number, r.st.decls)
    ensures r.st.useAny == (st.useAny || PropsMention(props, Null))
    ensures r.st.defineNumber == (st.defineNumber || (cfg.number == DefineNumber && PropsMention(props, Number)))
    decreases PropsSize(props), 3
  {
    var m := MembersFrom(cfg, props, MemberList("", 0, st));
    assert m.hash == ObjectHash(cfg.hasher, props);
    match FirstWithHash(m.st.decls, m.hash)
    case Some(i) => Typed(m.st.decls[i].name, m.st.decls[i].hash, m.st)
    case None => NewClass(cfg, elementName, m)
  }

  /*
   * Document assembly.
   */

  /** The names imported from `typing`: `Any` first, when used, then `TypedDict` for that style. */
  function TypingNames(output: PythonDataType, useAny: bool): seq<string>
  {
    (if useAny then ["Any"] else []) + (if output == TypedDict then ["TypedDict"] else [])
  }

  function ImportLines(output: PythonDataType, useAny: bool): seq<string>
  {
    var own :=
      match output
      case DataClass => ["from dataclasses import dataclass"]
      case Pydantic => ["from pydantic import BaseModel"]
      case TypedDict => [];
    var typing := TypingNames(output, useAny);
    own + (if |typing| > 0 then ["from typing import " + Join(", ", typing)] else [])
  }

  /** The import lines of each style, written out. */
  lemma ImportLinesCases(output: PythonDataType, useAny: bool)
    ensures ImportLines(output, useAny) ==
      match output
      case DataClass =>
        ["from dataclasses import dataclass"] + (if useAny then ["from typing import Any"] else [])
      case Pydantic =>
        ["from pydantic import BaseModel"] + (if useAny then ["from typing import Any"] else [])
      case TypedDict =>
        [if useAny then "from typing import Any, TypedDict" else "from typing import TypedDict"]
  {
    var typing := TypingNames(output, useAny);
    if useAny && output == TypedDict {
      assert typing == ["Any", "TypedDict"];
      assert Join(", ", typing) == "Any" + ", " + Join(", ", ["TypedDict"]);
      assert "from typing import " + Join(", ", typing) == "from typing import Any, TypedDict";
    } else if useAny {
      assert typing == ["Any"];
      assert "from typing import " + Join(", ", typing) == "from typing import Any";
    } else if output == TypedDict {
      assert typing == ["TypedDict"];
      assert "from typing import " + Join(", ", typing) == "from typing import TypedDict";
    } else {
      assert typing == [];
    }
  }

  /**
   * The lines in front of the classes: the imports, two empty lines when
   * there is any import, and the `Number` alias with one empty line when the
   * alias was used. Every style imports something, so the two empty lines
   * are always there.
   */
  function Header(output: PythonDataType, useAny: bool, defineNumber: bool): (lines: seq<string>)
    ensures |lines| == (if useAny && output != TypedDict then 4 else 3) + (if defineNumber then 2 else 0)
    ensures output == DataClass ==> lines[0] == "from dataclasses import dataclass"
    ensures output == Pydantic ==> lines[0] == "from pydantic import BaseModel"
    ensures output == TypedDict ==>
      lines[0] == if useAny then "from typing import Any, TypedDict" else "from typing import TypedDict"
    ensures output != TypedDict && useAny ==> lines[1] == "from typing import Any"
    ensures var n := |lines| - (if defineNumber then 2 else 0);
      lines[n - 2] == "" && lines[n - 1] == ""
    ensures defineNumber ==> lines[|lines| - 2] == NumberAlias && lines[|lines| - 1] == ""
    ensures NumberAlias in lines <==> defineNumber
  {
    var imports := ImportLines(output, useAny);
    ImportLinesCases(output, useAny);
    imports + (if |imports| > 0 then ["", ""] else []) + (if defineNumber then [NumberAlias, ""] else [])
  }

  predicate ImportsAny(line: string)
  {
    line == "from typing import Any" || line == "from typing import Any, TypedDict"
  }

  /** `Any` is imported exactly when the walk used it. */
  lemma HeaderImportsAny(output: PythonDataType, useAny: bool, defineNumber: bool)
    ensures useAny <==> exists i :: 0 <= i < |Header(output, useAny, defineNumber)| && ImportsAny(Header(output, useAny, defineNumber)[i])
  {
    var lines := Header(output, useAny, defineNumber);
    ImportLinesCases(output, useAny);
    if useAny {
      var i := if output == TypedDict then 0 else 1;
      assert lines[i] == ImportLines(output, useAny)[i];
      assert ImportsAny(lines[i]);
    } else {
      HeaderWithoutAny(output, defineNumber);
    }
  }

  lemma HeaderWithoutAny(output: PythonDataType, defineNumber: bool)
    ensures forall i :: 0 <= i < |Header(output, false, defineNumber)| ==> !ImportsAny(Header(output, false, defineNumber)[i])
  {
    var lines := Header(output, false, defineNumber);
    forall i | 0 <= i < |lines|
      ensures !ImportsAny(lines[i])
    {
      if i >= 3 {
        assert lines[i] == NumberAlias || lines[i] == "";
      } else if i >= 1 {
        assert lines[i] == "";
      }
    }
  }

  /**
   * The walk from the root: flags cleared, list empty, root named from the
   * raw text.
   */
  function Conversion(cfg: Config, raw: string, props: seq<(string, Json)>): (r: Typed)
    ensures Valid(cfg.number, r.st.decls)
    ensures |r.st.decls| >= 1 && r.name in Names(r.st.decls)
    ensures r.hash == ObjectHash(cfg.hasher, props)
    ensures r.st.useAny == PropsMention(props, Null)
    ensures r.st.defineNumber == (cfg.number == DefineNumber && PropsMention(props, Number))
  {
    ClassDef(cfg, props, RootName(raw), Initial)
  }

  /**
   * `Convert`: the whole document, or `Error` when the text did not parse or
   * its root is not an object. `parsed` is the parser's result for `raw`.
   */
  function Convert(cfg: Config, raw: string, parsed: Option<Json>): (r: Outcome)
    ensures r.Error? <==> parsed.None? || !parsed.value.JObject?
  {
    match parsed
    case None => Error
    case Some(root) =>
      if !root.JObject? then Error
      else
        var c := Conversion(cfg, raw, root.props);
        Document(Join(cfg.newLine, Header(cfg.output, c.st.useAny, c.st.defineNumber) + Codes(c.st.decls)))
  }
}
