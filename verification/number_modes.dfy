/**
 * The numeric mode decides how a JSON number is typed and nothing else that
 * the walk computes: whatever the modes, the walk lists the same
 * fingerprints in the same order and raises `useAny` alike. Modes that treat
 * the name `Number` alike (any two of `Union`, `Int` and `Float`, or two
 * `DefineNumber` configurations) also choose the same class names. Only
 * `DefineNumber` reserves `Number` for its alias, so there a class whose
 * candidate is `Number` is renamed.
 */
module NumberModes {

  import opened Optional
  import opened Text
  import opened Json
  import opened Fingerprint
  import opened CaseConverter
  import opened Converter

  /** The two modes reserve the alias name alike. */
  predicate SameNaming(a: NumberType, b: NumberType)
  {
    (a == DefineNumber) == (b == DefineNumber)
  }

  /** The two lists carry the same fingerprints in the same order. */
  predicate HashesAgree(d1: seq<Decl>, d2: seq<Decl>)
  {
    |d1| == |d2| && forall i :: 0 <= i < |d1| ==> d1[i].hash == d2[i].hash
  }

  /** The two lists carry the same names in the same order. */
  predicate NamesAgree(d1: seq<Decl>, d2: seq<Decl>)
  {
    |d1| == |d2| && forall i :: 0 <= i < |d1| ==> d1[i].name == d2[i].name
  }

  /** The first class with a fingerprint depends only on the fingerprints in the list. */
  lemma FirstWithHashAlike(d1: seq<Decl>, d2: seq<Decl>, hash: bv32)
    requires HashesAgree(d1, d2)
    ensures FirstWithHash(d1, hash) == FirstWithHash(d2, hash)
  {
  }

  /** Lists that agree in names and fingerprints name the first class with a fingerprint alike. */
  lemma ReusedNameAlike(d1: seq<Decl>, d2: seq<Decl>, hash: bv32)
    requires HashesAgree(d1, d2) && NamesAgree(d1, d2) && HasHash(d1, hash)
    ensures HasHash(d2, hash)
    ensures d1[FirstWithHash(d1, hash).value].name == d2[FirstWithHash(d2, hash).value].name
  {
    FirstWithHashAlike(d1, d2, hash);
  }

  /** The name of a new class depends only on the names in the list and on whether `Number` is reserved. */
  lemma ClassNameAlike(n1: NumberType, n2: NumberType, base: string, d1: seq<Decl>, d2: seq<Decl>)
    requires SameNaming(n1, n2) && NamesAgree(d1, d2)
    ensures ClassName(n1, base, d1) == ClassName(n2, base, d2)
  {
    assert Names(d1) == Names(d2);
    var k1 := ClassIndexFrom(n1, base, d1, 1);
    var k2 := ClassIndexFrom(n2, base, d2, 1);
    assert !Taken(n2, d2, Candidate(base, k1));
    assert !Taken(n1, d1, Candidate(base, k2));
  }

  /** Appending classes with equal fingerprints (and names) to lists that agree keeps them agreeing. */
  lemma AppendAlike(d1: seq<Decl>, d2: seq<Decl>, x1: Decl, x2: Decl)
    requires HashesAgree(d1, d2) && x1.hash == x2.hash
    ensures HashesAgree(d1 + [x1], d2 + [x2])
    ensures NamesAgree(d1, d2) && x1.name == x2.name ==> NamesAgree(d1 + [x1], d2 + [x2])
  {
  }

  /** One property's typing, under two modes, from lists that agree. */
  lemma {:induction false} PropertyModes(cfg1: Config, cfg2: Config, propName: string, v: Json, st1: State, st2: State)
    requires cfg1.hasher == cfg2.hasher
    requires HashesAgree(st1.decls, st2.decls)
    ensures var r1, r2 := PropertyType(cfg1, propName, v, st1), PropertyType(cfg2, propName, v, st2);
      && HashesAgree(r1.st.decls, r2.st.decls)
      && (SameNaming(cfg1.number, cfg2.number) && NamesAgree(st1.decls, st2.decls) ==>
            NamesAgree(r1.st.decls, r2.st.decls))
    decreases Size(v), 1
  {
    match v
    case JObject(props) =>
      ClassDefModes(cfg1, cfg2, props, ToPascalCase(propName), st1, st2);
    case JArray(items) =>
      if |items| > 0 {
        assert ItemsSize(items) == Size(items[0]) + ItemsSize(items[1..]);
        if items[0].JObject? {
          ClassDefModes(cfg1, cfg2, items[0].props, ToPascalCase(propName) + "Item", st1, st2);
        }
      }
    case _ =>
  }

  /** The loop over an object's properties, under two modes, from lists that agree. */
  lemma {:induction false} MembersModes(cfg1: Config, cfg2: Config, props: seq<(string, Json)>, acc1: MemberList, acc2: MemberList)
    requires cfg1.hasher == cfg2.hasher
    requires HashesAgree(acc1.st.decls, acc2.st.decls)
    ensures var r1, r2 := MembersFrom(cfg1, props, acc1), MembersFrom(cfg2, props, acc2);
      && HashesAgree(r1.st.decls, r2.st.decls)
      && (SameNaming(cfg1.number, cfg2.number) && NamesAgree(acc1.st.decls, acc2.st.decls) ==>
            NamesAgree(r1.st.decls, r2.st.decls))
    decreases PropsSize(props), 2
  {
    if |props| > 0 {
      assert PropsSize(props) == 1 + Size(props[0].1) + PropsSize(props[1..]);
      var (name, value) := props[0];
      PropertyModes(cfg1, cfg2, name, value, acc1.st, acc2.st);
      var t1 := PropertyType(cfg1, name, value, acc1.st);
      var t2 := PropertyType(cfg2, name, value, acc2.st);
      var next1 := MemberList(acc1.lines + MemberLine(name, t1.name, cfg1.newLine),
                              CombineHashes(acc1.hash, cfg1.hasher.named(name, t1.hash)), t1.st);
      var next2 := MemberList(acc2.lines + MemberLine(name, t2.name, cfg2.newLine),
                              CombineHashes(acc2.hash, cfg2.hasher.named(name, t2.hash)), t2.st);
      MembersModes(cfg1, cfg2, props[1..], next1, next2);
    }
  }

  /**
   * `CreateClassDefinition` under two modes, from lists that agree: the
   * lists after it still agree, and with the same naming rule so does the
   * returned class name.
   */
  lemma {:induction false} ClassDefModes(cfg1: Config, cfg2: Config, props: seq<(string, Json)>, elementName: string, st1: State, st2: State)
    requires cfg1.hasher == cfg2.hasher
    requires HashesAgree(st1.decls, st2.decls)
    ensures var r1, r2 := ClassDef(cfg1, props, elementName, st1), ClassDef(cfg2, props, elementName, st2);
      && HashesAgree(r1.st.decls, r2.st.decls)
      && (SameNaming(cfg1.number, cfg2.number) && NamesAgree(st1.decls, st2.decls) ==>
            NamesAgree(r1.st.decls, r2.st.decls) && r1.name == r2.name)
    decreases PropsSize(props), 3
  {
    MembersModes(cfg1, cfg2, props, MemberList("", 0, st1), MemberList("", 0, st2));
    ClassDefStepHashes(cfg1, cfg2, props, elementName, st1, st2);
    if SameNaming(cfg1.number, cfg2.number) && NamesAgree(st1.decls, st2.decls) {
      ClassDefStepNames(cfg1, cfg2, props, elementName, st1, st2);
    }
  }

  /** The step after the property loop keeps the fingerprints in step. */
  lemma ClassDefStepHashes(cfg1: Config, cfg2: Config, props: seq<(string, Json)>, elementName: string, st1: State, st2: State)
    requires cfg1.hasher == cfg2.hasher
    requires HashesAgree(MembersFrom(cfg1, props, MemberList("", 0, st1)).st.decls,
                         MembersFrom(cfg2, props, MemberList("", 0, st2)).st.decls)
    ensures HashesAgree(ClassDef(cfg1, props, elementName, st1).st.decls, ClassDef(cfg2, props, elementName, st2).st.decls)
  {
    var m1 := MembersFrom(cfg1, props, MemberList("", 0, st1));
    var m2 := MembersFrom(cfg2, props, MemberList("", 0, st2));
    ClassDefBranches(cfg1, props, elementName, st1);
    ClassDefBranches(cfg2, props, elementName, st2);
    if !HasHash(m1.st.decls, m1.hash) {
      NewStepHashes(cfg1, cfg2, props, elementName, st1, st2);
    }
  }

  /** The append branch of `ClassDefStepHashes`. */
  lemma NewStepHashes(cfg1: Config, cfg2: Config, props: seq<(string, Json)>, elementName: string, st1: State, st2: State)
    requires cfg1.hasher == cfg2.hasher
    requires var m1, m2 := MembersFrom(cfg1, props, MemberList("", 0, st1)), MembersFrom(cfg2, props, MemberList("", 0, st2));
      HashesAgree(m1.st.decls, m2.st.decls) && !HasHash(m1.st.decls, m1.hash)
    ensures HashesAgree(ClassDef(cfg1, props, elementName, st1).st.decls, ClassDef(cfg2, props, elementName, st2).st.decls)
  {
    var m1 := MembersFrom(cfg1, props, MemberList("", 0, st1));
    var m2 := MembersFrom(cfg2, props, MemberList("", 0, st2));
    ClassDefBranches(cfg1, props, elementName, st1);
    ClassDefBranches(cfg2, props, elementName, st2);
    NewClassModes(cfg1, cfg2, elementName, m1, m2);
  }

  /** With the same naming rule, the step after the property loop keeps the names in step too. */
  lemma ClassDefStepNames(cfg1: Config, cfg2: Config, props: seq<(string, Json)>, elementName: string, st1: State, st2: State)
    requires cfg1.hasher == cfg2.hasher && SameNaming(cfg1.number, cfg2.number)
    requires var m1, m2 := MembersFrom(cfg1, props, MemberList("", 0, st1)), MembersFrom(cfg2, props, MemberList("", 0, st2));
      HashesAgree(m1.st.decls, m2.st.decls) && NamesAgree(m1.st.decls, m2.st.decls)
    ensures var r1, r2 := ClassDef(cfg1, props, elementName, st1), ClassDef(cfg2, props, elementName, st2);
      NamesAgree(r1.st.decls, r2.st.decls) && r1.name == r2.name
  {
    var m1 := MembersFrom(cfg1, props, MemberList("", 0, st1));
    if HasHash(m1.st.decls, m1.hash) {
      ReusedStepNames(cfg1, cfg2, props, elementName, st1, st2);
    } else {
      NewStepNames(cfg1, cfg2, props, elementName, st1, st2);
    }
  }

  /** The reuse branch of `ClassDefStepNames`. */
  lemma ReusedStepNames(cfg1: Config, cfg2: Config, props: seq<(string, Json)>, elementName: string, st1: State, st2: State)
    requires cfg1.hasher == cfg2.hasher
    requires var m1, m2 := MembersFrom(cfg1, props, MemberList("", 0, st1)), MembersFrom(cfg2, props, MemberList("", 0, st2));
      HashesAgree(m1.st.decls, m2.st.decls) && NamesAgree(m1.st.decls, m2.st.decls) && HasHash(m1.st.decls, m1.hash)
    ensures var r1, r2 := ClassDef(cfg1, props, elementName, st1), ClassDef(cfg2, props, elementName, st2);
      NamesAgree(r1.st.decls, r2.st.decls) && r1.name == r2.name
  {
    var m1 := MembersFrom(cfg1, props, MemberList("", 0, st1));
    var m2 := MembersFrom(cfg2, props, MemberList("", 0, st2));
    ClassDefBranches(cfg1, props, elementName, st1);
    ClassDefBranches(cfg2, props, elementName, st2);
    ReusedNameAlike(m1.st.decls, m2.st.decls, m1.hash);
  }

  /** The append branch of `ClassDefStepNames`. */
  lemma NewStepNames(cfg1: Config, cfg2: Config, props: seq<(string, Json)>, elementName: string, st1: State, st2: State)
    requires cfg1.hasher == cfg2.hasher && SameNaming(cfg1.number, cfg2.number)
    requires var m1, m2 := MembersFrom(cfg1, props, MemberList("", 0, st1)), MembersFrom(cfg2, props, MemberList("", 0, st2));
      HashesAgree(m1.st.decls, m2.st.decls) && NamesAgree(m1.st.decls, m2.st.decls) && !HasHash(m1.st.decls, m1.hash)
    ensures var r1, r2 := ClassDef(cfg1, props, elementName, st1), ClassDef(cfg2, props, elementName, st2);
      NamesAgree(r1.st.decls, r2.st.decls) && r1.name == r2.name
  {
    var m1 := MembersFrom(cfg1, props, MemberList("", 0, st1));
    var m2 := MembersFrom(cfg2, props, MemberList("", 0, st2));
    ClassDefBranches(cfg1, props, elementName, st1);
    ClassDefBranches(cfg2, props, elementName, st2);
    NewClassModes(cfg1, cfg2, elementName, m1, m2);
  }

  /** The two branches of `CreateClassDefinition`, as values. */
  lemma ClassDefBranches(cfg: Config, props: seq<(string, Json)>, elementName: string, st: State)
    ensures var m := MembersFrom(cfg, props, MemberList("", 0, st));
            var r := ClassDef(cfg, props, elementName, st);
            && (HasHash(m.st.decls, m.hash) ==>
                  var i := FirstWithHash(m.st.decls, m.hash).value;
                  r.st == m.st && r.name == m.st.decls[i].name)
            && (!HasHash(m.st.decls, m.hash) ==> r == NewClass(cfg, elementName, m))
  {
  }

  /** The not-found branch under two modes, from lists that agree. */
  lemma NewClassModes(cfg1: Config, cfg2: Config, elementName: string, m1: MemberList, m2: MemberList)
    requires m1.hash == m2.hash && HashesAgree(m1.st.decls, m2.st.decls)
    requires !HasHash(m1.st.decls, m1.hash) && !HasHash(m2.st.decls, m2.hash)
    ensures var r1, r2 := NewClass(cfg1, elementName, m1), NewClass(cfg2, elementName, m2);
      && HashesAgree(r1.st.decls, r2.st.decls)
      && (SameNaming(cfg1.number, cfg2.number) && NamesAgree(m1.st.decls, m2.st.decls) ==>
            NamesAgree(r1.st.decls, r2.st.decls) && r1.name == r2.name)
  {
    var r1 := NewClass(cfg1, elementName, m1);
    var r2 := NewClass(cfg2, elementName, m2);
    if SameNaming(cfg1.number, cfg2.number) && NamesAgree(m1.st.decls, m2.st.decls) {
      ClassNameAlike(cfg1.number, cfg2.number, ToPascalCase(elementName), m1.st.decls, m2.st.decls);
    }
    AppendAlike(m1.st.decls, m2.st.decls, r1.st.decls[|m1.st.decls|], r2.st.decls[|m2.st.decls|]);
  }

  /**
   * Two conversions of the same document that differ in their options but
   * share the hash mixer list the same fingerprints in the same order, give
   * the root the same fingerprint, and agree on `useAny`. When the modes
   * treat `Number` alike they also give every class, the root's included,
   * the same name; when neither mode is `DefineNumber` and the style is the
   * same, the header lines are identical too.
   */
  lemma ConversionModes(cfg1: Config, cfg2: Config, raw: string, props: seq<(string, Json)>)
    requires cfg1.hasher == cfg2.hasher
    ensures var c1, c2 := Conversion(cfg1, raw, props), Conversion(cfg2, raw, props);
      && HashesAgree(c1.st.decls, c2.st.decls)
      && c1.hash == c2.hash
      && c1.st.useAny == c2.st.useAny
      && (SameNaming(cfg1.number, cfg2.number) ==> NamesAgree(c1.st.decls, c2.st.decls) && c1.name == c2.name)
      && (cfg1.output == cfg2.output && cfg1.number != DefineNumber && cfg2.number != DefineNumber ==>
            Header(cfg1.output, c1.st.useAny, c1.st.defineNumber) == Header(cfg2.output, c2.st.useAny, c2.st.defineNumber))
  {
    ClassDefModes(cfg1, cfg2, props, RootName(raw), Initial, Initial);
  }

  lemma NumberNormalised()
    ensures ToPascalCase("number") == NumberTypeName
    ensures ToPascalCase(NumberTypeName) == NumberTypeName
  {
  }

  /** The name a new class with candidate `Number` gets in an empty list. */
  lemma NumberClassName(number: NumberType)
    ensures ClassName(number, NumberTypeName, []) == if number == DefineNumber then "Number2" else "Number"
  {
    if number == DefineNumber {
      assert Taken(number, [], NumberTypeName);
      assert !Taken(number, [], Candidate(NumberTypeName, 2));
      assert ClassIndexFrom(number, NumberTypeName, [], 1) == 2;
      assert NatToString(2) == "2";
    } else {
      assert !Taken(number, [], NumberTypeName);
    }
  }

  /**
   * The exception to equal names: a property `number` holding an object is
   * classed `Number` in every mode but `DefineNumber`, where the alias owns
   * that name and the class becomes `Number2`.
   */
  lemma NumberClassRenamedUnderAlias(cfg: Config, st: State)
    requires st.decls == []
    ensures PropertyType(cfg, "number", JObject([]), st).name ==
              if cfg.number == DefineNumber then "Number2" else "Number"
  {
    NumberNormalised();
    NumberClassName(cfg.number);
    var m := MembersFrom(cfg, [], MemberList("", 0, st));
    assert m.st.decls == [];
    assert !HasHash(m.st.decls, m.hash);
    var c := ClassDef(cfg, [], NumberTypeName, st);
    assert c == NewClass(cfg, NumberTypeName, m);
    assert c.name == ClassName(cfg.number, NumberTypeName, []);
    assert PropertyType(cfg, "number", JObject([]), st) == c;
  }
}
