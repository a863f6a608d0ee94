/**
 * Properties of the walk that relate several calls: every object shape the
 * walk meets ends up in the output list, and an object all of whose shapes
 * are already listed adds nothing and reuses the listed class. Objects whose
 * properties are a reordering of an earlier object's are merged with it.
 */
module ConverterProperties {

  import opened Optional
  import opened Text
  import opened Json
  import opened Multisets
  import opened Fingerprint
  import opened CaseConverter
  import opened Converter

  /** The fingerprints of every object the walk visits inside v (v itself included). */
  function VisitedHashes(h: Hasher, v: Json): set<bv32>
    decreases Size(v), 1
  {
    match v
    case JObject(props) => {ObjectHash(h, props)} + PropsVisited(h, props)
    case JArray(items) =>
      if |items| > 0 && items[0].JObject? then
        assert ItemsSize(items) == Size(items[0]) + ItemsSize(items[1..]);
        VisitedHashes(h, items[0])
      else {}
    case _ => {}
  }

  /** The fingerprints of every object the walk visits inside the property values. */
  function PropsVisited(h: Hasher, props: seq<(string, Json)>): set<bv32>
    decreases PropsSize(props), 2
  {
    if |props| == 0 then {}
    else
      assert PropsSize(props) == 1 + Size(props[0].1) + PropsSize(props[1..]);
      VisitedHashes(h, props[0].1) + PropsVisited(h, props[1..])
  }

  /** Every fingerprint in the set belongs to some class of the list. */
  predicate Listed(hashes: set<bv32>, decls: seq<Decl>)
  {
    forall x :: x in hashes ==> HasHash(decls, x)
  }

  lemma ListedGrows(hashes: set<bv32>, decls: seq<Decl>, more: seq<Decl>)
    requires decls <= more && Listed(hashes, decls)
    ensures Listed(hashes, more)
  {
    forall x | x in hashes
      ensures HasHash(more, x)
    {
      var i :| 0 <= i < |decls| && decls[i].hash == x;
      assert more[i] == decls[i];
    }
  }

  /** The class list after an object extends the list after its members. */
  lemma ClassDefExtendsMembers(cfg: Config, props: seq<(string, Json)>, elementName: string, st: State)
    ensures MembersFrom(cfg, props, MemberList("", 0, st)).st.decls <= ClassDef(cfg, props, elementName, st).st.decls
  {
    var m := MembersFrom(cfg, props, MemberList("", 0, st));
    match FirstWithHash(m.st.decls, m.hash)
    case Some(_) =>
    case None =>
      assert m.st.decls <= NewClass(cfg, elementName, m).st.decls;
  }

  lemma ListedObject(h: Hasher, props: seq<(string, Json)>, decls: seq<Decl>)
    requires HasHash(decls, ObjectHash(h, props)) && Listed(PropsVisited(h, props), decls)
    ensures Listed(VisitedHashes(h, JObject(props)), decls)
  {
  }

  /*
   * After a call, every shape it visited is listed.
   */

  lemma {:induction false} ClassDefListsShapes(cfg: Config, props: seq<(string, Json)>, elementName: string, st: State)
    ensures Listed(VisitedHashes(cfg.hasher, JObject(props)), ClassDef(cfg, props, elementName, st).st.decls)
    decreases PropsSize(props), 3
  {
    var m := MembersFrom(cfg, props, MemberList("", 0, st));
    MembersListShapes(cfg, props, MemberList("", 0, st));
    var r := ClassDef(cfg, props, elementName, st);
    ClassDefExtendsMembers(cfg, props, elementName, st);
    ListedGrows(PropsVisited(cfg.hasher, props), m.st.decls, r.st.decls);
    var i := FirstWithHash(r.st.decls, r.hash).value;
    assert r.st.decls[i].hash == ObjectHash(cfg.hasher, props);
    ListedObject(cfg.hasher, props, r.st.decls);
  }

  lemma {:induction false} MembersListShapes(cfg: Config, props: seq<(string, Json)>, acc: MemberList)
    ensures Listed(PropsVisited(cfg.hasher, props), MembersFrom(cfg, props, acc).st.decls)
    decreases PropsSize(props), 2
  {
    if |props| > 0 {
      assert PropsSize(props) == 1 + Size(props[0].1) + PropsSize(props[1..]);
      var (name, value) := props[0];
      var t := PropertyType(cfg, name, value, acc.st);
      PropertyListsShapes(cfg, name, value, acc.st);
      var line := MemberLine(name, t.name, cfg.newLine);
      var next := MemberList(acc.lines + line, CombineHashes(acc.hash, cfg.hasher.named(name, t.hash)), t.st);
      MembersListShapes(cfg, props[1..], next);
      var r := MembersFrom(cfg, props[1..], next);
      assert MembersFrom(cfg, props, acc) == r;
      ListedGrows(VisitedHashes(cfg.hasher, value), t.st.decls, r.st.decls);
    }
  }

  lemma {:induction false} PropertyListsShapes(cfg: Config, propName: string, v: Json, st: State)
    ensures Listed(VisitedHashes(cfg.hasher, v), PropertyType(cfg, propName, v, st).st.decls)
    decreases Size(v), 1
  {
    match v
    case JObject(props) =>
      ClassDefListsShapes(cfg, props, ToPascalCase(propName), st);
    case JArray(items) =>
      if |items| > 0 && items[0].JObject? {
        assert ItemsSize(items) == Size(items[0]) + ItemsSize(items[1..]);
        ClassDefListsShapes(cfg, items[0].props, ToPascalCase(propName) + "Item", st);
      }
    case _ =>
  }

  /*
   * A call whose shapes are all listed already changes nothing in the list.
   */

  lemma {:induction false} ClassDefReusesListed(cfg: Config, props: seq<(string, Json)>, elementName: string, st: State)
    requires Listed(VisitedHashes(cfg.hasher, JObject(props)), st.decls)
    ensures FirstWithHash(st.decls, ObjectHash(cfg.hasher, props)).Some?
    ensures ClassDef(cfg, props, elementName, st).st.decls == st.decls
    ensures ClassDef(cfg, props, elementName, st).name == st.decls[FirstWithHash(st.decls, ObjectHash(cfg.hasher, props)).value].name
    decreases PropsSize(props), 3
  {
    MembersReuseListed(cfg, props, MemberList("", 0, st));
    assert HasHash(st.decls, ObjectHash(cfg.hasher, props));
  }

  lemma {:induction false} MembersReuseListed(cfg: Config, props: seq<(string, Json)>, acc: MemberList)
    requires Listed(PropsVisited(cfg.hasher, props), acc.st.decls)
    ensures MembersFrom(cfg, props, acc).st.decls == acc.st.decls
    decreases PropsSize(props), 2
  {
    if |props| > 0 {
      assert PropsSize(props) == 1 + Size(props[0].1) + PropsSize(props[1..]);
      var (name, value) := props[0];
      PropertyReusesListed(cfg, name, value, acc.st);
      var t := PropertyType(cfg, name, value, acc.st);
      var line := MemberLine(name, t.name, cfg.newLine);
      var next := MemberList(acc.lines + line, CombineHashes(acc.hash, cfg.hasher.named(name, t.hash)), t.st);
      MembersReuseListed(cfg, props[1..], next);
    }
  }

  lemma {:induction false} PropertyReusesListed(cfg: Config, propName: string, v: Json, st: State)
    requires Listed(VisitedHashes(cfg.hasher, v), st.decls)
    ensures PropertyType(cfg, propName, v, st).st.decls == st.decls
    decreases Size(v), 1
  {
    match v
    case JObject(props) =>
      ClassDefReusesListed(cfg, props, ToPascalCase(propName), st);
    case JArray(items) =>
      if |items| > 0 && items[0].JObject? {
        assert ItemsSize(items) == Size(items[0]) + ItemsSize(items[1..]);
        ClassDefReusesListed(cfg, items[0].props, ToPascalCase(propName) + "Item", st);
      }
    case _ =>
  }

  /*
   * Merging of shapes met before.
   */

  /** Entries appended after the first class with a fingerprint do not change which class that is. */
  lemma FirstWithHashPrefix(decls: seq<Decl>, more: seq<Decl>, hash: bv32)
    requires decls <= more && FirstWithHash(decls, hash).Some?
    ensures FirstWithHash(more, hash) == FirstWithHash(decls, hash)
  {
    var i := FirstWithHash(decls, hash).value;
    assert more[i] == decls[i];
    var k := FirstWithHash(more, hash).value;
    assert k <= i;
    assert more[k] == decls[k];
  }

  /**
   * An object all of whose shapes already occurred in an earlier object adds
   * nothing to the list, however many other calls ran in between; when the
   * two have the same fingerprint, the later one is given the earlier one's
   * class.
   */
  lemma ShapesSeenBeforeAreReused(cfg: Config, first: seq<(string, Json)>, firstName: string, st: State,
                                  later: seq<(string, Json)>, laterName: string, st2: State)
    requires VisitedHashes(cfg.hasher, JObject(later)) <= VisitedHashes(cfg.hasher, JObject(first))
    requires ClassDef(cfg, first, firstName, st).st.decls <= st2.decls
    ensures var a := ClassDef(cfg, first, firstName, st);
            var b := ClassDef(cfg, later, laterName, st2);
            && b.st.decls == st2.decls
            && (ObjectHash(cfg.hasher, later) == ObjectHash(cfg.hasher, first) ==> b.name == a.name && b.hash == a.hash)
  {
    var a := ClassDef(cfg, first, firstName, st);
    ClassDefListsShapes(cfg, first, firstName, st);
    ListedGrows(VisitedHashes(cfg.hasher, JObject(later)), a.st.decls, st2.decls);
    ClassDefReusesListed(cfg, later, laterName, st2);
    if ObjectHash(cfg.hasher, later) == ObjectHash(cfg.hasher, first) {
      FirstWithHashPrefix(a.st.decls, st2.decls, a.hash);
      assert st2.decls[FirstWithHash(a.st.decls, a.hash).value] == a.st.decls[FirstWithHash(a.st.decls, a.hash).value];
    }
  }

  lemma {:induction false} PropsVisitedRemove(h: Hasher, props: seq<(string, Json)>, k: nat)
    requires k < |props|
    ensures PropsVisited(h, props) == VisitedHashes(h, props[k].1) + PropsVisited(h, props[..k] + props[k + 1..])
  {
    if k > 0 {
      var rest := props[1..];
      PropsVisitedRemove(h, rest, k - 1);
      assert rest[..k - 1] + rest[k..] == (props[..k] + props[k + 1..])[1..];
    } else {
      assert props[..k] + props[k + 1..] == props[1..];
    }
  }

  /** The shapes visited inside an object do not depend on the order of its properties. */
  lemma {:induction false} PropsVisitedPermutation(h: Hasher, a: seq<(string, Json)>, b: seq<(string, Json)>)
    requires multiset(a) == multiset(b)
    ensures PropsVisited(h, a) == PropsVisited(h, b)
    decreases |a|
  {
    if |a| > 0 {
      var k := MatchFirst(a, b);
      PropsVisitedPermutation(h, a[1..], b[..k] + b[k + 1..]);
      PropsVisitedRemove(h, b, k);
    } else {
      assert |b| == |multiset(b)| == 0;
    }
  }

  /**
   * Order independence of merging: an object whose properties are a
   * reordering of an earlier object's gets the earlier object's class and
   * adds nothing to the list, whatever was listed in between.
   */
  lemma ReorderedObjectIsMerged(cfg: Config, first: seq<(string, Json)>, firstName: string, st: State,
                                later: seq<(string, Json)>, laterName: string, st2: State)
    requires multiset(later) == multiset(first)
    requires ClassDef(cfg, first, firstName, st).st.decls <= st2.decls
    ensures var a := ClassDef(cfg, first, firstName, st);
            var b := ClassDef(cfg, later, laterName, st2);
            b.name == a.name && b.hash == a.hash && b.st.decls == st2.decls
  {
    ObjectHashPermutation(cfg.hasher, later, first);
    PropsVisitedPermutation(cfg.hasher, later, first);
    ShapesSeenBeforeAreReused(cfg, first, firstName, st, later, laterName, st2);
  }

  /**
   * A non-empty array whose first item is a reordering of an earlier object
   * is typed as a list of that object's class, adding nothing to the list.
   */
  lemma ReorderedArrayItemIsMerged(cfg: Config, first: seq<(string, Json)>, firstName: string, st: State,
                                   propName: string, items: seq<Json>, st2: State)
    requires |items| > 0 && items[0].JObject? && multiset(items[0].props) == multiset(first)
    requires ClassDef(cfg, first, firstName, st).st.decls <= st2.decls
    ensures var a := ClassDef(cfg, first, firstName, st);
            var t := PropertyType(cfg, propName, JArray(items), st2);
            t.name == "list[" + a.name + "]" && t.st.decls == st2.decls
  {
    ReorderedObjectIsMerged(cfg, first, firstName, st, items[0].props, ToPascalCase(propName) + "Item", st2);
  }

  /*
   * Growth: children first, then at most the object itself.
   */

  /** The two branches of an object's call: reuse the listed class, or append a new one. */
  lemma ClassDefSplit(cfg: Config, props: seq<(string, Json)>, elementName: string, st: State)
    ensures var m := MembersFrom(cfg, props, MemberList("", 0, st));
            var r := ClassDef(cfg, props, elementName, st);
            && (HasHash(m.st.decls, r.hash) ==> r.st.decls == m.st.decls)
            && (!HasHash(m.st.decls, r.hash) ==>
                  r.st.decls == m.st.decls + [Decl(r.name, DeclarationHeader(cfg.output, r.name, cfg.newLine) + m.lines, r.hash)])
  {
    var m := MembersFrom(cfg, props, MemberList("", 0, st));
    assert m.hash == ObjectHash(cfg.hasher, props);
    match FirstWithHash(m.st.decls, m.hash)
    case Some(_) =>
    case None =>
  }

  /** Every class added between `decls` and `more` has one of the fingerprints. */
  predicate AddedFrom(decls: seq<Decl>, more: seq<Decl>, hashes: set<bv32>)
  {
    forall i :: |decls| <= i < |more| ==> more[i].hash in hashes
  }

  lemma AddedFromChain(a: seq<Decl>, b: seq<Decl>, c: seq<Decl>, h1: set<bv32>, h2: set<bv32>, hs: set<bv32>)
    requires a <= b <= c && AddedFrom(a, b, h1) && AddedFrom(b, c, h2) && h1 + h2 <= hs
    ensures AddedFrom(a, c, hs)
  {
    forall i | |a| <= i < |c|
      ensures c[i].hash in hs
    {
      if i < |b| {
        assert c[i] == b[i];
      }
    }
  }

  /*
   * Every class a call adds has the fingerprint of an object it visited.
   */

  lemma {:induction false} ClassDefAddsOnlyVisited(cfg: Config, props: seq<(string, Json)>, elementName: string, st: State)
    ensures AddedFrom(st.decls, ClassDef(cfg, props, elementName, st).st.decls, VisitedHashes(cfg.hasher, JObject(props)))
    decreases PropsSize(props), 3
  {
    var m := MembersFrom(cfg, props, MemberList("", 0, st));
    MembersAddOnlyVisited(cfg, props, MemberList("", 0, st));
    var r := ClassDef(cfg, props, elementName, st);
    ClassDefSplit(cfg, props, elementName, st);
    AddedFromChain(st.decls, m.st.decls, r.st.decls, PropsVisited(cfg.hasher, props), {r.hash},
                   VisitedHashes(cfg.hasher, JObject(props)));
  }

  lemma {:induction false} MembersAddOnlyVisited(cfg: Config, props: seq<(string, Json)>, acc: MemberList)
    ensures AddedFrom(acc.st.decls, MembersFrom(cfg, props, acc).st.decls, PropsVisited(cfg.hasher, props))
    decreases PropsSize(props), 2
  {
    if |props| > 0 {
      assert PropsSize(props) == 1 + Size(props[0].1) + PropsSize(props[1..]);
      var (name, value) := props[0];
      var t := PropertyType(cfg, name, value, acc.st);
      PropertyAddsOnlyVisited(cfg, name, value, acc.st);
      var line := MemberLine(name, t.name, cfg.newLine);
      var next := MemberList(acc.lines + line, CombineHashes(acc.hash, cfg.hasher.named(name, t.hash)), t.st);
      MembersAddOnlyVisited(cfg, props[1..], next);
      var r := MembersFrom(cfg, props[1..], next);
      assert MembersFrom(cfg, props, acc) == r;
      AddedFromChain(acc.st.decls, t.st.decls, r.st.decls, VisitedHashes(cfg.hasher, value),
                     PropsVisited(cfg.hasher, props[1..]), PropsVisited(cfg.hasher, props));
    }
  }

  lemma {:induction false} PropertyAddsOnlyVisited(cfg: Config, propName: string, v: Json, st: State)
    ensures AddedFrom(st.decls, PropertyType(cfg, propName, v, st).st.decls, VisitedHashes(cfg.hasher, v))
    decreases Size(v), 1
  {
    match v
    case JObject(props) =>
      ClassDefAddsOnlyVisited(cfg, props, ToPascalCase(propName), st);
    case JArray(items) =>
      if |items| > 0 && items[0].JObject? {
        assert ItemsSize(items) == Size(items[0]) + ItemsSize(items[1..]);
        ClassDefAddsOnlyVisited(cfg, items[0].props, ToPascalCase(propName) + "Item", st);
      }
    case _ =>
  }

  /** The fingerprints of the classes in a list. */
  function Hashes(decls: seq<Decl>): (hs: set<bv32>)
    ensures forall x :: x in hs <==> HasHash(decls, x)
  {
    set i | 0 <= i < |decls| :: decls[i].hash
  }

  /**
   * The document's classes are exactly one per distinct fingerprint of the
   * objects in the tree: every object has a class with its fingerprint, no
   * class lacks an object, and no two classes share a fingerprint.
   */
  lemma ConversionHasOneClassPerShape(cfg: Config, raw: string, props: seq<(string, Json)>)
    ensures var c := Conversion(cfg, raw, props);
            && Hashes(c.st.decls) == VisitedHashes(cfg.hasher, JObject(props))
            && (forall i, j :: 0 <= i < j < |c.st.decls| ==> c.st.decls[i].hash != c.st.decls[j].hash)
  {
    var c := Conversion(cfg, raw, props);
    ClassDefListsShapes(cfg, props, RootName(raw), Initial);
    ClassDefAddsOnlyVisited(cfg, props, RootName(raw), Initial);
    var visited := VisitedHashes(cfg.hasher, JObject(props));
    forall x | x in Hashes(c.st.decls)
      ensures x in visited
    {
      var i :| 0 <= i < |c.st.decls| && c.st.decls[i].hash == x;
    }
    assert c == ClassDef(cfg, props, RootName(raw), Initial);
    forall x | x in visited
      ensures x in Hashes(c.st.decls)
    {
      assert HasHash(c.st.decls, x);
    }
    assert Hashes(c.st.decls) == visited;
    assert Valid(cfg.number, c.st.decls);
  }

  /*
   * How one property value is typed.
   */

  /** Scalars: `str`, `bool`, the number type of the mode, or `Any` for null; no class is added. */
  lemma ScalarPropertyType(cfg: Config, propName: string, v: Json, st: State)
    requires !v.JObject? && !v.JArray?
    ensures var r := PropertyType(cfg, propName, v, st);
            && r.st.decls == st.decls
            && r.hash == KindCode(KindOf(v))
            && (v.JString? ==> r.name == "str")
            && (v.JBool? ==> r.name == "bool")
            && (v.JNull? ==> r.name == "Any" && r.st.useAny)
            && (v.JNumber? ==> r.name == (match cfg.number
                                          case Union => "int | float"
                                          case Int => "int"
                                          case Float => "float"
                                          case DefineNumber => "Number"))
            && (v.JNumber? ==> (r.st.defineNumber <==> st.defineNumber || cfg.number == DefineNumber))
  {
  }

  /**
   * Arrays: an empty one is `list` with the fixed Array fingerprint and no
   * change to the state; otherwise `list[...]` of the first item's type, an
   * object item being classed under `<PascalCase(prop)>Item`, an array item
   * being plain `list`. This is the array rule written out case by case, as
   * a table to read the model against.
   */
  lemma ArrayPropertyType(cfg: Config, propName: string, items: seq<Json>, st: State)
    ensures var r := PropertyType(cfg, propName, JArray(items), st);
            && (|items| == 0 ==> r == Typed("list", KindCode(Array), st))
            && (|items| > 0 && items[0].JObject? ==>
                  var c := ClassDef(cfg, items[0].props, ToPascalCase(propName) + "Item", st);
                  r.name == "list[" + c.name + "]" && r.st == c.st)
            && (|items| > 0 && items[0].JArray? ==> r.name == "list[list]" && r.st == st)
            && (|items| > 0 && !items[0].JObject? && !items[0].JArray? ==>
                  var t := PropertyType(cfg, propName, items[0], st);
                  r.name == "list[" + t.name + "]" && r.st == t.st)
  {
  }

  /** Only the first item of a non-empty array is looked at. */
  lemma ArrayTypeUsesFirstItemOnly(cfg: Config, propName: string, items: seq<Json>, others: seq<Json>, st: State)
    requires |items| > 0 && |others| > 0 && items[0] == others[0]
    ensures PropertyType(cfg, propName, JArray(items), st) == PropertyType(cfg, propName, JArray(others), st)
  {
  }

  /**
   * `true` and `false` are both typed `bool` but, being different value
   * kinds, contribute different fingerprints.
   */
  lemma BooleansTypedAlikeFingerprintedApart(cfg: Config, propName: string, st: State)
    ensures PropertyType(cfg, propName, JBool(true), st).name == "bool"
    ensures PropertyType(cfg, propName, JBool(false), st).name == "bool"
    ensures PropertyType(cfg, propName, JBool(true), st).hash != PropertyType(cfg, propName, JBool(false), st).hash
  {
  }

  /**
   * A child object's class name is the property name PascalCased twice:
   * property `a_b` gives candidate `AB`, which is normalised again to `Ab`.
   */
  lemma ChildClassNameNormalisedTwice(cfg: Config, st: State)
    requires st.decls == []
    ensures PropertyType(cfg, "a_b", JObject([]), st).name == "Ab"
  {
    NotIdempotent();
    var m := MembersFrom(cfg, [], MemberList("", 0, st));
    assert !HasHash(m.st.decls, m.hash);
    assert !Taken(cfg.number, [], "Ab");
  }

  /*
   * Root naming.
   */

  /**
   * The root candidate name is `JsonRootElement` exactly when the raw text
   * does not contain that string; otherwise it is `JsonRootElement<k>` for
   * the smallest k >= 2 whose name the text does not contain. (The class the
   * root finally gets can differ: a nested class may take the name first.)
   */
  lemma RootNameChoice(raw: string)
    ensures !Contains(raw, RootName(raw))
    ensures !Contains(raw, RootNameBase) <==> RootName(raw) == RootNameBase
    ensures Contains(raw, RootNameBase) ==>
              && RootIndex(raw) >= 2
              && RootName(raw) == RootNameBase + NatToString(RootIndex(raw))
              && forall j :: 2 <= j < RootIndex(raw) ==> Contains(raw, RootNameBase + NatToString(j))
  {
    var k := RootIndex(raw);
    if Contains(raw, RootNameBase) {
      assert k != 1;
      forall j | 2 <= j < k
        ensures Contains(raw, RootNameBase + NatToString(j))
      {
        assert Candidate(RootNameBase, j) == RootNameBase + NatToString(j);
      }
    }
  }

  lemma RootBaseFixed()
    ensures PascalFixed(RootNameBase)
  {
    var b := RootNameBase;
    forall i | 0 <= i < |b|
      ensures IsLetterOrDigit(b[i])
      ensures i == 0 ==> !IsLower(b[i])
      ensures 0 < i && IsUpper(b[i]) ==> IsLower(b[i - 1])
    {
      assert i == 0 || i == 1 || i == 2 || i == 3 || i == 4 || i == 5 || i == 6 || i == 7
          || i == 8 || i == 9 || i == 10 || i == 11 || i == 12 || i == 13 || i == 14;
    }
  }

  /** Every root candidate is already in PascalCase, so normalising it changes nothing. */
  lemma RootCandidateUnchanged(k: nat)
    ensures ToPascalCase(Candidate(RootNameBase, k)) == Candidate(RootNameBase, k)
  {
    RootBaseFixed();
    if k > 1 {
      PascalFixedDigits(RootNameBase, NatToString(k));
    }
    PascalFixedUnchanged(Candidate(RootNameBase, k));
  }

  /**
   * The root class takes the root candidate name whenever the walk over the
   * root's properties listed neither that name nor the root's fingerprint;
   * in particular it is `JsonRootElement` when the raw text does not contain
   * that string.
   */
  lemma RootClassNamedByCandidate(cfg: Config, raw: string, props: seq<(string, Json)>)
    requires var m := MembersFrom(cfg, props, MemberList("", 0, Initial));
             !HasHash(m.st.decls, ObjectHash(cfg.hasher, props)) && RootName(raw) !in Names(m.st.decls)
    ensures Conversion(cfg, raw, props).name == RootName(raw)
    ensures !Contains(raw, RootNameBase) ==> Conversion(cfg, raw, props).name == RootNameBase
  {
    RootCandidateUnchanged(RootIndex(raw));
    RootNameNotAlias(raw);
    NewShapeNamedByCandidate(cfg, props, RootName(raw), Initial);
    RootNameChoice(raw);
  }

  lemma RootNameNotAlias(raw: string)
    ensures RootName(raw) != NumberTypeName
  {
    assert RootName(raw)[0] == 'J';
  }

  /** An object with a new fingerprint whose normalised candidate is free is given that name. */
  lemma NewShapeNamedByCandidate(cfg: Config, props: seq<(string, Json)>, elementName: string, st: State)
    requires var m := MembersFrom(cfg, props, MemberList("", 0, st));
             !HasHash(m.st.decls, ObjectHash(cfg.hasher, props)) && !Taken(cfg.number, m.st.decls, ToPascalCase(elementName))
    ensures ClassDef(cfg, props, elementName, st).name == ToPascalCase(elementName)
  {
    var m := MembersFrom(cfg, props, MemberList("", 0, st));
    assert m.hash == ObjectHash(cfg.hasher, props);
  }

  /*
   * The document.
   */

  /**
   * For an object root the document is the header block, a line break, then
   * the classes in the order they were listed; the header depends only on
   * the style and on which scalar kinds occur in the tree.
   */
  lemma DocumentLayout(cfg: Config, raw: string, props: seq<(string, Json)>)
    ensures var c := Conversion(cfg, raw, props);
            var header := Header(cfg.output, PropsMention(props, Null), cfg.number == DefineNumber && PropsMention(props, Number));
            Convert(cfg, raw, Some(JObject(props))) ==
              Document(Join(cfg.newLine, header) + cfg.newLine + Join(cfg.newLine, Codes(c.st.decls)))
  {
    var c := Conversion(cfg, raw, props);
    var header := Header(cfg.output, c.st.useAny, c.st.defineNumber);
    assert Convert(cfg, raw, Some(JObject(props))) == Document(Join(cfg.newLine, header + Codes(c.st.decls)));
    assert |header| > 0 && |Codes(c.st.decls)| > 0;
    JoinAppend(cfg.newLine, header, Codes(c.st.decls));
  }
}
