/**
 * The rendered code of the classes. A state-free reference gives the type
 * name each property gets against a class list (the scalar table, or the
 * class listed with an object's fingerprint); every class's code is its
 * declaration header followed by one member line per property of an object
 * of the tree, typed by that reference against the final list.
 */
module Rendering {

  import opened Text
  import opened Json
  import opened Fingerprint
  import opened CaseConverter
  import opened Converter
  import opened ConverterProperties

  /** The name of the first listed class with the fingerprint, or "" when none is listed. */
  function ClassNameIn(decls: seq<Decl>, hash: bv32): string
  {
    match FirstWithHash(decls, hash)
    case Some(i) => decls[i].name
    case None => ""
  }

  /** The type name written for a property value, read off a class list. */
  function TypeNameIn(cfg: Config, v: Json, decls: seq<Decl>): string
  {
    match v
    case JObject(props) => ClassNameIn(decls, ObjectHash(cfg.hasher, props))
    case JArray(items) =>
      if |items| == 0 then "list"
      else if items[0].JObject? then "list[" + ClassNameIn(decls, ObjectHash(cfg.hasher, items[0].props)) + "]"
      else "list[" + ScalarTypeName(cfg.number, KindOf(items[0])) + "]"
    case _ => ScalarTypeName(cfg.number, KindOf(v))
  }

  /** An object's class body: one member line per property, in document order, typed against the list. */
  function ClassBody(cfg: Config, props: seq<(string, Json)>, decls: seq<Decl>): string
  {
    if |props| == 0 then ""
    else MemberLine(props[0].0, TypeNameIn(cfg, props[0].1, decls), cfg.newLine) + ClassBody(cfg, props[1..], decls)
  }

  /** The objects the walk visits inside v (v itself included), as property sequences. */
  function VisitedObjects(v: Json): set<seq<(string, Json)>>
    decreases Size(v), 1
  {
    match v
    case JObject(props) => {props} + PropsObjects(props)
    case JArray(items) =>
      if |items| > 0 && items[0].JObject? then
        assert ItemsSize(items) == Size(items[0]) + ItemsSize(items[1..]);
        VisitedObjects(items[0])
      else {}
    case _ => {}
  }

  function PropsObjects(props: seq<(string, Json)>): set<seq<(string, Json)>>
    decreases PropsSize(props), 2
  {
    if |props| == 0 then {}
    else
      assert PropsSize(props) == 1 + Size(props[0].1) + PropsSize(props[1..]);
      VisitedObjects(props[0].1) + PropsObjects(props[1..])
  }

  /*
   * Member lines carry the computed types.
   */

  /** The name an object's call returns is the class listed with its fingerprint in every longer list. */
  lemma ClassDefNamedIn(cfg: Config, props: seq<(string, Json)>, elementName: string, st: State, more: seq<Decl>)
    requires ClassDef(cfg, props, elementName, st).st.decls <= more
    ensures ClassDef(cfg, props, elementName, st).name == ClassNameIn(more, ObjectHash(cfg.hasher, props))
  {
    var r := ClassDef(cfg, props, elementName, st);
    FirstWithHashPrefix(r.st.decls, more, r.hash);
    var i := FirstWithHash(r.st.decls, r.hash).value;
    assert more[i] == r.st.decls[i];
  }

  /** The type a property gets is the reference name in every list that extends the list after it. */
  lemma PropertyTypeNamed(cfg: Config, propName: string, v: Json, st: State, more: seq<Decl>)
    requires PropertyType(cfg, propName, v, st).st.decls <= more
    ensures PropertyType(cfg, propName, v, st).name == TypeNameIn(cfg, v, more)
  {
    match v
    case JObject(props) =>
      ClassDefNamedIn(cfg, props, ToPascalCase(propName), st, more);
    case JArray(items) =>
      if |items| > 0 && items[0].JObject? {
        ClassDefNamedIn(cfg, items[0].props, ToPascalCase(propName) + "Item", st, more);
      }
    case _ =>
  }

  /**
   * The property loop appends one `name: type` line per property, in
   * document order, each with the type the walk computed for it.
   */
  lemma {:induction false} MembersRendered(cfg: Config, props: seq<(string, Json)>, acc: MemberList, more: seq<Decl>)
    requires MembersFrom(cfg, props, acc).st.decls <= more
    ensures MembersFrom(cfg, props, acc).lines == acc.lines + ClassBody(cfg, props, more)
    decreases |props|
  {
    if |props| == 0 {
      assert acc.lines + ClassBody(cfg, props, more) == acc.lines;
    } else {
      var (name, value) := props[0];
      var t := PropertyType(cfg, name, value, acc.st);
      var line := MemberLine(name, t.name, cfg.newLine);
      var next := MemberList(acc.lines + line, CombineHashes(acc.hash, cfg.hasher.named(name, t.hash)), t.st);
      var r := MembersFrom(cfg, props[1..], next);
      assert MembersFrom(cfg, props, acc) == r;
      PropertyTypeNamed(cfg, name, value, acc.st, more);
      MembersRendered(cfg, props[1..], next, more);
      ConcatAssoc(acc.lines, line, ClassBody(cfg, props[1..], more));
    }
  }

  /** Reading the types off a longer list changes nothing once the nested shapes are listed. */
  lemma TypeNameStable(cfg: Config, v: Json, decls: seq<Decl>, more: seq<Decl>)
    requires decls <= more && Listed(VisitedHashes(cfg.hasher, v), decls)
    ensures TypeNameIn(cfg, v, decls) == TypeNameIn(cfg, v, more)
  {
    match v
    case JObject(props) =>
      var hash := ObjectHash(cfg.hasher, props);
      assert hash in VisitedHashes(cfg.hasher, v);
      FirstWithHashPrefix(decls, more, hash);
      assert more[FirstWithHash(decls, hash).value] == decls[FirstWithHash(decls, hash).value];
    case JArray(items) =>
      if |items| > 0 && items[0].JObject? {
        var hash := ObjectHash(cfg.hasher, items[0].props);
        assert hash in VisitedHashes(cfg.hasher, items[0]);
        FirstWithHashPrefix(decls, more, hash);
        assert more[FirstWithHash(decls, hash).value] == decls[FirstWithHash(decls, hash).value];
      }
    case _ =>
  }

  lemma {:induction false} ClassBodyStable(cfg: Config, props: seq<(string, Json)>, decls: seq<Decl>, more: seq<Decl>)
    requires decls <= more && Listed(PropsVisited(cfg.hasher, props), decls)
    ensures ClassBody(cfg, props, decls) == ClassBody(cfg, props, more)
    decreases |props|
  {
    if |props| > 0 {
      assert PropsVisited(cfg.hasher, props) == VisitedHashes(cfg.hasher, props[0].1) + PropsVisited(cfg.hasher, props[1..]);
      TypeNameStable(cfg, props[0].1, decls, more);
      ClassBodyStable(cfg, props[1..], decls, more);
    }
  }

  /*
   * Children first, and the class's own code.
   */

  /**
   * Children first: the classes an object's call adds before its own all
   * carry fingerprints of objects nested inside it; then the object's own
   * class is appended last, and only when no listed class has its
   * fingerprint, with the object's fingerprint and, as code, the style's
   * declaration header followed by the object's body typed against the list.
   */
  lemma ClassDefAppendsAfterChildren(cfg: Config, props: seq<(string, Json)>, elementName: string, st: State)
    ensures var m := MembersFrom(cfg, props, MemberList("", 0, st));
            var r := ClassDef(cfg, props, elementName, st);
            && st.decls <= m.st.decls <= r.st.decls
            && AddedFrom(st.decls, m.st.decls, PropsVisited(cfg.hasher, props))
            && (HasHash(m.st.decls, r.hash) ==> r.st.decls == m.st.decls)
            && (!HasHash(m.st.decls, r.hash) ==>
                  && |r.st.decls| == |m.st.decls| + 1
                  && r.st.decls[|m.st.decls|].name == r.name
                  && r.st.decls[|m.st.decls|].hash == ObjectHash(cfg.hasher, props)
                  && r.st.decls[|m.st.decls|].code ==
                       DeclarationHeader(cfg.output, r.name, cfg.newLine) + ClassBody(cfg, props, r.st.decls))
  {
    var m := MembersFrom(cfg, props, MemberList("", 0, st));
    var r := ClassDef(cfg, props, elementName, st);
    MembersAddOnlyVisited(cfg, props, MemberList("", 0, st));
    ClassDefSplit(cfg, props, elementName, st);
    if !HasHash(m.st.decls, r.hash) {
      MembersRendered(cfg, props, MemberList("", 0, st), r.st.decls);
      assert m.lines == ClassBody(cfg, props, r.st.decls);
    }
  }

  /*
   * Every class renders an object of the tree.
   */

  /**
   * The class renders one of the objects: that object has the class's
   * fingerprint, its nested shapes are listed, and the code is the style's
   * declaration header with the class's name followed by the object's body
   * typed against the list.
   */
  ghost predicate RendersObject(cfg: Config, objs: set<seq<(string, Json)>>, d: Decl, decls: seq<Decl>)
  {
    exists o :: o in objs && ObjectHash(cfg.hasher, o) == d.hash && Listed(PropsVisited(cfg.hasher, o), decls)
                && d.code == DeclarationHeader(cfg.output, d.name, cfg.newLine) + ClassBody(cfg, o, decls)
  }

  ghost predicate AllRender(cfg: Config, objs: set<seq<(string, Json)>>, decls: seq<Decl>)
  {
    forall i :: 0 <= i < |decls| ==> RendersObject(cfg, objs, decls[i], decls)
  }

  lemma RendersObjectGrows(cfg: Config, objs: set<seq<(string, Json)>>, objs2: set<seq<(string, Json)>>,
                           d: Decl, decls: seq<Decl>, more: seq<Decl>)
    requires objs <= objs2 && decls <= more && RendersObject(cfg, objs, d, decls)
    ensures RendersObject(cfg, objs2, d, more)
  {
    var o :| o in objs && ObjectHash(cfg.hasher, o) == d.hash && Listed(PropsVisited(cfg.hasher, o), decls)
             && d.code == DeclarationHeader(cfg.output, d.name, cfg.newLine) + ClassBody(cfg, o, decls);
    ListedGrows(PropsVisited(cfg.hasher, o), decls, more);
    ClassBodyStable(cfg, o, decls, more);
  }

  lemma RenderedPrefixGrows(cfg: Config, objs: set<seq<(string, Json)>>, objs2: set<seq<(string, Json)>>,
                            decls: seq<Decl>, more: seq<Decl>)
    requires objs <= objs2 && decls <= more && AllRender(cfg, objs, decls)
    ensures forall i :: 0 <= i < |decls| ==> RendersObject(cfg, objs2, more[i], more)
  {
    forall i | 0 <= i < |decls|
      ensures RendersObject(cfg, objs2, more[i], more)
    {
      assert more[i] == decls[i];
      RendersObjectGrows(cfg, objs, objs2, decls[i], decls, more);
    }
  }

  lemma {:induction false} ClassDefRenders(cfg: Config, objs: set<seq<(string, Json)>>,
                                           props: seq<(string, Json)>, elementName: string, st: State)
    requires AllRender(cfg, objs, st.decls)
    ensures AllRender(cfg, objs + VisitedObjects(JObject(props)), ClassDef(cfg, props, elementName, st).st.decls)
    decreases PropsSize(props), 3
  {
    var objs1 := objs + PropsObjects(props);
    var objs2 := objs + VisitedObjects(JObject(props));
    assert objs1 <= objs2 && {props} <= objs2;
    var m := MembersFrom(cfg, props, MemberList("", 0, st));
    var r := ClassDef(cfg, props, elementName, st);
    MembersRender(cfg, objs, props, MemberList("", 0, st));
    ClassDefExtendsMembers(cfg, props, elementName, st);
    RenderedPrefixGrows(cfg, objs1, objs2, m.st.decls, r.st.decls);
    ClassDefSplit(cfg, props, elementName, st);
    if |r.st.decls| > |m.st.decls| {
      NewClassRendersObject(cfg, props, elementName, st);
      RendersObjectGrows(cfg, {props}, objs2, r.st.decls[|m.st.decls|], r.st.decls, r.st.decls);
    }
  }

  /** A class appended by an object's call renders that object. */
  lemma NewClassRendersObject(cfg: Config, props: seq<(string, Json)>, elementName: string, st: State)
    ensures var m := MembersFrom(cfg, props, MemberList("", 0, st));
            var r := ClassDef(cfg, props, elementName, st);
            |r.st.decls| > |m.st.decls| ==>
              RendersObject(cfg, {props}, r.st.decls[|m.st.decls|], r.st.decls)
  {
    var m := MembersFrom(cfg, props, MemberList("", 0, st));
    var r := ClassDef(cfg, props, elementName, st);
    ClassDefSplit(cfg, props, elementName, st);
    if |r.st.decls| > |m.st.decls| {
      ClassDefExtendsMembers(cfg, props, elementName, st);
      MembersRendered(cfg, props, MemberList("", 0, st), r.st.decls);
      MembersListShapes(cfg, props, MemberList("", 0, st));
      ListedGrows(PropsVisited(cfg.hasher, props), m.st.decls, r.st.decls);
      assert m.lines == ClassBody(cfg, props, r.st.decls);
      assert props in {props};
    }
  }

  lemma {:induction false} MembersRender(cfg: Config, objs: set<seq<(string, Json)>>,
                                         props: seq<(string, Json)>, acc: MemberList)
    requires AllRender(cfg, objs, acc.st.decls)
    ensures AllRender(cfg, objs + PropsObjects(props), MembersFrom(cfg, props, acc).st.decls)
    decreases PropsSize(props), 2
  {
    if |props| == 0 {
      assert objs + PropsObjects(props) == objs;
    } else {
      assert PropsSize(props) == 1 + Size(props[0].1) + PropsSize(props[1..]);
      var (name, value) := props[0];
      PropertyRenders(cfg, objs, name, value, acc.st);
      var t := PropertyType(cfg, name, value, acc.st);
      var line := MemberLine(name, t.name, cfg.newLine);
      var next := MemberList(acc.lines + line, CombineHashes(acc.hash, cfg.hasher.named(name, t.hash)), t.st);
      MembersRender(cfg, objs + VisitedObjects(value), props[1..], next);
      assert objs + VisitedObjects(value) + PropsObjects(props[1..]) == objs + PropsObjects(props);
    }
  }

  lemma {:induction false} PropertyRenders(cfg: Config, objs: set<seq<(string, Json)>>, propName: string, v: Json, st: State)
    requires AllRender(cfg, objs, st.decls)
    ensures AllRender(cfg, objs + VisitedObjects(v), PropertyType(cfg, propName, v, st).st.decls)
    decreases Size(v), 1
  {
    match v
    case JObject(props) =>
      ClassDefRenders(cfg, objs, props, ToPascalCase(propName), st);
    case JArray(items) =>
      if |items| > 0 && items[0].JObject? {
        assert ItemsSize(items) == Size(items[0]) + ItemsSize(items[1..]);
        ClassDefRenders(cfg, objs, items[0].props, ToPascalCase(propName) + "Item", st);
      } else {
        assert objs + VisitedObjects(v) == objs;
      }
    case _ =>
      assert objs + VisitedObjects(v) == objs;
  }

  lemma {:induction false} ClassBodyEndsWithNewLine(cfg: Config, props: seq<(string, Json)>, decls: seq<Decl>)
    requires |props| > 0
    ensures EndsWith(ClassBody(cfg, props, decls), cfg.newLine)
    decreases |props|
  {
    var typeName := TypeNameIn(cfg, props[0].1, decls);
    var line := MemberLine(props[0].0, typeName, cfg.newLine);
    if |props| == 1 {
      EndsWithAppend(Indent + props[0].0 + ": " + typeName, cfg.newLine, cfg.newLine);
      assert ClassBody(cfg, props, decls) == line + "";
    } else {
      ClassBodyEndsWithNewLine(cfg, props[1..], decls);
      EndsWithAppend(line, ClassBody(cfg, props[1..], decls), cfg.newLine);
    }
  }

  /** Every rendered class ends with a line break. */
  lemma RenderedClassEndsWithNewLine(cfg: Config, objs: set<seq<(string, Json)>>, d: Decl, decls: seq<Decl>)
    requires RendersObject(cfg, objs, d, decls)
    ensures EndsWith(d.code, cfg.newLine)
  {
    var o :| o in objs && ObjectHash(cfg.hasher, o) == d.hash && Listed(PropsVisited(cfg.hasher, o), decls)
             && d.code == DeclarationHeader(cfg.output, d.name, cfg.newLine) + ClassBody(cfg, o, decls);
    if |o| == 0 {
      assert d.code == DeclarationHeader(cfg.output, d.name, cfg.newLine);
    } else {
      ClassBodyEndsWithNewLine(cfg, o, decls);
      EndsWithAppend(DeclarationHeader(cfg.output, d.name, cfg.newLine), ClassBody(cfg, o, decls), cfg.newLine);
    }
  }

  /**
   * Every class of the document renders an object of the tree with the
   * class's fingerprint: the style's declaration header with the class's
   * name, then one `name: type` line per property of that object in
   * document order, each typed against the final list, and the code ends
   * with a line break.
   */
  lemma ConversionRendersClasses(cfg: Config, raw: string, props: seq<(string, Json)>)
    ensures var decls := Conversion(cfg, raw, props).st.decls;
            forall i :: 0 <= i < |decls| ==>
              RendersObject(cfg, VisitedObjects(JObject(props)), decls[i], decls) && EndsWith(decls[i].code, cfg.newLine)
  {
    ClassDefRenders(cfg, {}, props, RootName(raw), Initial);
    assert {} + VisitedObjects(JObject(props)) == VisitedObjects(JObject(props));
    var decls := Conversion(cfg, raw, props).st.decls;
    forall i | 0 <= i < |decls|
      ensures EndsWith(decls[i].code, cfg.newLine)
    {
      RenderedClassEndsWithNewLine(cfg, VisitedObjects(JObject(props)), decls[i], decls);
    }
  }
}
