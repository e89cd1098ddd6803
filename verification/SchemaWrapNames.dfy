/**
 A definition whose name is taken for a keyword (packages/model-openai/src/openai-model.adapter.ts:287-289):
 the wrapped schema then turns away what the schema accepts.
 */
module SchemaWrapNames {
  import opened Base
  import opened JsonText
  import opened Canonical
  import opened SchemaConformance
  import opened SchemaWrap
  import opened SchemaWrapMeaning
  import opened SchemaWrapAnswer
  import opened SchemaWrapCarried

  /** A node that asks for an array and has a schema for its items. */
  ghost predicate ArrayOf(n: Json, item: Json) {
    && n.Obj?
    && Keyword(n, "type") == Some(Str("array")) && Keyword(n, "items") == Some(item) && !item.Arr?
    && forall k :: k !in ["type", "items", "$defs"] ==> Lacks(n, k)
  }

  lemma ArrayFlat(items: seq<Json>, n: Json, item: Json, rules: Rules)
    requires ArrayOf(n, item)
    ensures FlatOk(Arr(items), n, rules)
  {
    assert Lacks(n, "enum") && Lacks(n, "const") && Lacks(n, "minItems") && Lacks(n, "maxItems")
      && Lacks(n, "uniqueItems");
  }

  lemma ArrayCombinators(root: Json, v: Json, n: Json, item: Json, d: nat, c: nat, f: nat, rules: Rules)
    requires ArrayOf(n, item)
    ensures CombinatorsOk(root, v, n, d, c, f, rules)
  {
    assert Lacks(n, "allOf") && Lacks(n, "anyOf") && Lacks(n, "oneOf") && Lacks(n, "not");
    NoCombinators(root, v, n, d, c, f, rules);
  }

  lemma ArrayBody(root: Json, items: seq<Json>, n: Json, d: nat, e: nat, c: nat, f: nat, rules: Rules)
    requires FlatOk(Arr(items), n, rules) && CombinatorsOk(root, Arr(items), n, d, c, f, rules) && d == e + 1
    ensures BodyOk(root, Arr(items), n, d, c, f, rules) == ItemsOk(root, items, n, 0, e, f, rules)
  {}

  lemma ArrayDecided(root: Json, items: seq<Json>, n: Json, item: Json, d: nat, e: nat, c: nat, f: nat, rules: Rules)
    requires ArrayOf(n, item) && d == e + 1
    ensures Conforms(root, Arr(items), n, d, c, f, rules) == ItemsOk(root, items, n, 0, e, f, rules)
  {
    ArrayFlat(items, n, item, rules);
    ArrayCombinators(root, Arr(items), n, item, d, c, f, rules);
    assert Lacks(n, "$ref") && Lacks(n, "nullable");
    PlainDecided(root, Arr(items), n, d, c, f, rules);
    ArrayBody(root, items, n, d, e, c, f, rules);
  }

  lemma EmptyArray(root: Json, n: Json, item: Json, d: nat, e: nat, c: nat, f: nat, rules: Rules)
    requires ArrayOf(n, item) && d == e + 1
    ensures Conforms(root, Arr([]), n, d, c, f, rules)
  {
    ArrayDecided(root, [], n, item, d, e, c, f, rules);
  }

  lemma OneItem(root: Json, v: Json, n: Json, item: Json, d: nat, e: nat, c: nat, f: nat, rules: Rules)
    requires ArrayOf(n, item) && d == e + 1
    ensures Conforms(root, Arr([v]), n, d, c, f, rules) == Conforms(root, v, item, e, f, f, rules)
  {
    ArrayDecided(root, [v], n, item, d, e, c, f, rules);
    assert Lacks(n, "prefixItems") && ItemSchema(n, 0) == Some(item);
    assert ItemsOk(root, [v], n, 1, e, f, rules);
  }

  /* ------------------------------------------------------------------- the schema */

  function RefTo(ref: string): Json { Obj([Field("$ref", Str(ref))]) }

  /** A definition that stands for the root. */
  const SELF := RefTo("#")

  function ListFields(item: Json): seq<Field> { [Field("type", Str("array")), Field("items", item)] }

  function ListsOf(item: Json, defs: Json): Json { Obj(ListFields(item) + [Field("$defs", defs)]) }

  function Only(name: string): Json { Obj([Field(name, SELF)]) }

  /** Lists of lists, by way of a definition with this name. */
  function Lists(name: string): Json { ListsOf(Pointer(name), Only(name)) }

  lemma {:induction false} WithoutLast(fs: seq<Field>, f: Field)
    requires forall g | g in fs :: g.key != f.key
    ensures Without(fs + [f], f.key) == fs
  {
    if fs == [] {
      assert fs + [f] == [f] && [f][1..] == [];
    } else {
      assert (fs + [f])[1..] == fs[1..] + [f];
      WithoutLast(fs[1..], f);
    }
  }

  lemma {:induction false} WithoutAbsent(fs: seq<Field>, k: string)
    requires forall f | f in fs :: f.key != k
    ensures Without(fs, k) == fs
  {
    if fs != [] { WithoutAbsent(fs[1..], k); }
  }

  lemma ListsInner(item: Json, defs: Json)
    ensures Inner(ListsOf(item, defs)) == Obj(ListFields(item))
  {
    WithoutLast(ListFields(item), Field("$defs", defs));
    WithoutAbsent(ListFields(item), "definitions");
  }

  lemma ListsKeyword(item: Json, defs: Json, k: string)
    ensures Lookup(ListFields(item), k) ==
      if k == "type" then Some(Str("array")) else if k == "items" then Some(item) else None
    ensures Keyword(ListsOf(item, defs), k) == if k == "$defs" then Some(defs) else Lookup(ListFields(item), k)
  {
    var a, b, c := Field("type", Str("array")), Field("items", item), Field("$defs", defs);
    LookupCons(a, [b], k);
    LookupCons(b, [], k);
    assert ListFields(item) == [a] + [b] && [b] == [b] + [];
    LookupAppend(ListFields(item), [c], k);
    LookupCons(c, [], k);
    assert [c] == [c] + [];
  }

  lemma ListsKeywords(item: Json, defs: Json)
    requires !item.Arr?
    ensures ArrayOf(ListsOf(item, defs), item) && Keyword(ListsOf(item, defs), "$defs") == Some(defs)
    ensures ArrayOf(Inner(ListsOf(item, defs)), item) && ArrayOf(Obj(ListFields(item)), item)
  {
    ListsInner(item, defs);
    forall k
      ensures Lookup(ListFields(item), k) ==
        if k == "type" then Some(Str("array")) else if k == "items" then Some(item) else None
      ensures Keyword(ListsOf(item, defs), k) == if k == "$defs" then Some(defs) else Lookup(ListFields(item), k)
    {
      ListsKeyword(item, defs, k);
    }
    forall k | k !in ["type", "items", "$defs"]
      ensures Lacks(ListsOf(item, defs), k) && Lacks(Obj(ListFields(item)), k)
    {}
  }

  lemma RefBare(ref: string)
    ensures Bare(RefTo(ref)) && Keyword(RefTo(ref), "$ref") == Some(Str(ref))
  {
    var fs := RefTo(ref).fields;
    forall k | k != "$ref" ensures Lacks(RefTo(ref), k) { assert fs[1..] == []; }
  }

  lemma NamePath(name: string, rules: Rules)
    requires PlainDecoding(rules) && Plain(name)
    ensures RefPath("#/$defs/" + name, rules) == Some(["$defs", name])
  {
    var ref := "#/$defs/" + name;
    assert ref == "#/" + ("$defs" + ("/" + name)) by { assert "#/$defs/" == "#/" + ("$defs" + "/"); }
    assert ref[..2] == "#/" && ref[2..] == "$defs" + ("/" + name);
    MovedSplit(name);
    TwoSegments("$defs", name, rules);
  }

  lemma NameResolves(root: Json, name: string, rules: Rules)
    requires PlainDecoding(rules) && Plain(name) && Keyword(root, "$defs") == Some(Only(name))
    ensures Resolve(root, "#/$defs/" + name, rules) == Some(SELF) && Resolve(root, "#", rules) == Some(root)
  {
    NamePath(name, rules);
    TwoSteps(root, "$defs", Only(name), name);
    LookupCons(Field(name, SELF), [], name);
    assert [Field(name, SELF)] == [Field(name, SELF)] + [];
  }

  /* ----------------------------------------------------------------- what goes wrong */

  lemma PointerStays(name: string)
    ensures !AnyMoves(Pointer(name))
  {
    assert "#/$defs/" <= "#/$defs/" + name;
    assert forall f | f in Pointer(name).fields :: f == Field("$ref", Str("#/$defs/" + name)) && !FieldMoves(f);
  }

  lemma SelfMoves(name: string)
    requires DataKeyword(name) || SchemaMap(name)
    ensures !FieldMoves(Field(name, SELF)) && !ReadAlike(Field(name, SELF))
  {
    assert SELF.fields[0] in SELF.fields && FieldMoves(SELF.fields[0]) && !ReadAlike(SELF.fields[0]);
    assert forall g | g in SELF.fields :: g == SELF.fields[0] && !AnyMoves(g.value);
  }

  lemma OneField(f: Field)
    requires !FieldMoves(f)
    ensures !AnyMoves(Obj([f]))
  {}

  lemma TwoFields(f: Field, g: Field)
    requires !FieldMoves(f) && !FieldMoves(g)
    ensures !AnyMoves(Obj([f, g]))
  {}

  /** Nothing seems to move: neither in the array, nor in the definition that is misread. */
  lemma NothingMoves(name: string)
    requires DataKeyword(name) || SchemaMap(name)
    ensures !Relocates(Lists(name)) && !ReadAlike(Field(name, SELF))
  {
    ListsInner(Pointer(name), Only(name));
    ListsKeyword(Pointer(name), Only(name), "$defs");
    ListsKeyword(Pointer(name), Only(name), "definitions");
    PointerStays(name);
    SelfMoves(name);
    TwoFields(Field("type", Str("array")), Field("items", Pointer(name)));
    OneField(Field(name, SELF));
  }

  lemma DataNamePlain(name: string)
    requires DataKeyword(name)
    ensures Plain(name)
  {}

  lemma MapNamePlain(name: string)
    requires SchemaMap(name)
    ensures Plain(name)
  {}

  /**
   A definition named like a data keyword is taken for data, one named like a map of schemas for such
   a map.  Its reference to the root is left alone, comes to mean the wrapper, and a list that the
   schema accepts is turned away.
   */
  lemma MisreadDefinition(name: string, key: string, rules: Rules)
    requires (DataKeyword(name) || SchemaMap(name)) && PlainDecoding(rules)
    ensures Valid(Arr([Arr([])]), Lists(name), rules)
    ensures !Valid(Holding(Arr([Arr([])])), Wrap(Lists(name), key), rules)
  {
    if DataKeyword(name) { DataNamePlain(name); } else { MapNamePlain(name); }
    ListAccepted(name, rules);
    NothingMoves(name);
    ListRefused(name, key, rules);
  }

  lemma ListAccepted(name: string, rules: Rules)
    requires PlainDecoding(rules) && Plain(name)
    ensures Valid(Arr([Arr([])]), Lists(name), rules)
  {
    var s, d, e: nat, f: nat := Lists(name), MAX_VALUE_DEPTH + 1, MAX_VALUE_DEPTH, MAX_REF_CHAIN;
    var less: nat, least: nat := f - 1, f - 2;
    var below: nat := e - 1;
    ListsKeywords(Pointer(name), Only(name));
    NameResolves(s, name, rules);
    PointerBare(name);
    RefBare("#");
    OneItem(s, Arr([]), s, Pointer(name), d, e, f, f, rules);
    BareDecided(s, Arr([]), Pointer(name), "#/$defs/" + name, SELF, e, f, f, rules);
    BareDecided(s, Arr([]), SELF, "#", s, e, less, f, rules);
    EmptyArray(s, s, Pointer(name), e, below, least, f, rules);
  }

  lemma ListRefused(name: string, key: string, rules: Rules)
    requires PlainDecoding(rules) && Plain(name) && !Relocates(Lists(name))
    ensures !Valid(Holding(Arr([Arr([])])), Wrap(Lists(name), key), rules)
  {
    var v := Arr([Arr([])]);
    var w, inner, d: nat, f: nat := Wrap(Lists(name), key), Inner(Lists(name)), MAX_VALUE_DEPTH, MAX_REF_CHAIN;
    var e: nat, below: nat, less: nat, least: nat := d - 1, d - 2, f - 1, f - 2;
    ListsKeywords(Pointer(name), Only(name));
    WrappedKeyword(Lists(name), key, "$defs");
    NameResolves(w, name, rules);
    PointerBare(name);
    RefBare("#");
    WrapperWraps(Lists(name), key);
    WrapperDecided(Holding(v), w, inner, d, f, rules);
    OneItem(w, Arr([]), inner, Pointer(name), d, e, f, f, rules);
    BareDecided(w, Arr([]), Pointer(name), "#/$defs/" + name, SELF, e, f, f, rules);
    BareDecided(w, Arr([]), SELF, "#", w, e, less, f, rules);
    NoArray(w, inner, e, below, least, f, rules);
    assert Holding(v).fields[0] in Holding(v).fields;
  }

  /** The wrapper accepts no array. */
  lemma NoArray(w: Json, node: Json, d: nat, e: nat, c: nat, f: nat, rules: Rules)
    requires Wraps(w, node) && d == e + 1
    ensures !Conforms(w, Arr([]), w, d, c, f, rules)
  {
    ForeignValues();
    PlainDecided(w, Arr([]), w, d, c, f, rules);
    WrapperFlat(Arr([]), w, node, rules);
  }

  /* --------------------------------------------------------- definitions named as a whole */

  /** Lists of anything: its items refer to the definitions as a whole, an empty object, as to a schema. */
  const LISTS_OF_ANYTHING := ListsOf(RefTo("#/$defs"), Obj([]))

  lemma WholePath(rules: Rules)
    requires PlainDecoding(rules)
    ensures RefPath("#/$defs", rules) == Some(["$defs"])
    ensures Moves("#/$defs")
  {
    assert "#/$defs"[..2] == "#/" && "#/$defs"[2..] == "$defs";
    SplitPlain("$defs", "");
    TwoSegments("$defs", "$defs", rules);
  }

  lemma WholeResolves(root: Json, defs: Json, rules: Rules)
    requires PlainDecoding(rules) && Keyword(root, "$defs") == Some(defs) && defs.Obj?
    ensures Resolve(root, "#/$defs", rules) == Some(defs)
  {
    WholePath(rules);
    assert ["$defs"][1..] == [] && Descend(defs, []) == Some(defs);
  }

  lemma AnythingGoes(root: Json, v: Json, d: nat, c: nat, f: nat, rules: Rules)
    requires d > 0
    ensures Conforms(root, v, Obj([]), d, c, f, rules)
  {
    forall k | k != "$ref" ensures Lacks(Obj([]), k) {}
    BareBody(root, v, Obj([]), d, c, f, rules);
  }

  lemma AnythingListed(s: Json, d: nat, e: nat, f: nat, less: nat, rules: Rules)
    requires ArrayOf(s, RefTo("#/$defs")) && Resolve(s, "#/$defs", rules) == Some(Obj([]))
    requires d == e + 1 && e > 0 && f == less + 1
    ensures Conforms(s, Arr([Arr([])]), s, d, f, f, rules)
  {
    var item := RefTo("#/$defs");
    RefBare("#/$defs");
    OneItem(s, Arr([]), s, item, d, e, f, f, rules);
    BareDecided(s, Arr([]), item, "#/$defs", Obj([]), e, f, f, rules);
    AnythingGoes(s, Arr([]), e, less, f, rules);
  }

  lemma WholeRelocates()
    ensures Relocates(LISTS_OF_ANYTHING)
  {
    var item := RefTo("#/$defs");
    ListsInner(item, Obj([]));
    assert item.fields[0] in item.fields && FieldMoves(item.fields[0]) && AnyMoves(item);
    assert ListFields(item)[1] in ListFields(item) && FieldMoves(ListFields(item)[1]);
  }

  lemma RefRewritten(ref: string, m: string -> string)
    ensures Rewrite(RefTo(ref), m) == RefTo(m(ref))
  {
    var fs := RefTo(ref).fields;
    assert fs[1..] == [] && RewriteFields([], m) == [];
    assert RewriteFields(fs, m) == [Field("$ref", RewriteValue("$ref", Str(ref), m))];
  }

  lemma ListsRewritten(item: Json, m: string -> string)
    ensures Rewrite(Obj(ListFields(item)), m) == Obj(ListFields(Rewrite(item, m)))
  {
    var a, b := Field("type", Str("array")), Field("items", item);
    FieldsSnoc([], a, m);
    FieldsSnoc([a], b, m);
    assert [] + [a] == [a] && [a] + [b] == ListFields(item);
    assert RewriteValue("type", Str("array"), m) == Str("array") && RewriteValue("items", item, m) == Rewrite(item, m);
  }

  /** The old root, in its new place, asks of its items what the moved reference says. */
  lemma MovedLists(key: string)
    ensures ArrayOf(Rewrite(Inner(LISTS_OF_ANYTHING), Mover(key)), RefTo(MoveRef("#/$defs", key)))
  {
    ListsInner(RefTo("#/$defs"), Obj([]));
    ListsRewritten(RefTo("#/$defs"), Mover(key));
    RefRewritten("#/$defs", Mover(key));
    ListsKeywords(RefTo(MoveRef("#/$defs", key)), Obj([]));
  }

  lemma OldRootResolves(key: string, rules: Rules)
    requires PlainDecoding(rules) && FirstFree(key, ROOT_BASE, Some(Obj([])))
    ensures Resolve(Wrap(LISTS_OF_ANYTHING, key), "#/$defs/" + key, rules)
      == Some(Rewrite(Inner(LISTS_OF_ANYTHING), Mover(key)))
  {
    ListsKeyword(RefTo("#/$defs"), Obj([]), "$defs");
    KeyPlain(key, Some(Obj([])));
    NamePath(key, rules);
    WholeRelocates();
    WrappedRoot(LISTS_OF_ANYTHING, key);
  }

  /** The reference that named the definitions as a whole names nothing in the wrapper. */
  lemma WholeIsLost(key: string, rules: Rules)
    requires PlainDecoding(rules) && FirstFree(key, ROOT_BASE, Some(Obj([])))
    ensures Resolve(LISTS_OF_ANYTHING, "#/$defs", rules).Some?
    ensures Resolve(Wrap(LISTS_OF_ANYTHING, key), MoveRef("#/$defs", key), rules).None?
  {
    ListsKeyword(RefTo("#/$defs"), Obj([]), "$defs");
    WholePath(rules);
    WholeResolves(LISTS_OF_ANYTHING, Obj([]), rules);
    WholeRelocates();
    MovedReferenceResolves(LISTS_OF_ANYTHING, key, "#/$defs", rules);
  }

  lemma Unresolved(root: Json, v: Json, ref: string, d: nat, c: nat, f: nat, rules: Rules)
    requires Resolve(root, ref, rules).None?
    ensures !Conforms(root, v, RefTo(ref), d, c, f, rules)
  {
    RefBare(ref);
  }

  lemma AnythingRefused(key: string, rules: Rules)
    requires PlainDecoding(rules) && FirstFree(key, ROOT_BASE, Some(Obj([])))
    ensures !Valid(Holding(Arr([Arr([])])), Wrap(LISTS_OF_ANYTHING, key), rules)
  {
    var v, w := Arr([Arr([])]), Wrap(LISTS_OF_ANYTHING, key);
    var moved, ref := Rewrite(Inner(LISTS_OF_ANYTHING), Mover(key)), MoveRef("#/$defs", key);
    var d: nat, f: nat := MAX_VALUE_DEPTH, MAX_REF_CHAIN;
    var e: nat, less: nat := d - 1, f - 1;
    WholeRelocates();
    WrapperWraps(LISTS_OF_ANYTHING, key);
    WrapperDecided(Holding(v), w, Pointer(key), d, f, rules);
    OldRootResolves(key, rules);
    PointerBare(key);
    BareDecided(w, v, Pointer(key), "#/$defs/" + key, moved, d, f, f, rules);
    MovedLists(key);
    OneItem(w, Arr([]), moved, RefTo(ref), d, e, less, f, rules);
    WholeIsLost(key, rules);
    Unresolved(w, Arr([]), ref, e, f, f, rules);
    assert Holding(v).fields[0] in Holding(v).fields;
  }

  /** Naming the definitions as a whole is lost by wrapping, and with it what the schema accepts. */
  lemma LostReference(key: string, rules: Rules)
    requires PlainDecoding(rules) && FirstFree(key, ROOT_BASE, Some(Obj([])))
    ensures Resolve(LISTS_OF_ANYTHING, "#/$defs", rules).Some?
    ensures Resolve(Wrap(LISTS_OF_ANYTHING, key), MoveRef("#/$defs", key), rules).None?
    ensures Valid(Arr([Arr([])]), LISTS_OF_ANYTHING, rules)
    ensures !Valid(Holding(Arr([Arr([])])), Wrap(LISTS_OF_ANYTHING, key), rules)
  {
    WholeIsLost(key, rules);
    ListsKeywords(RefTo("#/$defs"), Obj([]));
    WholeResolves(LISTS_OF_ANYTHING, Obj([]), rules);
    AnythingListed(
      LISTS_OF_ANYTHING, MAX_VALUE_DEPTH + 1, MAX_VALUE_DEPTH, MAX_REF_CHAIN, MAX_REF_CHAIN - 1, rules);
    AnythingRefused(key, rules);
  }
}
