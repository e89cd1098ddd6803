/**
 What the wrapped schema accepts: exactly the objects holding one value, under `value`, that the
 original schema accepts; and taking that value back out of the answer.
 */
module SchemaWrapAnswer {
  import opened Base
  import opened JsonText
  import opened SchemaConformance
  import opened SchemaLimits
  import opened SchemaWrap
  import opened SchemaWrapMeaning
  import opened SchemaWrapCarried
  import opened SchemaWrapTheorem

  /* ------------------------------------------------------- nodes with few keywords */

  predicate Lacks(n: Json, k: string) { Keyword(n, k).None? }

  /** No keyword but `$ref` is present. */
  ghost predicate Bare(n: Json) {
    n.Obj? && forall k :: k != "$ref" ==> Lacks(n, k)
  }

  lemma BareFlat(v: Json, n: Json, rules: Rules)
    requires Bare(n)
    ensures FlatOk(v, n, rules)
  {
    assert Lacks(n, "type") && Lacks(n, "enum") && Lacks(n, "const");
    assert Lacks(n, "minLength") && Lacks(n, "maxLength") && Lacks(n, "pattern") && Lacks(n, "uniqueItems");
    assert Lacks(n, "minimum") && Lacks(n, "maximum") && Lacks(n, "exclusiveMinimum") && Lacks(n, "exclusiveMaximum");
    assert Lacks(n, "multipleOf") && Lacks(n, "minItems") && Lacks(n, "maxItems");
    assert Lacks(n, "required") && Lacks(n, "minProperties") && Lacks(n, "maxProperties");
  }

  lemma {:induction false} BareItems(root: Json, items: seq<Json>, n: Json, i: nat, d: nat, f: nat, rules: Rules)
    requires Bare(n) && i <= |items|
    ensures ItemsOk(root, items, n, i, d, f, rules)
    decreases |items| - i
  {
    assert Lacks(n, "prefixItems") && Lacks(n, "items");
    if i < |items| { BareItems(root, items, n, i + 1, d, f, rules); }
  }

  lemma BareProperty(n: Json, key: string, rules: Rules)
    requires Bare(n)
    ensures PropertySchemas(n, key, rules) == []
  {
    assert Lacks(n, "properties") && Lacks(n, "patternProperties") && Lacks(n, "additionalProperties");
  }

  lemma {:induction false} BareFields(root: Json, fs: seq<Field>, n: Json, d: nat, f: nat, rules: Rules)
    requires Bare(n)
    ensures FieldsOk(root, fs, n, d, f, rules)
  {
    if fs != [] {
      BareProperty(n, fs[0].key, rules);
      BareFields(root, fs[1..], n, d, f, rules);
    }
  }

  lemma NoCombinators(root: Json, v: Json, n: Json, d: nat, c: nat, f: nat, rules: Rules)
    requires Keyword(n, "allOf").None? && Keyword(n, "anyOf").None?
    requires Keyword(n, "oneOf").None? && Keyword(n, "not").None?
    ensures CombinatorsOk(root, v, n, d, c, f, rules)
  {}

  lemma BareBody(root: Json, v: Json, n: Json, d: nat, c: nat, f: nat, rules: Rules)
    requires Bare(n) && d > 0
    ensures BodyOk(root, v, n, d, c, f, rules)
  {
    BareFlat(v, n, rules);
    forall e: nat | e == d - 1 ensures v.Arr? ==> ItemsOk(root, v.items, n, 0, e, f, rules) {
      if v.Arr? { BareItems(root, v.items, n, 0, e, f, rules); }
    }
    forall e: nat | e == d - 1 ensures v.Obj? ==> FieldsOk(root, v.fields, n, e, f, rules) {
      if v.Obj? { BareFields(root, v.fields, n, e, f, rules); }
    }
    assert Lacks(n, "allOf") && Lacks(n, "anyOf") && Lacks(n, "oneOf") && Lacks(n, "not");
    NoCombinators(root, v, n, d, c, f, rules);
  }

  /* --------------------------------------------------------------- the value's node */

  function Pointer(key: string): Json { Obj([Field("$ref", Str("#/$defs/" + key))]) }

  /** The schema the wrapper puts on `value`. */
  function ValueNode(schema: Json, key: string): Json
    requires schema.Obj?
  {
    if Relocates(schema) then Pointer(key) else Inner(schema)
  }

  lemma PointerBare(key: string)
    ensures Bare(Pointer(key)) && Keyword(Pointer(key), "$ref") == Some(Str("#/$defs/" + key))
  {
    var fs := Pointer(key).fields;
    forall k | k != "$ref" ensures Lacks(Pointer(key), k) { assert fs[1..] == []; }
  }

  lemma PointerTarget(schema: Json, key: string, rules: Rules)
    requires schema.Obj? && Relocates(schema) && PlainDecoding(rules)
    requires FirstFree(key, ROOT_BASE, Keyword(schema, "$defs"))
    ensures Resolve(Wrap(schema, key), "#/$defs/" + key, rules) == Some(Rewrite(Inner(schema), Mover(key)))
  {
    KeyPlain(key, Keyword(schema, "$defs"));
    MovedPath("#", key, rules);
    assert MoveRef("#", key) == "#/$defs/" + key && ["$defs", key] + [] == ["$defs", key];
    WrappedRoot(schema, key);
  }

  /** The rewritten root decides in the wrapper as the root does. */
  lemma RootDecided(schema: Json, key: string, rules: Rules, p: string -> bool, v: Json, d: nat, c: nat, f: nat)
    requires Closed(schema, key, rules, p)
    ensures Conforms(Wrap(schema, key), v, Rewrite(Inner(schema), Mover(key)), d, c, f, rules)
      == Conforms(schema, v, schema, d, c, f, rules)
  {
    var root := Rewrite(Inner(schema), Mover(key));
    RootMirrors(schema, Mover(key), p);
    Same(schema, key, rules, p, v, schema, root, d, c, f);
    assert WrapPair(schema, key, schema, root, rules).Agree(v, d, c, f);
  }

  /** A wrapper that relocates spends one reference on reaching the old root. */
  lemma ValueDecided(schema: Json, key: string, rules: Rules, p: string -> bool, v: Json, d: nat, f: nat)
    requires Closed(schema, key, rules, p) && PlainDecoding(rules)
    requires FirstFree(key, ROOT_BASE, Keyword(schema, "$defs"))
    ensures Conforms(Wrap(schema, key), v, ValueNode(schema, key), d, f, f, rules) == (
      if Relocates(schema) then f > 0 && Conforms(schema, v, schema, d, f - 1, f, rules)
      else Conforms(schema, v, schema, d, f, f, rules))
  {
    var root := Rewrite(Inner(schema), Mover(key));
    if Relocates(schema) {
      PointerTarget(schema, key, rules);
      PointerBare(key);
      BareDecided(Wrap(schema, key), v, Pointer(key), "#/$defs/" + key, root, d, f, f, rules);
      if f > 0 { RootDecided(schema, key, rules, p, v, d, f - 1, f); }
    } else {
      StillIsUnchanged(Inner(schema), key);
      RootDecided(schema, key, rules, p, v, d, f, f);
    }
  }

  /** A node that only refers decides as what it refers to, one reference on. */
  lemma BareDecided(root: Json, v: Json, n: Json, ref: string, t: Json, d: nat, c: nat, f: nat, rules: Rules)
    requires Bare(n) && Keyword(n, "$ref") == Some(Str(ref)) && Resolve(root, ref, rules) == Some(t)
    ensures Conforms(root, v, n, d, c, f, rules) == (d > 0 && c > 0 && Conforms(root, v, t, d, c - 1, f, rules))
  {
    if d > 0 { BareBody(root, v, n, d, c, f, rules); }
  }

  /* ------------------------------------------------------------- the wrapper's node */

  /** Keywords a wrapper never has. */
  predicate Foreign(k: string) {
    k !in DEFINITIONS && k !in ["type", "properties", "required", "additionalProperties"]
  }

  lemma ForeignBounds()
    ensures Foreign("minProperties") && Foreign("maxProperties") && Foreign("patternProperties")
  {}

  lemma ForeignValues()
    ensures Foreign("enum") && Foreign("const") && Foreign("$ref") && Foreign("nullable")
  {}

  lemma ForeignCombinators()
    ensures Foreign("allOf") && Foreign("anyOf") && Foreign("oneOf") && Foreign("not")
  {}

  /** The keywords of a wrapper that holds `node`. */
  ghost predicate Wraps(w: Json, node: Json) {
    && w.Obj?
    && Keyword(w, "type") == Some(Str("object"))
    && Keyword(w, "properties") == Some(Obj([Field("value", node)]))
    && Keyword(w, "required") == Some(Arr([Str("value")]))
    && Keyword(w, "additionalProperties") == Some(Bool(false))
    && forall k :: Foreign(k) ==> Lacks(w, k)
  }

  lemma LookupCons(f: Field, rest: seq<Field>, k: string)
    ensures Lookup([f] + rest, k) == if k == f.key then Some(f.value) else Lookup(rest, k)
  {
    assert ([f] + rest)[1..] == rest;
  }

  lemma LookupTwo(a: Field, b: Field, rest: seq<Field>, k: string)
    ensures Lookup([a, b] + rest, k) ==
      if k == a.key then Some(a.value) else if k == b.key then Some(b.value) else Lookup(rest, k)
  {
    var all := [a, b] + rest;
    assert all[1..] == [b] + rest;
    LookupCons(b, rest, k);
  }

  lemma TwoAndTwo(a: Field, b: Field, c: Field, d: Field, rest: seq<Field>)
    ensures [a, b, c, d] + rest == [a, b] + ([c, d] + rest)
  {}

  /** The fields a wrapper starts with, when nothing after them has the key. */
  lemma LookupFour(a: Field, b: Field, c: Field, d: Field, rest: seq<Field>, k: string)
    requires Lookup(rest, k).None?
    ensures Lookup([a, b, c, d] + rest, k) ==
      if k == a.key then Some(a.value) else if k == b.key then Some(b.value)
      else if k == c.key then Some(c.value) else if k == d.key then Some(d.value) else None
  {
    var tail := [c, d] + rest;
    assert Lookup(tail, k) == if k == c.key then Some(c.value) else if k == d.key then Some(d.value) else None by {
      LookupTwo(c, d, rest, k);
    }
    TwoAndTwo(a, b, c, d, rest);
    LookupTwo(a, b, tail, k);
  }

  lemma WrapperHolds(node: Json, defs: seq<Field>, k: string)
    requires (forall f | f in defs :: f.key in DEFINITIONS) && k !in DEFINITIONS
    ensures Keyword(Wrapper(node, defs), k) ==
      if k == "type" then Some(Str("object")) else if k == "properties" then Some(Obj([Field("value", node)]))
      else if k == "required" then Some(Arr([Str("value")]))
      else if k == "additionalProperties" then Some(Bool(false)) else None
  {
    NotListed(defs, k);
    LookupFour(Field("type", Str("object")), Field("properties", Obj([Field("value", node)])),
      Field("required", Arr([Str("value")])), Field("additionalProperties", Bool(false)), defs, k);
  }

  lemma WrapperWrapsNode(node: Json, defs: seq<Field>)
    requires forall f | f in defs :: f.key in DEFINITIONS
    ensures Wraps(Wrapper(node, defs), node)
  {
    WrapperHolds(node, defs, "type");
    WrapperHolds(node, defs, "properties");
    WrapperHolds(node, defs, "required");
    WrapperHolds(node, defs, "additionalProperties");
    forall k | Foreign(k) ensures Lacks(Wrapper(node, defs), k) { WrapperHolds(node, defs, k); }
  }

  lemma WrapperWraps(schema: Json, key: string)
    requires schema.Obj?
    ensures Wraps(Wrap(schema, key), ValueNode(schema, key))
  {
    var defs := Definitions(schema, key);
    forall f | f in defs ensures f.key in DEFINITIONS {}
    WrapperWrapsNode(ValueNode(schema, key), defs);
    assert Wrap(schema, key) == Wrapper(ValueNode(schema, key), defs);
  }

  lemma {:induction false} NotListed(fs: seq<Field>, k: string)
    requires forall f | f in fs :: f.key != k
    ensures Lookup(fs, k).None?
  {
    if fs != [] { NotListed(fs[1..], k); }
  }

  lemma WrapperShape(fs: seq<Field>, w: Json, node: Json)
    requires Wraps(w, node)
    ensures ShapeOk(fs, w) <==> Lookup(fs, "value").Some?
  {
    ForeignBounds();
    var keys := ListKeyword(w, "required");
    assert keys == [Str("value")];
    assert Str("value") in keys;
  }

  lemma OneType(x: Json, n: Json, t: string)
    requires Keyword(n, "type") == Some(Str(t))
    ensures TypeOk(x, n) == MatchesType(x, Str(t))
  {}

  lemma WrapperFlat(x: Json, w: Json, node: Json, rules: Rules)
    requires Wraps(w, node)
    ensures FlatOk(x, w, rules) <==> x.Obj? && Lookup(x.fields, "value").Some?
  {
    OneType(x, w, "object");
    ForeignValues();
    FlatObject(x, w, rules);
    if x.Obj? { WrapperShape(x.fields, w, node); }
  }

  lemma FlatObject(x: Json, n: Json, rules: Rules)
    requires (TypeOk(x, n) <==> x.Obj?) && Keyword(n, "enum").None? && Keyword(n, "const").None?
    ensures FlatOk(x, n, rules) <==> x.Obj? && ShapeOk(x.fields, n)
  {}

  lemma WrapperProperty(w: Json, node: Json, k: string, rules: Rules)
    requires Wraps(w, node)
    ensures PropertySchemas(w, k, rules) == [if k == "value" then node else Bool(false)]
  {
    ForeignBounds();
    var props := [Field("value", node)];
    assert MapKeyword(w, "properties") == props && props[1..] == [];
    assert Lookup(props, k) == if k == "value" then Some(node) else None;
    assert [node] + [] == [node];
  }

  ghost predicate HoldsValues(root: Json, fs: seq<Field>, node: Json, d: nat, f: nat, rules: Rules) {
    forall x | x in fs :: x.key == "value" && Conforms(root, x.value, node, d, f, f, rules)
  }

  lemma {:induction false} WrapperFields(root: Json, fs: seq<Field>, w: Json, node: Json, d: nat, f: nat, rules: Rules)
    requires Wraps(w, node)
    ensures FieldsOk(root, fs, w, d, f, rules) <==> HoldsValues(root, fs, node, d, f, rules)
  {
    if fs != [] {
      WrapperFields(root, fs[1..], w, node, d, f, rules);
      WrapperField(root, fs[0], w, node, d, f, rules);
      HoldsStep(root, fs, node, d, f, rules);
    }
  }

  lemma HoldsStep(root: Json, fs: seq<Field>, node: Json, d: nat, f: nat, rules: Rules)
    requires fs != []
    ensures HoldsValues(root, fs, node, d, f, rules) <==>
      fs[0].key == "value" && Conforms(root, fs[0].value, node, d, f, f, rules)
      && HoldsValues(root, fs[1..], node, d, f, rules)
  {
    assert fs == [fs[0]] + fs[1..];
  }

  lemma WrapperField(root: Json, x: Field, w: Json, node: Json, d: nat, f: nat, rules: Rules)
    requires Wraps(w, node)
    ensures AllOk(root, x.value, PropertySchemas(w, x.key, rules), d, f, rules)
      <==> x.key == "value" && Conforms(root, x.value, node, d, f, f, rules)
  {
    WrapperProperty(w, node, x.key, rules);
    OneSchema(root, x.value, if x.key == "value" then node else Bool(false), d, f, rules);
  }

  lemma OneSchema(root: Json, v: Json, s: Json, d: nat, f: nat, rules: Rules)
    ensures AllOk(root, v, [s], d, f, rules) == Conforms(root, v, s, d, f, f, rules)
  {
    assert [s][1..] == [];
    assert AllOk(root, v, [], d, f, rules);
  }

  lemma PlainDecided(root: Json, x: Json, n: Json, d: nat, c: nat, f: nat, rules: Rules)
    requires d > 0 && n.Obj? && Keyword(n, "$ref").None? && Keyword(n, "nullable").None?
    ensures Conforms(root, x, n, d, c, f, rules) <==> BodyOk(root, x, n, d, c, f, rules)
  {}

  lemma WrapperDecided(x: Json, w: Json, node: Json, d: nat, f: nat, rules: Rules)
    requires Wraps(w, node)
    ensures Conforms(w, x, w, d + 1, f, f, rules) <==>
      x.Obj? && Lookup(x.fields, "value").Some? && HoldsValues(w, x.fields, node, d, f, rules)
  {
    ForeignValues();
    PlainDecided(w, x, w, d + 1, f, f, rules);
    WrapperBody(x, w, node, d, f, rules);
  }

  lemma WrapperCombinators(x: Json, w: Json, node: Json, d: nat, f: nat, rules: Rules)
    requires Wraps(w, node)
    ensures CombinatorsOk(w, x, w, d, f, f, rules)
  {
    ForeignCombinators();
    NoCombinators(w, x, w, d, f, f, rules);
  }

  lemma WrapperBody(x: Json, w: Json, node: Json, d: nat, f: nat, rules: Rules)
    requires Wraps(w, node)
    ensures BodyOk(w, x, w, d + 1, f, f, rules) <==>
      x.Obj? && Lookup(x.fields, "value").Some? && HoldsValues(w, x.fields, node, d, f, rules)
  {
    WrapperCombinators(x, w, node, d + 1, f, rules);
    WrapperFlat(x, w, node, rules);
    if x.Obj? { WrapperFields(w, x.fields, w, node, d, f, rules); }
    BodyParts(w, x, w, d, f, f, rules);
  }

  lemma BodyParts(root: Json, x: Json, n: Json, d: nat, c: nat, f: nat, rules: Rules)
    requires CombinatorsOk(root, x, n, d + 1, c, f, rules)
    requires !x.Obj? ==> !FlatOk(x, n, rules)
    ensures BodyOk(root, x, n, d + 1, c, f, rules) <==>
      x.Obj? && FlatOk(x, n, rules) && FieldsOk(root, x.fields, n, d, f, rules)
  {}

  /* ------------------------------------------------------------------ the theorems */

  function Holding(v: Json): Json { Obj([Field("value", v)]) }

  /** At every limit: one level of depth for the wrapper, one reference when the root moved. */
  lemma WrappedDecides(schema: Json, key: string, rules: Rules, p: string -> bool, v: Json, d: nat, f: nat)
    requires Closed(schema, key, rules, p) && PlainDecoding(rules)
    requires FirstFree(key, ROOT_BASE, Keyword(schema, "$defs"))
    ensures Conforms(Wrap(schema, key), Holding(v), Wrap(schema, key), d + 1, f, f, rules) == (
      if Relocates(schema) then f > 0 && Conforms(schema, v, schema, d, f - 1, f, rules)
      else Conforms(schema, v, schema, d, f, f, rules))
  {
    WrapperWraps(schema, key);
    WrapperDecided(Holding(v), Wrap(schema, key), ValueNode(schema, key), d, f, rules);
    ValueDecided(schema, key, rules, p, v, d, f);
    var fs := Holding(v).fields;
    assert fs[0] in fs;
  }

  lemma OneValue(fs: seq<Field>, k: string)
    requires DistinctKeys(fs) && fs != [] && forall x | x in fs :: x.key == k
    ensures fs == [Field(k, fs[0].value)]
  {
    assert |fs| >= 2 ==> fs[0].key != fs[1].key;
    forall i | 0 <= i < |fs| ensures fs[i].key == k { assert fs[i] in fs; }
  }

  /** Whatever the wrapped schema accepts holds one value and nothing else. */
  lemma WrappedShape(schema: Json, key: string, rules: Rules, x: Json)
    requires schema.Obj? && Valid(x, Wrap(schema, key), rules)
    requires x.Obj? ==> DistinctKeys(x.fields)
    ensures x.Obj? && |x.fields| == 1 && x == Holding(x.fields[0].value)
  {
    WrapperWraps(schema, key);
    WrapperDecided(x, Wrap(schema, key), ValueNode(schema, key), MAX_VALUE_DEPTH, MAX_REF_CHAIN, rules);
    OneValue(x.fields, "value");
  }

  /**
   Wrapping preserves meaning: with one level and one reference to spare, a value conforms to a
   schema exactly when the object holding it conforms to the wrapped schema.  `p` singles out
   references that evaluation does not leave; only those have to be carried along.
   */
  lemma WrappingPreservesMeaning(schema: Json, key: string, rules: Rules, p: string -> bool, v: Json)
    requires Closed(schema, key, rules, p) && PlainDecoding(rules)
    requires FirstFree(key, ROOT_BASE, Keyword(schema, "$defs"))
    requires Within(schema, v, schema, MAX_VALUE_DEPTH, MAX_REF_CHAIN - 1, MAX_REF_CHAIN, rules)
    ensures Valid(Holding(v), Wrap(schema, key), rules) <==> Valid(v, schema, rules)
  {
    var run := Run(schema, MAX_REF_CHAIN, rules);
    WrappedDecides(schema, key, rules, p, v, MAX_VALUE_DEPTH, MAX_REF_CHAIN);
    run.Enough(v, schema, MAX_VALUE_DEPTH, MAX_REF_CHAIN - 1, MAX_VALUE_DEPTH + 1, MAX_REF_CHAIN);
    run.Enough(v, schema, MAX_VALUE_DEPTH, MAX_REF_CHAIN - 1, MAX_VALUE_DEPTH, MAX_REF_CHAIN);
  }

  /** In particular when every reference survives, what it names is a schema, and every definition is read alike. */
  lemma WrappablePreservesMeaning(schema: Json, key: string, rules: Rules, v: Json)
    requires Wrappable(schema, key, rules) && PlainDecoding(rules)
    requires FirstFree(key, ROOT_BASE, Keyword(schema, "$defs"))
    requires Within(schema, v, schema, MAX_VALUE_DEPTH, MAX_REF_CHAIN - 1, MAX_REF_CHAIN, rules)
    ensures Valid(Holding(v), Wrap(schema, key), rules) <==> Valid(v, schema, rules)
  {
    WrappableCloses(schema, key, rules);
    WrappingPreservesMeaning(schema, key, rules, Landed(schema, key, rules), v);
  }

  /* -------------------------------------------------------------------- unwrapping */

  /** `unwrapStructuredContent`, for an answer to a schema that was wrapped. */
  function Unwrap(content: string, nm: Numerals): string {
    match Parse(content, nm)
    case Some(Obj(fs)) => (match Lookup(fs, "value") case Some(v) => Print(v, nm) case None => content)
    case _ => content
  }

  /** Unwrapping the printed answer gives the printed value, which reads back as that value. */
  lemma UnwrapGivesValue(v: Json, nm: Numerals)
    requires Faithful(nm) && WellFormed(v, nm)
    ensures Unwrap(Print(Holding(v), nm), nm) == Print(v, nm)
    ensures Parse(Unwrap(Print(Holding(v), nm), nm), nm) == Some(v)
  {
    ParseUndoesPrint(Holding(v), nm);
    ParseUndoesPrint(v, nm);
  }
}
