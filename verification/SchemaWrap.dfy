/**
 Wrapping a schema whose root is not an object, and unwrapping the answer
 (packages/model-openai/src/openai-model.adapter.ts).  Definitions move to the new root and
 references into the old root are pointed at a copy of it.
 */
module SchemaWrap {
  import opened Base
  import opened JsonText
  import opened Canonical
  import opened SchemaConformance

  predicate DataKeyword(k: string) { k in ["const", "enum", "default", "examples"] }

  predicate SchemaMap(k: string) {
    k in ["properties", "patternProperties", "$defs", "definitions", "dependentSchemas"]
  }

  /* ---------------------------------------------------------------- rewriting */

  /** `rewriteRefs`: the schema with every reference passed through `m`. */
  function Rewrite(node: Json, m: string -> string): Json
    decreases node, 0
  {
    match node
    case Arr(items) => Arr(RewriteAll(items, m))
    case Obj(fs) => Obj(RewriteFields(fs, m))
    case _ => node
  }

  function RewriteAll(items: seq<Json>, m: string -> string): (r: seq<Json>)
    ensures |r| == |items| && forall i :: 0 <= i < |r| ==> r[i] == Rewrite(items[i], m)
    decreases items, 0
  {
    if items == [] then [] else [Rewrite(items[0], m)] + RewriteAll(items[1..], m)
  }

  function RewriteFields(fs: seq<Field>, m: string -> string): (r: seq<Field>)
    ensures |r| == |fs|
    decreases fs, 0
  {
    if fs == [] then []
    else [Field(fs[0].key, RewriteValue(fs[0].key, fs[0].value, m))] + RewriteFields(fs[1..], m)
  }

  /** What becomes of the value of one keyword. */
  function RewriteValue(k: string, v: Json, m: string -> string): Json
    decreases v, 1
  {
    if k == "$ref" && v.Str? then Str(m(v.s))
    else if DataKeyword(k) then v
    else if SchemaMap(k) && v.Obj? then Obj(RewriteEntries(v.fields, m))
    else Rewrite(v, m)
  }

  function RewriteEntries(fs: seq<Field>, m: string -> string): (r: seq<Field>)
    ensures |r| == |fs|
    decreases fs, 0
  {
    if fs == [] then [] else [Field(fs[0].key, Rewrite(fs[0].value, m))] + RewriteEntries(fs[1..], m)
  }

  function MapOption(o: Option<Json>, m: string -> string): Option<Json> {
    match o case None => None case Some(v) => Some(Rewrite(v, m))
  }

  lemma {:induction false} LookupRewritten(fs: seq<Field>, k: string, m: string -> string)
    ensures Lookup(RewriteFields(fs, m), k) ==
      match Lookup(fs, k) { case None => None case Some(v) => Some(RewriteValue(k, v, m)) }
  {
    if fs != [] { LookupRewritten(fs[1..], k, m); }
  }

  lemma {:induction false} LookupEntries(fs: seq<Field>, k: string, m: string -> string)
    ensures Lookup(RewriteEntries(fs, m), k) == MapOption(Lookup(fs, k), m)
  {
    if fs != [] { LookupEntries(fs[1..], k, m); }
  }

  /* ------------------------------------------------- where a reference may land */

  /** How the rewriting treats a place inside a schema. */
  datatype Kind = Schema | Map | Data | Text

  function RewriteAt(kind: Kind, node: Json, m: string -> string): Json {
    match kind
    case Schema => Rewrite(node, m)
    case Map => if node.Obj? then Obj(RewriteEntries(node.fields, m)) else Rewrite(node, m)
    case Data => node
    case Text => if node.Str? then Str(m(node.s)) else node
  }

  /** The treatment of the child `c` found under `key`. */
  function KindOf(kind: Kind, node: Json, key: string, c: Json): Kind {
    match kind
    case Schema =>
      if !node.Obj? then Schema
      else if key == "$ref" && c.Str? then Text
      else if DataKeyword(key) then Data
      else if SchemaMap(key) && c.Obj? then Map
      else Schema
    case Map => Schema
    case _ => Data
  }

  /** The treatment of the place a path leads to, if it leads anywhere. */
  function KindAt(kind: Kind, node: Json, path: seq<string>): Option<Kind>
    decreases |path|
  {
    if path == [] then Some(kind)
    else
      match Child(node, path[0])
      case None => None
      case Some(c) => KindAt(KindOf(kind, node, path[0], c), c, path[1..])
  }

  lemma MemberRewritten(kind: Kind, fs: seq<Field>, key: string, m: string -> string)
    ensures Child(RewriteAt(kind, Obj(fs), m), key) ==
      match Lookup(fs, key) { case None => None case Some(c) => Some(RewriteAt(KindOf(kind, Obj(fs), key, c), c, m)) }
  {
    match kind
    case Schema => LookupRewritten(fs, key, m);
    case Map => LookupEntries(fs, key, m);
    case _ =>
  }

  lemma ChildRewritten(kind: Kind, node: Json, key: string, m: string -> string)
    ensures Child(RewriteAt(kind, node, m), key) ==
      match Child(node, key) { case None => None case Some(c) => Some(RewriteAt(KindOf(kind, node, key, c), c, m)) }
  {
    match node
    case Obj(fs) => MemberRewritten(kind, fs, key, m);
    case _ =>
  }

  /** Rewriting commutes with following a path. */
  lemma {:induction false} DescendRewritten(kind: Kind, node: Json, path: seq<string>, m: string -> string)
    ensures Descend(node, path).Some? <==> KindAt(kind, node, path).Some?
    ensures Descend(node, path).Some? ==> (Descend(RewriteAt(kind, node, m), path)
      == Some(RewriteAt(KindAt(kind, node, path).value, Descend(node, path).value, m)))
    decreases |path|
  {
    if path != [] {
      ChildRewritten(kind, node, path[0], m);
      match Child(node, path[0]) {
        case None =>
        case Some(c) => DescendRewritten(KindOf(kind, node, path[0], c), c, path[1..], m);
      }
    }
  }

  /* ------------------------------------------------------------------ wrapping */

  predicate StartsWith(t: string, prefix: string) { prefix <= t }

  predicate Local(ref: string) { ref == "#" || StartsWith(ref, "#/") }

  /** References that pointed into the old root, definitions aside. */
  predicate Moves(ref: string) {
    Local(ref) && !StartsWith(ref, "#/$defs/") && !StartsWith(ref, "#/definitions/")
  }

  function MoveRef(ref: string, rootKey: string): string {
    if Moves(ref) then "#/$defs/" + rootKey + ref[1..] else ref
  }

  function Mover(rootKey: string): string -> string { ref => MoveRef(ref, rootKey) }

  /** Whether rewriting `node` meets a reference that moves. */
  predicate AnyMoves(node: Json)
    decreases node
  {
    match node
    case Arr(items) => exists x | x in items :: AnyMoves(x)
    case Obj(fs) => exists f | f in fs :: FieldMoves(f)
    case _ => false
  }

  predicate FieldMoves(f: Field)
    decreases f
  {
    if f.key == "$ref" && f.value.Str? then Moves(f.value.s)
    else if DataKeyword(f.key) then false
    else if SchemaMap(f.key) && f.value.Obj? then exists g | g in f.value.fields :: AnyMoves(g.value)
    else AnyMoves(f.value)
  }

  predicate OptionMoves(o: Option<Json>) { o.Some? && AnyMoves(o.value) }

  function Inner(schema: Json): (r: Json)
    requires schema.Obj?
    ensures r.Obj?
  {
    Obj(Without(Without(schema.fields, "$defs"), "definitions"))
  }

  predicate Relocates(schema: Json)
    requires schema.Obj?
  {
    || AnyMoves(Inner(schema))
    || OptionMoves(Keyword(schema, "$defs"))
    || OptionMoves(Keyword(schema, "definitions"))
  }

  function Decimals(n: nat): string {
    if n < 10 then [('0' as int + n) as char] else Decimals(n / 10) + [('0' as int + n % 10) as char]
  }

  function CandidateKey(base: string, n: nat): string {
    if n < 2 then base else base + "_" + Decimals(n)
  }

  function Wrapper(value: Json, defs: seq<Field>): Json {
    Obj([Field("type", Str("object")),
         Field("properties", Obj([Field("value", value)])),
         Field("required", Arr([Str("value")])),
         Field("additionalProperties", Bool(false))] + defs)
  }

  function Optional(key: string, o: Option<Json>): seq<Field> {
    match o case None => [] case Some(v) => [Field(key, v)]
  }

  const ROOT_BASE := "wrapped_root"

  predicate Taken(key: string, defs: Option<Json>) {
    defs.Some? && defs.value.Obj? && Lookup(defs.value.fields, key).Some?
  }

  /** The first of base, base_2, base_3, ... that names no definition. */
  ghost predicate FirstFree(key: string, base: string, defs: Option<Json>) {
    && !Taken(key, defs)
    && exists n: nat :: (n >= 1 && key == CandidateKey(base, n)
      && forall k: nat :: 1 <= k < n ==> Taken(CandidateKey(base, k), defs))
  }

  /** The definitions of the wrapper once the old root joins them. */
  function JoinedDefs(schema: Json, rootKey: string): seq<Field>
    requires schema.Obj?
  {
    var m := Mover(rootKey);
    var kept := match Keyword(schema, "$defs") case Some(Obj(fs)) => RewriteFields(fs, m) case _ => [];
    kept + [Field(rootKey, Rewrite(Inner(schema), m))]
  }

  function Definitions(schema: Json, rootKey: string): seq<Field>
    requires schema.Obj?
  {
    var defs, legacy := Keyword(schema, "$defs"), Keyword(schema, "definitions");
    if !Relocates(schema) then Optional("$defs", defs) + Optional("definitions", legacy)
    else
      [Field("$defs", Obj(JoinedDefs(schema, rootKey)))]
      + Optional("definitions", MapOption(legacy, Mover(rootKey)))
  }

  /** `wrapSchema`, given the key that `uniqueKey` picked for the old root. */
  function Wrap(schema: Json, rootKey: string): Json
    requires schema.Obj?
  {
    Wrapper(
      if Relocates(schema) then Obj([Field("$ref", Str("#/$defs/" + rootKey))]) else Inner(schema),
      Definitions(schema, rootKey))
  }

  /* ---------------------------------------------------- the same, step by step */

  lemma {:induction false} DecimalsRead(n: nat)
    ensures Digits(Decimals(n)) && Decimal(Decimals(n)) == n
  {
    if n >= 10 {
      DecimalsRead(n / 10);
      var t := Decimals(n);
      assert t[..|t| - 1] == Decimals(n / 10);
    } else {
      assert Decimals(n)[..0] == "";
    }
  }

  lemma CandidatesDiffer(base: string, i: nat, j: nat)
    requires 1 <= i < j
    ensures CandidateKey(base, i) != CandidateKey(base, j)
  {
    DecimalsRead(i); DecimalsRead(j);
    if i >= 2 {
      var a, b := CandidateKey(base, i), CandidateKey(base, j);
      assert a[|base| + 1..] == Decimals(i) && b[|base| + 1..] == Decimals(j);
    }
  }

  /** `uniqueKey`. */
  method UniqueKey(base: string, defs: Option<Json>) returns (key: string)
    ensures FirstFree(key, base, defs)
  {
    var fields := match defs case Some(Obj(fs)) => fs case _ => [];
    key := base;
    var n := 1;
    ghost var left := Keys(fields);
    while Lookup(fields, key).Some?
      invariant n >= 1 && key == CandidateKey(base, n)
      invariant forall k: nat :: 1 <= k < n ==> Taken(CandidateKey(base, k), defs)
      invariant forall k: nat :: k >= n && CandidateKey(base, k) in Keys(fields) ==> CandidateKey(base, k) in left
      decreases |left|
    {
      assert key in Keys(fields) by { assert Field(key, Lookup(fields, key).value) in fields; }
      forall k: nat | k >= n + 1 && CandidateKey(base, k) in Keys(fields)
        ensures CandidateKey(base, k) in left - {key}
      {
        CandidatesDiffer(base, n, k);
      }
      left := left - {key};
      n := n + 1;
      key := base + "_" + Decimals(n);
    }
  }

  /** Rewrites a schema and remembers whether any reference moved. */
  class RefMover {
    const rootKey: string
    var moved: bool

    constructor (rootKey: string)
      ensures this.rootKey == rootKey && !moved
    {
      this.rootKey, moved := rootKey, false;
    }

    method MapRef(ref: string) returns (r: string)
      modifies this`moved
      ensures r == MoveRef(ref, rootKey) && moved == (old(moved) || Moves(ref))
    {
      if !Local(ref) || StartsWith(ref, "#/$defs/") || StartsWith(ref, "#/definitions/") { return ref; }
      moved := true;
      r := "#/$defs/" + rootKey + ref[1..];
    }

    method RewriteRefs(node: Json) returns (out: Json)
      modifies this`moved
      ensures out == Rewrite(node, Mover(rootKey)) && moved == (old(moved) || AnyMoves(node))
      decreases node, 1
    {
      match node {
        case Arr(items) =>
          var rs: seq<Json> := [];
          for i := 0 to |items|
            invariant |rs| == i && forall k :: 0 <= k < i ==> rs[k] == Rewrite(items[k], Mover(rootKey))
            invariant moved == (old(moved) || exists x | x in items[..i] :: AnyMoves(x))
          {
            assert items[..i + 1] == items[..i] + [items[i]];
            var r := RewriteRefs(items[i]);
            rs := rs + [r];
          }
          assert items[..|items|] == items && rs == RewriteAll(items, Mover(rootKey));
          out := Arr(rs);
        case Obj(fs) =>
          var rs: seq<Field> := [];
          for i := 0 to |fs|
            invariant rs == RewriteFields(fs[..i], Mover(rootKey))
            invariant moved == (old(moved) || exists f | f in fs[..i] :: FieldMoves(f))
          {
            assert fs[..i + 1] == fs[..i] + [fs[i]];
            var r := RewriteField(fs[i]);
            FieldsSnoc(fs[..i], fs[i], Mover(rootKey));
            rs := rs + [Field(fs[i].key, r)];
          }
          assert fs[..|fs|] == fs;
          out := Obj(rs);
        case _ => out := node;
      }
    }

    method RewriteField(f: Field) returns (out: Json)
      modifies this`moved
      ensures out == RewriteValue(f.key, f.value, Mover(rootKey)) && moved == (old(moved) || FieldMoves(f))
      decreases f, 0
    {
      if f.key == "$ref" && f.value.Str? {
        var r := MapRef(f.value.s);
        out := Str(r);
      } else if DataKeyword(f.key) {
        out := f.value;
      } else if SchemaMap(f.key) && f.value.Obj? {
        var fs, rs := f.value.fields, [];
        for i := 0 to |fs|
          invariant rs == RewriteEntries(fs[..i], Mover(rootKey))
          invariant moved == (old(moved) || exists g | g in fs[..i] :: AnyMoves(g.value))
        {
          assert fs[..i + 1] == fs[..i] + [fs[i]];
          var r := RewriteRefs(fs[i].value);
          EntriesSnoc(fs[..i], fs[i], Mover(rootKey));
          rs := rs + [Field(fs[i].key, r)];
        }
        assert fs[..|fs|] == fs;
        out := Obj(rs);
      } else {
        out := RewriteRefs(f.value);
      }
    }
  }

  lemma {:induction false} FieldsSnoc(fs: seq<Field>, f: Field, m: string -> string)
    ensures RewriteFields(fs + [f], m) == RewriteFields(fs, m) + [Field(f.key, RewriteValue(f.key, f.value, m))]
  {
    if fs == [] {
      assert fs + [f] == [f];
    } else {
      assert (fs + [f])[1..] == fs[1..] + [f];
      FieldsSnoc(fs[1..], f, m);
    }
  }

  lemma {:induction false} EntriesSnoc(fs: seq<Field>, f: Field, m: string -> string)
    ensures RewriteEntries(fs + [f], m) == RewriteEntries(fs, m) + [Field(f.key, Rewrite(f.value, m))]
  {
    if fs == [] {
      assert fs + [f] == [f];
    } else {
      assert (fs + [f])[1..] == fs[1..] + [f];
      EntriesSnoc(fs[1..], f, m);
    }
  }

  method WrapSchema(schema: Json) returns (out: Json, ghost rootKey: string)
    requires schema.Obj?
    ensures out == Wrap(schema, rootKey) && FirstFree(rootKey, ROOT_BASE, Keyword(schema, "$defs"))
  {
    var defs, legacy := Keyword(schema, "$defs"), Keyword(schema, "definitions");
    var inner := Inner(schema);
    var key := UniqueKey(ROOT_BASE, defs);
    rootKey := key;
    var mover := new RefMover(key);
    var movedInner := mover.RewriteRefs(inner);
    var movedDefs, movedLegacy: Option<Json> := None, None;
    if defs.Some? {
      var d := mover.RewriteRefs(defs.value);
      movedDefs := Some(d);
    }
    if legacy.Some? {
      var l := mover.RewriteRefs(legacy.value);
      movedLegacy := Some(l);
    }
    if !mover.moved {
      return Wrapper(inner, Optional("$defs", defs) + Optional("definitions", legacy)), key;
    }
    var kept := match movedDefs case Some(Obj(fs)) => fs case _ => [];
    out := Wrapper(Obj([Field("$ref", Str("#/$defs/" + key))]),
      [Field("$defs", Obj(kept + [Field(key, movedInner)]))] + Optional("definitions", movedLegacy));
  }
}
