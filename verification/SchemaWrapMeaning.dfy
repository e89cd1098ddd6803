/**
 Wrapping a schema preserves meaning: an answer conforms to the wrapped schema exactly when it
 is an object holding one value that conforms to the original, and unwrapping returns that
 value.  This file says what the relocation does to definitions and to references.
 */
module SchemaWrapMeaning {
  import opened Base
  import opened JsonText
  import opened Canonical
  import opened SchemaConformance
  import opened SchemaWrap

  /* --------------------------------------------------------- visited references */

  /** Every reference the rewriting meets in `node` satisfies `p`. */
  ghost predicate Every(node: Json, p: string -> bool)
    decreases node
  {
    match node
    case Arr(items) => forall x | x in items :: Every(x, p)
    case Obj(fs) => forall f | f in fs :: EveryField(f, p)
    case _ => true
  }

  ghost predicate EveryField(f: Field, p: string -> bool)
    decreases f
  {
    if f.key == "$ref" && f.value.Str? then p(f.value.s)
    else if DataKeyword(f.key) then true
    else if SchemaMap(f.key) && f.value.Obj? then forall g | g in f.value.fields :: Every(g.value, p)
    else Every(f.value, p)
  }

  ghost predicate EveryAt(kind: Kind, node: Json, p: string -> bool) {
    match kind
    case Schema => Every(node, p)
    case Map => if node.Obj? then forall g | g in node.fields :: Every(g.value, p) else Every(node, p)
    case _ => true
  }

  lemma {:induction false} EveryBelow(kind: Kind, node: Json, path: seq<string>, p: string -> bool)
    requires EveryAt(kind, node, p) && KindAt(kind, node, path).Some?
    ensures Descend(node, path).Some?
    ensures EveryAt(KindAt(kind, node, path).value, Descend(node, path).value, p)
    decreases |path|
  {
    if path != [] {
      var c := Child(node, path[0]).value;
      if node.Obj? {
        var f := Field(path[0], c);
        assert f in node.fields;
        assert kind == Schema ==> EveryField(f, p);
      }
      EveryBelow(KindOf(kind, node, path[0], c), c, path[1..], p);
    }
  }

  lemma {:induction false} StillIsEvery(node: Json, p: string -> bool)
    requires forall r :: p(r) == !Moves(r)
    ensures !AnyMoves(node) ==> Every(node, p)
    decreases node
  {
    match node
    case Arr(items) =>
      forall x | x in items ensures !AnyMoves(x) ==> Every(x, p) { StillIsEvery(x, p); }
    case Obj(fs) =>
      forall f | f in fs ensures !FieldMoves(f) ==> EveryField(f, p) {
        StillIsEvery(f.value, p);
        if f.value.Obj? {
          forall g | g in f.value.fields ensures !AnyMoves(g.value) ==> Every(g.value, p) { StillIsEvery(g.value, p); }
        }
      }
    case _ =>
  }

  lemma {:induction false} EveryBoth(node: Json, p: string -> bool, q: string -> bool, both: string -> bool)
    requires forall r :: p(r) && q(r) ==> both(r)
    requires Every(node, p) && Every(node, q)
    ensures Every(node, both)
    decreases node
  {
    match node
    case Arr(items) =>
      forall x | x in items ensures Every(x, both) { EveryBoth(x, p, q, both); }
    case Obj(fs) =>
      forall f | f in fs ensures EveryField(f, both) {
        assert EveryField(f, p) && EveryField(f, q);
        if f.key == "$ref" && f.value.Str? {
        } else if DataKeyword(f.key) {
        } else if SchemaMap(f.key) && f.value.Obj? {
          forall g | g in f.value.fields ensures Every(g.value, both) { EveryBoth(g.value, p, q, both); }
        } else {
          EveryBoth(f.value, p, q, both);
        }
      }
    case _ =>
  }

  /** A schema without moving references is its own rewriting. */
  lemma {:induction false} StillIsUnchanged(node: Json, key: string)
    requires !AnyMoves(node)
    ensures Rewrite(node, Mover(key)) == node
    decreases node, 0
  {
    match node
    case Arr(items) =>
      forall i | 0 <= i < |items| ensures Rewrite(items[i], Mover(key)) == items[i] {
        assert items[i] in items;
        StillIsUnchanged(items[i], key);
      }
      assert RewriteAll(items, Mover(key)) == items;
    case Obj(fs) => StillFields(fs, key);
    case _ =>
  }

  lemma {:induction false} StillFields(fs: seq<Field>, key: string)
    requires forall f | f in fs :: !FieldMoves(f)
    ensures RewriteFields(fs, Mover(key)) == fs
    decreases fs, 0
  {
    if fs != [] {
      var f := fs[0];
      assert f in fs && !FieldMoves(f);
      if f.key == "$ref" && f.value.Str? {
      } else if DataKeyword(f.key) {
      } else if SchemaMap(f.key) && f.value.Obj? {
        StillEntries(f.value.fields, key);
      } else {
        StillIsUnchanged(f.value, key);
      }
      StillFields(fs[1..], key);
    }
  }

  lemma {:induction false} StillEntries(fs: seq<Field>, key: string)
    requires forall g | g in fs :: !AnyMoves(g.value)
    ensures RewriteEntries(fs, Mover(key)) == fs
    decreases fs, 0
  {
    if fs != [] {
      StillIsUnchanged(fs[0].value, key);
      StillEntries(fs[1..], key);
    }
  }

  /* ------------------------------------------------------- definitions, by their names */

  /**
   The rewriting reads the definitions as one schema, so a definition's name is taken for a keyword.
   The field comes out as a schema under a name would: nothing that has to move is taken for data,
   for a name, or for a reference it is not.
   */
  predicate ReadAlike(f: Field)
    decreases f
  {
    if f.key == "$ref" && f.value.Str? then !Moves(f.value.s)
    else if DataKeyword(f.key) then !AnyMoves(f.value)
    else if SchemaMap(f.key) && f.value.Obj? then forall g | g in f.value.fields :: ReadAlike(g)
    else true
  }

  lemma MovesApart(ref: string, key: string)
    ensures MoveRef(ref, key) == ref <==> !Moves(ref)
  {
    if Moves(ref) { assert |MoveRef(ref, key)| > |ref|; }
  }

  /** A schema is changed by the rewriting exactly when some reference in it moves. */
  lemma {:induction false} ChangedIffMoves(node: Json, key: string)
    ensures Rewrite(node, Mover(key)) == node <==> !AnyMoves(node)
    decreases node, 1
  {
    if !AnyMoves(node) {
      StillIsUnchanged(node, key);
    } else {
      match node
      case Arr(items) =>
        var x :| x in items && AnyMoves(x);
        var i :| 0 <= i < |items| && items[i] == x;
        ChangedIffMoves(x, key);
        assert RewriteAll(items, Mover(key))[i] != items[i];
      case Obj(fs) =>
        var f :| f in fs && FieldMoves(f);
        var i :| 0 <= i < |fs| && fs[i] == f;
        FieldChanges(f, key);
        FieldAt(fs, i, Mover(key));
      case _ =>
    }
  }

  lemma {:induction false} FieldChanges(f: Field, key: string)
    requires FieldMoves(f)
    ensures RewriteValue(f.key, f.value, Mover(key)) != f.value
    decreases f, 0
  {
    if f.key == "$ref" && f.value.Str? {
      MovesApart(f.value.s, key);
    } else if SchemaMap(f.key) && f.value.Obj? {
      var g :| g in f.value.fields && AnyMoves(g.value);
      var i :| 0 <= i < |f.value.fields| && f.value.fields[i] == g;
      ChangedIffMoves(g.value, key);
      EntryAt(f.value.fields, i, Mover(key));
    } else {
      ChangedIffMoves(f.value, key);
    }
  }

  lemma {:induction false} FieldAt(fs: seq<Field>, i: nat, m: string -> string)
    requires i < |fs|
    ensures RewriteFields(fs, m)[i] == Field(fs[i].key, RewriteValue(fs[i].key, fs[i].value, m))
  {
    if i > 0 { FieldAt(fs[1..], i - 1, m); }
  }

  lemma {:induction false} EntryAt(fs: seq<Field>, i: nat, m: string -> string)
    requires i < |fs|
    ensures RewriteEntries(fs, m)[i] == Field(fs[i].key, Rewrite(fs[i].value, m))
  {
    if i > 0 { EntryAt(fs[1..], i - 1, m); }
  }

  /** A definition arrives as the rewriting of a schema exactly when it is read alike. */
  lemma {:induction false} ArrivesIffReadAlike(f: Field, key: string)
    ensures RewriteValue(f.key, f.value, Mover(key)) == Rewrite(f.value, Mover(key)) <==> ReadAlike(f)
    decreases f
  {
    if f.key == "$ref" && f.value.Str? {
      MovesApart(f.value.s, key);
    } else if DataKeyword(f.key) {
      ChangedIffMoves(f.value, key);
    } else if SchemaMap(f.key) && f.value.Obj? {
      EntriesArrive(f.value.fields, key);
    }
  }

  /** A map of schemas reads as one schema exactly when each of its entries is read alike. */
  lemma {:induction false} EntriesArrive(gs: seq<Field>, key: string)
    ensures RewriteEntries(gs, Mover(key)) == RewriteFields(gs, Mover(key)) <==> forall g | g in gs :: ReadAlike(g)
    decreases gs
  {
    var m := Mover(key);
    forall i | 0 <= i < |gs|
      ensures RewriteEntries(gs, m)[i] == RewriteFields(gs, m)[i] <==> ReadAlike(gs[i])
    {
      EntryAt(gs, i, m);
      FieldAt(gs, i, m);
      ArrivesIffReadAlike(gs[i], key);
    }
    SameEverywhere(RewriteEntries(gs, m), RewriteFields(gs, m), gs);
  }

  lemma SameEverywhere(xs: seq<Field>, ys: seq<Field>, gs: seq<Field>)
    requires |xs| == |ys| == |gs| && forall i :: 0 <= i < |gs| ==> (xs[i] == ys[i] <==> ReadAlike(gs[i]))
    ensures xs == ys <==> forall g | g in gs :: ReadAlike(g)
  {
    if xs == ys {
      forall g | g in gs ensures ReadAlike(g) {
        var i :| 0 <= i < |gs| && gs[i] == g;
      }
    } else {
      var i :| 0 <= i < |gs| && xs[i] != ys[i];
      assert gs[i] in gs && !ReadAlike(gs[i]);
    }
  }

  /** The names under which any definition arrives: those of neither a data keyword nor a map of schemas. */
  lemma SafeNameIff(name: string)
    ensures (forall d: Json | d.Obj? :: ReadAlike(Field(name, d))) <==> !DataKeyword(name) && !SchemaMap(name)
  {
    if DataKeyword(name) || SchemaMap(name) {
      var d := Obj([Field("$ref", Str("#"))]);
      assert d.fields[0] in d.fields && FieldMoves(d.fields[0]) && !ReadAlike(d.fields[0]);
      assert !ReadAlike(Field(name, d));
    }
  }

  /** Read alike, a field moves as a keyword exactly when it moves as a schema. */
  lemma {:induction false} AlikeMoves(f: Field)
    requires ReadAlike(f)
    ensures FieldMoves(f) <==> AnyMoves(f.value)
    decreases f
  {
    if SchemaMap(f.key) && f.value.Obj? && !DataKeyword(f.key) {
      forall g | g in f.value.fields ensures FieldMoves(g) <==> AnyMoves(g.value) { AlikeMoves(g); }
    }
  }

  /* ------------------------------------------------------- references and their paths */

  const DEFINITIONS := ["$defs", "definitions"]

  /** Percent decoding leaves text without percent signs alone. */
  ghost predicate PlainDecoding(rules: Rules) {
    forall t {:trigger rules.decode(t)} :: '%' !in t ==> rules.decode(t) == Some(t)
  }

  predicate Plain(t: string) { forall i :: 0 <= i < |t| ==> t[i] != '/' && t[i] != '%' && t[i] != '~' }

  lemma DecimalsPlain(n: nat)
    ensures Plain(Decimals(n))
  {}

  lemma KeyPlain(key: string, defs: Option<Json>)
    requires FirstFree(key, ROOT_BASE, defs)
    ensures Plain(key)
  {
    var n: nat :| n >= 1 && key == CandidateKey(ROOT_BASE, n);
    DecimalsPlain(n);
  }

  lemma {:induction false} SplitPlain(a: string, rest: string)
    requires Plain(a)
    ensures Split(a) == [a]
    ensures Split(a + ("/" + rest)) == [a] + Split(rest)
  {
    if a == "" {
      assert a + ("/" + rest) == "/" + rest;
      assert ("/" + rest)[1..] == rest;
    } else {
      assert (a + ("/" + rest))[1..] == a[1..] + ("/" + rest);
      SplitPlain(a[1..], rest);
      assert [a[0]] + a[1..] == a;
    }
  }

  lemma {:induction false} TildeFree(t: string, code: char, plain: char)
    requires Plain(t)
    ensures ReplaceTilde(t, code, plain) == t
  {
    if t != "" { TildeFree(t[1..], code, plain); }
  }

  lemma SegmentPlain(t: string, rules: Rules)
    requires Plain(t) && PlainDecoding(rules)
    ensures Segment(t, rules) == Some(t)
  {
    assert '%' !in t;
    assert rules.decode(t) == Some(t);
    TildeFree(t, '1', '/'); TildeFree(t, '0', '~');
  }

  lemma {:induction false} SegmentsAppend(xs: seq<string>, ys: seq<string>, rules: Rules)
    requires Segments(xs, rules).Some?
    ensures Segments(xs + ys, rules) ==
      match Segments(ys, rules) { case None => None case Some(p) => Some(Segments(xs, rules).value + p) }
  {
    if xs == [] {
      assert xs + ys == ys;
      if Segments(ys, rules).Some? { assert [] + Segments(ys, rules).value == Segments(ys, rules).value; }
    } else {
      assert (xs + ys)[1..] == xs[1..] + ys;
      SegmentsAppend(xs[1..], ys, rules);
      if Segments(ys, rules).Some? {
        var s, rest, p := Segment(xs[0], rules).value, Segments(xs[1..], rules).value, Segments(ys, rules).value;
        assert [s] + (rest + p) == ([s] + rest) + p;
      }
    }
  }

  lemma TwoSegments(a: string, b: string, rules: Rules)
    requires Plain(a) && Plain(b) && PlainDecoding(rules)
    ensures Segments([a], rules) == Some([a]) && Segments([a, b], rules) == Some([a, b])
  {
    SegmentPlain(a, rules); SegmentPlain(b, rules);
    assert [a][1..] == [] && [b][1..] == [] && [a] + [] == [a] && [b] + [] == [b];
    assert Segments([b], rules) == Some([b]);
    assert [a, b][1..] == [b] && [a] + [b] == [a, b];
  }

  /** The path of a moved reference runs through the old root's new place. */
  lemma MovedPath(ref: string, key: string, rules: Rules)
    requires Moves(ref) && Plain(key) && PlainDecoding(rules)
    ensures RefPath(MoveRef(ref, key), rules) ==
      match RefPath(ref, rules) { case None => None case Some(path) => Some(["$defs", key] + path) }
  {
    TwoSegments("$defs", key, rules);
    if ref == "#" {
      RootText(key);
      LocalPath(ref, key, "$defs" + ("/" + key), rules);
      MovedSplit(key);
      assert ["$defs", key] + [] == ["$defs", key];
    } else {
      MovedText(ref, key);
      LocalPath(ref, key, "$defs" + ("/" + (key + ("/" + ref[2..]))), rules);
      MovedSplitDeep(key, ref[2..]);
      SegmentsAppend(["$defs", key], Split(ref[2..]), rules);
    }
  }

  lemma RootText(key: string)
    ensures "#/" + ("$defs" + ("/" + key)) == "#/$defs/" + key + "#"[1..]
  {}

  lemma MovedText(ref: string, key: string)
    requires |ref| >= 2 && ref[..2] == "#/"
    ensures "#/" + ("$defs" + ("/" + (key + ("/" + ref[2..])))) == "#/$defs/" + key + ref[1..]
  {
    assert ref[..2][1] == '/';
    assert ref[1..] == "/" + ref[2..];
  }

  lemma MovedSplit(key: string)
    requires Plain(key)
    ensures Split("$defs" + ("/" + key)) == ["$defs", key]
  {
    SplitPlain("$defs", key);
    SplitPlain(key, "");
    assert ["$defs"] + [key] == ["$defs", key];
  }

  lemma MovedSplitDeep(key: string, rest: string)
    requires Plain(key)
    ensures Split("$defs" + ("/" + (key + ("/" + rest)))) == ["$defs", key] + Split(rest)
  {
    SplitPlain("$defs", key + ("/" + rest));
    SplitPlain(key, rest);
    assert ["$defs"] + ([key] + Split(rest)) == ["$defs", key] + Split(rest);
  }

  lemma LocalPath(ref: string, key: string, tail: string, rules: Rules)
    requires Moves(ref) && "#/" + tail == "#/$defs/" + key + ref[1..]
    ensures RefPath(MoveRef(ref, key), rules) == Segments(Split(tail), rules)
  {
    assert ("#/" + tail)[..2] == "#/" && ("#/" + tail)[2..] == tail;
  }

  lemma StayingText(ref: string, word: string)
    requires "#/" + word + "/" <= ref
    ensures ref != "#" && |ref| >= 2 && ref[..2] == "#/" && ref[2..] == word + ("/" + ref[|word| + 3..])
  {
    var front, rest := "#/" + word + "/", ref[|word| + 3..];
    assert ref == front + rest;
    assert front == "#/" + (word + "/");
    assert ref[2..] == (word + "/") + rest;
  }

  /** A reference that stays names its container first, and something inside it. */
  lemma StayingPath(ref: string, rules: Rules)
    requires !Moves(ref) && PlainDecoding(rules) && RefPath(ref, rules).Some?
    ensures |RefPath(ref, rules).value| >= 2 && RefPath(ref, rules).value[0] in DEFINITIONS
  {
    var word := if StartsWith(ref, "#/$defs/") then "$defs" else "definitions";
    var rest := ref[|word| + 3..];
    assert "#/$defs/" == "#/" + "$defs" + "/" && "#/definitions/" == "#/" + "definitions" + "/";
    StayingText(ref, word);
    SplitPlain(word, rest);
    TwoSegments(word, word, rules);
    SegmentsAppend([word], Split(rest), rules);
  }

  /* ---------------------------------------------------------- lookups in the wrapper */

  lemma {:induction false} WithoutLookup(fs: seq<Field>, gone: string, k: string)
    requires k != gone
    ensures Lookup(Without(fs, gone), k) == Lookup(fs, k)
  {
    if fs != [] { WithoutLookup(fs[1..], gone, k); }
  }

  lemma InnerKeyword(schema: Json, k: string)
    requires schema.Obj? && k !in DEFINITIONS
    ensures Keyword(Inner(schema), k) == Keyword(schema, k)
  {
    WithoutLookup(schema.fields, "$defs", k);
    WithoutLookup(Without(schema.fields, "$defs"), "definitions", k);
  }

  lemma WrapperKeyword(value: Json, defs: seq<Field>, k: string)
    requires k in DEFINITIONS
    ensures Keyword(Wrapper(value, defs), k) == Lookup(defs, k)
  {
    var head := [Field("type", Str("object")), Field("properties", Obj([Field("value", value)])),
      Field("required", Arr([Str("value")])), Field("additionalProperties", Bool(false))];
    assert forall f | f in head :: f.key != k;
    LookupAppend(head, defs, k);
  }

  lemma WrappedKeyword(schema: Json, key: string, k: string)
    requires schema.Obj? && k in DEFINITIONS
    ensures Keyword(Wrap(schema, key), k) ==
      if !Relocates(schema) then Keyword(schema, k)
      else if k == "$defs" then Some(Obj(JoinedDefs(schema, key)))
      else MapOption(Keyword(schema, k), Mover(key))
  {
    var value := if Relocates(schema) then Obj([Field("$ref", Str("#/$defs/" + key))]) else Inner(schema);
    WrapperKeyword(value, Definitions(schema, key), k);
    var legacy := Keyword(schema, "definitions");
    if Relocates(schema) {
      LookupAppend([Field("$defs", Obj(JoinedDefs(schema, key)))],
        Optional("definitions", MapOption(legacy, Mover(key))), k);
    } else {
      LookupAppend(Optional("$defs", Keyword(schema, "$defs")), Optional("definitions", legacy), k);
    }
  }

  /** The definition a keyword holds under a name. */
  function Definition(schema: Json, k: string, name: string): Option<Json> {
    match Keyword(schema, k) case None => None case Some(d) => Child(d, name)
  }

  /** The old root is told apart from the definitions it joins. */
  lemma JoinedDefinition(schema: Json, key: string, name: string)
    requires schema.Obj? && (Keyword(schema, "$defs").Some? ==> Keyword(schema, "$defs").value.Obj?)
    requires name == key ==> Definition(schema, "$defs", name).Some?
    ensures Lookup(JoinedDefs(schema, key), name) ==
      match Keyword(schema, "$defs") { case None => None case Some(d) => Child(Rewrite(d, Mover(key)), name) }
  {
    var root := [Field(key, Rewrite(Inner(schema), Mover(key)))];
    match Keyword(schema, "$defs")
    case Some(Obj(fs)) =>
      LookupRewritten(fs, name, Mover(key));
      LookupAppend(RewriteFields(fs, Mover(key)), root, name);
    case _ => LookupAppend([], root, name);
  }

  /** What the definitions keywords of the wrapper hold, the old root aside. */
  lemma WrappedDefinitions(schema: Json, key: string, k: string, name: string)
    requires schema.Obj? && k in DEFINITIONS
    requires k == "$defs" && Relocates(schema) ==>
      && (Keyword(schema, "$defs").Some? ==> Keyword(schema, "$defs").value.Obj?)
      && (name == key ==> Definition(schema, k, name).Some?)
    ensures Definition(Wrap(schema, key), k, name) ==
      match Keyword(schema, k) { case None => None case Some(d) => Child(Rewrite(d, Mover(key)), name) }
  {
    WrappedKeyword(schema, key, k);
    if !Relocates(schema) {
      if Keyword(schema, k).Some? { StillIsUnchanged(Keyword(schema, k).value, key); }
    } else if k == "$defs" {
      JoinedDefinition(schema, key, name);
    }
  }

  lemma JoinedRoot(schema: Json, key: string)
    requires schema.Obj? && !Taken(key, Keyword(schema, "$defs"))
    ensures Lookup(JoinedDefs(schema, key), key) == Some(Rewrite(Inner(schema), Mover(key)))
  {
    var root := [Field(key, Rewrite(Inner(schema), Mover(key)))];
    match Keyword(schema, "$defs")
    case Some(Obj(fs)) =>
      LookupRewritten(fs, key, Mover(key));
      LookupAppend(RewriteFields(fs, Mover(key)), root, key);
    case _ => LookupAppend([], root, key);
  }

  /** The old root sits under its key. */
  lemma WrappedRoot(schema: Json, key: string)
    requires schema.Obj? && Relocates(schema) && !Taken(key, Keyword(schema, "$defs"))
    ensures Descend(Wrap(schema, key), ["$defs", key]) == Some(Rewrite(Inner(schema), Mover(key)))
  {
    WrappedKeyword(schema, key, "$defs");
    JoinedRoot(schema, key);
    TwoSteps(Wrap(schema, key), "$defs", Obj(JoinedDefs(schema, key)), key);
  }

  lemma TwoSteps(node: Json, a: string, mid: Json, b: string)
    requires Child(node, a) == Some(mid)
    ensures Descend(node, [a, b]) == Child(mid, b)
  {
    assert [a, b][1..] == [b] && [b][1..] == [];
    assert Descend(mid, [b]) == Child(mid, b);
  }

  lemma {:induction false} DescendAppend(node: Json, p: seq<string>, q: seq<string>)
    requires Descend(node, p).Some?
    ensures Descend(node, p + q) == Descend(Descend(node, p).value, q)
  {
    if p == [] {
      assert p + q == q;
    } else {
      assert (p + q)[1..] == p[1..] + q;
      DescendAppend(Child(node, p[0]).value, p[1..], q);
    }
  }

  /** The schema a reference stands for, if any; the root without its definitions for `#`. */
  ghost function Named(schema: Json, ref: string, rules: Rules): Option<Json>
    requires schema.Obj?
  {
    if ref == "#" then Some(Inner(schema)) else Resolve(schema, ref, rules)
  }

  /** In the wrapper the reference names the rewriting of what it named, or nothing if it named nothing. */
  ghost predicate Carried(schema: Json, key: string, ref: string, rules: Rules)
    requires schema.Obj?
  {
    Resolve(Wrap(schema, key), MoveRef(ref, key), rules) == MapOption(Named(schema, ref, rules), Mover(key))
  }

  ghost predicate Follows(schema: Json, key: string, ref: string, rules: Rules, p: string -> bool)
    requires schema.Obj?
  {
    && Carried(schema, key, ref, rules)
    && (Named(schema, ref, rules).Some? ==> Every(Named(schema, ref, rules).value, p))
  }

  /** `p` holds of every reference that evaluating the schema can meet, and the wrapper carries each of them. */
  ghost predicate Closed(schema: Json, key: string, rules: Rules, p: string -> bool) {
    && schema.Obj?
    && Every(Inner(schema), p)
    && forall ref | p(ref) :: Follows(schema, key, ref, rules, p)
  }

  lemma RootPath(ref: string, rules: Rules)
    requires RefPath(ref, rules).Some?
    ensures RefPath(ref, rules).value == [] <==> ref == "#"
  {}

  lemma KindRoot(schema: Json, path: seq<string>)
    requires schema.Obj? && path != [] && path[0] !in DEFINITIONS
    ensures KindAt(Schema, Inner(schema), path) == KindAt(Schema, schema, path)
    ensures Descend(Inner(schema), path) == Descend(schema, path)
  {
    InnerKeyword(schema, path[0]);
  }
}
