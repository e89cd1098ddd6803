/**
 Overrides and map keys (packages/core/src/utils/redaction-traversal.ts:126-182 and 231-252): a key
 that is no string is kept by reference, and what hangs off it is searched for sensitive strings but
 not for properties that should have been overridden.
 */
module RedactionOverrides {
  import opened Redaction

  /** An original record of the output, with a property an override was meant for. */
  ghost predicate Exposed(g: Graph, x: Out) {
    && x.Orig? && x.id in g.heap && g.heap[x.id].Rec?
    && exists f | f in g.heap[x.id].fields :: g.o.handleKey(f.0, f.1).Some?
  }

  /** Some path through the output leads to one. */
  ghost predicate OverridesMissed(g: Graph, r: Redacted) {
    exists p :: Path(g, r, p) && Exposed(g, p[|p| - 1])
  }

  ghost predicate Holds(g: Graph, a: nat, b: nat) { a in g.heap && Ref(b) in Children(g.heap[a]) }

  /** Objects of the input, each holding the next. */
  ghost predicate Chain(g: Graph, q: seq<nat>) {
    q != [] && forall i :: 0 <= i < |q| - 1 ==> Holds(g, q[i], q[i + 1])
  }

  /** The output reaches the copy of a map, one of whose keys is the first object of the chain. */
  ghost predicate KeyRoute(g: Graph, r: Redacted, p: seq<Out>, id: nat, e: (Value, Value), q: seq<nat>) {
    && Path(g, r, p) && p[|p| - 1] == Clone(id) && id in r.clones && id in g.heap && g.heap[id].Map?
    && e in g.heap[id].entries && Chain(g, q) && e.0 == Ref(q[0])
  }

  /** The object can be reached from a key of a map that is copied. */
  ghost predicate BehindKey(g: Graph, r: Redacted, id: nat) {
    exists p, map', e, q :: KeyRoute(g, r, p, map', e, q) && q[|q| - 1] == id
  }

  /* ------------------------------------------------------------- originals hang off keys */

  lemma LastStep(g: Graph, r: Redacted, p: seq<Out>, n: nat)
    requires Path(g, r, p) && |p| == n + 1 && n > 0
    ensures Path(g, r, p[..n]) && p[n] in PartsOf(g, r, p[n - 1])
  {
    var q := p[..n];
    forall i | 0 <= i < |q| - 1 ensures q[i + 1] in PartsOf(g, r, q[i]) { assert p[i + 1] in PartsOf(g, r, p[i]); }
    assert p[n - 1 + 1] in PartsOf(g, r, p[n - 1]);
  }

  lemma NextStep(g: Graph, r: Redacted, p: seq<Out>, x: Out)
    requires Path(g, r, p) && x in PartsOf(g, r, p[|p| - 1])
    ensures Path(g, r, p + [x])
  {
    var longer := p + [x];
    forall i | 0 <= i < |longer| - 1 ensures longer[i + 1] in PartsOf(g, r, longer[i]) {
      if i < |p| - 1 { assert p[i + 1] in PartsOf(g, r, p[i]); }
    }
  }

  lemma ChainNext(g: Graph, q: seq<nat>, b: nat)
    requires Chain(g, q) && Holds(g, q[|q| - 1], b)
    ensures Chain(g, q + [b])
  {
    var longer := q + [b];
    forall i | 0 <= i < |longer| - 1 ensures Holds(g, longer[i], longer[i + 1]) {
      if i < |q| - 1 { assert Holds(g, q[i], q[i + 1]); }
    }
  }

  /** An original that holds anything is reached through a map key, and only so. */
  lemma {:induction false} OriginalsAreBehindKeys(g: Graph, root: Value, r: Redacted, p: seq<Out>, id: nat)
    requires g.Known(root) && Complete(g, r) && r.value == g.Image(root)
    requires Path(g, r, p) && p[|p| - 1] == Orig(id) && id in g.heap && !g.heap[id].Opaque?
    ensures BehindKey(g, r, id)
    decreases |p|
  {
    var n: nat := |p| - 1;
    if n > 0 {
      LastStep(g, r, p, n);
      match p[n - 1]
      case Clone(c) => KeptAsKey(g, r, p[..n], c, id);
      case Orig(o) =>
        OriginalsAreBehindKeys(g, root, r, p[..n], o);
        HeldBehindKey(g, r, o, id);
      case _ =>
    }
  }

  lemma KeptAsKey(g: Graph, r: Redacted, p: seq<Out>, c: nat, id: nat)
    requires Complete(g, r) && Path(g, r, p) && p[|p| - 1] == Clone(c)
    requires Orig(id) in PartsOf(g, r, Clone(c)) && id in g.heap && !g.heap[id].Opaque?
    ensures BehindKey(g, r, id)
  {
    assert CopyOk(g, r, c);
    var node := g.heap[c];
    CopyFrom(g, node, Orig(id));
    assert !FromChild(g, node, Orig(id));
    var e :| e in node.entries && Orig(id) == g.ImageKey(e.0);
    assert KeyRoute(g, r, p, c, e, [id]);
  }

  lemma HeldBehindKey(g: Graph, r: Redacted, a: nat, b: nat)
    requires BehindKey(g, r, a) && Orig(b) in PartsOf(g, r, Orig(a))
    ensures BehindKey(g, r, b)
  {
    var p, c, e, q :| KeyRoute(g, r, p, c, e, q) && q[|q| - 1] == a;
    var v :| v in Children(g.heap[a]) && Orig(b) == Raw(v);
    ChainNext(g, q, b);
    assert KeyRoute(g, r, p, c, e, q + [b]);
  }

  /* ------------------------------------------------------------- and keys lead to originals */

  lemma {:induction false} InsertHasKey(es: seq<(Out, Out)>, k: Out, v: Out, other: Out)
    ensures HasKey(Insert(es, k, v), other) <==> other == k || HasKey(es, other)
  {
    if es == [] {
      assert (k, v) in Insert(es, k, v);
    } else {
      var rest := if es[0].0 == k then es[1..] else Insert(es[1..], k, v);
      var first := if es[0].0 == k then (k, v) else es[0];
      if es[0].0 != k { InsertHasKey(es[1..], k, v, other); }
      assert Insert(es, k, v) == [first] + rest && es == [es[0]] + es[1..];
      HasKeyCons(first, rest, other);
      HasKeyCons(es[0], es[1..], other);
    }
  }

  lemma HasKeyCons(e: (Out, Out), es: seq<(Out, Out)>, k: Out)
    ensures HasKey([e] + es, k) <==> e.0 == k || HasKey(es, k)
  {
    assert e in [e] + es && forall f :: f in [e] + es <==> f == e || f in es;
  }

  lemma {:induction false} KeysStay(g: Graph, es: seq<(Value, Value)>, e: (Value, Value))
    requires (forall f | f in es :: g.Known(f.0) && g.Known(f.1)) && e in es
    ensures HasKey(g.ImageEntries(es), g.ImageKey(e.0))
  {
    var n := |es| - 1;
    InsertHasKey(g.ImageEntries(es[..n]), g.ImageKey(es[n].0), g.Image(es[n].1), g.ImageKey(e.0));
    if e != es[n] {
      assert es == es[..n] + [es[n]];
      KeysStay(g, es[..n], e);
    }
  }

  lemma KeyIsKept(g: Graph, r: Redacted, p: seq<Out>, id: nat, e: (Value, Value), q: seq<nat>)
    requires Complete(g, r) && KeyRoute(g, r, p, id, e, q)
    ensures Path(g, r, p + [Orig(q[0])])
  {
    assert CopyOk(g, r, id);
    KeysStay(g, g.heap[id].entries, e);
    var kept :| kept in r.clones[id].entries && kept.0 == Orig(q[0]);
    NextStep(g, r, p, Orig(q[0]));
  }

  lemma ChainFront(g: Graph, q: seq<nat>, n: nat)
    requires Chain(g, q) && |q| == n + 1 && n > 0
    ensures Chain(g, q[..n]) && Holds(g, q[n - 1], q[n])
  {
    forall i | 0 <= i < n - 1 ensures Holds(g, q[..n][i], q[..n][i + 1]) { assert Holds(g, q[i], q[i + 1]); }
    assert Holds(g, q[n - 1], q[n - 1 + 1]);
  }

  lemma OriginalHolds(g: Graph, r: Redacted, p: seq<Out>, a: nat, b: nat)
    requires Path(g, r, p) && p[|p| - 1] == Orig(a) && Holds(g, a, b)
    ensures Path(g, r, p + [Orig(b)])
  {
    assert Orig(b) == Raw(Ref(b));
    NextStep(g, r, p, Orig(b));
  }

  lemma {:induction false} RouteIsPath(
      g: Graph, r: Redacted, p: seq<Out>, id: nat, e: (Value, Value), q: seq<nat>) returns (longer: seq<Out>)
    requires Complete(g, r) && KeyRoute(g, r, p, id, e, q)
    ensures Path(g, r, longer) && longer[|longer| - 1] == Orig(q[|q| - 1])
    decreases |q|
  {
    var n: nat := |q| - 1;
    if n == 0 {
      KeyIsKept(g, r, p, id, e, q);
      longer := p + [Orig(q[0])];
    } else {
      ChainFront(g, q, n);
      var shorter := RouteIsPath(g, r, p, id, e, q[..n]);
      OriginalHolds(g, r, shorter, q[n - 1], q[n]);
      longer := shorter + [Orig(q[n])];
    }
  }

  /**
   In a complete copy, a property that should have been overridden is still in the output exactly
   when it hangs off a key of some map that is copied.
   */
  lemma OverridesMissedIff(g: Graph, root: Value, r: Redacted)
    requires g.Known(root) && Complete(g, r) && r.value == g.Image(root)
    ensures OverridesMissed(g, r) <==> exists id :: BehindKey(g, r, id) && Exposed(g, Orig(id))
  {
    if OverridesMissed(g, r) {
      var p: seq<Out> :| Path(g, r, p) && Exposed(g, p[|p| - 1]);
      OriginalsAreBehindKeys(g, root, r, p, p[|p| - 1].id);
    } else if exists id :: BehindKey(g, r, id) && Exposed(g, Orig(id)) {
      var id :| BehindKey(g, r, id) && Exposed(g, Orig(id));
      var p, c, e, q :| KeyRoute(g, r, p, c, e, q) && q[|q| - 1] == id;
      var longer := RouteIsPath(g, r, p, c, e, q);
      assert false;
    }
  }

  /** A record as a map key: its property is kept, and no flag is raised. */
  lemma OverrideMissedInKey(o: Options, k: string, v: Value)
    requires !v.Ref? && o.handleKey(k, v).Some? && (v.Str? ==> o.transform(v.s) == v.s)
    ensures
      var g := Graph(map[0 := Map([(Ref(1), Prim(0))]), 1 := Rec([(k, v)])], o);
      var r := Redacted(Clone(0), map[0 := OMap([(Orig(1), OPrim(0))])], false, false, false, false);
      g.Valid() && Complete(g, r) && r.value == g.Image(Ref(0)) && OverridesMissed(g, r)
  {
    var entries := [(Ref(1), Prim(0))];
    var g := Graph(map[0 := Map(entries), 1 := Rec([(k, v)])], o);
    var r := Redacted(Clone(0), map[0 := OMap([(Orig(1), OPrim(0))])], false, false, false, false);
    KeyCopied(g, r, k, v);
    var p := [Clone(0), Orig(1)];
    assert (Orig(1), OPrim(0)) in r.clones[0].entries && Path(g, r, p);
    assert (k, v) in g.heap[1].fields && Exposed(g, p[1]);
  }

  lemma KeyCopied(g: Graph, r: Redacted, k: string, v: Value)
    requires g.heap == map[0 := Map([(Ref(1), Prim(0))]), 1 := Rec([(k, v)])]
    requires !v.Ref? && (v.Str? ==> g.o.transform(v.s) == v.s)
    requires r == Redacted(Clone(0), map[0 := OMap([(Orig(1), OPrim(0))])], false, false, false, false)
    ensures g.Valid() && Complete(g, r)
  {
    var entries := [(Ref(1), Prim(0))];
    assert Children(g.heap[1]) == [v] && g.CleanNode(g.heap[1], {1});
    assert g.CleanSet({1}) && g.CleanKey(Ref(1));
    assert Children(g.heap[0]) == [Ref(1), Prim(0)];
    assert entries[..0] == [] && g.ImageEntries(entries[..0]) == [];
    assert g.ImageEntries(entries) == [(Orig(1), OPrim(0))];
    assert !g.EntriesCollide(entries[..0]) && !g.EntriesCollide(entries);
    assert forall x | x in Parts(r.clones[0]) :: x == Orig(1) || x == OPrim(0);
    assert CopyOk(g, r, 0);
  }
}
