/**
 Redaction of a tool's raw output (packages/core/src/utils/redaction-traversal.ts): a depth-bounded
 copy of a graph of arrays, records, maps and sets, with cycles and sharing, one copy to an object.
 */
module Redaction {
  import opened Base

  /* ----------------------------------------------------------------------- the graphs */

  datatype Value = Str(s: string) | Prim(n: int) | Ref(id: nat)

  datatype Node =
    | Arr(items: seq<Value>)
    | Rec(fields: seq<(string, Value)>)
    | Map(entries: seq<(Value, Value)>)
    | Set(members: seq<Value>)
    | Opaque                            // dates and regular expressions

  /** A value of the output: `Clone` names a copy, `Orig` an original object, `Given` an override. */
  datatype Out = OStr(s: string) | OPrim(n: int) | Clone(id: nat) | Orig(id: nat) | Given(v: Value)

  datatype OutNode =
    | OArr(items: seq<Out>)
    | ORec(fields: seq<(string, Out)>)
    | OMap(entries: seq<(Out, Out)>)
    | OSet(members: seq<Out>)

  datatype Options = Options(
    maxDepth: nat, transform: string -> string, handleKey: (string, Value) -> Option<Value>,
    deny: bool, skipForbidden: bool)

  function Raw(v: Value): Out {
    match v case Str(s) => OStr(s) case Prim(n) => OPrim(n) case Ref(id) => Orig(id)
  }

  /** Everything an object holds. */
  function Children(node: Node): seq<Value> {
    match node
    case Arr(items) => items
    case Rec(fs) => seq(|fs|, i requires 0 <= i < |fs| => fs[i].1)
    case Map(es) => seq(2 * |es|, i requires 0 <= i < 2 * |es| => if i % 2 == 0 then es[i / 2].0 else es[i / 2].1)
    case Set(ms) => ms
    case Opaque => []
  }

  predicate Closed(heap: map<nat, Node>) {
    forall id | id in heap :: forall v | v in Children(heap[id]) :: v.Ref? ==> v.id in heap
  }

  predicate Forbidden(key: string) { key in ["__proto__", "prototype", "constructor"] }

  /* -------------------------------------------------------------- what a copy should be */

  datatype Graph = Graph(heap: map<nat, Node>, o: Options) {
    predicate Valid() { Closed(heap) }

    predicate Known(v: Value) { v.Ref? ==> v.id in heap }

    /** The copy of a value. */
    function Image(v: Value): Out
      requires Known(v)
    {
      match v
      case Str(s) => OStr(o.transform(s))
      case Prim(n) => OPrim(n)
      case Ref(id) => if heap[id].Opaque? then Orig(id) else Clone(id)
    }

    predicate Unaltered(v: Value) { v.Str? ==> o.transform(v.s) == v.s }

    function ImageItems(items: seq<Value>): seq<Out>
      requires forall v | v in items :: Known(v)
    {
      if items == [] then []
      else ImageItems(items[..|items| - 1]) + [Image(items[|items| - 1])]
    }

    predicate Dropped(key: string) { o.skipForbidden && Forbidden(key) }

    function ImageField(f: (string, Value)): seq<(string, Out)>
      requires Known(f.1)
    {
      if Dropped(f.0) then []
      else
        match o.handleKey(f.0, f.1)
        case Some(v) => [(f.0, Given(v))]
        case None => [(f.0, Image(f.1))]
    }

    function ImageFields(fs: seq<(string, Value)>): seq<(string, Out)>
      requires forall f | f in fs :: Known(f.1)
    {
      if fs == [] then []
      else ImageFields(fs[..|fs| - 1]) + ImageField(fs[|fs| - 1])
    }

    predicate FaithfulField(f: (string, Value)) {
      && !Dropped(f.0)
      && match o.handleKey(f.0, f.1) case Some(v) => v == f.1 case None => Unaltered(f.1)
    }

    /** Keys that are not strings are kept as they are. */
    function ImageKey(k: Value): Out { if k.Str? then OStr(o.transform(k.s)) else Raw(k) }

    function ImageEntries(es: seq<(Value, Value)>): seq<(Out, Out)>
      requires forall e | e in es :: Known(e.0) && Known(e.1)
    {
      if es == [] then []
      else Insert(ImageEntries(es[..|es| - 1]), ImageKey(es[|es| - 1].0), Image(es[|es| - 1].1))
    }

    predicate EntriesCollide(es: seq<(Value, Value)>)
      requires forall e | e in es :: Known(e.0) && Known(e.1)
    {
      es != [] &&
      (EntriesCollide(es[..|es| - 1]) || HasKey(ImageEntries(es[..|es| - 1]), ImageKey(es[|es| - 1].0)))
    }

    function ImageMembers(ms: seq<Value>): seq<Out>
      requires forall v | v in ms :: Known(v)
    {
      if ms == [] then []
      else AddMember(ImageMembers(ms[..|ms| - 1]), Image(ms[|ms| - 1]))
    }

    predicate MembersCollide(ms: seq<Value>)
      requires forall v | v in ms :: Known(v)
    {
      ms != [] && (MembersCollide(ms[..|ms| - 1]) || Image(ms[|ms| - 1]) in ImageMembers(ms[..|ms| - 1]))
    }

    predicate AllKnown(node: Node) {
      match node
      case Arr(items) => forall v | v in items :: Known(v)
      case Rec(fs) => forall f | f in fs :: Known(f.1)
      case Map(es) => forall e | e in es :: Known(e.0) && Known(e.1)
      case Set(ms) => forall v | v in ms :: Known(v)
      case Opaque => true
    }

    /** The copy of an object. */
    function ImageNode(node: Node): OutNode
      requires !node.Opaque? && AllKnown(node)
    {
      match node
      case Arr(items) => OArr(ImageItems(items))
      case Rec(fs) => ORec(ImageFields(fs))
      case Map(es) => OMap(ImageEntries(es))
      case Set(ms) => OSet(ImageMembers(ms))
    }

    predicate Faithful(node: Node) {
      match node
      case Arr(items) => forall v | v in items :: Unaltered(v)
      case Rec(fs) => forall f | f in fs :: FaithfulField(f)
      case Map(es) => forall e | e in es :: Unaltered(e.0) && Unaltered(e.1)
      case Set(ms) => forall v | v in ms :: Unaltered(v)
      case Opaque => true
    }

    predicate Collides(node: Node)
      requires AllKnown(node)
    {
      match node
      case Map(es) => EntriesCollide(es)
      case Set(ms) => MembersCollide(ms)
      case _ => false
    }

    /** Nothing an object holds directly would be altered, and every object it holds is in `s`. */
    predicate CleanNode(node: Node, s: set<nat>) {
      forall v | v in Children(node) :: Unaltered(v) && (v.Ref? ==> v.id in s)
    }

    /** A set of objects from which only clean objects can be reached. */
    ghost predicate CleanSet(s: set<nat>) {
      s <= heap.Keys && forall id | id in s :: CleanNode(heap[id], s)
    }

    ghost predicate CleanKey(k: Value) {
      k.Ref? ==> exists s: set<nat> :: k.id in s && CleanSet(s)
    }

    ghost predicate KeysClean(node: Node) {
      node.Map? ==> forall e | e in node.entries :: CleanKey(e.0)
    }

    lemma ChildrenKnown(id: nat)
      requires Valid() && id in heap
      ensures AllKnown(heap[id])
    {
      var node := heap[id];
      match node
      case Rec(fs) =>
        forall f | f in fs ensures Known(f.1) {
          var i :| 0 <= i < |fs| && fs[i] == f;
          assert Children(node)[i] == f.1;
        }
      case Map(es) =>
        forall e | e in es ensures Known(e.0) && Known(e.1) {
          var i :| 0 <= i < |es| && es[i] == e;
          assert Children(node)[2 * i] == e.0 && Children(node)[2 * i + 1] == e.1;
        }
      case _ =>
    }
  }

  function HasKey(es: seq<(Out, Out)>, k: Out): bool { exists e | e in es :: e.0 == k }

  /** `Map.set`: replaces in place, or appends. */
  function Insert(es: seq<(Out, Out)>, k: Out, v: Out): seq<(Out, Out)> {
    if es == [] then [(k, v)]
    else if es[0].0 == k then [(k, v)] + es[1..]
    else [es[0]] + Insert(es[1..], k, v)
  }

  lemma EntryParts(e: (Out, Out), es: seq<(Out, Out)>)
    ensures Parts(OMap([e] + es)) == {e.0, e.1} + Parts(OMap(es))
  {
    var all := [e] + es;
    assert all[0] == e && forall x | x in es :: x in all;
    forall p | p in {e.0, e.1} ensures p in Parts(OMap(all)) { assert e in all; }
  }

  lemma {:induction false} InsertParts(es: seq<(Out, Out)>, k: Out, v: Out)
    ensures Parts(OMap(Insert(es, k, v))) <= Parts(OMap(es)) + {k, v}
  {
    if es == [] {
    } else {
      assert es == [es[0]] + es[1..];
      EntryParts(es[0], es[1..]);
      if es[0].0 == k {
        EntryParts((k, v), es[1..]);
      } else {
        InsertParts(es[1..], k, v);
        EntryParts(es[0], Insert(es[1..], k, v));
      }
    }
  }

  /** `Set.add`. */
  function AddMember(ms: seq<Out>, x: Out): seq<Out> { if x in ms then ms else ms + [x] }

  /** Everything a copy holds. */
  function Parts(copy: OutNode): set<Out> {
    match copy
    case OArr(items) => set x | x in items
    case ORec(fs) => set f | f in fs :: f.1
    case OMap(es) => (set e | e in es :: e.0) + (set e | e in es :: e.1)
    case OSet(ms) => set x | x in ms
  }

  /** Every copy a copy refers to is among `ids`. */
  predicate Within(copy: OutNode, ids: set<nat>) { forall x | x in Parts(copy) :: x.Clone? ==> x.id in ids }

  /* ---------------------------------------------------------------------- the traversal */

  class Traversal {
    const g: Graph
    var clones: map<nat, OutNode>
    var modified: bool
    var depthExceeded: bool
    var keyCollision: bool
    var unredactable: bool
    ghost var deep: bool              // something lay beyond the depth limit

    constructor (g: Graph)
      requires g.Valid()
      ensures this.g == g && clones == map[] && Inv({})
      ensures !modified && !depthExceeded && !keyCollision && !unredactable && !deep
    {
      this.g, clones := g, map[];
      modified, depthExceeded, keyCollision, unredactable, deep := false, false, false, false, false;
    }

    /** A finished copy is what it should be, and the flags own up to every difference. */
    ghost predicate Filled(id: nat)
      reads this
    {
      && id in g.heap && id in clones && !g.heap[id].Opaque? && g.AllKnown(g.heap[id])
      && (deep || (FilledAs(g.heap[id], clones[id], modified, keyCollision, unredactable)
        && Within(clones[id], clones.Keys)))
    }

    ghost predicate FilledAs(node: Node, copy: OutNode, changed: bool, collided: bool, unsafeKey: bool)
      requires !node.Opaque? && g.AllKnown(node)
    {
      && copy == g.ImageNode(node)
      && (!changed ==> g.Faithful(node)) && (!collided ==> !g.Collides(node)) && (!unsafeKey ==> g.KeysClean(node))
    }

    ghost predicate Inv(open: set<nat>)
      reads this
    {
      && g.Valid() && open <= clones.Keys <= g.heap.Keys
      && (g.o.deny ==> depthExceeded == deep)
      && (forall id | id in clones :: !g.heap[id].Opaque?)
      && forall id | id in clones.Keys - open :: Filled(id)
    }

    /** Starts a copy, as yet empty. */
    method Begin(id: nat, copy: OutNode, ghost open: set<nat>)
      requires Inv(open) && id in g.heap && !g.heap[id].Opaque? && id !in clones
      modifies `clones
      ensures clones == old(clones)[id := copy] && Inv(open + {id})
    {
      clones := clones[id := copy];
      forall other | other in clones.Keys - (open + {id}) ensures Filled(other) {
        assert other in old(clones).Keys - open && old(Filled(other));
      }
    }

    /** Adds to a copy in the making. */
    method Extend(id: nat, copy: OutNode, ghost open: set<nat>)
      requires Inv(open) && id in open
      modifies `clones
      ensures clones == old(clones)[id := copy] && Inv(open)
    {
      clones := clones[id := copy];
      forall other | other in clones.Keys - open ensures Filled(other) {
        assert other in old(clones).Keys - open && old(Filled(other));
      }
    }

    /** Raises flags. */
    method Note(changed: bool, collided: bool, unsafeKey: bool, tooDeep: bool, ghost open: set<nat>)
      requires Inv(open)
      modifies `modified, `keyCollision, `unredactable, `depthExceeded, `deep
      ensures modified == (old(modified) || changed) && keyCollision == (old(keyCollision) || collided)
      ensures unredactable == (old(unredactable) || unsafeKey) && deep == (old(deep) || tooDeep)
      ensures Inv(open)
    {
      if changed { modified := true; }
      if collided { keyCollision := true; }
      if unsafeKey { unredactable := true; }
      if tooDeep && g.o.deny { depthExceeded := true; }
      deep := deep || tooDeep;
      forall other | other in clones.Keys - open ensures Filled(other) {
        assert other in old(clones).Keys - open && old(Filled(other));
      }
    }

    /** What any part of the walk leaves alone: finished and open copies, and raised flags. */
    twostate predicate Grew()
      reads this
    {
      && (forall id | id in old(clones) :: id in clones && clones[id] == old(clones[id]))
      && (old(modified) ==> modified) && (old(keyCollision) ==> keyCollision)
      && (old(unredactable) ==> unredactable) && (old(deep) ==> deep)
    }

    twostate predicate GrewBut(id: nat)
      reads this
    {
      && (forall x | x in old(clones) && x != id :: x in clones && clones[x] == old(clones[x]))
      && (old(modified) ==> modified) && (old(keyCollision) ==> keyCollision)
      && (old(unredactable) ==> unredactable) && (old(deep) ==> deep)
    }

    /** A copy in the making holds the images of what was walked so far. */
    ghost predicate Partly(id: nat, node: Node, open: set<nat>)
      reads this
    {
      && Inv(open) && id in open && id in clones
      && !node.Opaque? && g.AllKnown(node)
      && (deep || (FilledAs(node, clones[id], modified, keyCollision, unredactable) && Within(clones[id], clones.Keys)))
    }

    /** The answer for one value. */
    ghost predicate Answers(v: Value, out: Out)
      reads this
      requires g.Known(v)
    {
      deep || (out == g.Image(v) && (out.Clone? ==> out.id in clones) && (!modified ==> g.Unaltered(v)))
    }

    method Walk(v: Value, depth: nat, ghost open: set<nat>) returns (out: Out)
      requires Inv(open) && g.Known(v)
      modifies this
      ensures Inv(open) && Grew() && Answers(v, out)
      decreases if depth <= g.o.maxDepth then g.o.maxDepth + 1 - depth else 0, 1
    {
      if depth > g.o.maxDepth {
        Note(false, false, false, true, open);
        return Raw(v);
      }
      match v {
        case Str(s) =>
          var transformed := g.o.transform(s);
          Note(transformed != s, false, false, false, open);
          return OStr(transformed);
        case Prim(n) => return OPrim(n);
        case Ref(id) =>
          if id in clones { return Clone(id); }
          match g.heap[id] {
            case Opaque => return Orig(id);
            case Arr(items) => WalkArray(id, items, depth, open);
            case Map(es) => WalkMap(id, es, depth, open);
            case Set(ms) => WalkSet(id, ms, depth, open);
            case Rec(fs) => WalkRecord(id, fs, depth, open);
          }
          return Clone(id);
      }
    }

    method WalkArray(id: nat, items: seq<Value>, depth: nat, ghost open: set<nat>)
      requires Inv(open) && id in g.heap && id !in clones && g.heap[id] == Arr(items) && depth <= g.o.maxDepth
      modifies this
      ensures Inv(open) && Grew() && id in clones
      decreases g.o.maxDepth + 1 - depth, 0
    {
      g.ChildrenKnown(id);
      Begin(id, OArr([]), open);
      for i := 0 to |items|
        invariant Partly(id, Arr(items[..i]), open + {id}) && Grew() && clones[id].OArr?
      {
        WalkItem(id, items, i, depth, open + {id});
      }
      assert items[..|items|] == items;
    }

    method WalkItem(id: nat, items: seq<Value>, i: nat, depth: nat, ghost open: set<nat>)
      requires i < |items| && Partly(id, Arr(items[..i]), open) && clones[id].OArr? && depth <= g.o.maxDepth
      requires forall v | v in items :: g.Known(v)
      modifies this
      ensures Partly(id, Arr(items[..i + 1]), open) && GrewBut(id) && clones[id].OArr?
      decreases g.o.maxDepth - depth, 3
    {
      var out := Walk(items[i], depth + 1, open);
      var done := clones[id].items;
      Extend(id, OArr(done + [out]), open);
      if !deep { ItemNext(items, i, done, out, modified, keyCollision, unredactable); }
    }

    method WalkRecord(id: nat, fs: seq<(string, Value)>, depth: nat, ghost open: set<nat>)
      requires Inv(open) && id in g.heap && id !in clones && g.heap[id] == Rec(fs) && depth <= g.o.maxDepth
      modifies this
      ensures Inv(open) && Grew() && id in clones
      decreases g.o.maxDepth + 1 - depth, 0
    {
      g.ChildrenKnown(id);
      Begin(id, ORec([]), open);
      for i := 0 to |fs|
        invariant Partly(id, Rec(fs[..i]), open + {id}) && Grew() && clones[id].ORec?
      {
        WalkProperty(id, fs, i, depth, open + {id});
      }
      assert fs[..|fs|] == fs;
    }

    method WalkProperty(id: nat, fs: seq<(string, Value)>, i: nat, depth: nat, ghost open: set<nat>)
      requires i < |fs| && Partly(id, Rec(fs[..i]), open) && clones[id].ORec? && depth <= g.o.maxDepth
      requires forall f | f in fs :: g.Known(f.1)
      modifies this
      ensures Partly(id, Rec(fs[..i + 1]), open) && GrewBut(id) && clones[id].ORec?
      decreases g.o.maxDepth - depth, 3
    {
      var added := WalkField(fs[i], depth, open);
      var done := clones[id].fields;
      Extend(id, ORec(done + added), open);
      if !deep { FieldNext(fs, i, done, modified, keyCollision, unredactable); }
    }

    /** One property: left out, overridden, or walked. */
    method WalkField(f: (string, Value), depth: nat, ghost open: set<nat>) returns (added: seq<(string, Out)>)
      requires Inv(open) && g.Known(f.1) && depth <= g.o.maxDepth
      modifies this
      ensures Inv(open) && Grew()
      ensures deep || (added == g.ImageField(f) && (!modified ==> g.FaithfulField(f))
        && Within(ORec(added), clones.Keys))
      decreases g.o.maxDepth - depth, 2
    {
      var (k, v) := f;
      if g.o.skipForbidden && Forbidden(k) {
        Note(true, false, false, false, open);
        return [];
      }
      var override := g.o.handleKey(k, v);
      if override.Some? {
        Note(override.value != v, false, false, false, open);
        return [(k, Given(override.value))];
      }
      var out := Walk(v, depth + 1, open);
      added := [(k, out)];
    }

    method WalkSet(id: nat, ms: seq<Value>, depth: nat, ghost open: set<nat>)
      requires Inv(open) && id in g.heap && id !in clones && g.heap[id] == Set(ms) && depth <= g.o.maxDepth
      modifies this
      ensures Inv(open) && Grew() && id in clones
      decreases g.o.maxDepth + 1 - depth, 0
    {
      g.ChildrenKnown(id);
      Begin(id, OSet([]), open);
      for i := 0 to |ms|
        invariant Partly(id, Set(ms[..i]), open + {id}) && Grew() && clones[id].OSet?
      {
        WalkMember(id, ms, i, depth, open + {id});
      }
      assert ms[..|ms|] == ms;
    }

    method WalkMember(id: nat, ms: seq<Value>, i: nat, depth: nat, ghost open: set<nat>)
      requires i < |ms| && Partly(id, Set(ms[..i]), open) && clones[id].OSet? && depth <= g.o.maxDepth
      requires forall v | v in ms :: g.Known(v)
      modifies this
      ensures Partly(id, Set(ms[..i + 1]), open) && GrewBut(id) && clones[id].OSet?
      decreases g.o.maxDepth - depth, 3
    {
      var redacted := Walk(ms[i], depth + 1, open);
      var done := clones[id].members;
      Note(false, redacted in done, false, false, open);
      Extend(id, OSet(AddMember(done, redacted)), open);
      if !deep { MemberNext(ms, i, done, modified, keyCollision, unredactable); }
    }

    method WalkMap(id: nat, es: seq<(Value, Value)>, depth: nat, ghost open: set<nat>)
      requires Inv(open) && id in g.heap && id !in clones && g.heap[id] == Map(es) && depth <= g.o.maxDepth
      modifies this
      ensures Inv(open) && Grew() && id in clones
      decreases g.o.maxDepth + 1 - depth, 0
    {
      g.ChildrenKnown(id);
      Begin(id, OMap([]), open);
      for i := 0 to |es|
        invariant Partly(id, Map(es[..i]), open + {id}) && Grew() && clones[id].OMap?
      {
        WalkNextEntry(id, es, i, depth, open + {id});
      }
      assert es[..|es|] == es;
    }

    method WalkNextEntry(id: nat, es: seq<(Value, Value)>, i: nat, depth: nat, ghost open: set<nat>)
      requires i < |es| && Partly(id, Map(es[..i]), open) && clones[id].OMap? && depth <= g.o.maxDepth
      requires forall e | e in es :: g.Known(e.0) && g.Known(e.1)
      modifies this
      ensures Partly(id, Map(es[..i + 1]), open) && GrewBut(id) && clones[id].OMap?
      decreases g.o.maxDepth - depth, 3
    {
      var done := clones[id].entries;
      var more := WalkEntry(es[i], done, depth, open);
      Extend(id, OMap(more), open);
      if !deep { EntryNext(es, i, done, more, modified, keyCollision, unredactable); }
    }

    /** One entry: the key is looked for before the value is walked, and set after. */
    method WalkEntry(e: (Value, Value), done: seq<(Out, Out)>, depth: nat, ghost open: set<nat>)
      returns (more: seq<(Out, Out)>)
      requires Inv(open) && g.Known(e.0) && g.Known(e.1) && depth <= g.o.maxDepth
      modifies this
      ensures Inv(open) && Grew()
      ensures deep || EntryAdded(e, done, more, modified, keyCollision, unredactable)
      ensures deep || (Within(OMap(done), old(clones.Keys)) ==> Within(OMap(more), clones.Keys))
      decreases g.o.maxDepth - depth, 2
    {
      var newKey := RedactKey(e.0, depth, open);
      Note(false, HasKey(done, newKey), false, false, open);
      var out := Walk(e.1, depth + 1, open);
      more := Insert(done, newKey, out);
      InsertParts(done, newKey, out);
    }

    ghost predicate EntryAdded(
        e: (Value, Value), done: seq<(Out, Out)>, more: seq<(Out, Out)>, changed: bool, collided: bool, unsafeKey: bool)
      requires g.Known(e.1)
    {
      && more == Insert(done, g.ImageKey(e.0), g.Image(e.1))
      && (!changed ==> g.Unaltered(e.0) && g.Unaltered(e.1))
      && (!collided ==> !HasKey(done, g.ImageKey(e.0)))
      && (!unsafeKey ==> g.CleanKey(e.0))
    }

    lemma ItemNext(items: seq<Value>, i: nat, done: seq<Out>, out: Out, m: bool, c: bool, u: bool)
      requires i < |items| && (forall v | v in items :: g.Known(v)) && FilledAs(Arr(items[..i]), OArr(done), m, c, u)
      requires out == g.Image(items[i]) && (!m ==> g.Unaltered(items[i]))
      ensures FilledAs(Arr(items[..i + 1]), OArr(done + [out]), m, c, u)
    {
      assert items[..i + 1] == items[..i] + [items[i]] && items[..i + 1][..i] == items[..i];
    }

    lemma FieldNext(fs: seq<(string, Value)>, i: nat, done: seq<(string, Out)>, m: bool, c: bool, u: bool)
      requires i < |fs| && (forall f | f in fs :: g.Known(f.1)) && FilledAs(Rec(fs[..i]), ORec(done), m, c, u)
      requires !m ==> g.FaithfulField(fs[i])
      ensures FilledAs(Rec(fs[..i + 1]), ORec(done + g.ImageField(fs[i])), m, c, u)
    {
      assert fs[..i + 1] == fs[..i] + [fs[i]] && fs[..i + 1][..i] == fs[..i];
    }

    lemma MemberNext(ms: seq<Value>, i: nat, done: seq<Out>, m: bool, c: bool, u: bool)
      requires i < |ms| && (forall v | v in ms :: g.Known(v)) && FilledAs(Set(ms[..i]), OSet(done), m, c, u)
      requires (!m ==> g.Unaltered(ms[i])) && (!c ==> g.Image(ms[i]) !in done)
      ensures FilledAs(Set(ms[..i + 1]), OSet(AddMember(done, g.Image(ms[i]))), m, c, u)
    {
      assert ms[..i + 1] == ms[..i] + [ms[i]] && ms[..i + 1][..i] == ms[..i];
    }

    lemma EntryNext(es: seq<(Value, Value)>, i: nat, done: seq<(Out, Out)>, more: seq<(Out, Out)>, m: bool, c: bool,
        u: bool)
      requires i < |es| && (forall e | e in es :: g.Known(e.0) && g.Known(e.1))
      requires FilledAs(Map(es[..i]), OMap(done), m, c, u) && EntryAdded(es[i], done, more, m, c, u)
      ensures FilledAs(Map(es[..i + 1]), OMap(more), m, c, u)
    {
      assert es[..i + 1] == es[..i] + [es[i]] && es[..i + 1][..i] == es[..i];
    }

    /** A string key is redacted; any other is kept, and reported if something sensitive hangs off it. */
    method RedactKey(k: Value, depth: nat, ghost open: set<nat>) returns (newKey: Out)
      requires Inv(open) && g.Known(k)
      modifies `modified, `keyCollision, `unredactable, `depthExceeded, `deep
      ensures Inv(open) && Grew() && newKey == g.ImageKey(k)
      ensures deep || ((!modified ==> g.Unaltered(k)) && (!unredactable ==> g.CleanKey(k)))
    {
      match k {
        case Str(s) =>
          var transformed := g.o.transform(s);
          Note(transformed != s, false, false, false, open);
          return OStr(transformed);
        case Prim(n) => return OPrim(n);
        case Ref(id) =>
          var found, seen := ContainsSensitive(k, depth + 1, {}, {});
          assert found || deep || (id in seen && g.CleanSet(seen));
          Note(false, false, found, false, open);
          return Orig(id);
      }
    }

    ghost predicate SeenClean(seen: set<nat>, open: set<nat>) {
      open <= seen <= g.heap.Keys && forall id | id in seen - open :: g.CleanNode(g.heap[id], seen)
    }

    /** Whether redaction would alter any string that can be reached from `v`. */
    method ContainsSensitive(v: Value, depth: nat, seen: set<nat>, ghost open: set<nat>)
      returns (found: bool, seen': set<nat>)
      requires g.Valid() && g.Known(v) && (deep || SeenClean(seen, open)) && (g.o.deny ==> depthExceeded == deep)
      modifies `depthExceeded, `deep
      ensures (old(deep) ==> deep) && (g.o.deny ==> depthExceeded == deep) && seen <= seen'
      ensures !found && !deep ==> SeenClean(seen', open) && g.Unaltered(v) && (v.Ref? ==> v.id in seen')
      decreases if depth <= g.o.maxDepth then g.o.maxDepth + 1 - depth else 0
    {
      if depth > g.o.maxDepth {
        if g.o.deny { depthExceeded := true; }
        deep := true;
        return false, seen;
      }
      match v {
        case Str(s) => return g.o.transform(s) != s, seen;
        case Prim(_) => return false, seen;
        case Ref(id) =>
          if id in seen { return false, seen; }
          seen' := seen + {id};
          var held := Children(g.heap[id]);
          for i := 0 to |held|
            invariant (old(deep) ==> deep) && (g.o.deny ==> depthExceeded == deep) && seen + {id} <= seen'
            invariant deep || SeenClean(seen', open + {id})
            invariant deep || forall k :: 0 <= k < i ==> g.Unaltered(held[k]) && (held[k].Ref? ==> held[k].id in seen')
          {
            assert held[i] in held;
            var hit, more := ContainsSensitive(held[i], depth + 1, seen', open + {id});
            seen' := more;
            if hit { return true, seen'; }
          }
          return false, seen';
      }
    }
  }

  /* -------------------------------------------------------------------------- the answer */

  /** What the caller gets: the copied graph and the flags. */
  datatype Redacted = Redacted(
    value: Out, clones: map<nat, OutNode>,
    modified: bool, depthExceeded: bool, keyCollision: bool, unredactable: bool)

  /** Every copy is what it should be, refers only to copies, and differs only as the flags say. */
  ghost predicate Complete(g: Graph, r: Redacted) {
    && g.Valid() && r.clones.Keys <= g.heap.Keys && (r.value.Clone? ==> r.value.id in r.clones)
    && forall id | id in r.clones :: CopyOk(g, r, id)
  }

  ghost predicate CopyOk(g: Graph, r: Redacted, id: nat)
    requires id in r.clones && id in g.heap
  {
    var node := g.heap[id];
    && !node.Opaque? && g.AllKnown(node) && r.clones[id] == g.ImageNode(node) && Within(r.clones[id], r.clones.Keys)
    && (!r.modified ==> g.Faithful(node)) && (!r.keyCollision ==> !g.Collides(node))
    && (!r.unredactable ==> g.KeysClean(node))
  }

  /** `traverseAndRedact`: the copy is complete unless the depth limit was reached, which is reported. */
  method TraverseAndRedact(g: Graph, root: Value) returns (r: Redacted)
    requires g.Valid() && g.Known(root)
    ensures g.o.deny && !r.depthExceeded ==>
      Complete(g, r) && r.value == g.Image(root) && (!r.modified ==> g.Unaltered(root))
  {
    var t := new Traversal(g);
    var value := t.Walk(root, 0, {});
    r := Redacted(value, t.clones, t.modified, t.depthExceeded, t.keyCollision, t.unredactable);
    if !t.deep {
      forall id | id in r.clones ensures id in g.heap && CopyOk(g, r, id) {
        assert id in t.clones.Keys - {} && t.Filled(id);
      }
    }
  }

  /* ----------------------------------------------------------------- what can be reached */

  /** What hangs off a value of the output; an override is the caller's own. */
  ghost function PartsOf(g: Graph, r: Redacted, x: Out): set<Out> {
    match x
    case Clone(id) => if id in r.clones then Parts(r.clones[id]) else {}
    case Orig(id) => if id in g.heap then (set v | v in Children(g.heap[id]) :: Raw(v)) else {}
    case _ => {}
  }

  ghost predicate Path(g: Graph, r: Redacted, p: seq<Out>) {
    p != [] && p[0] == r.value && forall i :: 0 <= i < |p| - 1 ==> p[i + 1] in PartsOf(g, r, p[i])
  }

  /** A value from which nothing sensitive can be reached. */
  ghost predicate Sound(g: Graph, r: Redacted, x: Out) {
    match x
    case OStr(s) => g.o.transform(s) == s
    case Clone(id) => id in r.clones
    case Orig(id) => id in g.heap && (g.heap[id].Opaque? || exists s: set<nat> :: id in s && g.CleanSet(s))
    case _ => true
  }

  ghost predicate Idempotent(f: string -> string) { forall s :: f(f(s)) == f(s) }

  /** Where a part of a copy comes from. */
  ghost predicate From(g: Graph, node: Node, x: Out)
    requires g.AllKnown(node)
  {
    x.Given? || FromChild(g, node, x) || FromKey(g, node, x)
  }

  ghost predicate FromChild(g: Graph, node: Node, x: Out) {
    exists v | v in Children(node) && g.Known(v) :: x == g.Image(v)
  }

  ghost predicate FromKey(g: Graph, node: Node, x: Out) {
    node.Map? && exists e | e in node.entries :: x == g.ImageKey(e.0)
  }

  lemma {:induction false} ItemsFrom(g: Graph, items: seq<Value>, x: Out)
    requires (forall v | v in items :: g.Known(v)) && x in g.ImageItems(items)
    ensures exists v | v in items :: x == g.Image(v)
  {
    var n := |items| - 1;
    if x == g.Image(items[n]) { assert items[n] in items; } else { ItemsFrom(g, items[..n], x); }
  }

  lemma {:induction false} MembersFrom(g: Graph, ms: seq<Value>, x: Out)
    requires (forall v | v in ms :: g.Known(v)) && x in g.ImageMembers(ms)
    ensures exists v | v in ms :: x == g.Image(v)
  {
    var n := |ms| - 1;
    if x == g.Image(ms[n]) { assert ms[n] in ms; } else { MembersFrom(g, ms[..n], x); }
  }

  lemma {:induction false} FieldsFrom(g: Graph, fs: seq<(string, Value)>, x: Out)
    requires (forall f | f in fs :: g.Known(f.1)) && x in Parts(ORec(g.ImageFields(fs)))
    ensures x.Given? || exists f | f in fs :: x == g.Image(f.1)
  {
    var n := |fs| - 1;
    if x in Parts(ORec(g.ImageField(fs[n]))) {
      assert fs[n] in fs;
    } else {
      FieldsFrom(g, fs[..n], x);
    }
  }

  lemma {:induction false} EntriesFrom(g: Graph, es: seq<(Value, Value)>, x: Out)
    requires (forall e | e in es :: g.Known(e.0) && g.Known(e.1)) && x in Parts(OMap(g.ImageEntries(es)))
    ensures exists e | e in es :: x == g.ImageKey(e.0) || x == g.Image(e.1)
  {
    var n := |es| - 1;
    InsertParts(g.ImageEntries(es[..n]), g.ImageKey(es[n].0), g.Image(es[n].1));
    if x == g.ImageKey(es[n].0) || x == g.Image(es[n].1) { assert es[n] in es; } else { EntriesFrom(g, es[..n], x); }
  }

  lemma RecordFrom(g: Graph, fs: seq<(string, Value)>, x: Out)
    requires g.AllKnown(Rec(fs)) && (forall f | f in fs :: g.Known(f.1)) && x in Parts(ORec(g.ImageFields(fs)))
    ensures From(g, Rec(fs), x)
  {
    FieldsFrom(g, fs, x);
    if !x.Given? {
      var f :| f in fs && x == g.Image(f.1);
      var i :| 0 <= i < |fs| && fs[i] == f;
      assert Children(Rec(fs))[i] == f.1;
    }
  }

  lemma MapChild(es: seq<(Value, Value)>, e: (Value, Value))
    requires e in es
    ensures e.1 in Children(Map(es))
  {
    var i: nat :| i < |es| && es[i] == e;
    MapChildAt(es, i, 2 * i + 1);
  }

  lemma MapChildAt(es: seq<(Value, Value)>, i: nat, j: nat)
    requires i < |es| && j == 2 * i + 1
    ensures j < |Children(Map(es))| && Children(Map(es))[j] == es[i].1
  {
    assert j % 2 == 1 && j / 2 == i;
  }

  lemma MapFrom(g: Graph, es: seq<(Value, Value)>, x: Out)
    requires g.AllKnown(Map(es)) && (forall e | e in es :: g.Known(e.0) && g.Known(e.1))
    requires x in Parts(OMap(g.ImageEntries(es)))
    ensures From(g, Map(es), x)
  {
    EntriesFrom(g, es, x);
    var e :| e in es && (x == g.ImageKey(e.0) || x == g.Image(e.1));
    if x == g.ImageKey(e.0) { assert FromKey(g, Map(es), x); } else { MapChild(es, e); }
  }

  lemma CopyFrom(g: Graph, node: Node, x: Out)
    requires !node.Opaque? && g.AllKnown(node) && x in Parts(g.ImageNode(node))
    ensures From(g, node, x)
  {
    match node
    case Arr(items) => ItemsFrom(g, items, x);
    case Set(ms) => MembersFrom(g, ms, x);
    case Rec(fs) => RecordFrom(g, fs, x);
    case Map(es) => MapFrom(g, es, x);
  }

  lemma SoundBelow(g: Graph, r: Redacted, x: Out, y: Out)
    requires Complete(g, r) && !r.unredactable && Idempotent(g.o.transform)
    requires Sound(g, r, x) && y in PartsOf(g, r, x)
    ensures Sound(g, r, y)
  {
    match x
    case Clone(id) =>
      assert CopyOk(g, r, id);
      CopyFrom(g, g.heap[id], y);
      CopiedSound(g, r, id, y);
    case Orig(id) =>
      assert !g.heap[id].Opaque?;
      var s: set<nat> :| id in s && g.CleanSet(s);
      var v :| v in Children(g.heap[id]) && y == Raw(v);
      assert g.CleanNode(g.heap[id], s);
    case _ =>
  }

  lemma KeySound(g: Graph, r: Redacted, node: Node, y: Out)
    requires g.KeysClean(node) && FromKey(g, node, y) && Idempotent(g.o.transform)
    ensures Sound(g, r, y)
  {
    var e :| e in node.entries && y == g.ImageKey(e.0);
    assert g.CleanKey(e.0);
    if e.0.Ref? { var s: set<nat> :| e.0.id in s && g.CleanSet(s); }
  }

  lemma ChildSound(g: Graph, r: Redacted, node: Node, y: Out)
    requires FromChild(g, node, y) && Idempotent(g.o.transform) && (y.Clone? ==> y.id in r.clones)
    ensures Sound(g, r, y)
  {
    var v :| v in Children(node) && g.Known(v) && y == g.Image(v);
  }

  lemma CopiedSound(g: Graph, r: Redacted, id: nat, y: Out)
    requires Complete(g, r) && !r.unredactable && Idempotent(g.o.transform)
    requires id in r.clones && y in Parts(r.clones[id]) && From(g, g.heap[id], y)
    ensures Sound(g, r, y)
  {
    assert CopyOk(g, r, id);
    if FromKey(g, g.heap[id], y) {
      KeySound(g, r, g.heap[id], y);
    } else if FromChild(g, g.heap[id], y) {
      ChildSound(g, r, g.heap[id], y);
    }
  }

  /**
   Redaction is complete: in deny mode, with neither flag raised, no path through the output leads
   to a string that redaction would still alter, cycles, sharing and map keys included.
   */
  lemma {:induction false} NothingSensitiveLeft(g: Graph, root: Value, r: Redacted, p: seq<Out>)
    requires g.Known(root) && Complete(g, r) && r.value == g.Image(root)
    requires !r.unredactable && Idempotent(g.o.transform) && Path(g, r, p)
    ensures Sound(g, r, p[|p| - 1])
    decreases |p|
  {
    if |p| > 1 {
      var q := p[..|p| - 1];
      assert Path(g, r, q) by {
        forall i | 0 <= i < |q| - 1 ensures q[i + 1] in PartsOf(g, r, q[i]) { assert p[i + 1] in PartsOf(g, r, p[i]); }
      }
      NothingSensitiveLeft(g, root, r, q);
      assert p[|p| - 2 + 1] in PartsOf(g, r, p[|p| - 2]);
      SoundBelow(g, r, p[|p| - 2], p[|p| - 1]);
    }
  }

  /* ---------------------------------------------------------------- an unmodified copy */

  /** The same content: strings and numbers as they were, objects replaced by their copies. */
  predicate Same(g: Graph, v: Value, x: Out)
    requires g.Known(v)
  {
    x == Given(v) ||
    match v
    case Str(s) => x == OStr(s)
    case Prim(n) => x == OPrim(n)
    case Ref(id) => x == if g.heap[id].Opaque? then Orig(id) else Clone(id)
  }

  predicate SameEach(g: Graph, es: seq<(Value, Value)>, copies: seq<(Out, Out)>)
    requires forall e | e in es :: g.Known(e.1)
  {
    && |copies| == |es|
    && forall i | 0 <= i < |es| :: copies[i].0 == Raw(es[i].0) && Same(g, es[i].1, copies[i].1)
  }

  predicate SameNode(g: Graph, node: Node, copy: OutNode)
    requires g.AllKnown(node)
  {
    match node
    case Arr(items) => copy.OArr? && |copy.items| == |items|
      && forall i | 0 <= i < |items| :: Same(g, items[i], copy.items[i])
    case Set(ms) => copy.OSet? && |copy.members| == |ms| && forall i | 0 <= i < |ms| :: Same(g, ms[i], copy.members[i])
    case Rec(fs) =>
      && copy.ORec? && |copy.fields| == |fs|
      && forall i | 0 <= i < |fs| :: copy.fields[i].0 == fs[i].0 && Same(g, fs[i].1, copy.fields[i].1)
    case Map(es) => copy.OMap? && SameEach(g, es, copy.entries)
    case Opaque => false
  }

  lemma {:induction false} SameItems(g: Graph, items: seq<Value>)
    requires forall v | v in items :: g.Known(v) && g.Unaltered(v)
    ensures SameNode(g, Arr(items), OArr(g.ImageItems(items)))
  {
    if items != [] {
      var n := |items| - 1;
      assert items[n] in items;
      SameItems(g, items[..n]);
    }
  }

  lemma {:induction false} SameMembers(g: Graph, ms: seq<Value>)
    requires (forall v | v in ms :: g.Known(v) && g.Unaltered(v)) && !g.MembersCollide(ms)
    ensures SameNode(g, Set(ms), OSet(g.ImageMembers(ms)))
  {
    if ms != [] {
      var n := |ms| - 1;
      assert ms[n] in ms;
      SameMembers(g, ms[..n]);
    }
  }

  lemma {:induction false} SameFields(g: Graph, fs: seq<(string, Value)>)
    requires forall f | f in fs :: g.Known(f.1) && g.FaithfulField(f)
    ensures SameNode(g, Rec(fs), ORec(g.ImageFields(fs)))
  {
    if fs != [] {
      var n := |fs| - 1;
      assert fs[n] in fs && g.FaithfulField(fs[n]);
      SameFields(g, fs[..n]);
    }
  }

  lemma {:induction false} InsertNew(es: seq<(Out, Out)>, k: Out, v: Out)
    requires !HasKey(es, k)
    ensures Insert(es, k, v) == es + [(k, v)]
  {
    if es != [] {
      assert es[0] in es;
      assert forall e | e in es[1..] :: e in es;
      InsertNew(es[1..], k, v);
    }
  }

  lemma SameEachNext(g: Graph, es: seq<(Value, Value)>, copies: seq<(Out, Out)>, e: (Value, Value), x: (Out, Out))
    requires (forall f | f in es + [e] :: g.Known(f.1)) && (forall f | f in es :: g.Known(f.1)) && g.Known(e.1)
    requires SameEach(g, es, copies) && x.0 == Raw(e.0) && Same(g, e.1, x.1)
    ensures SameEach(g, es + [e], copies + [x])
  {}

  lemma {:induction false} SameEntries(g: Graph, es: seq<(Value, Value)>)
    requires forall e | e in es :: g.Known(e.0) && g.Known(e.1) && g.Unaltered(e.0) && g.Unaltered(e.1)
    requires !g.EntriesCollide(es)
    ensures SameNode(g, Map(es), OMap(g.ImageEntries(es)))
  {
    if es != [] {
      var n := |es| - 1;
      assert es[n] in es;
      SameEntries(g, es[..n]);
      InsertNew(g.ImageEntries(es[..n]), g.ImageKey(es[n].0), g.Image(es[n].1));
      assert es == es[..n] + [es[n]];
      SameEachNext(g, es[..n], g.ImageEntries(es[..n]), es[n], (g.ImageKey(es[n].0), g.Image(es[n].1)));
    }
  }

  /** A copy reported neither modified nor collided has the content of what it copies, object by object. */
  lemma UnmodifiedMeansSame(g: Graph, r: Redacted, id: nat)
    requires Complete(g, r) && !r.modified && !r.keyCollision && id in r.clones
    ensures g.AllKnown(g.heap[id]) && SameNode(g, g.heap[id], r.clones[id])
  {
    assert CopyOk(g, r, id);
    match g.heap[id]
    case Arr(items) => SameItems(g, items);
    case Set(ms) => SameMembers(g, ms);
    case Rec(fs) => SameFields(g, fs);
    case Map(es) => SameEntries(g, es);
  }
}
