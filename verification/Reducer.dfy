/**
 Folding old tool groups (packages/core/src/reducers/bounded-tool-history.reducer.ts): the index
 loops of the reducer, and what they leave of a transcript.
 */
module Reducer {
  import opened Base
  import opened Transcript

  datatype Options = Options(keepLast: nat, asSystem: bool, text: seq<ToolCall> -> string)

  /** The message a folded group becomes. */
  function Summary(calls: seq<ToolCall>, o: Options): (m: Message)
    ensures !m.Tool? && !Opens(m)
  {
    if o.asSystem then System(o.text(calls)) else User(o.text(calls))
  }

  function GroupCount(ms: seq<Message>): nat {
    if ms == [] then 0 else (if Opens(ms[0]) then 1 else 0) + GroupCount(ms[1..])
  }

  /** A transcript taken apart: messages that stay, and groups that are folded. */
  datatype Piece = Kept(m: Message) | Folded(head: Message, results: seq<Message>)

  /** Folds the first `n` groups, the one that holds the pending call excepted. */
  function Pieces(ms: seq<Message>, n: nat, pending: Option<string>): seq<Piece>
    decreases |ms|
  {
    if ms == [] then []
    else if !Opens(ms[0]) then [Kept(ms[0])] + Pieces(ms[1..], n, pending)
    else if n > 0 && !Holding(ms[0], pending) then
      var k := Results(ms[1..]);
      [Folded(ms[0], ms[1..][..k])] + Pieces(ms[1 + k..], n - 1, pending)
    else [Kept(ms[0])] + Pieces(ms[1..], Less(n), pending)
  }

  function Less(n: nat): nat { if n > 0 then n - 1 else 0 }

  function Original(ps: seq<Piece>): seq<Message> {
    if ps == [] then []
    else (match ps[0] case Kept(m) => [m] case Folded(head, results) => [head] + results) + Original(ps[1..])
  }

  function Rendered(ps: seq<Piece>, o: Options): seq<Message> {
    if ps == [] then []
    else [match ps[0] case Kept(m) => m case Folded(head, _) => SummaryOf(head, o)] + Rendered(ps[1..], o)
  }

  function SummaryOf(head: Message, o: Options): Message {
    Summary(if head.Assistant? then head.calls else [], o)
  }

  function Fold(ms: seq<Message>, n: nat, pending: Option<string>, o: Options): seq<Message> {
    Rendered(Pieces(ms, n, pending), o)
  }

  function Cutoff(ms: seq<Message>, o: Options): nat {
    if GroupCount(ms) <= o.keepLast then 0 else GroupCount(ms) - o.keepLast
  }

  /** The reducer's answer. */
  function Reduced(ms: seq<Message>, pending: Option<string>, o: Options): seq<Message> {
    Fold(ms, Cutoff(ms, o), pending, o)
  }

  /* ----------------------------------------------------------------- by index loops */

  datatype ToolGroup = ToolGroup(start: nat, end: nat, names: seq<string>, ids: seq<string>, calls: seq<ToolCall>)

  lemma {:induction false} CountAppend(a: seq<Message>, b: seq<Message>)
    ensures GroupCount(a + b) == GroupCount(a) + GroupCount(b)
  {
    if a == [] {
      assert a + b == b;
    } else {
      assert (a + b)[1..] == a[1..] + b;
      CountAppend(a[1..], b);
    }
  }

  lemma CountTo(ms: seq<Message>, i: nat, j: nat)
    requires i < j <= |ms|
    ensures GroupCount(ms[..j]) == GroupCount(ms[..i]) + (if Opens(ms[i]) then 1 else 0) + GroupCount(ms[i + 1..j])
  {
    assert ms[..j] == ms[..i] + ([ms[i]] + ms[i + 1..j]);
    CountAppend(ms[..i], [ms[i]] + ms[i + 1..j]);
    assert ([ms[i]] + ms[i + 1..j])[1..] == ms[i + 1..j];
  }

  lemma CountNext(ms: seq<Message>, i: nat)
    requires i < |ms|
    ensures GroupCount(ms[..i + 1]) == GroupCount(ms[..i]) + if Opens(ms[i]) then 1 else 0
  {
    CountTo(ms, i, i + 1);
    assert ms[i + 1..i + 1] == [];
  }

  /** The k-th group of a transcript. */
  ghost predicate GroupAt(ms: seq<Message>, g: ToolGroup, k: nat) {
    && g.start < |ms| && Opens(ms[g.start]) && GroupCount(ms[..g.start]) == k
    && g.end == g.start + 1 + Results(ms[g.start + 1..])
    && g.calls == ms[g.start].calls && g.ids == Ids(g.calls)
  }

  lemma {:induction false} ResultsAre(ms: seq<Message>, n: nat)
    requires n <= |ms| && (forall i :: 0 <= i < n ==> ms[i].Tool?) && (n < |ms| ==> !ms[n].Tool?)
    ensures Results(ms) == n
  {
    if n > 0 { ResultsAre(ms[1..], n - 1); }
  }

  /** `findToolGroups`. */
  method FindToolGroups(ms: seq<Message>) returns (groups: seq<ToolGroup>)
    ensures |groups| == GroupCount(ms) && forall k :: 0 <= k < |groups| ==> GroupAt(ms, groups[k], k)
  {
    groups := [];
    for i := 0 to |ms|
      invariant |groups| == GroupCount(ms[..i]) && forall k :: 0 <= k < |groups| ==> GroupAt(ms, groups[k], k)
    {
      CountNext(ms, i);
      if !Opens(ms[i]) { continue; }
      var end := i + 1;
      while end < |ms| && ms[end].Tool?
        invariant i < end <= |ms| && forall j :: i < j < end ==> ms[j].Tool?
      {
        end := end + 1;
      }
      ResultsAre(ms[i + 1..], end - (i + 1));
      var calls := ms[i].calls;
      var names := seq(|calls|, j requires 0 <= j < |calls| => calls[j].name);
      groups := groups + [ToolGroup(i, end, names, Ids(calls), calls)];
    }
    assert ms[..|ms|] == ms;
  }

  /** Groups to fold, by where they start. */
  ghost predicate FoldAt(ms: seq<Message>, i: nat, cutoff: nat, pending: Option<string>) {
    i < |ms| && Opens(ms[i]) && GroupCount(ms[..i]) < cutoff && !Holding(ms[i], pending)
  }

  lemma GroupByCount(ms: seq<Message>, i: nat, j: nat)
    requires i < |ms| && j < |ms| && Opens(ms[i]) && Opens(ms[j]) && GroupCount(ms[..i]) == GroupCount(ms[..j])
    ensures i == j
  {
    if i < j { CountTo(ms, i, j); } else if j < i { CountTo(ms, j, i); }
  }

  ghost predicate StartsGroup(ms: seq<Message>, g: ToolGroup, i: nat) {
    i < |ms| && g.start == i && GroupAt(ms, g, GroupCount(ms[..i]))
  }

  method FoldStarts(ms: seq<Message>, groups: seq<ToolGroup>, cutoff: nat, pending: Option<string>)
    returns (starts: map<nat, ToolGroup>)
    requires |groups| == GroupCount(ms) && forall k :: 0 <= k < |groups| ==> GroupAt(ms, groups[k], k)
    requires cutoff <= |groups|
    ensures forall i: nat :: i in starts <==> FoldAt(ms, i, cutoff, pending)
    ensures forall i: nat | i in starts :: StartsGroup(ms, starts[i], i)
  {
    starts := map[];
    for k := 0 to cutoff
      invariant forall i: nat :: i in starts <==> FoldAt(ms, i, k, pending)
      invariant forall i: nat | i in starts :: StartsGroup(ms, starts[i], i)
    {
      var g := groups[k];
      assert GroupAt(ms, g, k);
      forall i: nat | i < |ms| && Opens(ms[i]) && GroupCount(ms[..i]) == k ensures i == g.start {
        GroupByCount(ms, i, g.start);
      }
      if !(pending.Some? && pending.value in g.ids) { starts := starts[g.start := g]; }
    }
  }

  /** `reduce`. */
  method Reduce(ms: seq<Message>, pending: Option<string>, o: Options) returns (result: seq<Message>)
    ensures result == Reduced(ms, pending, o)
  {
    var groups := FindToolGroups(ms);
    if |groups| <= o.keepLast {
      FoldNothing(ms, pending, o);
      return ms;
    }
    var cutoff := |groups| - o.keepLast;
    var starts := FoldStarts(ms, groups, cutoff, pending);
    result := [];
    var i := 0;
    assert ms[0..] == ms && ms[..0] == [];
    while i < |ms|
      invariant i <= |ms| && Ahead(result, ms, i, cutoff, pending, o) == Fold(ms, cutoff, pending, o)
    {
      if i in starts {
        var g := starts[i];
        FoldedAhead(result, ms, i, g, cutoff, pending, o);
        result := result + [Summary(g.calls, o)];
        i := g.end;
      } else {
        var next := i + 1;
        KeptAhead(result, ms, i, next, cutoff, pending, o);
        result := result + [ms[i]];
        i := next;
      }
    }
    assert ms[i..] == [];
  }

  /** What the reducer will have answered, from what it has and where it stands. */
  ghost function Ahead(result: seq<Message>, ms: seq<Message>, i: nat, cutoff: nat, pending: Option<string>,
      o: Options): seq<Message>
    requires i <= |ms|
  {
    result + Fold(ms[i..], Left(ms, i, cutoff), pending, o)
  }

  lemma FoldedAhead(result: seq<Message>, ms: seq<Message>, i: nat, g: ToolGroup, cutoff: nat, pending: Option<string>,
      o: Options)
    requires FoldAt(ms, i, cutoff, pending) && StartsGroup(ms, g, i)
    ensures i < g.end <= |ms|
    ensures Ahead(result + [Summary(g.calls, o)], ms, g.end, cutoff, pending, o)
      == Ahead(result, ms, i, cutoff, pending, o)
  {
    FoldedStep(ms, i, g.end, cutoff, pending, o);
    Assoc(result, [Summary(g.calls, o)], Fold(ms[g.end..], Left(ms, g.end, cutoff), pending, o));
  }

  lemma KeptAhead(result: seq<Message>, ms: seq<Message>, i: nat, next: nat, cutoff: nat, pending: Option<string>,
      o: Options)
    requires i < |ms| && next == i + 1 && !FoldAt(ms, i, cutoff, pending)
    ensures Ahead(result + [ms[i]], ms, next, cutoff, pending, o) == Ahead(result, ms, i, cutoff, pending, o)
  {
    KeptStep(ms, i, cutoff, pending, o);
    Assoc(result, [ms[i]], Fold(ms[i + 1..], Left(ms, i + 1, cutoff), pending, o));
  }

  /** How many of the groups from `i` on are old enough to fold. */
  ghost function Left(ms: seq<Message>, i: nat, cutoff: nat): nat
    requires i <= |ms|
  {
    if GroupCount(ms[..i]) < cutoff then cutoff - GroupCount(ms[..i]) else 0
  }

  lemma FoldedStep(ms: seq<Message>, i: nat, end: nat, cutoff: nat, pending: Option<string>, o: Options)
    requires FoldAt(ms, i, cutoff, pending) && end == i + 1 + Results(ms[i + 1..])
    ensures Fold(ms[i..], Left(ms, i, cutoff), pending, o)
      == [Summary(ms[i].calls, o)] + Fold(ms[end..], Left(ms, end, cutoff), pending, o)
  {
    SliceGroup(ms, i, end);
    LeftDrops(ms, i, end, cutoff);
    FoldAway(ms[i], ms[i + 1..end], ms[end..], Left(ms, i, cutoff), Left(ms, end, cutoff), pending, o);
  }

  lemma SliceGroup(ms: seq<Message>, i: nat, end: nat)
    requires i < |ms| && end == i + 1 + Results(ms[i + 1..])
    ensures ms[i..] == [ms[i]] + (ms[i + 1..end] + ms[end..]) && ToolsOnly(ms[i + 1..end]) && OpensFree(ms[end..])
  {}

  lemma LeftDrops(ms: seq<Message>, i: nat, end: nat, cutoff: nat)
    requires i < end <= |ms| && Opens(ms[i]) && ToolsOnly(ms[i + 1..end]) && GroupCount(ms[..i]) < cutoff
    ensures Left(ms, i, cutoff) == Left(ms, end, cutoff) + 1
  {
    CountTo(ms, i, end);
    NoGroups(ms[i + 1..end]);
  }

  lemma KeptStep(ms: seq<Message>, i: nat, cutoff: nat, pending: Option<string>, o: Options)
    requires i < |ms| && !FoldAt(ms, i, cutoff, pending)
    ensures Fold(ms[i..], Left(ms, i, cutoff), pending, o)
      == [ms[i]] + Fold(ms[i + 1..], Left(ms, i + 1, cutoff), pending, o)
  {
    assert ms[i..][1..] == ms[i + 1..];
    CountNext(ms, i);
    var rest := Pieces(ms[i + 1..], Left(ms, i + 1, cutoff), pending);
    assert ([Kept(ms[i])] + rest)[1..] == rest;
  }

  lemma NoGroups(ms: seq<Message>)
    requires forall i :: 0 <= i < |ms| ==> ms[i].Tool?
    ensures GroupCount(ms) == 0
  {}

  lemma {:induction false} FoldNothing(ms: seq<Message>, pending: Option<string>, o: Options)
    ensures Fold(ms, 0, pending, o) == ms
  {
    if ms != [] {
      FoldNothing(ms[1..], pending, o);
      var rest := Pieces(ms[1..], 0, pending);
      assert ([Kept(ms[0])] + rest)[1..] == rest;
    }
  }

  /* ------------------------------------------------------------- what is left of it */

  lemma FoldCons(ms: seq<Message>, n: nat, pending: Option<string>, o: Options)
    requires ms != []
    ensures var k := Results(ms[1..]);
      Fold(ms, n, pending, o) == (
        if !Opens(ms[0]) then [ms[0]] + Fold(ms[1..], n, pending, o)
        else if n > 0 && !Holding(ms[0], pending) then [SummaryOf(ms[0], o)] + Fold(ms[1 + k..], n - 1, pending, o)
        else [ms[0]] + Fold(ms[1..], Less(n), pending, o))
  {
    var ps := Pieces(ms, n, pending);
    assert ps == [ps[0]] + ps[1..];
  }

  /** Results are carried over one by one. */
  lemma {:induction false} FoldResults(results: seq<Message>, rest: seq<Message>, n: nat, pending: Option<string>,
      o: Options)
    requires ToolsOnly(results)
    ensures Fold(results + rest, n, pending, o) == results + Fold(rest, n, pending, o)
  {
    if results == [] {
      assert results + rest == rest;
    } else {
      assert (results + rest)[1..] == results[1..] + rest && [results[0]] + results[1..] == results;
      FoldCons(results + rest, n, pending, o);
      FoldResults(results[1..], rest, n, pending, o);
      Assoc([results[0]], results[1..], Fold(rest, n, pending, o));
    }
  }

  /** A whole group is folded or carried over whole. */
  lemma FoldGroup(head: Message, results: seq<Message>, rest: seq<Message>, n: nat, pending: Option<string>, o: Options)
    requires Opens(head) && ToolsOnly(results) && OpensFree(rest)
    ensures Fold([head] + (results + rest), n, pending, o) == (
      if n > 0 && !Holding(head, pending) then [SummaryOf(head, o)] + Fold(rest, n - 1, pending, o)
      else [head] + (results + Fold(rest, Less(n), pending, o)))
  {
    Joined(head, results, rest);
    FoldCons([head] + (results + rest), n, pending, o);
    FoldResults(results, rest, Less(n), pending, o);
  }

  lemma FoldAway(
      head: Message, results: seq<Message>, rest: seq<Message>, n: nat, less: nat, pending: Option<string>, o: Options)
    requires Opens(head) && !Holding(head, pending) && ToolsOnly(results) && OpensFree(rest) && n == less + 1
    ensures Fold([head] + (results + rest), n, pending, o) == [SummaryOf(head, o)] + Fold(rest, less, pending, o)
  {
    FoldGroup(head, results, rest, less + 1, pending, o);
  }

  lemma CountGroup(head: Message, results: seq<Message>, rest: seq<Message>)
    requires Opens(head) && ToolsOnly(results)
    ensures GroupCount([head] + (results + rest)) == 1 + GroupCount(rest)
  {
    assert ([head] + (results + rest))[1..] == results + rest;
    CountAppend(results, rest);
    NoGroups(results);
  }

  /** What is folded starts no run of results. */
  lemma FoldHead(ms: seq<Message>, n: nat, pending: Option<string>, o: Options)
    requires ms != [] ==> !ms[0].Tool?
    ensures var r := Fold(ms, n, pending, o); (r == [] <==> ms == []) && (r != [] ==> !r[0].Tool?)
  {
    if ms != [] { FoldCons(ms, n, pending, o); }
  }

  lemma {:induction false} FoldProtocol(
      ms: seq<Message>, n: nat, seen: set<string>, kept: set<string>, pending: Option<string>, o: Options)
    requires Protocol(ms, seen, pending) && kept <= seen
    requires pending.Some? && pending.value in seen ==> pending.value in kept
    ensures Protocol(Fold(ms, n, pending, o), kept, pending)
    decreases |ms|, 1
  {
    if ms != [] {
      if Opens(ms[0]) {
        var results, rest := Split(ms);
        ProtocolGroup(ms[0], results, rest, seen, pending);
        FoldGroupProtocol(ms[0], results, rest, n, seen, kept, pending, o);
      } else {
        FoldCons(ms, n, pending, o);
        FoldProtocol(ms[1..], n, seen, kept, pending, o);
        ProtocolPlain(ms[0], Fold(ms[1..], n, pending, o), kept, pending);
      }
    }
  }

  lemma {:induction false} FoldGroupProtocol(
      head: Message, results: seq<Message>, rest: seq<Message>, n: nat, seen: set<string>, kept: set<string>,
      pending: Option<string>, o: Options)
    requires Opens(head) && ToolsOnly(results) && OpensFree(rest) && kept <= seen
    requires pending.Some? && pending.value in seen ==> pending.value in kept
    requires Distinct(Ids(head.calls)) && IdSet(Ids(head.calls)) !! seen
    requires Answers(Ids(head.calls), Answered(results), rest != [] || !Holding(head, pending))
    requires Protocol(rest, seen + IdSet(Ids(head.calls)), pending)
    ensures Protocol(Fold([head] + (results + rest), n, pending, o), kept, pending)
    decreases 1 + |results| + |rest|, 0
  {
    var ids := IdSet(Ids(head.calls));
    FoldGroup(head, results, rest, n, pending, o);
    if n > 0 && !Holding(head, pending) {
      FoldProtocol(rest, n - 1, seen + ids, kept, pending, o);
      ProtocolPlain(SummaryOf(head, o), Fold(rest, n - 1, pending, o), kept, pending);
    } else {
      FoldProtocol(rest, Less(n), seen + ids, kept + ids, pending, o);
      FoldHead(rest, Less(n), pending, o);
      ProtocolGroup(head, results, Fold(rest, Less(n), pending, o), kept, pending);
    }
  }

  /** The validator accepts what the reducer makes of any transcript it accepts, whatever is retained. */
  lemma ReducedIsAccepted(ms: seq<Message>, pending: Option<string>, o: Options)
    requires Accepts(ms, pending)
    ensures Accepts(Reduced(ms, pending, o), pending)
  {
    AcceptsIffProtocol(ms, pending);
    FoldProtocol(ms, Cutoff(ms, o), {}, {}, pending, o);
    AcceptsIffProtocol(Reduced(ms, pending, o), pending);
  }

  /* ------------------------------------------------------------- what is kept, and how much */

  /** One whole group, not the pending one, with at least `keep` groups behind it. */
  ghost predicate OldGroup(ps: seq<Piece>, i: nat, keep: nat, pending: Option<string>)
    requires i < |ps| && ps[i].Folded?
  {
    && Opens(ps[i].head) && !Holding(ps[i].head, pending)
    && (forall r | r in ps[i].results :: r.Tool?)
    && (i + 1 < |ps| && ps[i + 1].Kept? ==> !ps[i + 1].m.Tool?)
    && GroupCount(Original(ps[i + 1..])) >= keep
  }

  ghost predicate OnlyOld(ps: seq<Piece>, keep: nat, pending: Option<string>) {
    forall i: nat | i < |ps| && ps[i].Folded? :: OldGroup(ps, i, keep, pending)
  }

  lemma OldShift(p: Piece, ps: seq<Piece>, i: nat, next: nat, keep: nat, pending: Option<string>)
    requires i < |ps| && ps[i].Folded? && next == i + 1 && OldGroup(ps, i, keep, pending)
    ensures ([p] + ps)[next].Folded? && OldGroup([p] + ps, next, keep, pending)
  {
    assert ([p] + ps)[next + 1..] == ps[i + 1..];
  }

  lemma OldBehind(p: Piece, ps: seq<Piece>, keep: nat, pending: Option<string>)
    requires OnlyOld(ps, keep, pending)
    requires p.Folded? ==> OldGroup([p] + ps, 0, keep, pending)
    ensures OnlyOld([p] + ps, keep, pending)
  {
    var all := [p] + ps;
    forall next: nat | next < |all| && all[next].Folded? ensures OldGroup(all, next, keep, pending) {
      if next > 0 {
        var i: nat := next - 1;
        OldShift(p, ps, i, next, keep, pending);
      }
    }
  }

  lemma OriginalCons(p: Piece, ps: seq<Piece>)
    ensures Original([p] + ps)
      == (match p { case Kept(m) => [m] case Folded(head, results) => [head] + results }) + Original(ps)
  {
    assert ([p] + ps)[1..] == ps;
  }

  /** The pieces are the transcript, and only old groups among them are folded. */
  lemma {:induction false} PiecesAre(ms: seq<Message>, n: nat, keep: nat, pending: Option<string>)
    requires n + keep <= GroupCount(ms) || n == 0
    ensures Original(Pieces(ms, n, pending)) == ms && OnlyOld(Pieces(ms, n, pending), keep, pending)
    decreases |ms|, 1
  {
    if ms != [] {
      if Opens(ms[0]) && n > 0 && !Holding(ms[0], pending) {
        var results, rest := Split(ms);
        FoldedFront(ms[0], results, rest, n, keep, pending);
      } else {
        var n' := if Opens(ms[0]) then Less(n) else n;
        PiecesAre(ms[1..], n', keep, pending);
        KeptPiece(ms, Pieces(ms[1..], n', pending), keep, pending);
        assert Pieces(ms, n, pending) == [Kept(ms[0])] + Pieces(ms[1..], n', pending);
      }
    }
  }

  lemma {:induction false} FoldedFront(
      head: Message, results: seq<Message>, rest: seq<Message>, n: nat, keep: nat, pending: Option<string>)
    requires Opens(head) && n > 0 && !Holding(head, pending) && ToolsOnly(results) && OpensFree(rest)
    requires n + keep <= GroupCount([head] + (results + rest))
    ensures var ms := [head] + (results + rest);
      Original(Pieces(ms, n, pending)) == ms && OnlyOld(Pieces(ms, n, pending), keep, pending)
    decreases 1 + |results| + |rest|, 0
  {
    CountGroup(head, results, rest);
    PiecesAre(rest, n - 1, keep, pending);
    FoldedPiece(head, results, rest, Pieces(rest, n - 1, pending), n - 1, keep, pending);
    PiecesFolded(head, results, rest, n, pending);
  }

  lemma PiecesFolded(head: Message, results: seq<Message>, rest: seq<Message>, n: nat, pending: Option<string>)
    requires Opens(head) && n > 0 && !Holding(head, pending) && ToolsOnly(results) && OpensFree(rest)
    ensures Pieces([head] + (results + rest), n, pending) == [Folded(head, results)] + Pieces(rest, n - 1, pending)
  {
    Joined(head, results, rest);
  }

  lemma KeptPiece(ms: seq<Message>, ps: seq<Piece>, keep: nat, pending: Option<string>)
    requires ms != [] && Original(ps) == ms[1..] && OnlyOld(ps, keep, pending)
    ensures Original([Kept(ms[0])] + ps) == ms && OnlyOld([Kept(ms[0])] + ps, keep, pending)
  {
    OldBehind(Kept(ms[0]), ps, keep, pending);
    OriginalCons(Kept(ms[0]), ps);
  }

  lemma FoldedPiece(head: Message, results: seq<Message>, rest: seq<Message>, ps: seq<Piece>, n: nat, keep: nat,
                    pending: Option<string>)
    requires Opens(head) && !Holding(head, pending) && ToolsOnly(results) && OpensFree(rest)
    requires ps == Pieces(rest, n, pending) && Original(ps) == rest && OnlyOld(ps, keep, pending)
    requires GroupCount(rest) >= keep
    ensures var all := [Folded(head, results)] + ps;
      Original(all) == [head] + (results + rest) && OnlyOld(all, keep, pending)
  {
    FrontPiece(rest, n, pending);
    OriginalCons(Folded(head, results), ps);
    FirstIsOld(head, results, ps, keep, pending);
    OldBehind(Folded(head, results), ps, keep, pending);
    Assoc([head], results, rest);
  }

  lemma FirstIsOld(head: Message, results: seq<Message>, ps: seq<Piece>, keep: nat, pending: Option<string>)
    requires Opens(head) && !Holding(head, pending) && ToolsOnly(results)
    requires (ps != [] && ps[0].Kept? ==> !ps[0].m.Tool?) && GroupCount(Original(ps)) >= keep
    ensures OldGroup([Folded(head, results)] + ps, 0, keep, pending)
  {
    assert ([Folded(head, results)] + ps)[1..] == ps;
  }

  lemma FrontPiece(ms: seq<Message>, n: nat, pending: Option<string>)
    requires ms != [] ==> !ms[0].Tool?
    ensures var ps := Pieces(ms, n, pending); ps != [] && ps[0].Kept? ==> !ps[0].m.Tool?
  {}

  /**
   The reducer replaces whole groups by one plain message each, never the pending group and never
   one of the last `keepLast`, and keeps every other message where it was.
   */
  lemma ReductionKeeps(ms: seq<Message>, pending: Option<string>, o: Options)
    ensures var ps := Pieces(ms, Cutoff(ms, o), pending);
      Original(ps) == ms && Rendered(ps, o) == Reduced(ms, pending, o) && OnlyOld(ps, o.keepLast, pending)
  {
    PiecesAre(ms, Cutoff(ms, o), o.keepLast, pending);
  }

  /** The first `h` groups hold the pending call. */
  ghost predicate FirstHold(ms: seq<Message>, h: nat, pending: Option<string>) {
    ms == [] || h == 0
    || (if Opens(ms[0]) then Holding(ms[0], pending) && FirstHold(ms[1..], h - 1, pending)
        else FirstHold(ms[1..], h, pending))
  }

  ghost predicate Excess(r: seq<Message>, least: nat, pending: Option<string>) {
    GroupCount(r) >= least && FirstHold(r, GroupCount(r) - least, pending)
  }

  lemma ExcessCons(m: Message, r: seq<Message>, least: nat, pending: Option<string>)
    requires Excess(r, least, pending) && (Opens(m) ==> Holding(m, pending))
    ensures Excess([m] + r, least, pending)
  {
    assert ([m] + r)[1..] == r;
  }

  /** After folding, the groups in excess of the newest are groups that hold the pending call. */
  lemma {:induction false} ExcessHolds(ms: seq<Message>, n: nat, least: nat, pending: Option<string>, o: Options)
    requires n + least == GroupCount(ms)
    ensures Excess(Fold(ms, n, pending, o), least, pending)
    decreases |ms|, 1
  {
    if n == 0 {
      FoldNothing(ms, pending, o);
    } else if Opens(ms[0]) && !Holding(ms[0], pending) {
      var results, rest := Split(ms);
      ExcessFolded(ms[0], results, rest, n, least, pending, o);
    } else {
      var n' := if Opens(ms[0]) then n - 1 else n;
      FoldCons(ms, n, pending, o);
      ExcessHolds(ms[1..], n', least, pending, o);
      ExcessCons(ms[0], Fold(ms[1..], n', pending, o), least, pending);
    }
  }

  lemma {:induction false} ExcessFolded(
      head: Message, results: seq<Message>, rest: seq<Message>, n: nat, least: nat, pending: Option<string>, o: Options)
    requires Opens(head) && !Holding(head, pending) && ToolsOnly(results) && OpensFree(rest)
    requires n > 0 && n + least == GroupCount([head] + (results + rest))
    ensures Excess(Fold([head] + (results + rest), n, pending, o), least, pending)
    decreases 1 + |results| + |rest|, 0
  {
    var less: nat := n - 1;
    CountGroup(head, results, rest);
    FoldAway(head, results, rest, n, less, pending, o);
    ExcessHolds(rest, less, least, pending, o);
    ExcessCons(SummaryOf(head, o), Fold(rest, less, pending, o), least, pending);
  }

  lemma {:induction false} FoldHolding(ms: seq<Message>, h: nat, pending: Option<string>, o: Options)
    requires FirstHold(ms, h, pending)
    ensures Fold(ms, h, pending, o) == ms
  {
    if h == 0 {
      FoldNothing(ms, pending, o);
    } else if ms != [] {
      FoldCons(ms, h, pending, o);
      FoldHolding(ms[1..], if Opens(ms[0]) then h - 1 else h, pending, o);
    }
  }

  /** Reducing twice is reducing once, for every transcript and every retention. */
  lemma ReducingIsIdempotent(ms: seq<Message>, pending: Option<string>, o: Options)
    ensures Reduced(Reduced(ms, pending, o), pending, o) == Reduced(ms, pending, o)
  {
    var r := Reduced(ms, pending, o);
    if GroupCount(ms) <= o.keepLast {
      FoldNothing(ms, pending, o);
    } else {
      ExcessHolds(ms, Cutoff(ms, o), o.keepLast, pending, o);
      FoldHolding(r, Cutoff(r, o), pending, o);
    }
  }

  /** How many groups hold the pending call; at most one where ids are unique. */
  function HoldCount(ms: seq<Message>, pending: Option<string>): nat {
    if ms == [] then 0 else (if Holding(ms[0], pending) then 1 else 0) + HoldCount(ms[1..], pending)
  }

  lemma {:induction false} HoldOnce(ms: seq<Message>, seen: set<string>, pending: Option<string>)
    requires Protocol(ms, seen, pending)
    ensures HoldCount(ms, pending) <= if pending.Some? && pending.value in seen then 0 else 1
    decreases |ms|
  {
    if ms != [] {
      if Opens(ms[0]) {
        var results, rest := Split(ms);
        ProtocolGroup(ms[0], results, rest, seen, pending);
        HoldOnce(rest, seen + IdSet(Ids(ms[0].calls)), pending);
        HoldGroup(ms[0], results, rest, pending);
      } else {
        HoldOnce(ms[1..], seen, pending);
      }
    }
  }

  lemma HoldGroup(head: Message, results: seq<Message>, rest: seq<Message>, pending: Option<string>)
    requires ToolsOnly(results)
    ensures HoldCount([head] + (results + rest), pending)
      == (if Holding(head, pending) then 1 else 0) + HoldCount(rest, pending)
  {
    assert ([head] + (results + rest))[1..] == results + rest;
    HoldResults(results, rest, pending);
  }

  lemma {:induction false} HoldResults(results: seq<Message>, rest: seq<Message>, pending: Option<string>)
    requires ToolsOnly(results)
    ensures HoldCount(results + rest, pending) == HoldCount(rest, pending)
  {
    if results == [] {
      assert results + rest == rest;
    } else {
      assert (results + rest)[1..] == results[1..] + rest;
      HoldResults(results[1..], rest, pending);
    }
  }

  lemma {:induction false} HoldAtLeast(ms: seq<Message>, h: nat, pending: Option<string>)
    requires FirstHold(ms, h, pending) && h <= GroupCount(ms)
    ensures HoldCount(ms, pending) >= h
  {
    if h > 0 && ms != [] { HoldAtLeast(ms[1..], if Opens(ms[0]) then h - 1 else h, pending); }
  }

  /** An accepted transcript keeps at most one group more than asked for: the pending one. */
  lemma ReducedIsBounded(ms: seq<Message>, pending: Option<string>, o: Options)
    requires Accepts(ms, pending)
    ensures GroupCount(Reduced(ms, pending, o)) <= o.keepLast + 1
    ensures pending.None? ==> GroupCount(Reduced(ms, pending, o)) <= o.keepLast
  {
    var r := Reduced(ms, pending, o);
    ReducedIsAccepted(ms, pending, o);
    AcceptsIffProtocol(r, pending);
    HoldOnce(r, {}, pending);
    if GroupCount(ms) <= o.keepLast {
      FoldNothing(ms, pending, o);
    } else {
      ExcessHolds(ms, Cutoff(ms, o), o.keepLast, pending, o);
      HoldAtLeast(r, GroupCount(r) - o.keepLast, pending);
      if pending.None? { NothingHolds(r); }
    }
  }

  lemma NothingHolds(ms: seq<Message>)
    ensures HoldCount(ms, None) == 0
  {}

  /* --------------------------------------------------------- what knowing the pending call changes */

  /** Whether one of the first `n` groups declares the id. */
  predicate HeldAmong(ms: seq<Message>, n: nat, id: string) {
    && ms != [] && n > 0
    && (Declares(ms[0], id) || HeldAmong(ms[1..], if Opens(ms[0]) then n - 1 else n, id))
  }

  lemma {:induction false} HeldResults(results: seq<Message>, rest: seq<Message>, n: nat, id: string)
    requires ToolsOnly(results)
    ensures HeldAmong(results + rest, n, id) <==> HeldAmong(rest, n, id)
  {
    if results == [] {
      assert results + rest == rest;
    } else {
      assert (results + rest)[1..] == results[1..] + rest;
      HeldResults(results[1..], rest, n, id);
    }
  }

  /** Folding spares the pending group, so telling the reducer of it matters exactly when it would be folded. */
  lemma {:induction false} SparedIff(ms: seq<Message>, n: nat, id: string, o: Options)
    ensures Fold(ms, n, Some(id), o) == Fold(ms, n, None, o) <==> !HeldAmong(ms, n, id)
    decreases |ms|, 1
  {
    if ms == [] || n == 0 {
      FoldNothing(ms, Some(id), o);
      FoldNothing(ms, None, o);
    } else if Opens(ms[0]) {
      var results, rest := Split(ms);
      SparedGroup(ms[0], results, rest, n, n - 1, id, o);
    } else {
      SparedIff(ms[1..], n, id, o);
      FoldCons(ms, n, Some(id), o);
      FoldCons(ms, n, None, o);
      SameTail(ms[0], Fold(ms[1..], n, Some(id), o), Fold(ms[1..], n, None, o));
    }
  }

  lemma {:induction false} SparedGroup(
      head: Message, results: seq<Message>, rest: seq<Message>, n: nat, less: nat, id: string, o: Options)
    requires Opens(head) && ToolsOnly(results) && OpensFree(rest) && n == less + 1
    ensures var ms := [head] + (results + rest);
      Fold(ms, n, Some(id), o) == Fold(ms, n, None, o) <==> !HeldAmong(ms, n, id)
    decreases 1 + |results| + |rest|, 0
  {
    assert ([head] + (results + rest))[1..] == results + rest;
    HeldResults(results, rest, less, id);
    FoldAway(head, results, rest, n, less, None, o);
    if Declares(head, id) {
      SparedHead([head] + (results + rest), n, id, o);
    } else {
      FoldAway(head, results, rest, n, less, Some(id), o);
      SparedIff(rest, less, id, o);
      SameTail(SummaryOf(head, o), Fold(rest, less, Some(id), o), Fold(rest, less, None, o));
    }
  }

  lemma SparedHead(ms: seq<Message>, n: nat, id: string, o: Options)
    requires ms != [] && Declares(ms[0], id) && n > 0
    ensures Fold(ms, n, Some(id), o) != Fold(ms, n, None, o)
  {
    FoldCons(ms, n, Some(id), o);
    FoldCons(ms, n, None, o);
    assert Fold(ms, n, Some(id), o)[0] == ms[0] && Fold(ms, n, None, o)[0] == SummaryOf(ms[0], o);
  }

  lemma SameTail(m: Message, a: seq<Message>, b: seq<Message>)
    ensures [m] + a == [m] + b <==> a == b
  {
    assert ([m] + a)[1..] == a && ([m] + b)[1..] == b;
  }

  /** Being told of the pending call changes the answer exactly when its group is too old to be retained. */
  lemma PendingMattersIff(ms: seq<Message>, id: string, o: Options)
    ensures Reduced(ms, Some(id), o) != Reduced(ms, None, o) <==> HeldAmong(ms, Cutoff(ms, o), id)
  {
    SparedIff(ms, Cutoff(ms, o), id, o);
  }

  /** With one group retained, as by default, it matters one group later. */
  lemma PendingMattersNextRound(x: ToolCall, y: ToolCall, o: Options)
    requires o.keepLast == 1
    ensures var ms := [Assistant("", [x]), Tool(x.id, x.name, ""), Assistant("", [y]), Tool(y.id, y.name, "")];
      Reduced(ms, Some(x.id), o) != Reduced(ms, None, o)
  {
    var ms := [Assistant("", [x]), Tool(x.id, x.name, ""), Assistant("", [y]), Tool(y.id, y.name, "")];
    assert Ids([x])[0] == x.id;
    assert GroupCount(ms) == 1 + GroupCount(ms[1..]) && GroupCount(ms[1..]) == GroupCount(ms[1..][1..]);
    assert ms[1..][1..] == [ms[2], ms[3]] && [ms[2], ms[3]][1..] == [ms[3]] && [ms[3]][1..] == [];
    assert GroupCount([ms[2], ms[3]]) == 1 + GroupCount([ms[3]]) && GroupCount([ms[3]]) == 0;
    PendingMattersIff(ms, x.id, o);
  }

  lemma {:induction false} HeldBehind(ms: seq<Message>, group: seq<Message>, n: nat, id: string)
    requires HoldCount(ms, Some(id)) == 0 && group != [] && Declares(group[0], id)
    ensures HeldAmong(ms + group, n, id) <==> n > GroupCount(ms)
  {
    if ms == [] {
      assert ms + group == group;
    } else {
      assert (ms + group)[1..] == ms[1..] + group;
      if n > 0 { HeldBehind(ms[1..], group, if Opens(ms[0]) then n - 1 else n, id); }
    }
  }
}
