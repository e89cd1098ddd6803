/**
 Transcripts and the tool protocol (packages/core/src/reducers/validate-reduction.ts): the
 validator walks a transcript message by message; the grammar it enforces is stated beside it,
 group by group.
 */
module Transcript {
  import opened Base
  import opened JsonText

  datatype ToolCall = ToolCall(id: string, name: string, args: Json)

  datatype Message =
    | System(text: string)
    | User(text: string)
    | Assistant(text: string, calls: seq<ToolCall>)
    | Tool(callId: string, toolName: string, text: string)

  /** An assistant message that requests tools, and so opens a group. */
  predicate Opens(m: Message) { m.Assistant? && m.calls != [] }

  function Ids(calls: seq<ToolCall>): (r: seq<string>)
    ensures |r| == |calls| && forall i :: 0 <= i < |r| ==> r[i] == calls[i].id
  {
    seq(|calls|, i requires 0 <= i < |calls| => calls[i].id)
  }

  function IdSet(ids: seq<string>): set<string> { set x | x in ids }

  predicate Distinct(ids: seq<string>) { forall i, j :: 0 <= i < j < |ids| ==> ids[i] != ids[j] }

  predicate Declares(m: Message, id: string) { Opens(m) && id in Ids(m.calls) }

  predicate Holding(m: Message, pending: Option<string>) { pending.Some? && Declares(m, pending.value) }

  /* --------------------------------------------------------------------- the walk */

  /** Ids seen so far, ids of the open group still unanswered, and whether it holds the pending call. */
  datatype Walk = Walk(seen: set<string>, open: set<string>, holds: bool)

  /** What one message does to the walk; None where the validator throws. */
  function WalkStep(m: Message, w: Walk, pending: Option<string>): Option<Walk> {
    if Opens(m) then
      var ids := Ids(m.calls);
      if w.open == {} && Distinct(ids) && IdSet(ids) !! w.seen
      then Some(Walk(w.seen + IdSet(ids), IdSet(ids), Holding(m, pending)))
      else None
    else if m.Tool? then
      if m.callId in w.open then Some(w.(open := w.open - {m.callId})) else None
    else if w.open == {} then Some(w)
    else None
  }

  function WalkAll(ms: seq<Message>, w: Walk, pending: Option<string>): Option<Walk> {
    if ms == [] then Some(w)
    else match WalkStep(ms[0], w, pending) case None => None case Some(next) => WalkAll(ms[1..], next, pending)
  }

  function Start(): Walk { Walk({}, {}, false) }

  /** A named pending call has to be declared somewhere. */
  predicate KeepsPending(seen: set<string>, pending: Option<string>) {
    pending.Some? && pending.value != "" ==> pending.value in seen
  }

  predicate Ends(w: Walk, pending: Option<string>) { (w.open == {} || w.holds) && KeepsPending(w.seen, pending) }

  predicate Accepts(ms: seq<Message>, pending: Option<string>) {
    match WalkAll(ms, Start(), pending) case None => false case Some(w) => Ends(w, pending)
  }

  lemma {:induction false} WalkAppend(a: seq<Message>, b: seq<Message>, w: Walk, pending: Option<string>)
    ensures WalkAll(a + b, w, pending) ==
      match WalkAll(a, w, pending) { case None => None case Some(next) => WalkAll(b, next, pending) }
  {
    if a == [] {
      assert a + b == b;
    } else {
      assert (a + b)[1..] == a[1..] + b;
      match WalkStep(a[0], w, pending) {
        case None =>
        case Some(next) => WalkAppend(a[1..], b, next, pending);
      }
    }
  }

  lemma WalkSnoc(a: seq<Message>, m: Message, w: Walk, pending: Option<string>)
    ensures WalkAll(a + [m], w, pending) ==
      match WalkAll(a, w, pending) { case None => None case Some(next) => WalkStep(m, next, pending) }
  {
    WalkAppend(a, [m], w, pending);
    assert [m][1..] == [];
  }

  /** `validateReduction`, the sequential part: false where it throws. */
  method ValidateReduction(reduced: seq<Message>, pending: Option<string>) returns (ok: bool)
    ensures ok == Accepts(reduced, pending)
  {
    var seen, declared, open: set<string> := {}, {}, {};
    var holds := false;
    for i := 0 to |reduced|
      invariant WalkAll(reduced[..i], Start(), pending) == Some(Walk(seen, open, holds)) && declared == seen
    {
      var m := reduced[i];
      assert reduced[..i + 1] == reduced[..i] + [m] && reduced == reduced[..i + 1] + reduced[i + 1..];
      WalkSnoc(reduced[..i], m, Start(), pending);
      WalkAppend(reduced[..i + 1], reduced[i + 1..], Start(), pending);
      if Opens(m) {
        if open != {} { return false; }
        var allNew := OpenGroup(m.calls, seen);
        if !allNew { return false; }
        seen, declared, open := seen + IdSet(Ids(m.calls)), declared + IdSet(Ids(m.calls)), IdSet(Ids(m.calls));
        holds := pending.Some? && pending.value in Ids(m.calls);
      } else if m.Tool? {
        if m.callId !in open { return false; }
        open := open - {m.callId};
      } else {
        if open != {} { return false; }
      }
    }
    assert reduced[..|reduced|] == reduced;
    if open != {} && !holds { return false; }
    ok := !(pending.Some? && pending.value != "") || pending.value in declared;
  }

  /** Whether a group's ids are all new, taken one by one. */
  method OpenGroup(calls: seq<ToolCall>, seen: set<string>) returns (allNew: bool)
    ensures allNew <==> Distinct(Ids(calls)) && IdSet(Ids(calls)) !! seen
  {
    var taken, ids := seen, Ids(calls);
    for i := 0 to |calls|
      invariant forall x :: x in taken <==> x in seen || exists k :: 0 <= k < i && ids[k] == x
      invariant forall k :: 0 <= k < i ==> ids[k] !in seen
      invariant forall j, k :: 0 <= j < k < i ==> ids[j] != ids[k]
    {
      if calls[i].id in taken {
        if calls[i].id in seen { assert ids[i] in IdSet(ids); }
        return false;
      }
      taken := taken + {calls[i].id};
    }
    allNew := true;
  }

  /* ------------------------------------------------------------------- the grammar */

  /** The results that directly follow a request. */
  function Results(ms: seq<Message>): (n: nat)
    ensures n <= |ms| && (forall i :: 0 <= i < n ==> ms[i].Tool?) && (n < |ms| ==> !ms[n].Tool?)
  {
    if ms != [] && ms[0].Tool? then 1 + Results(ms[1..]) else 0
  }

  function Answered(results: seq<Message>): (r: seq<string>)
    requires forall i :: 0 <= i < |results| ==> results[i].Tool?
    ensures |r| == |results| && forall i :: 0 <= i < |r| ==> r[i] == results[i].callId
  {
    seq(|results|, i requires 0 <= i < |results| => results[i].callId)
  }

  /** Each call answered at most once, nothing else answered; and every call, where that is asked. */
  predicate Answers(ids: seq<string>, answered: seq<string>, all: bool) {
    && Distinct(answered) && IdSet(answered) <= IdSet(ids)
    && (all ==> IdSet(answered) == IdSet(ids))
  }

  /**
   A protocol transcript after `seen`: plain messages and whole tool groups.  A group declares new
   ids and is directly followed by one result for each; only the last group, and only if it holds
   the pending call, may lack results.
   */
  predicate Protocol(ms: seq<Message>, seen: set<string>, pending: Option<string>)
    decreases |ms|
  {
    if ms == [] then KeepsPending(seen, pending)
    else if Opens(ms[0]) then
      var ids, n := Ids(ms[0].calls), Results(ms[1..]);
      && Distinct(ids) && IdSet(ids) !! seen
      && Answers(ids, Answered(ms[1..][..n]), 1 + n < |ms| || !Holding(ms[0], pending))
      && Protocol(ms[1 + n..], seen + IdSet(ids), pending)
    else !ms[0].Tool? && Protocol(ms[1..], seen, pending)
  }

  lemma DistinctCons(x: string, xs: seq<string>)
    ensures Distinct([x] + xs) <==> x !in IdSet(xs) && Distinct(xs)
    ensures IdSet([x] + xs) == {x} + IdSet(xs)
  {
    var all := [x] + xs;
    assert forall i :: 0 <= i < |xs| ==> xs[i] == all[i + 1];
    if Distinct(all) {
      forall i | 0 <= i < |xs| ensures xs[i] != x { assert all[0] != all[i + 1]; }
    }
  }

  /** Answering `rest` after `id`, one at a time or all at once. */
  lemma AnswerNext(id: string, rest: seq<string>, open: set<string>)
    ensures Distinct([id] + rest) && IdSet([id] + rest) <= open
      <==> id in open && Distinct(rest) && IdSet(rest) <= open - {id}
    ensures open - IdSet([id] + rest) == (open - {id}) - IdSet(rest)
  {
    DistinctCons(id, rest);
  }

  /** What a run of results does to the walk. */
  lemma {:induction false} WalkResults(ms: seq<Message>, w: Walk, pending: Option<string>)
    requires forall i :: 0 <= i < |ms| ==> ms[i].Tool?
    ensures WalkAll(ms, w, pending) == (
      if Distinct(Answered(ms)) && IdSet(Answered(ms)) <= w.open
      then Some(w.(open := w.open - IdSet(Answered(ms)))) else None)
  {
    if ms == [] {
      assert w.open - IdSet(Answered(ms)) == w.open;
    } else {
      var id, rest := ms[0].callId, Answered(ms[1..]);
      assert Answered(ms) == [id] + rest;
      AnswerNext(id, rest, w.open);
      if id in w.open { WalkResults(ms[1..], w.(open := w.open - {id}), pending); }
    }
  }

  predicate WalkEnds(ms: seq<Message>, w: Walk, pending: Option<string>) {
    match WalkAll(ms, w, pending) case None => false case Some(end) => Ends(end, pending)
  }

  lemma WalkGroup(ms: seq<Message>, w: Walk, pending: Option<string>)
    requires ms != [] && Opens(ms[0])
    ensures var n, ids := Results(ms[1..]), Ids(ms[0].calls);
      var answered := Answered(ms[1..][..n]);
      WalkAll(ms, w, pending) == (
        if w.open == {} && Distinct(ids) && IdSet(ids) !! w.seen && Distinct(answered) && IdSet(answered) <= IdSet(ids)
        then WalkAll(ms[1 + n..], Walk(w.seen + IdSet(ids), IdSet(ids) - IdSet(answered), Holding(ms[0], pending)),
          pending)
        else None)
  {
    var n, ids := Results(ms[1..]), Ids(ms[0].calls);
    match WalkStep(ms[0], w, pending)
    case None =>
    case Some(next) =>
      WalkAppend(ms[1..][..n], ms[1..][n..], next, pending);
      assert ms[1..] == ms[1..][..n] + ms[1..][n..] && ms[1..][n..] == ms[1 + n..];
      WalkResults(ms[1..][..n], next, pending);
  }

  /** A message that is not a result cannot follow an open group. */
  lemma WalkBlocked(ms: seq<Message>, w: Walk, pending: Option<string>)
    requires w.open != {} && ms != [] && !ms[0].Tool?
    ensures WalkAll(ms, w, pending).None?
  {}

  lemma {:induction false} WalkFollowsGrammar(ms: seq<Message>, w: Walk, pending: Option<string>)
    requires w.open == {}
    ensures WalkEnds(ms, w, pending) <==> Protocol(ms, w.seen, pending)
    decreases |ms|
  {
    if ms != [] {
      if Opens(ms[0]) {
        var n, ids := Results(ms[1..]), Ids(ms[0].calls);
        var answered, rest := Answered(ms[1..][..n]), ms[1 + n..];
        var next := Walk(w.seen + IdSet(ids), IdSet(ids) - IdSet(answered), Holding(ms[0], pending));
        WalkGroup(ms, w, pending);
        if IdSet(ids) <= IdSet(answered) {
          assert next.open == {};
          WalkFollowsGrammar(rest, next, pending);
        } else {
          var missing :| missing in IdSet(ids) && missing !in IdSet(answered);
          assert missing in next.open;
          if rest != [] { WalkBlocked(rest, next, pending); }
        }
      } else if !ms[0].Tool? {
        WalkFollowsGrammar(ms[1..], w, pending);
      }
    }
  }

  /** The validator accepts exactly the protocol transcripts. */
  lemma AcceptsIffProtocol(ms: seq<Message>, pending: Option<string>)
    ensures Accepts(ms, pending) <==> Protocol(ms, {}, pending)
  {
    WalkFollowsGrammar(ms, Start(), pending);
  }

  /* --------------------------------------------------------- a transcript by its groups */

  predicate ToolsOnly(ms: seq<Message>) { forall i :: 0 <= i < |ms| ==> ms[i].Tool? }

  /** Nothing is answered at the front. */
  predicate OpensFree(ms: seq<Message>) { ms != [] ==> !ms[0].Tool? }

  lemma {:induction false} RunLength(results: seq<Message>, rest: seq<Message>)
    requires ToolsOnly(results) && OpensFree(rest)
    ensures Results(results + rest) == |results|
  {
    if results == [] {
      assert results + rest == rest;
    } else {
      assert (results + rest)[1..] == results[1..] + rest;
      RunLength(results[1..], rest);
    }
  }

  /** A message, the results right behind it, and what follows. */
  lemma Split(ms: seq<Message>) returns (results: seq<Message>, rest: seq<Message>)
    requires ms != []
    ensures ms == [ms[0]] + (results + rest) && ToolsOnly(results) && OpensFree(rest) && |rest| < |ms|
  {
    var n := Results(ms[1..]);
    results, rest := ms[1..][..n], ms[1..][n..];
  }

  /** The parts of a group put together are taken apart the same way. */
  lemma Joined(head: Message, results: seq<Message>, rest: seq<Message>)
    requires ToolsOnly(results) && OpensFree(rest)
    ensures var ms := [head] + (results + rest);
      && ms[1..] == results + rest && Results(ms[1..]) == |results|
      && ms[1..][..|results|] == results && ms[1 + |results|..] == rest
  {
    RunLength(results, rest);
    assert ([head] + (results + rest))[1..] == results + rest;
  }

  lemma ProtocolGroup(head: Message, results: seq<Message>, rest: seq<Message>, seen: set<string>,
      pending: Option<string>)
    requires Opens(head) && ToolsOnly(results) && OpensFree(rest)
    ensures var ids := Ids(head.calls);
      Protocol([head] + (results + rest), seen, pending) <==>
        && Distinct(ids) && IdSet(ids) !! seen
        && Answers(ids, Answered(results), rest != [] || !Holding(head, pending))
        && Protocol(rest, seen + IdSet(ids), pending)
  {
    Joined(head, results, rest);
  }

  lemma ProtocolPlain(m: Message, rest: seq<Message>, seen: set<string>, pending: Option<string>)
    requires !m.Tool? && !Opens(m)
    ensures Protocol([m] + rest, seen, pending) <==> Protocol(rest, seen, pending)
  {
    assert ([m] + rest)[1..] == rest;
  }
}
