/**
 What a recovered turn no longer knows.  A checkpoint does not carry the id of the approval its turn
 was resumed for, and only the reducer is ever told it; with the bounded reducer the loss shows
 exactly when the group of that approval is too old to be retained.
 */
module ExecutorPending {
  import opened Base
  import opened Transcript
  import opened Executor
  import opened ExecutorRecovery
  import opened ExecutorSession
  import Reducer

  /* ------------------------------------------------------------ the requests of a turn */

  /** What a turn asks the model, pass by pass; None where the reducer fails. */
  function Requests(w: World, s: State): seq<Option<seq<Message>>>
    decreases w.limits.maxIterations - s.iteration
  {
    if OverBudget(w, s).Some? then []
    else
      [Request(w, s)] + match Step(w, s) case Going(next) => (StepCounts(w, s); Requests(w, next)) case Ended(_) => []
  }

  lemma SuffixCancels(a: seq<Message>, b: seq<Message>, tail: seq<Message>)
    requires a + tail == b + tail
    ensures a == b
  {
    assert a == (a + tail)[..|a|] && b == (b + tail)[..|b|];
  }

  lemma InstructionCancels(a: seq<Message>, b: seq<Message>, instruction: string)
    requires WithSystemInstruction(a, instruction) == WithSystemInstruction(b, instruction)
    ensures a == b
  {
    var x, y := WithSystemInstruction(a, instruction), WithSystemInstruction(b, instruction);
    assert x[1..] == y[1..] && x[0].text == y[0].text;
    var suffix := "\n\n" + instruction;
    if a != [] && a[0].System? {
      assert x[0].text == a[0].text + suffix by { Assoc(a[0].text, "\n\n", instruction); }
    }
    if b != [] && b[0].System? {
      assert y[0].text == b[0].text + suffix by { Assoc(b[0].text, "\n\n", instruction); }
    }
    if a != [] && a[0].System? && b != [] && b[0].System? {
      assert a[0].text == x[0].text[..|a[0].text|] && b[0].text == y[0].text[..|b[0].text|];
      assert a == [a[0]] + x[1..] && b == [b[0]] + y[1..];
    } else if !(a != [] && a[0].System?) && !(b != [] && b[0].System?) {
      assert x[1..] == a && y[1..] == b;
    }
  }

  /** A request gives away what the reducer made of the transcript. */
  lemma SameRequestIff(w: World, s: State)
    ensures Request(w, s) == Request(Recovering(w), s) <==> Project(w, s) == Project(Recovering(w), s)
  {
    if Project(w, s).Some? && Project(Recovering(w), s).Some? && Request(w, s) == Request(Recovering(w), s) {
      var a, b := Project(w, s).value, Project(Recovering(w), s).value;
      if w.instruction.Some? { InstructionCancels(a + s.repair, b + s.repair, w.instruction.value); }
      SuffixCancels(a, b, s.repair);
    }
  }

  /** Forgetting the pending approval leaves every request the same exactly when it is idle. */
  lemma {:induction false} SameRequestsIffIdle(w: World, s: State)
    ensures Requests(w, s) == Requests(Recovering(w), s) <==> PendingIdle(w, s)
    decreases w.limits.maxIterations - s.iteration
  {
    var v := Recovering(w);
    assert OverBudget(w, s) == OverBudget(v, s);
    SameRequestIff(w, s);
    if OverBudget(w, s).None? && Project(w, s) == Project(v, s) {
      StepIgnoresPending(w, s);
      StepCounts(w, s);
      if Step(w, s).Going? {
        SameRequestsIffIdle(w, Step(w, s).state);
        assert Requests(w, s)[1..] == Requests(w, Step(w, s).state);
        assert Requests(v, s)[1..] == Requests(v, Step(w, s).state);
      }
    } else if OverBudget(w, s).None? {
      assert Requests(w, s)[0] != Requests(v, s)[0];
    }
  }

  /* --------------------------------------------------------------- the bounded reducer */

  /** `reduce` as the executor sees it: the transcript itself where nothing is folded. */
  function Folding(ms: seq<Message>, pending: Option<string>, o: Reducer.Options): Reduction {
    if Reducer.Reduced(ms, pending, o) == ms then Untouched else Changed(Reducer.Reduced(ms, pending, o))
  }

  ghost predicate Bounded(w: World, o: Reducer.Options) {
    w.reduce.Some? && forall ms, n, p :: w.reduce.value(ms, n, p) == Folding(ms, p, o)
  }

  /** A protocol transcript that declares the pending call is one for the validator that asks for it. */
  lemma {:induction false} DeclaredIsKept(ms: seq<Message>, seen: set<string>, id: string)
    requires Protocol(ms, seen, None) && id in seen + Declared(ms)
    ensures Protocol(ms, seen, Some(id))
    decreases |ms|
  {
    if ms != [] {
      if Opens(ms[0]) {
        var results, rest := Split(ms);
        ProtocolGroup(ms[0], results, rest, seen, None);
        ProtocolGroup(ms[0], results, rest, seen, Some(id));
        DeclaredGroup(ms[0], results, rest);
        DeclaredIsKept(rest, seen + IdSet(Ids(ms[0].calls)), id);
      } else {
        DeclaredIsKept(ms[1..], seen, id);
      }
    }
  }

  lemma BoundedProjects(w: World, s: State, o: Reducer.Options)
    requires Bounded(w, o) && Accepts(s.messages, w.pending)
    ensures Project(w, s) == Some(Reducer.Reduced(s.messages, w.pending, o))
  {
    Reducer.ReducedIsAccepted(s.messages, w.pending, o);
  }

  /** The bounded reducer forgets a pending group exactly when that group is not among those retained. */
  lemma ForgetsIff(w: World, s: State, id: string, o: Reducer.Options)
    requires Bounded(w, o) && w.pending == Some(id) && Protocol(s.messages, {}, None) && id in Declared(s.messages)
    ensures Project(w, s) == Project(Recovering(w), s)
      <==> !Reducer.HeldAmong(s.messages, Reducer.Cutoff(s.messages, o), id)
  {
    DeclaredIsKept(s.messages, {}, id);
    AcceptsIffProtocol(s.messages, Some(id));
    AcceptsIffProtocol(s.messages, None);
    BoundedProjects(w, s, o);
    assert Bounded(Recovering(w), o);
    BoundedProjects(Recovering(w), s, o);
    Reducer.PendingMattersIff(s.messages, id, o);
  }

  /** The group of the approval is too old to be retained when this pass asks the model. */
  predicate Outgrown(w: World, s: State, id: string, o: Reducer.Options) {
    OverBudget(w, s).None? && Reducer.HeldAmong(s.messages, Reducer.Cutoff(s.messages, o), id)
  }

  lemma StepDeclares(w: World, s: State)
    requires Step(w, s).Going?
    ensures Declared(s.messages) <= Declared(Step(w, s).state.messages)
  {
    var response := w.generate(Request(w, s).value, s.iteration).value;
    if response.calls != [] {
      var results := RoundAdds(w, s, response);
      DeclaredAppend(s.messages, s.repair);
      DeclaredAppend(s.messages + s.repair, [Assistant(response.content, response.calls)] + results);
    }
  }

  /** The states the passes of a turn start from. */
  function Passes(w: World, s: State): seq<State>
    decreases w.limits.maxIterations - s.iteration
  {
    [s] + match Step(w, s) case Going(next) => (StepCounts(w, s); Passes(w, next)) case Ended(_) => []
  }

  ghost predicate Retained(w: World, passes: seq<State>, id: string, o: Reducer.Options) {
    forall pass | pass in passes :: !Outgrown(w, pass, id, o)
  }

  lemma RetainedCons(w: World, s: State, rest: seq<State>, id: string, o: Reducer.Options)
    ensures Retained(w, [s] + rest, id, o) <==> !Outgrown(w, s, id, o) && Retained(w, rest, id, o)
  {
    assert s in [s] + rest && forall pass :: pass in [s] + rest <==> pass == s || pass in rest;
  }

  /**
   A resumed turn with the bounded reducer is recovered faithfully exactly when the group of its
   approval is retained at every pass that is left.
   */
  lemma {:induction false} IdleIffNeverOutgrown(w: World, s: State, id: string, o: Reducer.Options)
    requires Bounded(w, o) && w.pending == Some(id) && id in Declared(s.messages) && Tidy(s) && Disciplined(w, s)
    ensures PendingIdle(w, s) <==> Retained(w, Passes(w, s), id, o)
    decreases w.limits.maxIterations - s.iteration
  {
    ForgetsIff(w, s, id, o);
    StepCounts(w, s);
    if Step(w, s).Going? {
      var next := Step(w, s).state;
      StepIsTidy(w, s);
      StepDeclares(w, s);
      IdleIffNeverOutgrown(w, next, id, o);
      assert PendingIdle(w, s) <==> !Outgrown(w, s, id, o) && PendingIdle(w, next);
      RetainedCons(w, s, Passes(w, next), id, o);
    } else {
      RetainedCons(w, s, [], id, o);
    }
  }
}
