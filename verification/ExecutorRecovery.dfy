/**
 Crash recovery is a simulation: a turn picked up from any of its checkpoints, any number of
 times, ends as the uninterrupted turn does and stays within the same budgets.
 */
module ExecutorRecovery {
  import opened Base
  import opened Transcript
  import opened Executor

  /** What holds at the head of the loop. */
  ghost predicate Head(s: State) {
    s.suspended.None? && s.structured.None? && (s.repairAttempts == 0 ==> s.repair == [])
  }

  /** The state, had these tool calls been recorded before it. */
  function After(prefix: seq<ToolRecord>, s: State): State { s.(records := prefix + s.records) }

  function EndAfter(prefix: seq<ToolRecord>, end: End): End {
    match end case Answer(_, _, _, _, _, _) => end.(records := prefix + end.records) case Failed(_, _) => end
  }

  function RoundAfter(prefix: seq<ToolRecord>, r: Round): Round {
    match r
    case Open(s) => Open(After(prefix, s))
    case Complete(s) => Complete(After(prefix, s))
    case Abandoned(e) => r
  }

  function ProgressAfter(prefix: seq<ToolRecord>, p: Progress): Progress {
    match p case Going(s) => Going(After(prefix, s)) case Ended(end) => Ended(EndAfter(prefix, end))
  }

  /* ----------------------------------------------- what a round needs of the records */

  lemma {:induction false} CallsAfter(w: World, prefix: seq<ToolRecord>, s: State, calls: seq<ToolCall>)
    ensures Calls(w, After(prefix, s), calls) == RoundAfter(prefix, Calls(w, s, calls))
    decreases |calls|
  {
    if calls != [] && s.toolCallCount < w.limits.maxToolCalls {
      var counted := s.(toolCallCount := s.toolCallCount + 1);
      match Handle(w, calls[0])
      case Refused(text) => CallsAfter(w, prefix, PushResult(counted, calls[0], text), calls[1..]);
      case Broke(_) =>
      case Ran(record) =>
        Assoc(prefix, s.records, [record]);
        CallsAfter(w, prefix, Recorded(counted, calls[0], record), calls[1..]);
    }
  }

  /** A round that suspends has just recorded the withheld call. */
  lemma {:induction false} CallsHead(w: World, s: State, calls: seq<ToolCall>)
    requires s.suspended.None?
    ensures Calls(w, s, calls).Open? ==> Calls(w, s, calls).state.suspended.None?
    ensures Calls(w, s, calls).Complete? ==>
      Calls(w, s, calls).state.suspended.Some? && Calls(w, s, calls).state.records != []
    ensures !Calls(w, s, calls).Abandoned? ==>
      var t := Calls(w, s, calls).state;
      t.structured == s.structured && t.repair == s.repair && t.repairAttempts == s.repairAttempts
    decreases |calls|
  {
    if calls != [] && s.toolCallCount < w.limits.maxToolCalls {
      var counted := s.(toolCallCount := s.toolCallCount + 1);
      match Handle(w, calls[0])
      case Refused(text) => CallsHead(w, PushResult(counted, calls[0], text), calls[1..]);
      case Broke(_) =>
      case Ran(record) => CallsHead(w, Recorded(counted, calls[0], record), calls[1..]);
    }
  }

  lemma RoundKeepsHead(w: World, s: State, response: Response)
    requires Head(s)
    ensures var r := ApplyRound(w, s, response);
      && (r.Open? ==> Head(r.state))
      && (r.Complete? ==> Head(r.state.(suspended := None)))
      && (r.Complete? && r.state.suspended.Some? ==> r.state.records != [])
  {
    CallsHead(w, TakenIn(s, response), response.calls);
  }

  lemma RoundAfterRecords(w: World, prefix: seq<ToolRecord>, s: State, response: Response)
    ensures ApplyRound(w, After(prefix, s), response) == RoundAfter(prefix, ApplyRound(w, s, response))
  {
    CallsAfter(w, prefix, TakenIn(s, response), response.calls);
  }

  /** What is said of a suspended turn is read off the last record alone. */
  lemma OutputAfter(prefix: seq<ToolRecord>, s: State, content: string)
    requires s.suspended.Some? ==> s.records != []
    ensures ResolvedOutput(After(prefix, s), content) == ResolvedOutput(s, content)
  {
    if s.records != [] {
      assert (prefix + s.records)[|prefix + s.records| - 1] == s.records[|s.records| - 1];
    }
  }

  lemma ConcludeAfter(w: World, prefix: seq<ToolRecord>, s: State, response: Response)
    requires s.suspended.Some? ==> s.records != []
    ensures Conclude(w, After(prefix, s), response) == ProgressAfter(prefix, Conclude(w, s, response))
  {
    if JudgeOutput(w, s, response).Accepted? {
      OutputAfter(prefix, JudgeOutput(w, s, response).state, response.content);
    }
  }

  /** A pass of the loop looks at nothing recorded before it. */
  lemma StepAfter(w: World, prefix: seq<ToolRecord>, s: State)
    requires Head(s)
    ensures Step(w, After(prefix, s)) == ProgressAfter(prefix, Step(w, s))
  {
    if OverBudget(w, s).None? && Request(w, s).Some? && w.generate(Request(w, s).value, s.iteration).Some? {
      var response := w.generate(Request(w, s).value, s.iteration).value;
      RoundAfterRecords(w, prefix, s, response);
      RoundKeepsHead(w, s, response);
      var round := ApplyRound(w, s, response);
      if round.Complete? { ConcludeAfter(w, prefix, round.state, response); }
    }
  }

  lemma StepKeepsHead(w: World, s: State)
    requires Head(s) && Step(w, s).Going?
    ensures Head(Step(w, s).state)
  {
    var response := w.generate(Request(w, s).value, s.iteration).value;
    RoundKeepsHead(w, s, response);
  }

  lemma {:induction false} RunAfter(w: World, prefix: seq<ToolRecord>, s: State)
    requires Head(s)
    ensures Run(w, After(prefix, s)) == Outcome(EndAfter(prefix, Run(w, s).end), Run(w, s).checkpoints)
    decreases w.limits.maxIterations - s.iteration
  {
    StepAfter(w, prefix, s);
    match Step(w, s)
    case Ended(_) =>
    case Going(next) =>
      StepCounts(w, s);
      StepKeepsHead(w, s);
      RunAfter(w, prefix, next);
  }

  /* -------------------------------------------------------------------- the simulation */

  lemma RecoversState(s: State)
    requires Head(s)
    ensures Recover(TakeCheckpoint(s)) == s.(records := []) && Head(Recover(TakeCheckpoint(s)))
  {}

  /** The state a turn's k-th checkpoint is taken from. */
  function StateAt(w: World, s: State, k: nat): State
    requires k < |Run(w, s).checkpoints|
    decreases w.limits.maxIterations - s.iteration
  {
    StepCounts(w, s);
    var next := Step(w, s).state;
    if k == 0 then next else StateAt(w, next, k - 1)
  }

  /** A turn that goes on, from its next pass. */
  lemma FirstPass(w: World, s: State, next: State)
    requires Head(s) && Step(w, s) == Going(next)
    ensures s.iteration < w.limits.maxIterations && next.iteration == s.iteration + 1 && Head(next)
    ensures Run(w, s) == Outcome(Run(w, next).end, [TakeCheckpoint(next)] + Run(w, next).checkpoints)
  {
    StepCounts(w, s);
    StepKeepsHead(w, s);
  }

  lemma StateAtNext(w: World, s: State, next: State, k: nat, less: nat)
    requires Step(w, s) == Going(next) && k == less + 1 && k < |Run(w, s).checkpoints|
    ensures less < |Run(w, next).checkpoints| && StateAt(w, s, k) == StateAt(w, next, less)
  {
    StepCounts(w, s);
  }

  lemma {:induction false} CheckpointOf(w: World, s: State, k: nat)
    requires Head(s) && k < |Run(w, s).checkpoints|
    ensures var at := StateAt(w, s, k);
      && Run(w, s).checkpoints[k] == TakeCheckpoint(at) && Head(at)
      && Run(w, s).end == Run(w, at).end && Run(w, s).checkpoints[k + 1..] == Run(w, at).checkpoints
    decreases w.limits.maxIterations - s.iteration
  {
    var next := Step(w, s).state;
    FirstPass(w, s, next);
    var all, rest := Run(w, s).checkpoints, Run(w, next).checkpoints;
    if k == 0 {
      assert all[1..] == rest;
    } else {
      var less: nat := k - 1;
      StateAtNext(w, s, next, k, less);
      CheckpointOf(w, next, less);
      assert all[k] == rest[less] && all[k + 1..] == rest[less + 1..];
    }
  }

  /** A recovered turn no longer knows which approval it was resumed for. */
  function Recovering(w: World): World { w.(pending := None) }

  /** From here on, what the reducer makes of a transcript does not depend on the pending approval. */
  ghost predicate PendingIdle(w: World, s: State)
    decreases w.limits.maxIterations - s.iteration
  {
    && (OverBudget(w, s).None? ==> Project(w, s) == Project(Recovering(w), s))
    && match Step(w, s) case Going(next) => (StepCounts(w, s); PendingIdle(w, next)) case Ended(_) => true
  }

  lemma {:induction false} CallsIgnorePending(w: World, s: State, calls: seq<ToolCall>)
    ensures Calls(w, s, calls) == Calls(Recovering(w), s, calls)
    decreases |calls|
  {
    if calls != [] && s.toolCallCount < w.limits.maxToolCalls {
      var counted := s.(toolCallCount := s.toolCallCount + 1);
      match Handle(w, calls[0])
      case Refused(text) => CallsIgnorePending(w, PushResult(counted, calls[0], text), calls[1..]);
      case Broke(_) =>
      case Ran(record) => CallsIgnorePending(w, Recorded(counted, calls[0], record), calls[1..]);
    }
  }

  /** Only the request can tell whether an approval is pending. */
  lemma StepIgnoresPending(w: World, s: State)
    requires OverBudget(w, s).None? ==> Project(w, s) == Project(Recovering(w), s)
    ensures Step(w, s) == Step(Recovering(w), s)
  {
    assert OverBudget(w, s) == OverBudget(Recovering(w), s);
    if OverBudget(w, s).None? && Request(w, s).Some? && w.generate(Request(w, s).value, s.iteration).Some? {
      var response := w.generate(Request(w, s).value, s.iteration).value;
      CallsIgnorePending(w, TakenIn(s, response), response.calls);
    }
  }

  lemma {:induction false} IdleRuns(w: World, s: State)
    requires PendingIdle(w, s)
    ensures Run(w, s) == Run(Recovering(w), s)
    decreases w.limits.maxIterations - s.iteration
  {
    StepIgnoresPending(w, s);
    StepCounts(w, s);
    if Step(w, s).Going? { IdleRuns(w, Step(w, s).state); }
  }

  /** A turn that was not resumed, or has no reducer, has nothing to forget. */
  lemma {:induction false} NothingPending(w: World, s: State)
    requires w.pending.None? || w.reduce.None?
    ensures PendingIdle(w, s)
    decreases w.limits.maxIterations - s.iteration
  {
    StepCounts(w, s);
    if Step(w, s).Going? { NothingPending(w, Step(w, s).state); }
  }

  /**
   A run that goes on from the k-th checkpoint: it ends as the whole run does, reporting exactly the
   tool records made after that checkpoint, and publishes exactly the checkpoints behind it.
   */
  ghost predicate ResumesAt(w: World, s: State, k: nat, recovered: Outcome) {
    && k < |Run(w, s).checkpoints|
    && Run(w, s).end == EndAfter(StateAt(w, s, k).records, recovered.end)
    && Run(w, s).checkpoints[k + 1..] == recovered.checkpoints
  }

  /**
   Picked up from its k-th checkpoint, a turn ends as it would have: same answer, transcript, usage
   and failure, with the tool records after the checkpoint.
   */
  lemma RecoveryResumes(w: World, s: State, k: nat)
    requires Head(s) && k < |Run(w, s).checkpoints| && PendingIdle(w, StateAt(w, s, k))
    ensures ResumesAt(w, s, k, Run(Recovering(w), Recover(Run(w, s).checkpoints[k])))
  {
    CheckpointOf(w, s, k);
    var at := StateAt(w, s, k);
    IdleRuns(w, at);
    Bare(Recovering(w), at);
  }

  /** The state rebuilt from a checkpoint runs on as the state it was taken from, but for the records. */
  lemma Bare(w: World, at: State)
    requires Head(at)
    ensures var bare := Recover(TakeCheckpoint(at));
      Head(bare) && After(at.records, bare) == at
      && Run(w, at) == Outcome(EndAfter(at.records, Run(w, bare).end), Run(w, bare).checkpoints)
  {
    RecoversState(at);
    assert at.records + [] == at.records;
    RunAfter(w, at.records, Recover(TakeCheckpoint(at)));
  }

  /* ------------------------------------------------------------------- many recoveries */

  /** One crash after another: the checkpoint each recovery starts from, counted in the run before it. */
  ghost predicate Crashes(w: World, s: State, ks: seq<nat>)
    decreases |ks|
  {
    ks != [] ==>
      && ks[0] < |Run(w, s).checkpoints|
      && Crashes(Recovering(w), Recover(Run(w, s).checkpoints[ks[0]]), ks[1..])
  }

  /** The state the last recovery starts from. */
  ghost function Recovered(w: World, s: State, ks: seq<nat>): State
    requires Crashes(w, s, ks)
    decreases |ks|
  {
    if ks == [] then s else Recovered(Recovering(w), Recover(Run(w, s).checkpoints[ks[0]]), ks[1..])
  }

  /** The checkpoint the last recovery starts from, counted in the first run. */
  function Last(ks: seq<nat>): nat
    requires ks != []
  {
    if |ks| == 1 then ks[0] else ks[0] + 1 + Last(ks[1..])
  }

  /** Runs that differ only in what was recorded before pass the same states, but for that. */
  lemma {:induction false} StateAtAfter(w: World, prefix: seq<ToolRecord>, s: State, k: nat)
    requires Head(s) && k < |Run(w, s).checkpoints|
    ensures Run(w, After(prefix, s)).checkpoints == Run(w, s).checkpoints
    ensures StateAt(w, After(prefix, s), k) == After(prefix, StateAt(w, s, k))
    decreases w.limits.maxIterations - s.iteration
  {
    RunAfter(w, prefix, s);
    StepAfter(w, prefix, s);
    StepCounts(w, s);
    StepKeepsHead(w, s);
    if k > 0 { StateAtAfter(w, prefix, Step(w, s).state, k - 1); }
  }

  lemma {:induction false} StateAtIdle(w: World, s: State, k: nat)
    requires PendingIdle(w, s) && k < |Run(w, s).checkpoints|
    ensures Run(w, s) == Run(Recovering(w), s) && StateAt(w, s, k) == StateAt(Recovering(w), s, k)
    decreases w.limits.maxIterations - s.iteration
  {
    IdleRuns(w, s);
    StepIgnoresPending(w, s);
    StepCounts(w, s);
    if k > 0 { StateAtIdle(w, Step(w, s).state, k - 1); }
  }

  lemma {:induction false} StateAtFurther(w: World, s: State, k: nat, m: nat, n: nat)
    requires Head(s) && k < |Run(w, s).checkpoints| && m < |Run(w, StateAt(w, s, k)).checkpoints| && n == k + 1 + m
    ensures n < |Run(w, s).checkpoints| && StateAt(w, s, n) == StateAt(w, StateAt(w, s, k), m)
    decreases w.limits.maxIterations - s.iteration
  {
    var next := Step(w, s).state;
    FirstPass(w, s, next);
    var fewer: nat := n - 1;
    if k > 0 {
      var less: nat := k - 1;
      StateAtNext(w, s, next, k, less);
      StateAtFurther(w, next, less, m, fewer);
    }
    StateAtNext(w, s, next, n, fewer);
  }

  /** What is recorded up to the checkpoint `m` behind the k-th one. */
  lemma RecordsFurther(w: World, s: State, k: nat, m: nat, n: nat)
    requires Head(s) && k < |Run(w, s).checkpoints| && PendingIdle(w, StateAt(w, s, k)) && n == k + 1 + m
    requires m < |Run(Recovering(w), Recover(Run(w, s).checkpoints[k])).checkpoints|
    ensures n < |Run(w, s).checkpoints|
    ensures StateAt(w, s, n).records == StateAt(w, s, k).records
      + StateAt(Recovering(w), Recover(Run(w, s).checkpoints[k]), m).records
  {
    CheckpointOf(w, s, k);
    var at := StateAt(w, s, k);
    IdleRuns(w, at);
    Bare(Recovering(w), at);
    StateAtFurther(w, s, k, m, n);
    StateAtIdle(w, at, m);
    StateAtAfter(Recovering(w), at.records, Recover(TakeCheckpoint(at)), m);
  }

  /** Resuming a run that itself resumes another one. */
  lemma ResumesFurther(w: World, s: State, k: nat, m: nat, n: nat, recovered: Outcome)
    requires Head(s) && k < |Run(w, s).checkpoints| && PendingIdle(w, StateAt(w, s, k)) && n == k + 1 + m
    requires ResumesAt(Recovering(w), Recover(Run(w, s).checkpoints[k]), m, recovered)
    ensures ResumesAt(w, s, n, recovered)
  {
    RecoveryResumes(w, s, k);
    RecordsFurther(w, s, k, m, n);
    var a, b := StateAt(w, s, k).records, StateAt(Recovering(w), Recover(Run(w, s).checkpoints[k]), m).records;
    if recovered.end.Answer? { Assoc(a, b, recovered.end.records); }
    assert Run(w, s).checkpoints[k + 1..][m + 1..] == Run(w, s).checkpoints[n + 1..];
  }

  /**
   After any number of crashes, each recovered from any checkpoint of the run before, the turn ends
   as if there had been none, with the tool records after the last checkpoint used.
   */
  lemma {:induction false} RecoveriesResume(w: World, s: State, ks: seq<nat>)
    requires Head(s) && ks != [] && Crashes(w, s, ks) && PendingIdle(w, StateAt(w, s, ks[0]))
    ensures ResumesAt(w, s, Last(ks), Run(Recovering(w), Recovered(w, s, ks)))
    decreases |ks|
  {
    var v, k, rest := Recovering(w), ks[0], ks[1..];
    var bare := Recover(Run(w, s).checkpoints[k]);
    if rest == [] {
      RecoveryResumes(w, s, k);
      assert Recovered(w, s, ks) == Recovered(v, bare, rest) == bare;
    } else {
      CheckpointOf(w, s, k);
      assert Recovering(v) == v && Head(bare);
      NothingPending(v, StateAt(v, bare, rest[0]));
      RecoveriesResume(v, bare, rest);
      ResumesFurther(w, s, k, Last(rest), Last(ks), Run(v, Recovered(v, bare, rest)));
    }
  }

  /* -------------------------------------------------------------------------- budgets */

  ghost predicate WithinLimits(w: World, c: Checkpoint) {
    && c.iteration <= w.limits.maxIterations && c.toolCallCount <= w.limits.maxToolCalls
    && (c.repairs.Some? ==> w.spec.Some? && c.repairs.value.0 <= w.spec.value.maxRepairAttempts)
  }

  ghost predicate CountersWithin(w: World, s: State) {
    && (s.iteration == 0 || s.iteration <= w.limits.maxIterations)
    && (s.toolCallCount == 0 || s.toolCallCount <= w.limits.maxToolCalls)
    && (s.repairAttempts > 0 ==> w.spec.Some? && s.repairAttempts <= w.spec.value.maxRepairAttempts)
  }

  lemma {:induction false} CallsWithin(w: World, s: State, calls: seq<ToolCall>)
    requires CountersWithin(w, s) && !Calls(w, s, calls).Abandoned?
    ensures CountersWithin(w, Calls(w, s, calls).state)
    decreases |calls|
  {
    if calls != [] {
      var counted := s.(toolCallCount := s.toolCallCount + 1);
      match Handle(w, calls[0])
      case Refused(text) => CallsWithin(w, PushResult(counted, calls[0], text), calls[1..]);
      case Broke(_) =>
      case Ran(record) =>
        if !record.result.PendingApproval? { CallsWithin(w, Recorded(counted, calls[0], record), calls[1..]); }
    }
  }

  lemma StepWithin(w: World, s: State)
    requires CountersWithin(w, s) && Step(w, s).Going?
    ensures CountersWithin(w, Step(w, s).state)
  {
    StepCounts(w, s);
    var response := w.generate(Request(w, s).value, s.iteration).value;
    var round := ApplyRound(w, s, response);
    if response.calls != [] { CallsWithin(w, TakenIn(s, response), response.calls); }
    assert CountersWithin(w, round.state);
  }

  /** No checkpoint is ever past a limit, so neither is any recovery from one. */
  lemma {:induction false} CheckpointsWithinLimits(w: World, s: State, k: nat)
    requires CountersWithin(w, s) && k < |Run(w, s).checkpoints| && w.limits.maxToolCalls >= 0
    ensures WithinLimits(w, Run(w, s).checkpoints[k])
    ensures CountersWithin(w, Recover(Run(w, s).checkpoints[k]))
    decreases w.limits.maxIterations - s.iteration
  {
    StepCounts(w, s);
    StepWithin(w, s);
    var next := Step(w, s).state;
    assert Run(w, s).checkpoints == [TakeCheckpoint(next)] + Run(w, next).checkpoints;
    if k > 0 { CheckpointsWithinLimits(w, next, k - 1); }
  }

  /** A turn makes at most as many passes as its limit allows, however often it is recovered. */
  lemma {:induction false} PassesBounded(w: World, s: State)
    ensures |Run(w, s).checkpoints| <=
      if s.iteration < w.limits.maxIterations then w.limits.maxIterations - s.iteration else 0
    decreases w.limits.maxIterations - s.iteration
  {
    StepCounts(w, s);
    if Step(w, s).Going? { PassesBounded(w, Step(w, s).state); }
  }
}
