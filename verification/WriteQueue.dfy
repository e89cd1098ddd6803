/**
 Deferred persistence of a session (packages/core/src/utils/deferred-write-queue.ts, and the queue
 handling of packages/core/src/services/agent-runner.service.ts): one queue a turn, each chained
 to the one before by a promise, over turns that do not overlap.
 */
module WriteQueue {
  import opened Base

  datatype Status = Waiting | Running | Settled(error: Option<string>)

  /** A queued write. */
  datatype Job = Job(queue: nat, write: string)

  /** A promise of the chain: it runs once the promise it was chained to has settled. */
  datatype Promise = Promise(after: Option<nat>, job: Option<Job>, status: Status)

  /** A turn's queue; `flushed` marks where the writes begin that it has not reported on. */
  datatype Queue = Queue(tail: nat, failure: Option<string>, flushed: nat)

  /* ------------------------------------------------------------------------- the chain */

  predicate SettledAt(ps: seq<Promise>, i: nat) { i < |ps| && ps[i].status.Settled? }

  /** Every write from `lo` up to `hi` has settled. */
  predicate WritesSettled(ps: seq<Promise>, lo: int, hi: nat) {
    forall k | 0 <= k < |ps| && lo <= k < hi :: ps[k].job.Some? ==> ps[k].status.Settled?
  }

  /** A promise runs only after what it is chained to, and every write queued before it is behind that. */
  ghost predicate Chained(ps: seq<Promise>, i: nat)
    requires i < |ps|
  {
    match ps[i].after
    case Some(a) => a < i && (!ps[i].status.Waiting? ==> SettledAt(ps, a)) && WritesSettled(ps, a + 1, i)
    case None => WritesSettled(ps, 0, i)
  }

  ghost predicate Chain(ps: seq<Promise>) { forall i: nat | i < |ps| :: Chained(ps, i) }

  predicate Ready(ps: seq<Promise>, i: nat) {
    i < |ps| && ps[i].status.Waiting? && (ps[i].after.Some? ==> SettledAt(ps, ps[i].after.value))
  }

  /** A promise that has started has every earlier write behind it. */
  lemma {:induction false} StartedInOrder(ps: seq<Promise>, i: nat)
    requires Chain(ps) && i < |ps| && !ps[i].status.Waiting?
    ensures WritesSettled(ps, 0, i)
    decreases i
  {
    assert Chained(ps, i);
    if ps[i].after.Some? {
      var a := ps[i].after.value;
      StartedInOrder(ps, a);
    }
  }

  /** Writes take effect one at a time: at most one is running, and none behind it has started. */
  lemma OneAtATime(ps: seq<Promise>, i: nat, j: nat)
    requires Chain(ps) && i < j < |ps| && ps[i].job.Some? && !ps[i].status.Settled?
    ensures ps[j].status.Waiting?
  {
    if !ps[j].status.Waiting? { StartedInOrder(ps, j); }
  }

  /** While anything is unsettled, something runs or can: a failed write stops nothing. */
  lemma {:induction false} SomethingCanRun(ps: seq<Promise>, n: nat) returns (i: nat)
    requires Chain(ps) && n < |ps| && !ps[n].status.Settled?
    ensures i <= n && (ps[i].status.Running? || Ready(ps, i))
    decreases n
  {
    i := n;
    assert Chained(ps, n);
    if ps[n].status.Waiting? && ps[n].after.Some? && !SettledAt(ps, ps[n].after.value) {
      i := SomethingCanRun(ps, ps[n].after.value);
    }
  }

  /* ---------------------------------------------------- what the settled writes amount to */

  function Effect(p: Promise): seq<string> {
    if p.job.Some? && p.status == Settled(None) then [p.job.value.write] else []
  }

  /** The writes that took effect, in the order they were queued. */
  function Effects(ps: seq<Promise>): seq<string> {
    if ps == [] then [] else Effects(ps[..|ps| - 1]) + Effect(ps[|ps| - 1])
  }

  function Fault(p: Promise, q: nat): Option<string> {
    if p.job.Some? && p.job.value.queue == q && p.status.Settled? then p.status.error else None
  }

  /** The first failure of a queue, in the order its writes were queued, from `from` on. */
  function FirstFailure(ps: seq<Promise>, q: nat, from: nat): Option<string> {
    if |ps| <= from then None
    else
      var before := FirstFailure(ps[..|ps| - 1], q, from);
      if before.Some? then before else Fault(ps[|ps| - 1], q)
  }

  /** A queue keeps the first failure it hears of. */
  function Kept(queue: Queue, fault: Option<string>): Option<string> {
    if queue.failure.Some? then queue.failure else fault
  }

  lemma {:induction false} EffectsOfRest(ps: seq<Promise>, i: nat, p: Promise)
    requires i < |ps| && Effect(ps[i]) == [] && forall k :: i < k < |ps| ==> Effect(ps[k]) == []
    ensures Effects(ps[i := p]) == Effects(ps) + Effect(p)
    decreases |ps|
  {
    var n := |ps| - 1;
    if i == n {
      assert ps[i := p][..n] == ps[..n];
    } else {
      assert ps[i := p][..n] == ps[..n][i := p];
      EffectsOfRest(ps[..n], i, p);
    }
  }

  lemma {:induction false} FailureOfRest(ps: seq<Promise>, i: nat, p: Promise, q: nat, from: nat)
    requires i < |ps| && Fault(ps[i], q).None? && forall k :: i < k < |ps| ==> Fault(ps[k], q).None?
    ensures FirstFailure(ps[i := p], q, from) ==
      if FirstFailure(ps, q, from).Some? then FirstFailure(ps, q, from) else if i >= from then Fault(p, q) else None
    decreases |ps|
  {
    var n := |ps| - 1;
    if |ps| > from {
      if i == n {
        assert ps[i := p][..n] == ps[..n];
      } else {
        assert ps[i := p][..n] == ps[..n][i := p];
        FailureOfRest(ps[..n], i, p, q, from);
      }
    }
  }

  /** A change that neither takes effect nor fails. */
  lemma {:induction false} Unchanged(ps: seq<Promise>, i: nat, p: Promise)
    requires i < |ps| && Effect(ps[i]) == Effect(p) && forall q :: Fault(ps[i], q) == Fault(p, q)
    ensures Effects(ps[i := p]) == Effects(ps)
    ensures forall q, from :: FirstFailure(ps[i := p], q, from) == FirstFailure(ps, q, from)
    decreases |ps|
  {
    var n := |ps| - 1;
    if i == n {
      assert ps[i := p][..n] == ps[..n];
    } else {
      assert ps[i := p][..n] == ps[..n][i := p];
      Unchanged(ps[..n], i, p);
    }
  }

  lemma FailureNext(ps: seq<Promise>, p: Promise, q: nat, from: nat)
    requires Fault(p, q).None?
    ensures FirstFailure(ps + [p], q, from) == FirstFailure(ps, q, from)
  {
    assert (ps + [p])[..|ps|] == ps;
  }

  lemma {:induction false} NoFailure(ps: seq<Promise>, q: nat, from: nat)
    requires forall k: nat | from <= k < |ps| :: Fault(ps[k], q).None?
    ensures FirstFailure(ps, q, from).None?
    decreases |ps|
  {
    if |ps| > from {
      assert forall k: nat | from <= k < |ps| - 1 :: ps[..|ps| - 1][k] == ps[k];
      NoFailure(ps[..|ps| - 1], q, from);
    }
  }

  /** A queue reports its first failure since it was last flushed, and owns nothing behind its tail. */
  ghost predicate QueueFits(ps: seq<Promise>, queue: Queue, q: nat) {
    && queue.tail < |ps| && queue.flushed <= |ps|
    && queue.failure == FirstFailure(ps, q, queue.flushed)
    && forall i: nat | i < |ps| :: ps[i].job.Some? && ps[i].job.value.queue == q ==>
         i <= queue.tail && (i < queue.flushed ==> ps[i].status.Settled?)
  }

  lemma QueueSettles(ps: seq<Promise>, queue: Queue, q: nat, i: nat, p: Promise)
    requires QueueFits(ps, queue, q) && i < |ps| && p == ps[i].(status := p.status) && p.status.Settled?
    requires FirstFailure(ps[i := p], q, queue.flushed) == Kept(queue, Fault(p, q))
    ensures QueueFits(ps[i := p], queue.(failure := Kept(queue, Fault(p, q))), q)
  {}

  lemma ChainSettles(ps: seq<Promise>, i: nat, p: Promise)
    requires Chain(ps) && i < |ps| && ps[i].status.Running? && p == ps[i].(status := p.status) && p.status.Settled?
    ensures Chain(ps[i := p])
  {
    var next := ps[i := p];
    forall k: nat | k < |next| ensures Chained(next, k) { assert Chained(ps, k) && Chained(ps, i); }
  }

  /* ------------------------------------------------------------------------ the session */

  /** Whether a write fails, by what the store holds when it is carried out. */
  type Outcome = (seq<string>, string) -> Option<string>

  /** `pending` is the tail the session's next queue is chained to, `applied` the writes that took effect. */
  datatype State = State(promises: seq<Promise>, queues: seq<Queue>, pending: Option<nat>, applied: seq<string>)

  const EMPTY := State([], [], None, [])

  /**
   What turns do (open a queue, enqueue, flush), and what the event loop does: start a promise whose
   predecessor has settled, settle a running one, forget a settled tail.
   */
  datatype Event =
    | Open
    | Enqueue(q: nat, write: string)
    | Start(i: nat)
    | Finish(i: nat)
    | Forget
    | Flush(q: nat, awaited: nat)

  predicate Enabled(s: State, e: Event) {
    match e
    case Open => true
    case Enqueue(q, _) => |s.queues| == q + 1
    case Start(i) => Ready(s.promises, i)
    case Finish(i) =>
      && i < |s.promises| && s.promises[i].status.Running?
      && (s.promises[i].job.Some? ==> s.promises[i].job.value.queue < |s.queues|)
    case Forget => s.pending.Some? && SettledAt(s.promises, s.pending.value)
    case Flush(q, awaited) => q < |s.queues| && awaited <= s.queues[q].tail && SettledAt(s.promises, awaited)
  }

  function Opened(s: State): Promise { Promise(s.pending, None, Waiting) }

  function Queued(s: State, q: nat, write: string): Promise
    requires q < |s.queues|
  {
    Promise(Some(s.queues[q].tail), Some(Job(q, write)), Waiting)
  }

  /** The i-th promise once it has settled, as its write comes out on the store as it stands. */
  function Done(outcome: Outcome, s: State, i: nat): Promise
    requires i < |s.promises|
  {
    s.promises[i].(status := Settled(
      match s.promises[i].job case Some(job) => outcome(s.applied, job.write) case None => None))
  }

  function Blamed(queues: seq<Queue>, p: Promise): seq<Queue> {
    if p.job.Some? && p.job.value.queue < |queues| && p.status.Settled? then
      var q := p.job.value.queue;
      queues[q := queues[q].(failure := Kept(queues[q], p.status.error))]
    else queues
  }

  /** Where the writes begin that have not settled. */
  function Frontier(ps: seq<Promise>, i: nat): (n: nat)
    requires i <= |ps|
    ensures i <= n <= |ps| && WritesSettled(ps, i, n)
    ensures n < |ps| ==> ps[n].job.Some? && !ps[n].status.Settled?
    decreases |ps| - i
  {
    if i == |ps| || (ps[i].job.Some? && !ps[i].status.Settled?) then i else Frontier(ps, i + 1)
  }

  function After(outcome: Outcome, s: State, e: Event): State
    requires Enabled(s, e)
  {
    match e
    case Open =>
      s.(promises := s.promises + [Opened(s)], queues := s.queues + [Queue(|s.promises|, None, |s.promises| + 1)])
    case Enqueue(q, write) =>
      s.(promises := s.promises + [Queued(s, q, write)], pending := Some(|s.promises|),
        queues := s.queues[q := s.queues[q].(tail := |s.promises|)])
    case Start(i) => s.(promises := s.promises[i := s.promises[i].(status := Running)])
    case Finish(i) =>
      var p := Done(outcome, s, i);
      s.(promises := s.promises[i := p], queues := Blamed(s.queues, p), applied := s.applied + Effect(p))
    case Forget => s.(pending := None)
    case Flush(q, _) => s.(queues := s.queues[q := Queue(s.queues[q].tail, None, Frontier(s.promises, 0))])
  }

  /** A session, its fields updated in place. */
  class Session {
    const outcome: Outcome
    var promises: seq<Promise>
    var queues: seq<Queue>
    var pending: Option<nat>
    var applied: seq<string>

    constructor (outcome: Outcome)
      ensures this.outcome == outcome && Value() == EMPTY
    {
      this.outcome := outcome;
      promises, queues, pending, applied := [], [], None, [];
    }

    function Value(): State
      reads this
    {
      State(promises, queues, pending, applied)
    }

    /** A turn opens its queue, behind whatever the session still has to write. */
    method OpenWriteQueue() returns (q: nat)
      modifies this
      ensures Value() == After(outcome, old(Value()), Open) && q == |old(queues)|
    {
      q := |queues|;
      queues := queues + [Queue(|promises|, None, |promises| + 1)];
      promises := promises + [Promise(pending, None, Waiting)];
    }

    /** A write joins the newest queue. */
    method Enqueue(q: nat, write: string)
      requires Enabled(Value(), Event.Enqueue(q, write))
      modifies this
      ensures Value() == After(outcome, old(Value()), Event.Enqueue(q, write))
    {
      var p := Promise(Some(queues[q].tail), Some(Job(q, write)), Waiting);
      queues := queues[q := queues[q].(tail := |promises|)];
      pending := Some(|promises|);
      promises := promises + [p];
    }

    /** The event loop starts a promise whose predecessor has settled. */
    method Start(i: nat)
      requires Enabled(Value(), Event.Start(i))
      modifies this
      ensures Value() == After(outcome, old(Value()), Event.Start(i))
    {
      promises := promises[i := promises[i].(status := Running)];
    }

    /** The running promise settles: a write takes effect, or its queue keeps the first error. */
    method Finish(i: nat)
      requires Enabled(Value(), Event.Finish(i))
      modifies this
      ensures Value() == After(outcome, old(Value()), Event.Finish(i))
    {
      var error := None;
      if promises[i].job.Some? {
        var job := promises[i].job.value;
        error := outcome(applied, job.write);
        if error.None? {
          applied := applied + [job.write];
        } else if queues[job.queue].failure.None? {
          queues := queues[job.queue := queues[job.queue].(failure := error)];
        }
      }
      promises := promises[i := promises[i].(status := Settled(error))];
      assert queues == Blamed(old(queues), promises[i]);
    }

    /** The session forgets a tail once it has settled. */
    method Forget()
      requires Enabled(Value(), Event.Forget)
      modifies this
      ensures Value() == After(outcome, old(Value()), Event.Forget)
    {
      pending := None;
    }

    /** A flush whose awaited tail has settled reports the failure kept and forgets it. */
    method Flush(q: nat, awaited: nat) returns (failure: Option<string>)
      requires Enabled(Value(), Event.Flush(q, awaited))
      modifies this
      ensures Value() == After(outcome, old(Value()), Event.Flush(q, awaited)) && failure == old(queues)[q].failure
    {
      failure := queues[q].failure;
      queues := queues[q := Queue(queues[q].tail, None, Frontier(promises, 0))];
    }
  }

  /* ---------------------------------------------------------------- what every event keeps */

  ghost predicate QueuesFit(s: State) {
    && (forall q: nat | q < |s.queues| :: QueueFits(s.promises, s.queues[q], q))
    && (s.queues != [] ==> s.queues[|s.queues| - 1].tail == |s.promises| - 1)
    && (forall i: nat | i < |s.promises| :: s.promises[i].job.Some? ==> s.promises[i].job.value.queue < |s.queues|)
  }

  ghost predicate PendingFits(s: State) {
    match s.pending
    case Some(p) => p < |s.promises| && forall k | p < k < |s.promises| :: s.promises[k].job.None?
    case None => WritesSettled(s.promises, 0, |s.promises|)
  }

  /** The write came out as it does on a store that holds what the earlier writes left. */
  ghost predicate CameOut(outcome: Outcome, ps: seq<Promise>, k: nat)
    requires k < |ps|
  {
    ps[k].job.Some? && ps[k].status.Settled? ==>
      ps[k].status.error == outcome(Effects(ps[..k]), ps[k].job.value.write)
  }

  ghost predicate Valid(outcome: Outcome, s: State) {
    && Chain(s.promises) && QueuesFit(s) && PendingFits(s) && s.applied == Effects(s.promises)
    && forall k: nat | k < |s.promises| :: CameOut(outcome, s.promises, k)
  }

  lemma Extended(outcome: Outcome, s: State, p: Promise)
    requires Valid(outcome, s) && p.status.Waiting? && Chained(s.promises + [p], |s.promises|)
    ensures var ps := s.promises + [p];
      && Chain(ps) && s.applied == Effects(ps) && (forall k: nat | k < |ps| :: CameOut(outcome, ps, k))
      && forall q: nat, from: nat :: FirstFailure(ps, q, from) == FirstFailure(s.promises, q, from)
  {
    var ps := s.promises + [p];
    assert ps[..|s.promises|] == s.promises;
    forall i: nat | i < |ps| ensures Chained(ps, i) { if i < |s.promises| { assert Chained(s.promises, i); } }
    forall k: nat | k < |ps| ensures CameOut(outcome, ps, k) {
      if k < |s.promises| {
        assert CameOut(outcome, s.promises, k) && ps[..k] == s.promises[..k];
      }
    }
    forall q: nat, from: nat ensures FirstFailure(ps, q, from) == FirstFailure(s.promises, q, from) {
      FailureNext(s.promises, p, q, from);
    }
  }

  /** A promise that starts a queue's tail leaves the queues there were as they stood. */
  lemma QueueOpened(ps: seq<Promise>, queue: Queue, q: nat, p: Promise)
    requires QueueFits(ps, queue, q) && p.job.None?
    requires FirstFailure(ps + [p], q, queue.flushed) == FirstFailure(ps, q, queue.flushed)
    ensures QueueFits(ps + [p], queue, q)
  {
    assert forall i: nat | i < |ps| :: (ps + [p])[i] == ps[i];
  }

  /** A queue nothing has been written to yet. */
  lemma FreshQueue(ps: seq<Promise>, q: nat)
    requires ps != [] && forall i: nat | i < |ps| && ps[i].job.Some? :: ps[i].job.value.queue != q
    ensures QueueFits(ps, Queue(|ps| - 1, None, |ps|), q)
  {
    NoFailure(ps, q, |ps|);
  }

  lemma OpenedQueues(outcome: Outcome, s: State)
    requires Valid(outcome, s)
    ensures QueuesFit(After(outcome, s, Open))
  {
    var t, p := After(outcome, s, Open), Opened(s);
    forall q: nat | q < |t.queues| ensures QueueFits(t.promises, t.queues[q], q) {
      if q < |s.queues| {
        FailureNext(s.promises, p, q, s.queues[q].flushed);
        QueueOpened(s.promises, s.queues[q], q, p);
      } else {
        FreshQueue(t.promises, q);
      }
    }
  }

  lemma OpenedPending(ps: seq<Promise>, pending: Option<nat>, p: Promise)
    requires PendingFits(State(ps, [], pending, [])) && p.job.None?
    ensures PendingFits(State(ps + [p], [], pending, []))
  {}

  lemma OpenKeeps(outcome: Outcome, s: State)
    requires Valid(outcome, s)
    ensures Valid(outcome, After(outcome, s, Open))
  {
    Extended(outcome, s, Opened(s));
    OpenedQueues(outcome, s);
    OpenedPending(s.promises, s.pending, Opened(s));
  }

  lemma EnqueueKeeps(outcome: Outcome, s: State, q: nat, write: string)
    requires Valid(outcome, s) && Enabled(s, Enqueue(q, write))
    ensures Valid(outcome, After(outcome, s, Enqueue(q, write)))
  {
    var t := After(outcome, s, Enqueue(q, write));
    assert QueueFits(s.promises, s.queues[q], q);
    Extended(outcome, s, Queued(s, q, write));
    forall r: nat | r < |t.queues| ensures QueueFits(t.promises, t.queues[r], r) {
      assert QueueFits(s.promises, s.queues[r], r);
    }
  }

  lemma ChainStarts(ps: seq<Promise>, i: nat, p: Promise)
    requires Chain(ps) && Ready(ps, i) && p == ps[i].(status := Running)
    ensures Chain(ps[i := p])
  {
    var next := ps[i := p];
    forall k: nat | k < |next| ensures Chained(next, k) { assert Chained(ps, k); }
  }

  lemma QueueStarts(ps: seq<Promise>, queue: Queue, q: nat, i: nat, p: Promise)
    requires QueueFits(ps, queue, q) && Ready(ps, i) && p == ps[i].(status := Running)
    ensures QueueFits(ps[i := p], queue, q)
  {
    Unchanged(ps, i, p);
  }

  lemma StartKeeps(outcome: Outcome, s: State, i: nat)
    requires Valid(outcome, s) && Enabled(s, Start(i))
    ensures Valid(outcome, After(outcome, s, Start(i)))
  {
    var t := After(outcome, s, Start(i));
    var p := t.promises[i];
    Unchanged(s.promises, i, p);
    ChainStarts(s.promises, i, p);
    forall q: nat | q < |t.queues| ensures QueueFits(t.promises, t.queues[q], q) {
      QueueStarts(s.promises, s.queues[q], q, i, p);
    }
    forall k: nat | k < |t.promises| ensures CameOut(outcome, t.promises, k) {
      assert CameOut(outcome, s.promises, k);
      EarlierEffects(s.promises, i, p, k);
    }
  }

  /** A promise that has had no effect so far, and has none now, leaves earlier effects alone. */
  lemma EarlierEffects(ps: seq<Promise>, i: nat, p: Promise, k: nat)
    requires i < |ps| && k <= |ps|
    requires k <= i || (Effect(ps[i]) == Effect(p) && forall q :: Fault(ps[i], q) == Fault(p, q))
    ensures Effects(ps[i := p][..k]) == Effects(ps[..k])
  {
    if k <= i {
      assert ps[i := p][..k] == ps[..k];
    } else {
      assert ps[i := p][..k] == ps[..k][i := p];
      Unchanged(ps[..k], i, p);
    }
  }

  /** A running write is the first that has not settled: the store holds what those before it left. */
  lemma RunningIsNext(outcome: Outcome, s: State, i: nat)
    requires Valid(outcome, s) && i < |s.promises| && s.promises[i].status.Running? && s.promises[i].job.Some?
    ensures forall k: nat | i < k < |s.promises| :: s.promises[k].status.Waiting?
    ensures s.applied == Effects(s.promises[..i])
  {
    forall k: nat | i < k < |s.promises| ensures s.promises[k].status.Waiting? { OneAtATime(s.promises, i, k); }
    NoEffects(s.promises, i);
  }

  lemma {:induction false} NoEffects(ps: seq<Promise>, n: nat)
    requires n <= |ps| && forall k: nat | n <= k < |ps| :: Effect(ps[k]) == []
    ensures Effects(ps) == Effects(ps[..n])
    decreases |ps|
  {
    if n == |ps| {
      assert ps[..n] == ps;
    } else {
      var front := ps[..|ps| - 1];
      assert front[..n] == ps[..n] && forall k: nat | n <= k < |front| :: front[k] == ps[k];
      NoEffects(front, n);
    }
  }

  lemma FinishEffects(outcome: Outcome, s: State, i: nat)
    requires Valid(outcome, s) && Enabled(s, Finish(i))
    ensures var p := Done(outcome, s, i);
      && Effects(s.promises[i := p]) == Effects(s.promises) + Effect(p)
      && forall q: nat | q < |s.queues| ::
           FirstFailure(s.promises[i := p], q, s.queues[q].flushed) == Kept(s.queues[q], Fault(p, q))
  {
    var p := Done(outcome, s, i);
    if p.job.Some? {
      RunningIsNext(outcome, s, i);
      EffectsOfRest(s.promises, i, p);
      forall q: nat | q < |s.queues|
        ensures FirstFailure(s.promises[i := p], q, s.queues[q].flushed) == Kept(s.queues[q], Fault(p, q))
      {
        assert QueueFits(s.promises, s.queues[q], q);
        FailureOfRest(s.promises, i, p, q, s.queues[q].flushed);
      }
    } else {
      Unchanged(s.promises, i, p);
      forall q: nat | q < |s.queues|
        ensures FirstFailure(s.promises[i := p], q, s.queues[q].flushed) == Kept(s.queues[q], Fault(p, q))
      {
        assert QueueFits(s.promises, s.queues[q], q);
      }
    }
  }

  lemma FinishComesOut(outcome: Outcome, s: State, i: nat, k: nat)
    requires Valid(outcome, s) && Enabled(s, Finish(i)) && k < |s.promises|
    ensures CameOut(outcome, s.promises[i := Done(outcome, s, i)], k)
  {
    var p := Done(outcome, s, i);
    assert CameOut(outcome, s.promises, k);
    if p.job.Some? {
      RunningIsNext(outcome, s, i);
      if k <= i { EarlierEffects(s.promises, i, p, k); }
    } else {
      EarlierEffects(s.promises, i, p, k);
    }
  }

  lemma EachBlamed(queues: seq<Queue>, p: Promise, q: nat)
    requires q < |queues| && p.status.Settled?
    ensures |Blamed(queues, p)| == |queues|
    ensures Blamed(queues, p)[q] == queues[q].(failure := Kept(queues[q], Fault(p, q)))
  {}

  lemma FinishQueues(outcome: Outcome, s: State, i: nat)
    requires Valid(outcome, s) && Enabled(s, Finish(i))
    ensures QueuesFit(After(outcome, s, Finish(i)))
  {
    var t, p := After(outcome, s, Finish(i)), Done(outcome, s, i);
    FinishEffects(outcome, s, i);
    forall q: nat | q < |s.queues|
      ensures |t.queues| == |s.queues| && QueueFits(t.promises, t.queues[q], q) && t.queues[q].tail == s.queues[q].tail
    {
      EachBlamed(s.queues, p, q);
      QueueSettles(s.promises, s.queues[q], q, i, p);
    }
  }

  lemma SettlingPends(ps: seq<Promise>, pending: Option<nat>, i: nat, p: Promise)
    requires PendingFits(State(ps, [], pending, [])) && i < |ps| && p == ps[i].(status := p.status) && p.status.Settled?
    ensures PendingFits(State(ps[i := p], [], pending, []))
  {}

  lemma FinishKeeps(outcome: Outcome, s: State, i: nat)
    requires Valid(outcome, s) && Enabled(s, Finish(i))
    ensures Valid(outcome, After(outcome, s, Finish(i)))
  {
    var t, p := After(outcome, s, Finish(i)), Done(outcome, s, i);
    ChainSettles(s.promises, i, p);
    FinishEffects(outcome, s, i);
    FinishQueues(outcome, s, i);
    SettlingPends(s.promises, s.pending, i, p);
    forall k: nat | k < |t.promises| ensures CameOut(outcome, t.promises, k) { FinishComesOut(outcome, s, i, k); }
  }

  /** A flush starts the count of failures again where nothing has settled yet. */
  lemma FlushKeeps(outcome: Outcome, s: State, q: nat, awaited: nat)
    requires Valid(outcome, s) && Enabled(s, Flush(q, awaited))
    ensures Valid(outcome, After(outcome, s, Flush(q, awaited)))
  {
    var t, n := After(outcome, s, Flush(q, awaited)), Frontier(s.promises, 0);
    forall k: nat | n <= k < |s.promises| ensures Fault(s.promises[k], q).None? {
      if k > n { OneAtATime(s.promises, n, k); }
    }
    NoFailure(s.promises, q, n);
    forall r: nat | r < |t.queues| ensures QueueFits(t.promises, t.queues[r], r) {
      assert QueueFits(s.promises, s.queues[r], r);
    }
  }

  lemma StepKeeps(outcome: Outcome, s: State, e: Event)
    requires Valid(outcome, s) && Enabled(s, e)
    ensures Valid(outcome, After(outcome, s, e))
  {
    match e
    case Open => OpenKeeps(outcome, s);
    case Enqueue(q, write) => EnqueueKeeps(outcome, s, q, write);
    case Start(i) => StartKeeps(outcome, s, i);
    case Finish(i) => FinishKeeps(outcome, s, i);
    case Forget => StartedInOrder(s.promises, s.pending.value);
    case Flush(q, awaited) => FlushKeeps(outcome, s, q, awaited);
  }

  /* -------------------------------------------------------------------- over whole runs */

  predicate Legal(outcome: Outcome, es: seq<Event>)
    decreases |es|, 0
  {
    es == [] || (Legal(outcome, es[..|es| - 1]) && Enabled(Run(outcome, es[..|es| - 1]), es[|es| - 1]))
  }

  function Run(outcome: Outcome, es: seq<Event>): State
    requires Legal(outcome, es)
    decreases |es|, 1
  {
    if es == [] then EMPTY else After(outcome, Run(outcome, es[..|es| - 1]), es[|es| - 1])
  }

  lemma {:induction false} RunIsValid(outcome: Outcome, es: seq<Event>)
    requires Legal(outcome, es)
    ensures Valid(outcome, Run(outcome, es))
    decreases |es|
  {
    if es != [] {
      RunIsValid(outcome, es[..|es| - 1]);
      StepKeeps(outcome, Run(outcome, es[..|es| - 1]), es[|es| - 1]);
    }
  }

  /** The writes of a run, in the order the turns asked for them. */
  function Asked(es: seq<Event>): seq<Job> {
    if es == [] then []
    else
      Asked(es[..|es| - 1])
      + match es[|es| - 1] case Enqueue(q, write) => [Job(q, write)] case _ => []
  }

  /** What the store holds when every write is carried out as soon as it is asked for. */
  function Synchronous(outcome: Outcome, jobs: seq<Job>): seq<string> {
    if jobs == [] then []
    else
      var before, write := Synchronous(outcome, jobs[..|jobs| - 1]), jobs[|jobs| - 1].write;
      before + if outcome(before, write).None? then [write] else []
  }

  /** The first failure among the writes of one turn, when they are carried out at once. */
  function SynchronousFailure(outcome: Outcome, jobs: seq<Job>, q: nat): Option<string> {
    if jobs == [] then None
    else
      var n := |jobs| - 1;
      var before := SynchronousFailure(outcome, jobs[..n], q);
      if before.Some? || jobs[n].queue != q then before else outcome(Synchronous(outcome, jobs[..n]), jobs[n].write)
  }

  function Jobs(ps: seq<Promise>): seq<Job> {
    if ps == [] then []
    else Jobs(ps[..|ps| - 1]) + match ps[|ps| - 1].job { case Some(job) => [job] case None => [] }
  }

  lemma {:induction false} JobsUpdated(ps: seq<Promise>, i: nat, p: Promise)
    requires i < |ps| && p.job == ps[i].job
    ensures Jobs(ps[i := p]) == Jobs(ps)
    decreases |ps|
  {
    var n := |ps| - 1;
    if i == n {
      assert ps[i := p][..n] == ps[..n];
    } else {
      assert ps[i := p][..n] == ps[..n][i := p];
      JobsUpdated(ps[..n], i, p);
    }
  }

  lemma {:induction false} AskedAreQueued(outcome: Outcome, es: seq<Event>)
    requires Legal(outcome, es)
    ensures Jobs(Run(outcome, es).promises) == Asked(es)
    decreases |es|
  {
    if es != [] {
      var s, t, e := Run(outcome, es[..|es| - 1]), Run(outcome, es), es[|es| - 1];
      AskedAreQueued(outcome, es[..|es| - 1]);
      if e.Open? || e.Enqueue? {
        assert t.promises[..|s.promises|] == s.promises;
      } else if e.Start? || e.Finish? {
        JobsUpdated(s.promises, e.i, t.promises[e.i]);
      }
    }
  }

  lemma SynchronousNext(outcome: Outcome, jobs: seq<Job>, job: Job, q: nat)
    ensures Synchronous(outcome, jobs + [job]) == Synchronous(outcome, jobs)
      + if outcome(Synchronous(outcome, jobs), job.write).None? then [job.write] else []
    ensures SynchronousFailure(outcome, jobs + [job], q) ==
      if SynchronousFailure(outcome, jobs, q).Some? || job.queue != q then SynchronousFailure(outcome, jobs, q)
      else outcome(Synchronous(outcome, jobs), job.write)
  {
    assert (jobs + [job])[..|jobs|] == jobs;
  }

  /** Carrying out the writes but one at once, and then the last. */
  lemma LastSettles(outcome: Outcome, ps: seq<Promise>, n: nat, q: nat)
    requires |ps| == n + 1 && (ps[n].job.Some? ==> ps[n].status.Settled?) && CameOut(outcome, ps, n)
    requires Effects(ps[..n]) == Synchronous(outcome, Jobs(ps[..n]))
    requires FirstFailure(ps[..n], q, 0) == SynchronousFailure(outcome, Jobs(ps[..n]), q)
    ensures Effects(ps) == Synchronous(outcome, Jobs(ps))
    ensures FirstFailure(ps, q, 0) == SynchronousFailure(outcome, Jobs(ps), q)
  {
    var before, jobs := Effects(ps[..n]), Jobs(ps[..n]);
    assert Effects(ps) == before + Effect(ps[n]);
    if ps[n].job.Some? {
      assert Jobs(ps) == jobs + [ps[n].job.value];
      SynchronousNext(outcome, jobs, ps[n].job.value, q);
    } else {
      assert Jobs(ps) == jobs + [] == jobs && before + [] == before;
    }
  }

  lemma {:induction false} SettledInOrder(outcome: Outcome, ps: seq<Promise>, q: nat)
    requires WritesSettled(ps, 0, |ps|) && forall k: nat | k < |ps| :: CameOut(outcome, ps, k)
    ensures Effects(ps) == Synchronous(outcome, Jobs(ps))
    ensures FirstFailure(ps, q, 0) == SynchronousFailure(outcome, Jobs(ps), q)
    decreases |ps|
  {
    if ps != [] {
      var n: nat := |ps| - 1;
      var front := ps[..n];
      forall k: nat | k < n ensures CameOut(outcome, front, k) {
        assert CameOut(outcome, ps, k) && front[..k] == ps[..k];
      }
      assert forall k | 0 <= k < n :: front[k] == ps[k];
      SettledInOrder(outcome, front, q);
      LastSettles(outcome, ps, n, q);
    }
  }

  lemma AllSettled(outcome: Outcome, es: seq<Event>, q: nat)
    requires Legal(outcome, es) && var ps := Run(outcome, es).promises; WritesSettled(ps, 0, |ps|)
    ensures Run(outcome, es).applied == Synchronous(outcome, Asked(es))
    ensures FirstFailure(Run(outcome, es).promises, q, 0) == SynchronousFailure(outcome, Asked(es), q)
  {
    RunIsValid(outcome, es);
    AskedAreQueued(outcome, es);
    SettledInOrder(outcome, Run(outcome, es).promises, q);
  }

  /** A history read that has waited for the pending tail finds nothing left to write. */
  lemma ReadSeesEveryWrite(outcome: Outcome, s: State)
    requires Valid(outcome, s) && (s.pending.Some? ==> SettledAt(s.promises, s.pending.value))
    ensures WritesSettled(s.promises, 0, |s.promises|)
  {
    if s.pending.Some? { StartedInOrder(s.promises, s.pending.value); }
  }

  /**
   However the event loop schedules the writes: once the pending tail has settled, the store holds
   what it would hold had every write been carried out as soon as it was asked for.
   */
  lemma DeferredIsSynchronous(outcome: Outcome, es: seq<Event>)
    requires Legal(outcome, es)
    requires var s := Run(outcome, es); s.pending.Some? ==> SettledAt(s.promises, s.pending.value)
    ensures Run(outcome, es).applied == Synchronous(outcome, Asked(es))
  {
    RunIsValid(outcome, es);
    ReadSeesEveryWrite(outcome, Run(outcome, es));
    AllSettled(outcome, es, 0);
  }

  /* -------------------------------------------------------------------- what a flush reports */

  ghost predicate FlushedBy(es: seq<Event>, q: nat) { exists e | e in es :: e.Flush? && e.q == q }

  /**
   What a flush reports, writes queued during its wait or not: the first failure, in queue order,
   among the turn's writes that have settled since the last flush; all it waited for have.
   */
  lemma FlushIsFirst(outcome: Outcome, s: State, q: nat, awaited: nat)
    requires Valid(outcome, s) && Enabled(s, Flush(q, awaited))
    ensures s.queues[q].failure == FirstFailure(s.promises, q, s.queues[q].flushed)
    ensures WritesSettled(s.promises, 0, awaited + 1)
  {
    assert QueueFits(s.promises, s.queues[q], q);
    StartedInOrder(s.promises, awaited);
  }

  /** Nothing of the queue's own lies before what it still has to report on. */
  ghost predicate Unreported(s: State, q: nat)
    requires q < |s.queues|
  {
    && s.queues[q].flushed <= |s.promises|
    && forall i: nat | i < s.queues[q].flushed :: s.promises[i].job.Some? ==> s.promises[i].job.value.queue != q
  }

  lemma UnreportedKept(outcome: Outcome, s: State, e: Event, q: nat)
    requires Valid(outcome, s) && Enabled(s, e) && q < |After(outcome, s, e).queues|
    requires !(e.Flush? && e.q == q) && (q < |s.queues| ==> Unreported(s, q))
    ensures Unreported(After(outcome, s, e), q)
  {}

  lemma {:induction false} NeverFlushed(outcome: Outcome, es: seq<Event>, q: nat)
    requires Legal(outcome, es) && !FlushedBy(es, q) && q < |Run(outcome, es).queues|
    ensures Unreported(Run(outcome, es), q)
    decreases |es|
  {
    var before, e := es[..|es| - 1], es[|es| - 1];
    assert e in es && forall f | f in before :: f in es;
    RunIsValid(outcome, before);
    if q < |Run(outcome, before).queues| { NeverFlushed(outcome, before, q); }
    UnreportedKept(outcome, Run(outcome, before), e, q);
  }

  lemma {:induction false} OwnFailures(ps: seq<Promise>, q: nat, from: nat)
    requires from <= |ps| && forall i: nat | i < from :: ps[i].job.Some? ==> ps[i].job.value.queue != q
    ensures FirstFailure(ps, q, from) == FirstFailure(ps, q, 0)
    decreases |ps|
  {
    if |ps| > from {
      assert forall i: nat | i < from :: ps[..|ps| - 1][i] == ps[i];
      OwnFailures(ps[..|ps| - 1], q, from);
    } else {
      NoFailure(ps, q, 0);
    }
  }

  /** Once the newest queue's tail has settled, every write has. */
  lemma TailSettled(s: State)
    requires QueuesFit(s) && Chain(s.promises) && s.queues != []
    requires SettledAt(s.promises, s.queues[|s.queues| - 1].tail)
    ensures WritesSettled(s.promises, 0, |s.promises|)
  {
    StartedInOrder(s.promises, s.queues[|s.queues| - 1].tail);
  }

  /** The flush at the end of a turn reports the first failure the turn would have met at once. */
  lemma FlushReports(outcome: Outcome, es: seq<Event>, q: nat)
    requires Legal(outcome, es) && |Run(outcome, es).queues| == q + 1 && !FlushedBy(es, q)
    requires var s := Run(outcome, es); Enabled(s, Flush(q, s.queues[q].tail))
    ensures Run(outcome, es).queues[q].failure == SynchronousFailure(outcome, Asked(es), q)
  {
    var s := Run(outcome, es);
    RunIsValid(outcome, es);
    TailSettled(s);
    AllSettled(outcome, es, q);
    NeverFlushed(outcome, es, q);
    OwnFailures(s.promises, q, s.queues[q].flushed);
    assert QueueFits(s.promises, s.queues[q], q);
  }
}
