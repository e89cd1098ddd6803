/**
 The circuit breaker (packages/core/src/utils/circuit-breaker.ts) and the stream wrapper that
 records its outcome late (packages/core/src/adapters/resilient-model.adapter.ts).
 */
module CircuitBreaker {
  datatype Phase = Closed | Open | HalfOpen

  datatype Config = Config(failureThreshold: nat, cooldownMs: nat, successThreshold: nat)

  predicate ValidConfig(c: Config) { c.failureThreshold >= 1 && c.cooldownMs >= 1 && c.successThreshold >= 1 }

  datatype State = State(phase: Phase, failures: nat, successes: nat, openedAt: int, probeInFlight: bool)

  const INITIAL := State(Closed, 0, 0, 0, false)

  function Remaining(c: Config, s: State, now: int): nat {
    if s.openedAt + c.cooldownMs - now > 0 then s.openedAt + c.cooldownMs - now else 0
  }

  function Moved(s: State, to: Phase, now: int): State {
    if s.phase == to then s
    else
      match to
      case Open => s.(phase := Open, openedAt := now, successes := 0)
      case Closed => s.(phase := Closed, failures := 0, successes := 0)
      case HalfOpen => s.(phase := HalfOpen, successes := 0)
  }

  function Promoted(c: Config, s: State, now: int): State {
    if s.phase.Open? && Remaining(c, s, now) == 0 then Moved(s, HalfOpen, now) else s
  }

  /** Whether a call made now is dispatched, and the state it leaves. */
  function Admission(c: Config, s: State, now: int): (bool, State) {
    var p := Promoted(c, s, now);
    match p.phase
    case Open => (false, p)
    case HalfOpen => if p.probeInFlight then (false, p) else (true, p.(probeInFlight := true))
    case Closed => (true, p)
  }

  function Succeeded(c: Config, s: State, now: int): State {
    var done := s.(probeInFlight := false);
    if s.phase.HalfOpen? then
      var more := done.(successes := s.successes + 1);
      if more.successes >= c.successThreshold then Moved(more, Closed, now) else more
    else done.(failures := 0)
  }

  function Failed(c: Config, s: State, now: int): State {
    var more := s.(probeInFlight := false, failures := s.failures + 1);
    if s.phase.HalfOpen? then Moved(more, Open, now)
    else if more.failures >= c.failureThreshold then Moved(more, Open, now)
    else more
  }

  /* ------------------------------------------------------------------------- the class */

  class Breaker {
    const config: Config
    var phase: Phase
    var failures: nat
    var successes: nat
    var openedAt: int
    var probeInFlight: bool

    constructor (config: Config)
      requires ValidConfig(config)
      ensures this.config == config && Value() == INITIAL
    {
      this.config := config;
      phase, failures, successes, openedAt, probeInFlight := Closed, 0, 0, 0, false;
    }

    function Value(): State
      reads this
    {
      State(phase, failures, successes, openedAt, probeInFlight)
    }

    method Transition(to: Phase, now: int)
      modifies this
      ensures Value() == Moved(old(Value()), to, now)
    {
      if phase == to { return; }
      phase := to;
      if to == Open {
        openedAt, successes := now, 0;
      } else if to == Closed {
        failures, successes := 0, 0;
      } else {
        successes := 0;
      }
    }

    method PromoteIfCooledDown(now: int)
      modifies this
      ensures Value() == Promoted(config, old(Value()), now)
    {
      if phase == Open && Remaining(config, Value(), now) == 0 { Transition(HalfOpen, now); }
    }

    /** The first half of `execute`: whether the operation is dispatched. */
    method Admit(now: int) returns (admitted: bool)
      modifies this
      ensures (admitted, Value()) == Admission(config, old(Value()), now)
    {
      PromoteIfCooledDown(now);
      if phase == Open { return false; }
      if phase == HalfOpen {
        if probeInFlight { return false; }
        probeInFlight := true;
      }
      admitted := true;
    }

    method RecordSuccess(now: int)
      modifies this
      ensures Value() == Succeeded(config, old(Value()), now)
    {
      probeInFlight := false;
      if phase == HalfOpen {
        successes := successes + 1;
        if successes >= config.successThreshold { Transition(Closed, now); }
        return;
      }
      failures := 0;
    }

    method RecordFailure(now: int)
      modifies this
      ensures Value() == Failed(config, old(Value()), now)
    {
      probeInFlight := false;
      failures := failures + 1;
      if phase == HalfOpen {
        Transition(Open, now);
        return;
      }
      if failures >= config.failureThreshold { Transition(Open, now); }
    }
  }

  /* --------------------------------------------------------------------- over whole runs */

  /** Calls start and end in any order; an end may come long after others have changed the state. */
  datatype Event = Call(now: int) | Success(now: int) | Failure(now: int)

  function After(c: Config, s: State, e: Event): State {
    match e
    case Call(now) => Admission(c, s, now).1
    case Success(now) => Succeeded(c, s, now)
    case Failure(now) => Failed(c, s, now)
  }

  function Run(c: Config, events: seq<Event>): State {
    if events == [] then INITIAL else After(c, Run(c, events[..|events| - 1]), events[|events| - 1])
  }

  predicate Sound(c: Config, s: State) {
    && (s.phase.Closed? ==> s.failures < c.failureThreshold)
    && (s.phase.HalfOpen? ==> s.successes < c.successThreshold)
    && (s.probeInFlight ==> s.phase.HalfOpen?)
  }

  /** Whatever the interleaving, the counters fit the phase and a probe is only ever out in half-open. */
  lemma {:induction false} RunIsSound(c: Config, events: seq<Event>)
    requires ValidConfig(c)
    ensures Sound(c, Run(c, events))
    decreases |events|
  {
    if events != [] { RunIsSound(c, events[..|events| - 1]); }
  }

  ghost predicate Ordered(events: seq<Event>) {
    forall i, j :: 0 <= i < j < |events| ==> events[i].now <= events[j].now
  }

  /** The event at `i` opens the circuit. */
  predicate Trips(c: Config, events: seq<Event>, i: nat)
    requires i < |events|
  {
    !Run(c, events[..i]).phase.Open? && Run(c, events[..i + 1]).phase.Open?
  }

  predicate Dispatches(c: Config, events: seq<Event>, i: nat)
    requires i < |events|
  {
    events[i].Call? && Admission(c, Run(c, events[..i]), events[i].now).0
  }

  lemma RunNext(c: Config, events: seq<Event>, i: nat)
    requires i < |events|
    ensures Run(c, events[..i + 1]) == After(c, Run(c, events[..i]), events[i])
  {
    assert events[..i + 1][..i] == events[..i];
  }

  /** Since the trip at `i`: still open since no earlier than then, or the cooldown is over. */
  ghost predicate Cooling(c: Config, events: seq<Event>, i: nat, j: nat)
    requires i < j <= |events|
  {
    var s := Run(c, events[..j]);
    (s.phase.Open? && s.openedAt >= events[i].now) || events[j - 1].now >= events[i].now + c.cooldownMs
  }

  lemma CoolingNext(c: Config, s: State, e: Event, trip: int)
    requires (s.phase.Open? && s.openedAt >= trip) || e.now >= trip + c.cooldownMs
    ensures var t := After(c, s, e); (t.phase.Open? && t.openedAt >= trip) || e.now >= trip + c.cooldownMs
  {}

  lemma {:induction false} CoolingHolds(c: Config, events: seq<Event>, i: nat, j: nat)
    requires Ordered(events) && i < j <= |events| && Trips(c, events, i)
    ensures Cooling(c, events, i, j)
    decreases j - i
  {
    var k := j - 1;
    RunNext(c, events, k);
    if k > i {
      CoolingHolds(c, events, i, k);
      assert events[k - 1].now <= events[k].now;
      CoolingNext(c, Run(c, events[..k]), events[k], events[i].now);
    }
  }

  /** Once tripped, nothing is dispatched before the cooldown has passed, whatever completes late. */
  lemma NoDispatchWhileCooling(c: Config, events: seq<Event>, i: nat, j: nat)
    requires Ordered(events) && i < j < |events| && Trips(c, events, i) && Dispatches(c, events, j)
    ensures events[j].now >= events[i].now + c.cooldownMs
  {
    CoolingHolds(c, events, i, j);
  }

  /** The call at `i` goes out as a probe. */
  predicate Probes(c: Config, events: seq<Event>, i: nat)
    requires i < |events|
  {
    Dispatches(c, events, i) && Run(c, events[..i + 1]).phase.HalfOpen?
  }

  /** Some probe went out before `j`, and nothing has completed since. */
  ghost predicate ProbeOut(c: Config, events: seq<Event>, j: nat)
    requires j <= |events|
  {
    exists i: nat | i < j :: Probes(c, events, i) && forall k :: i < k < j ==> events[k].Call?
  }

  lemma ProbeOutNext(c: Config, events: seq<Event>, i: nat, j: nat)
    requires i < |events| && j == i + 1
    ensures ProbeOut(c, events, j) <==> Probes(c, events, i) || (events[i].Call? && ProbeOut(c, events, i))
  {
    if Probes(c, events, i) {
    } else if events[i].Call? && ProbeOut(c, events, i) {
      var first: nat :| first < i && Probes(c, events, first) && forall k :: first < k < i ==> events[k].Call?;
      assert forall k :: first < k < j ==> events[k].Call?;
    } else if ProbeOut(c, events, j) {
      var first: nat :| first < j && Probes(c, events, first) && forall k :: first < k < j ==> events[k].Call?;
      assert false;
    }
  }

  /** The flag is up exactly from a probe to the next completion, whichever call it completes. */
  lemma {:induction false} ProbeFlagIff(c: Config, events: seq<Event>, j: nat)
    requires ValidConfig(c) && j <= |events|
    ensures Run(c, events[..j]).probeInFlight <==> ProbeOut(c, events, j)
    decreases j
  {
    if j > 0 {
      var i: nat := j - 1;
      ProbeFlagIff(c, events, i);
      ProbeOutNext(c, events, i, j);
      RunNext(c, events, i);
      RunIsSound(c, events[..i]);
    }
  }

  /** A call that finds the circuit half-open is let through exactly when no probe is out. */
  lemma OneProbeAtATime(c: Config, events: seq<Event>, j: nat)
    requires ValidConfig(c) && j < |events| && events[j].Call?
    requires Promoted(c, Run(c, events[..j]), events[j].now).phase.HalfOpen?
    ensures Dispatches(c, events, j) <==> !ProbeOut(c, events, j)
  {
    ProbeFlagIff(c, events, j);
  }

  /**
   So a second probe can go out while the first is in flight: here a call from before the trip
   succeeds late.
   */
  lemma LateSuccessReleasesSecondProbe()
    ensures var c := Config(1, 10, 2);
      // Calls A and B start; A fails and trips; C probes after the cooldown; B succeeds; D is let through.
      var events := [Call(0), Call(0), Failure(1), Call(11), Success(12), Call(13)];
      Dispatches(c, events, 3) && Dispatches(c, events, 5) && Run(c, events[..6]).phase.HalfOpen?
  {
    var c := Config(1, 10, 2);
    var events := [Call(0), Call(0), Failure(1), Call(11), Success(12), Call(13)];
    assert events[..0] == [];
    RunNext(c, events, 0); RunNext(c, events, 1); RunNext(c, events, 2);
    assert Run(c, events[..3]) == State(Open, 1, 0, 1, false);
    RunNext(c, events, 3); RunNext(c, events, 4); RunNext(c, events, 5);
  }

  /* ------------------------------------------------------------------- a guarded stream */

  datatype Outcome = Good | Bad

  datatype Pull = Value | Done | Throws

  datatype Stage = Waiting | Refused | Opening | Yielding | Over

  /** One guarded stream; other calls may use the breaker between its steps. */
  class GuardedStream {
    const breaker: Breaker
    var stage: Stage
    var settled: bool                    // an outcome was recorded at the end or at a failure
    ghost var outcomes: seq<Outcome>     // what this stream has recorded

    constructor (breaker: Breaker)
      ensures this.breaker == breaker && stage == Waiting && outcomes == [] && Valid()
    {
      this.breaker, stage, settled, outcomes := breaker, Waiting, false, [];
    }

    /** Nothing is recorded before the end, and exactly one outcome at the end. */
    ghost predicate Valid()
      reads this
    {
      |outcomes| == (if stage == Over then 1 else 0) && (stage == Yielding ==> !settled)
    }

    /** The consumer starts the stream: the breaker lets it through or not. */
    method Begin(now: int)
      requires Valid() && stage == Waiting
      modifies this, breaker
      ensures Valid() && stage == if Admission(breaker.config, old(breaker.Value()), now).0 then Opening else Refused
      ensures breaker.Value() == Admission(breaker.config, old(breaker.Value()), now).1
    {
      var admitted := breaker.Admit(now);
      stage := if admitted then Opening else Refused;
    }

    /** Opening and the first chunk, retries included; success is left for later. */
    method Opened(first: Pull, now: int)
      requires Valid() && stage == Opening
      modifies this, breaker
      ensures Valid() && stage == if first == Value then Yielding else Over
      ensures outcomes == (match first case Value => [] case Done => [Good] case Throws => [Bad])
      ensures breaker.Value() == match first
        case Value => old(breaker.Value())
        case Done => Succeeded(breaker.config, old(breaker.Value()), now)
        case Throws => Failed(breaker.config, old(breaker.Value()), now)
    {
      match first {
        case Value => stage, settled := Yielding, false;
        case Done => Record(Good, now);
        case Throws => Record(Bad, now);
      }
    }

    /** The consumer asks for the next chunk. */
    method Next(pulled: Pull, now: int)
      requires Valid() && stage == Yielding
      modifies this, breaker
      ensures Valid() && stage == if pulled == Value then Yielding else Over
      ensures outcomes == (match pulled case Value => [] case Done => [Good] case Throws => [Bad])
      ensures breaker.Value() == match pulled
        case Value => old(breaker.Value())
        case Done => Succeeded(breaker.config, old(breaker.Value()), now)
        case Throws => Failed(breaker.config, old(breaker.Value()), now)
    {
      match pulled {
        case Value =>
        case Done =>
          settled := true;
          Record(Good, now);
        case Throws =>
          settled := true;
          Record(Bad, now);
      }
    }

    /** The consumer closes the stream early: chunks did arrive, so the provider counts as healthy. */
    method Close(now: int)
      requires Valid() && stage == Yielding
      modifies this, breaker
      ensures Valid() && stage == Over && outcomes == [Good]
      ensures breaker.Value() == Succeeded(breaker.config, old(breaker.Value()), now)
    {
      if !settled { Record(Good, now); }
    }

    method Record(outcome: Outcome, now: int)
      requires stage != Over && outcomes == []
      modifies this, breaker
      ensures stage == Over && outcomes == [outcome]
      ensures breaker.Value() == match outcome
        case Good => Succeeded(breaker.config, old(breaker.Value()), now)
        case Bad => Failed(breaker.config, old(breaker.Value()), now)
    {
      match outcome {
        case Good => breaker.RecordSuccess(now);
        case Bad => breaker.RecordFailure(now);
      }
      stage, outcomes := Over, outcomes + [outcome];
    }
  }
}
