/**
 The record of an approval is never in two places: stored, held by one call, or consumed for
 good.  So its tool runs at most once and at most one terminal event is recorded.
 */
module ApprovalConservation {
  import opened Base
  import opened JsonText
  import opened Approval

  predicate Works(stage: Stage) { stage.Expiring? || stage.Running? || stage.Settling? }

  predicate Terminal(e: Event) { e.Expired? || e.Settled? || e.Failed? }

  function Terminals(audit: seq<Event>): nat {
    if audit == [] then 0
    else Terminals(audit[..|audit| - 1]) + if Terminal(audit[|audit| - 1]) then 1 else 0
  }

  lemma TerminalsAppend(audit: seq<Event>, e: Event)
    ensures Terminals(audit + [e]) == Terminals(audit) + if Terminal(e) then 1 else 0
  {
    assert (audit + [e])[..|audit|] == audit;
  }

  predicate HeldBy(s: State, p: nat) { p in s.procs && Holds(s.procs[p].stage) }

  predicate WorkedBy(s: State, p: nat) { p in s.procs && Works(s.procs[p].stage) }

  /** Exactly one of: in the store, held by exactly one call, consumed. */
  ghost predicate OnePlace(s: State) {
    && (forall p, q :: HeldBy(s, p) && HeldBy(s, q) ==> p == q)
    && (forall p :: HeldBy(s, p) ==> s.stored.None? && !s.consumed)
    && (s.consumed ==> s.stored.None?)
    && (s.stored.None? && !s.consumed ==> exists p :: HeldBy(s, p))
  }

  /** What is done with a consumed record is done by one call, once. */
  ghost predicate OneOutcome(s: State) {
    && (forall p, q :: WorkedBy(s, p) && WorkedBy(s, q) ==> p == q)
    && (forall p :: WorkedBy(s, p) ==> s.consumed && Terminals(s.audit) == 0)
    && |s.runs| <= 1 && (s.runs != [] ==> s.consumed)
    && Terminals(s.audit) <= 1 && (Terminals(s.audit) == 1 ==> s.consumed)
  }

  /** Ids are handed out only after the checkpoint has been attached. */
  ghost predicate Quiet(w: World, s: State) {
    !w.streamed && s.writer != Written ==> s.procs == map[] && s.stored.Some? && !s.consumed
  }

  ghost predicate Inv(w: World, s: State) { OnePlace(s) && OneOutcome(s) && Quiet(w, s) }

  /** A call moves on without touching the record. */
  lemma Moved(w: World, s: State, t: State, p: nat, stage: Stage)
    requires Inv(w, s) && p in s.procs
    requires Holds(s.procs[p].stage) == Holds(stage) && Works(s.procs[p].stage) == Works(stage)
    requires t.procs == s.procs[p := s.procs[p].(stage := stage)] && t.writer == s.writer
    requires t.consumed == s.consumed && t.runs == s.runs && Terminals(t.audit) == Terminals(s.audit)
    requires t.stored.Some? == s.stored.Some?
    ensures Inv(w, t)
  {
    assert forall q :: HeldBy(t, q) <==> HeldBy(s, q);
    assert forall q :: WorkedBy(t, q) <==> WorkedBy(s, q);
  }

  lemma Denying(s: State, p: nat)
    requires p in s.procs
    ensures Terminals(Deny(s, p).audit) == Terminals(s.audit)
  {
    TerminalsAppend(s.audit, Denied(UserOf(s.procs[p].call.actor)));
  }

  lemma SigningEvents(audit: seq<Event>, own: Option<Signature>)
    ensures Terminals(audit + SignedEvents(own)) == Terminals(audit)
  {
    match own
    case None => assert audit + [] == audit;
    case Some(sig) => TerminalsAppend(audit, Signed(sig.user));
  }

  lemma TakenKept(w: World, s: State, t: State, p: nat, c: Claim)
    requires Inv(w, s) && p in s.procs && !Holds(s.procs[p].stage) && !Works(s.procs[p].stage)
    requires s.stored.Some? && t == Put(s, p, Holding(c)).(stored := None)
    ensures Inv(w, t)
  {
    assert HeldBy(t, p);
    assert forall q :: !HeldBy(s, q);
    assert forall q :: q != p ==> HeldBy(t, q) == HeldBy(s, q);
    assert forall q :: WorkedBy(t, q) <==> WorkedBy(s, q);
  }

  lemma ReleasedKept(w: World, s: State, t: State, p: nat, stage: Stage)
    requires Inv(w, s) && HeldBy(s, p) && !Holds(stage)
    requires t.procs == s.procs[p := s.procs[p].(stage := stage)] && t.writer == s.writer
    requires t.stored.Some? ==> !t.consumed && t.runs == s.runs && !Works(stage)
    requires t.stored.None? ==> t.consumed && |t.runs| <= 1
    requires Terminals(t.audit) == Terminals(s.audit)
    ensures Inv(w, t)
  {
    assert forall q :: HeldBy(s, q) ==> q == p;
    assert forall q :: !WorkedBy(s, q);
    assert forall q :: q != p ==> HeldBy(t, q) == HeldBy(s, q);
    assert forall q :: q != p ==> WorkedBy(t, q) == WorkedBy(s, q);
  }

  lemma RecordedKept(w: World, s: State, p: nat)
    requires Inv(w, s) && p in s.procs && (s.procs[p].stage.Settling? || s.procs[p].stage.Expiring?)
    ensures Inv(w, AfterRecording(s, p))
  {
    var t := AfterRecording(s, p);
    assert WorkedBy(s, p);
    TerminalsAppend(s.audit, t.audit[|s.audit|]);
    assert forall q :: HeldBy(t, q) <==> HeldBy(s, q);
    assert forall q :: WorkedBy(s, q) ==> q == p;
    assert forall q :: q != p ==> WorkedBy(t, q) == WorkedBy(s, q);
  }

  lemma DiedKept(w: World, s: State, p: nat)
    requires Inv(w, s) && p in s.procs
    ensures Inv(w, Put(s, p, Ended).(consumed := s.consumed || Holds(s.procs[p].stage)))
  {
    var t := Put(s, p, Ended).(consumed := s.consumed || Holds(s.procs[p].stage));
    assert HeldBy(s, p) <==> Holds(s.procs[p].stage);
    assert forall q :: HeldBy(t, q) <==> HeldBy(s, q) && q != p;
    assert forall q :: WorkedBy(t, q) <==> WorkedBy(s, q) && q != p;
  }

  lemma SignKept(w: World, s: State, p: nat)
    requires Inv(w, s) && p in s.procs && s.procs[p].stage.ToSign?
    ensures Inv(w, AfterSign(s, p))
  {
    var sig := s.procs[p].stage.sig;
    var t := AfterSign(s, p);
    match AddSignature(s.stored, sig).0
    case Absent => Moved(w, s, t, p, Ended);
    case Duplicate(_) => Denying(s, p); Moved(w, s, t, p, Ended);
    case Pending(r) => SigningEvents(s.audit, FindOwn(r.signatures, sig)); Moved(w, s, t, p, Ended);
    case Complete(_) => TakenKept(w, s, t, p, t.procs[p].stage.claim);
  }

  lemma LookKept(w: World, s: State, p: nat)
    requires Inv(w, s) && p in s.procs && s.procs[p].stage.Begun?
    ensures Inv(w, AfterRead(w, s, p))
  {
    var t := AfterRead(w, s, p);
    Denying(s, p);
    Moved(w, s, t, p, t.procs[p].stage);
  }

  lemma CheckKept(w: World, s: State, p: nat)
    requires Inv(w, s) && p in s.procs && s.procs[p].stage.Checking?
    ensures Inv(w, AfterCheck(w, s, p))
  {
    Denying(s, p);
    var t := AfterCheck(w, s, p);
    Moved(w, s, t, p, t.procs[p].stage);
  }

  lemma SignCheckKept(w: World, s: State, p: nat)
    requires Inv(w, s) && p in s.procs && s.procs[p].stage.SignChecking?
    ensures Inv(w, AfterSignCheck(w, s, p))
  {
    Denying(s, p);
    var t := AfterSignCheck(w, s, p);
    Moved(w, s, t, p, t.procs[p].stage);
  }

  lemma GivenUpKept(w: World, s: State, p: nat, why: Reason, saved: bool)
    requires Inv(w, s) && p in s.procs && s.procs[p].stage.Holding?
    ensures Inv(w, AfterGivingUp(w, s, p, why, saved))
  {
    assert HeldBy(s, p);
    Denying(s, p);
    ReleasedKept(w, s, AfterGivingUp(w, s, p, why, saved), p, Ended);
  }

  lemma GuardsKept(w: World, s: State, p: nat)
    requires Inv(w, s) && p in s.procs && s.procs[p].stage.Holding?
    ensures Inv(w, AfterGuards(s, p))
  {
    var c := s.procs[p].stage.claim;
    assert HeldBy(s, p);
    if IsExpired(c.record, s.clock) {
      ReleasedKept(w, s, AfterGuards(s, p), p, Expiring(c.record));
    } else {
      Moved(w, s, AfterGuards(s, p), p, Cleared(c));
    }
  }

  lemma StartKept(w: World, s: State, p: nat)
    requires Inv(w, s) && p in s.procs && s.procs[p].stage.Cleared?
    ensures Inv(w, AfterStart(s, p))
  {
    var c := s.procs[p].stage.claim;
    assert HeldBy(s, p);
    SigningEvents(s.audit, c.own);
    ReleasedKept(w, s, AfterStart(s, p), p, Running(c.record));
  }

  lemma OpenedKept(w: World, s: State, p: nat, call: Call)
    requires Inv(w, s) && p !in s.procs && (w.streamed || s.writer == Written)
    ensures Inv(w, s.(procs := s.procs[p := Proc(call, Begun)]))
  {
    var t := s.(procs := s.procs[p := Proc(call, Begun)]);
    assert forall q :: HeldBy(t, q) <==> HeldBy(s, q);
    assert forall q :: WorkedBy(t, q) <==> WorkedBy(s, q);
  }

  lemma StillKept(w: World, s: State, t: State)
    requires Inv(w, s) && t.procs == s.procs && t.consumed == s.consumed && t.runs == s.runs && t.audit == s.audit
    requires t.stored.Some? == s.stored.Some? && (t.writer == s.writer || t.writer == Written || s.writer == Waiting)
    ensures Inv(w, t)
  {
    assert forall q :: HeldBy(t, q) <==> HeldBy(s, q);
    assert forall q :: WorkedBy(t, q) <==> WorkedBy(s, q);
  }

  /** A save of the checkpoint that finds the record gone puts a second one into the system. */
  lemma Reattached(w: World, s: State, t: State, checkpoint: Json)
    requires Inv(w, s) && Step(w, s, t, Attach(checkpoint)) && s.stored.None?
    ensures !Inv(w, t)
  {
    if !s.consumed {
      var p :| HeldBy(s, p);
      assert HeldBy(t, p);
    }
  }

  /** Every step keeps it, except saving the checkpoint while the record is not stored. */
  lemma StepKeepsIff(w: World, s: State, t: State, a: Action)
    requires Inv(w, s) && Step(w, s, t, a)
    ensures Inv(w, t) <==> (a.Attach? ==> s.stored.Some?)
  {
    match a
    case Open(p, call) => OpenedKept(w, s, p, call);
    case Look(p) => LookKept(w, s, p);
    case Check(p) => CheckKept(w, s, p);
    case SignCheck(p) => SignCheckKept(w, s, p);
    case Take(p) =>
      if s.stored.None? { Moved(w, s, t, p, Ended); } else { TakenKept(w, s, t, p, t.procs[p].stage.claim); }
    case Sign(p) => SignKept(w, s, p);
    case SignThenCrash(p) => Moved(w, s, t, p, Ended);
    case Cancel(p) => Moved(w, s, t, p, Ended);
    case GiveUp(p, why, saved) => GivenUpKept(w, s, p, why, saved);
    case Pass(p) => GuardsKept(w, s, p);
    case Start(p) => StartKept(w, s, p);
    case Finish(p, failed) => Moved(w, s, t, p, t.procs[p].stage);
    case RecordEnd(p) => RecordedKept(w, s, p);
    case Die(p) => DiedKept(w, s, p);
    case Tick(_) => StillKept(w, s, t);
    case Replace(_, _) => StillKept(w, s, t);
    case Fetch => StillKept(w, s, t);
    case Attach(checkpoint) => if s.stored.None? { Reattached(w, s, t, checkpoint); } else { StillKept(w, s, t); }
  }

  lemma InitKeeps(w: World, s: State)
    requires Init(w, s)
    ensures Inv(w, s)
  {
    assert forall p :: !HeldBy(s, p) && !WorkedBy(s, p);
  }

  /* ------------------------------------------------------------------ over whole runs */

  /** Whenever the checkpoint is saved, the record it was read from is still in the store. */
  ghost predicate Undisturbed(tr: seq<State>) {
    forall i :: 0 <= i < |tr| - 1 && tr[i].writer.Read? && tr[i + 1].writer.Written? ==> tr[i].stored.Some?
  }

  /**
   Conservation, over every interleaving of any number of calls: always when ids are handed out
   after the checkpoint is attached, and otherwise if nothing takes the record away in between.
   */
  lemma {:induction false} Conservation(w: World, tr: seq<State>, i: nat)
    requires Execution(w, tr) && (w.streamed ==> Undisturbed(tr)) && i < |tr|
    ensures Inv(w, tr[i])
  {
    if i == 0 {
      InitKeeps(w, tr[0]);
    } else {
      Conservation(w, tr, i - 1);
      assert Next(w, tr[i - 1], tr[i - 1 + 1]);
      var a :| Step(w, tr[i - 1], tr[i], a);
      StepKeepsIff(w, tr[i - 1], tr[i], a);
    }
  }

  /** A whole run conserves the record exactly when no save of the checkpoint finds it gone. */
  lemma ConservedIffUndisturbed(w: World, tr: seq<State>)
    requires Execution(w, tr)
    ensures (forall i :: 0 <= i < |tr| ==> Inv(w, tr[i])) <==> Undisturbed(tr)
  {
    if Undisturbed(tr) {
      forall i: nat | i < |tr| ensures Inv(w, tr[i]) { Conservation(w, tr, i); }
    } else {
      var i: nat :| i < |tr| - 1 && tr[i].writer.Read? && tr[i + 1].writer.Written? && tr[i].stored.None?;
      assert Next(w, tr[i], tr[i + 1]);
      LostAttach(w, tr[i], tr[i + 1]);
    }
  }

  lemma LostAttach(w: World, s: State, t: State)
    requires Next(w, s, t) && s.writer.Read? && t.writer.Written? && s.stored.None?
    ensures !Inv(w, s) || !Inv(w, t)
  {
    var a :| Step(w, s, t, a);
    assert a.Attach?;
    if Inv(w, s) { StepKeepsIff(w, s, t, a); }
  }

  /** The tool runs at most once, and at most one terminal event is recorded. */
  lemma AtMostOnce(w: World, tr: seq<State>, i: nat)
    requires Execution(w, tr) && (w.streamed ==> Undisturbed(tr)) && i < |tr|
    ensures |tr[i].runs| <= 1 && Terminals(tr[i].audit) <= 1
  {
    Conservation(w, tr, i);
  }

  lemma ConsumedStays(w: World, s: State, t: State, a: Action)
    requires Step(w, s, t, a) && Inv(w, s) && Inv(w, t) && s.consumed
    ensures t.consumed && t.stored.None? && t.runs == s.runs
  {
    match a
    case GiveUp(p, _, _) => assert HeldBy(s, p);
    case Start(p) => assert HeldBy(s, p);
    case _ =>
  }

  /** A record that has been settled, lost or found expired is never stored or run again. */
  lemma {:induction false} NeverReappears(w: World, tr: seq<State>, i: nat, j: nat)
    requires Execution(w, tr) && (w.streamed ==> Undisturbed(tr)) && i <= j < |tr| && tr[i].consumed
    ensures tr[j].consumed && tr[j].stored.None? && tr[j].runs == tr[i].runs
    decreases j - i
  {
    if i == j {
      Conservation(w, tr, j);
    } else {
      var k: nat := j - 1;
      NeverReappears(w, tr, i, k);
      ConsumedNext(w, tr, k, j);
    }
  }

  lemma ConsumedNext(w: World, tr: seq<State>, i: nat, next: nat)
    requires Execution(w, tr) && (w.streamed ==> Undisturbed(tr)) && next == i + 1 < |tr| && tr[i].consumed
    ensures tr[next].consumed && tr[next].stored.None? && tr[next].runs == tr[i].runs
  {
    Conservation(w, tr, i);
    Conservation(w, tr, next);
    assert Next(w, tr[i], tr[i + 1]);
    var a :| Step(w, tr[i], tr[next], a);
    ConsumedStays(w, tr[i], tr[next], a);
  }
}
