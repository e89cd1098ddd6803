/**
 Dual control over every interleaving: a run that needs several approvers holds that many
 signatures, from different people, each of whom passed authorization for the version signed.
 */
module ApprovalQuorum {
  import opened Base
  import opened Approval

  /** The signer of `sig` was let through for the version the signature names. */
  ghost predicate Backed(w: World, grants: set<Grant>, sig: Signature) {
    exists g | g in grants :: UserOf(g.actor) == Some(sig.user) && w.version(g.seen.terms) == sig.version
  }

  ghost predicate Good(w: World, grants: set<Grant>, sigs: seq<Signature>) {
    DistinctSigners(sigs) && forall sig | sig in sigs :: Backed(w, grants, sig)
  }

  /** The caller itself was let through, for the fingerprint it carries if it carries one. */
  ghost predicate Passed(w: World, grants: set<Grant>, call: Call, authorized: Option<string>) {
    && (Governed(w.policy) ==> exists g | g in grants :: g.actor == call.actor)
    && (authorized.Some? ==>
          exists g | g in grants :: g.actor == call.actor && w.fingerprint(g.seen) == authorized.value)
  }

  predicate AllCurrent(w: World, r: Record) { forall sig | sig in r.signatures :: sig.version == w.version(r.terms) }

  predicate Enough(r: Record, call: Call) {
    call.decision.Approve? && RequiredOf(r) > 1 ==> |r.signatures| >= RequiredOf(r)
  }

  ghost predicate ClaimOk(w: World, grants: set<Grant>, call: Call, c: Claim) {
    && Good(w, grants, c.record.signatures) && Good(w, grants, c.restore.signatures)
    && Passed(w, grants, call, c.authorized)
  }

  ghost predicate StageOk(w: World, grants: set<Grant>, call: Call, stage: Stage) {
    match stage
    case ToClaim(authorized) => Passed(w, grants, call, authorized)
    case ToSign(_, sig) => Backed(w, grants, sig) && Passed(w, grants, call, None)
    case Holding(c) => ClaimOk(w, grants, call, c)
    case Cleared(c) => ClaimOk(w, grants, call, c) && !Stale(w, c) && !Changed(w, c) && Enough(c.record, call)
    case _ => true
  }

  /** What is known of a run. */
  ghost predicate RunOk(w: World, grants: set<Grant>, run: Run) {
    && Good(w, grants, run.record.signatures) && Passed(w, grants, run.call, run.authorized)
    && Enough(run.record, run.call)
    && (run.signed ==> AllCurrent(w, run.record))
    && (run.authorized.Some? ==> run.authorized.value == w.fingerprint(run.record))
  }

  ghost predicate StagesOk(w: World, s: State) {
    forall p | p in s.procs :: StageOk(w, s.grants, s.procs[p].call, s.procs[p].stage)
  }

  ghost predicate Inv(w: World, s: State) {
    && (s.stored.Some? ==> Good(w, s.grants, s.stored.value.signatures))
    && (s.writer.Read? ==> Good(w, s.grants, s.writer.record.signatures))
    && StagesOk(w, s)
    && (forall run | run in s.runs :: RunOk(w, s.grants, run))
    && (forall g | g in s.grants :: Allowed(w.policy, g.seen, g.actor))
  }

  /* ------------------------------------------------------------- signature lists */

  lemma {:induction false} DroppingWithin(sigs: seq<Signature>, own: Option<Signature>)
    ensures forall x | x in Dropping(sigs, own) :: x in sigs && Some(x) != own
    ensures forall x | x in sigs && Some(x) != own :: x in Dropping(sigs, own)
    ensures DistinctSigners(sigs) ==> DistinctSigners(Dropping(sigs, own))
  {
    if sigs != [] {
      DroppingWithin(sigs[1..], own);
      assert sigs == [sigs[0]] + sigs[1..];
      if DistinctSigners(sigs) {
        assert DistinctSigners(sigs[1..]);
        Fronted(sigs, Dropping(sigs[1..], own));
      }
    }
  }

  lemma {:induction false} CurrentWithin(w: World, r: Record, sigs: seq<Signature>)
    ensures forall x :: x in Current(w, r, sigs) <==> x in sigs && x.version == w.version(r.terms)
    ensures DistinctSigners(sigs) ==> DistinctSigners(Current(w, r, sigs))
  {
    if sigs != [] {
      CurrentWithin(w, r, sigs[1..]);
      assert sigs == [sigs[0]] + sigs[1..];
      if DistinctSigners(sigs) {
        assert DistinctSigners(sigs[1..]);
        Fronted(sigs, Current(w, r, sigs[1..]));
      }
    }
  }

  lemma Fronted(sigs: seq<Signature>, rest: seq<Signature>)
    requires sigs != [] && DistinctSigners(sigs) && DistinctSigners(rest) && forall x | x in rest :: x in sigs[1..]
    ensures DistinctSigners([sigs[0]] + rest)
  {
    forall j | 0 <= j < |rest| ensures rest[j].user != sigs[0].user {
      assert rest[j] in sigs[1..];
      var k :| 0 <= k < |sigs[1..]| && sigs[1..][k] == rest[j];
      assert sigs[k + 1] == rest[j];
    }
  }

  lemma AppendedGood(w: World, grants: set<Grant>, r: Record, sig: Signature)
    requires Good(w, grants, r.signatures) && Backed(w, grants, sig) && !HasSigned(r, sig.user)
    ensures Good(w, grants, Appended(r, sig).signatures)
  {
    forall i | 0 <= i < |r.signatures| ensures r.signatures[i].user != sig.user {
      assert r.signatures[i] in r.signatures;
    }
  }

  lemma SubsetGood(w: World, grants: set<Grant>, sigs: seq<Signature>, own: Option<Signature>)
    requires Good(w, grants, sigs)
    ensures Good(w, grants, Dropping(sigs, own))
  {
    DroppingWithin(sigs, own);
  }

  lemma RestoredGood(w: World, grants: set<Grant>, call: Call, c: Claim, why: Reason)
    requires ClaimOk(w, grants, call, c)
    ensures Good(w, grants, Restored(w, c, why).signatures)
  {
    if why.StaleSignatures? {
      CurrentWithin(w, c.record, c.record.signatures);
      SubsetGood(w, grants, Current(w, c.record, c.record.signatures), c.own);
    }
  }

  /* ---------------------------------------------------------------------- each step */

  lemma GoodGrows(w: World, a: set<Grant>, b: set<Grant>, sigs: seq<Signature>)
    requires a <= b && Good(w, a, sigs)
    ensures Good(w, b, sigs)
  {
    forall sig | sig in sigs ensures Backed(w, b, sig) {
      assert Backed(w, a, sig);
    }
  }

  lemma PassedGrows(w: World, a: set<Grant>, b: set<Grant>, call: Call, authorized: Option<string>)
    requires a <= b && Passed(w, a, call, authorized)
    ensures Passed(w, b, call, authorized)
  {}

  lemma StageGrows(w: World, a: set<Grant>, b: set<Grant>, call: Call, stage: Stage)
    requires a <= b && StageOk(w, a, call, stage)
    ensures StageOk(w, b, call, stage)
  {
    match stage
    case ToClaim(authorized) => PassedGrows(w, a, b, call, authorized);
    case ToSign(_, sig) => PassedGrows(w, a, b, call, None);
    case Holding(c) => ClaimGrows(w, a, b, call, c);
    case Cleared(c) => ClaimGrows(w, a, b, call, c);
    case _ =>
  }

  lemma ClaimGrows(w: World, a: set<Grant>, b: set<Grant>, call: Call, c: Claim)
    requires a <= b && ClaimOk(w, a, call, c)
    ensures ClaimOk(w, b, call, c)
  {
    GoodGrows(w, a, b, c.record.signatures);
    GoodGrows(w, a, b, c.restore.signatures);
    PassedGrows(w, a, b, call, c.authorized);
  }

  lemma InvGrows(w: World, s: State, g: Grant)
    requires Inv(w, s) && Allowed(w.policy, g.seen, g.actor)
    ensures Inv(w, s.(grants := s.grants + {g}))
  {
    var b := s.grants + {g};
    if s.stored.Some? { GoodGrows(w, s.grants, b, s.stored.value.signatures); }
    if s.writer.Read? { GoodGrows(w, s.grants, b, s.writer.record.signatures); }
    forall p | p in s.procs ensures StageOk(w, b, s.procs[p].call, s.procs[p].stage) {
      StageGrows(w, s.grants, b, s.procs[p].call, s.procs[p].stage);
    }
    forall run | run in s.runs ensures RunOk(w, b, run) {
      GoodGrows(w, s.grants, b, run.record.signatures);
      PassedGrows(w, s.grants, b, run.call, run.authorized);
    }
  }

  lemma PutKeeps(w: World, s: State, p: nat, stage: Stage)
    requires Inv(w, s) && p in s.procs && StageOk(w, s.grants, s.procs[p].call, stage)
    ensures Inv(w, Put(s, p, stage))
  {}

  lemma SignKept(w: World, s: State, p: nat)
    requires Inv(w, s) && p in s.procs && s.procs[p].stage.ToSign?
    ensures Inv(w, AfterSign(s, p))
  {
    var sig := s.procs[p].stage.sig;
    assert StageOk(w, s.grants, s.procs[p].call, s.procs[p].stage);
    match AddSignature(s.stored, sig).0
    case Pending(r) =>
      AppendedGood(w, s.grants, s.stored.value, sig);
      PutKeeps(w, s, p, Ended);
    case Complete(r) =>
      var own := FindOwn(r.signatures, sig);
      if r != s.stored.value { AppendedGood(w, s.grants, s.stored.value, sig); }
      SubsetGood(w, s.grants, r.signatures, own);
      PutKeeps(w, s, p, Holding(Claim(r, r.(signatures := Dropping(r.signatures, own)), None, own, true)));
    case _ => PutKeeps(w, s, p, Ended);
  }

  lemma CheckKept(w: World, s: State, p: nat)
    requires Inv(w, s) && p in s.procs && s.procs[p].stage.Checking?
    ensures Inv(w, AfterCheck(w, s, p))
  {
    var seen, actor := s.procs[p].stage.seen, s.procs[p].call.actor;
    if Allowed(w.policy, seen, actor) {
      var g := Grant(actor, seen);
      InvGrows(w, s, g);
      assert g in Noted(s, actor, seen).grants;
      PutKeeps(w, Noted(s, actor, seen), p, ToClaim(Some(w.fingerprint(seen))));
    } else {
      PutKeeps(w, s, p, Ended);
    }
  }

  lemma SignCheckKept(w: World, s: State, p: nat)
    requires Inv(w, s) && p in s.procs && s.procs[p].stage.SignChecking?
    ensures Inv(w, AfterSignCheck(w, s, p))
  {
    var seen, actor := s.procs[p].stage.seen, s.procs[p].call.actor;
    if Allowed(w.policy, seen, actor) && UserOf(actor).Some? {
      var g := Grant(actor, seen);
      InvGrows(w, s, g);
      assert g in Noted(s, actor, seen).grants;
      PutKeeps(w, Noted(s, actor, seen), p, AfterSignCheck(w, s, p).procs[p].stage);
    } else {
      PutKeeps(w, s, p, Ended);
    }
  }

  lemma LookKept(w: World, s: State, p: nat)
    requires Inv(w, s) && p in s.procs && s.procs[p].stage.Begun?
    ensures Inv(w, AfterRead(w, s, p))
  {
    PutKeeps(w, s, p, AfterRead(w, s, p).procs[p].stage);
  }

  lemma TakeKept(w: World, s: State, p: nat)
    requires Inv(w, s) && p in s.procs && s.procs[p].stage.ToClaim?
    ensures Inv(w, AfterClaim(s, p))
  {
    assert StageOk(w, s.grants, s.procs[p].call, s.procs[p].stage);
    PutKeeps(w, s, p, AfterClaim(s, p).procs[p].stage);
  }

  lemma GivenUpKept(w: World, s: State, p: nat, why: Reason, saved: bool)
    requires Inv(w, s) && p in s.procs && s.procs[p].stage.Holding?
    ensures Inv(w, AfterGivingUp(w, s, p, why, saved))
  {
    assert StageOk(w, s.grants, s.procs[p].call, s.procs[p].stage);
    RestoredGood(w, s.grants, s.procs[p].call, s.procs[p].stage.claim, why);
    PutKeeps(w, s, p, Ended);
  }

  lemma StartKept(w: World, s: State, p: nat)
    requires Inv(w, s) && p in s.procs && s.procs[p].stage.Cleared?
    ensures Inv(w, AfterStart(s, p))
  {
    assert StageOk(w, s.grants, s.procs[p].call, s.procs[p].stage);
    PutKeeps(w, s, p, Running(s.procs[p].stage.claim.record));
  }

  lemma StepKeeps(w: World, s: State, t: State, a: Action)
    requires Inv(w, s) && Step(w, s, t, a)
    ensures Inv(w, t)
  {
    match a
    case Open(p, call) =>
    case Look(p) => LookKept(w, s, p);
    case Check(p) => CheckKept(w, s, p);
    case SignCheck(p) => SignCheckKept(w, s, p);
    case Take(p) => TakeKept(w, s, p);
    case Sign(p) => SignKept(w, s, p);
    case SignThenCrash(p) =>
      assert StageOk(w, s.grants, s.procs[p].call, s.procs[p].stage);
      AppendedGood(w, s.grants, s.stored.value, s.procs[p].stage.sig);
      PutKeeps(w, s, p, Ended);
    case GiveUp(p, why, saved) => GivenUpKept(w, s, p, why, saved);
    case Pass(p) =>
      assert StageOk(w, s.grants, s.procs[p].call, s.procs[p].stage);
      PutKeeps(w, s, p, AfterGuards(s, p).procs[p].stage);
    case Start(p) => StartKept(w, s, p);
    case Cancel(p) => PutKeeps(w, s, p, Ended);
    case Finish(p, failed) => PutKeeps(w, s, p, t.procs[p].stage);
    case RecordEnd(p) => PutKeeps(w, s, p, Ended);
    case Die(p) => PutKeeps(w, s, p, Ended);
    case _ =>
  }

  /* ------------------------------------------------------------------ over whole runs */

  lemma {:induction false} InvAlways(w: World, tr: seq<State>, i: nat)
    requires Execution(w, tr) && i < |tr|
    ensures Inv(w, tr[i])
  {
    if i > 0 {
      InvAlways(w, tr, i - 1);
      assert Next(w, tr[i - 1], tr[i - 1 + 1]);
      var a :| Step(w, tr[i - 1], tr[i], a);
      StepKeeps(w, tr[i - 1], tr[i], a);
    }
  }

  /** A signature on a record that ran, traced back to its signer's authorization. */
  ghost predicate Traced(w: World, s: State, sig: Signature) {
    exists g | g in s.grants :: UserOf(g.actor) == Some(sig.user) && w.version(g.seen.terms) == sig.version
      && Allowed(w.policy, g.seen, g.actor)
  }

  /**
   Quorum, over every interleaving and whatever the store does to the terms: enough signatures,
   no signer twice, each signer authorized for the version it signed.  A run completed by its
   last signature holds only signatures for the record exactly as it stood.
   */
  lemma Quorum(w: World, tr: seq<State>, i: nat, run: Run)
    requires Execution(w, tr) && i < |tr| && run in tr[i].runs && run.call.decision.Approve?
    requires RequiredOf(run.record) > 1
    ensures |run.record.signatures| >= RequiredOf(run.record) && DistinctSigners(run.record.signatures)
    ensures forall sig | sig in run.record.signatures :: Traced(w, tr[i], sig)
    ensures run.signed ==> AllCurrent(w, run.record)
  {
    InvAlways(w, tr, i);
    forall sig | sig in run.record.signatures ensures Traced(w, tr[i], sig) {
      assert Backed(w, tr[i].grants, sig);
      var g :| g in tr[i].grants && UserOf(g.actor) == Some(sig.user) && w.version(g.seen.terms) == sig.version;
      assert Allowed(w.policy, g.seen, g.actor);
    }
  }

  /** Under governance the caller that settles was authorized, for the record it settled if it was alone. */
  lemma GovernedSettlement(w: World, tr: seq<State>, i: nat, run: Run)
    requires Execution(w, tr) && i < |tr| && run in tr[i].runs && Governed(w.policy)
    ensures exists g | g in tr[i].grants :: g.actor == run.call.actor && Allowed(w.policy, g.seen, g.actor)
    ensures run.authorized.Some? ==> exists g | g in tr[i].grants ::
      g.actor == run.call.actor && Allowed(w.policy, g.seen, g.actor)
        && w.fingerprint(g.seen) == w.fingerprint(run.record)
  {
    InvAlways(w, tr, i);
    assert RunOk(w, tr[i].grants, run);
    var g :| g in tr[i].grants && g.actor == run.call.actor;
    assert Allowed(w.policy, g.seen, g.actor);
    if run.authorized.Some? {
      var h :| h in tr[i].grants && h.actor == run.call.actor && w.fingerprint(h.seen) == run.authorized.value;
      assert Allowed(w.policy, h.seen, h.actor);
    }
  }

  /* ---------------------------------------------------------------- putting it back */

  /**
   A call that gives the record up leaves the terms and the checkpoint alone and keeps every
   other signature, unless it is for another version and that is why the call was refused.
   */
  lemma RestoreKeeps(w: World, tr: seq<State>, i: nat, p: nat, why: Reason)
    requires Execution(w, tr) && i < |tr| && p in tr[i].procs && tr[i].procs[p].stage.Holding?
    ensures
      var c := tr[i].procs[p].stage.claim;
      var back := Restored(w, c, why);
      && back == c.record.(signatures := back.signatures)
      && (forall sig :: sig in back.signatures <==>
            && sig in c.record.signatures && Some(sig) != c.own
            && (why.StaleSignatures? ==> sig.version == w.version(c.record.terms)))
      && (c.own.Some? ==> !HasSigned(back, c.own.value.user))
  {
    var c := tr[i].procs[p].stage.claim;
    InvAlways(w, tr, i);
    ClaimsHave(w, tr, i);
    assert StageOk(w, tr[i].grants, tr[i].procs[p].call, tr[i].procs[p].stage);
    DroppingWithin(c.record.signatures, c.own);
    CurrentWithin(w, c.record, c.record.signatures);
    DroppingWithin(Current(w, c.record, c.record.signatures), c.own);
    if c.own.Some? {
      forall sig | sig in Restored(w, c, why).signatures ensures sig.user != c.own.value.user {
        assert sig in c.record.signatures && sig != c.own.value;
      }
    }
  }

  ghost predicate ClaimShape(c: Claim) {
    && c.restore == c.record.(signatures := Dropping(c.record.signatures, c.own))
    && (c.own.Some? ==> c.own.value in c.record.signatures)
  }

  lemma FindOwnIn(sigs: seq<Signature>, sig: Signature)
    ensures FindOwn(sigs, sig).Some? ==> FindOwn(sigs, sig).value in sigs && FindOwn(sigs, sig).value.user == sig.user
  {}

  lemma DroppingNone(sigs: seq<Signature>)
    ensures Dropping(sigs, None) == sigs
  {}

  ghost predicate ShapesOk(s: State) {
    forall p | p in s.procs && s.procs[p].stage.Holding? :: ClaimShape(s.procs[p].stage.claim)
  }

  lemma SignShapes(s: State, p: nat)
    requires ShapesOk(s) && p in s.procs && s.procs[p].stage.ToSign?
    ensures ShapesOk(AfterSign(s, p))
  {
    var result, sig := AddSignature(s.stored, s.procs[p].stage.sig).0, s.procs[p].stage.sig;
    if result.Complete? { FindOwnIn(result.record.signatures, sig); }
    OnlyOneMoved(s, AfterSign(s, p), p);
  }

  lemma TakeShapes(s: State, p: nat)
    requires ShapesOk(s) && p in s.procs && s.procs[p].stage.ToClaim?
    ensures ShapesOk(AfterClaim(s, p))
  {
    if s.stored.Some? { DroppingNone(s.stored.value.signatures); }
    OnlyOneMoved(s, AfterClaim(s, p), p);
  }

  lemma OnlyOneMoved(s: State, t: State, p: nat)
    requires ShapesOk(s) && t.procs.Keys <= s.procs.Keys + {p}
    requires forall q | q in t.procs && q != p :: q in s.procs && t.procs[q] == s.procs[q]
    requires p in t.procs && t.procs[p].stage.Holding? ==> ClaimShape(t.procs[p].stage.claim)
    ensures ShapesOk(t)
  {}

  lemma OpenShapes(w: World, s: State, t: State, a: Action, p: nat)
    requires Step(w, s, t, a) && ShapesOk(s) && a.Open? && a.p == p
    ensures ShapesOk(t)
  {
    OnlyOneMoved(s, t, p);
  }

  lemma EarlyShapes(w: World, s: State, t: State, a: Action, p: nat)
    requires Step(w, s, t, a) && ShapesOk(s)
    requires (a.Look? || a.Check? || a.SignCheck? || a.SignThenCrash? || a.Cancel?) && a.p == p
    ensures ShapesOk(t)
  {
    OnlyOneMoved(s, t, p);
  }

  lemma LateShapes(w: World, s: State, t: State, a: Action, p: nat)
    requires Step(w, s, t, a) && ShapesOk(s)
    requires (a.GiveUp? || a.Pass? || a.Start? || a.Finish? || a.RecordEnd? || a.Die?) && a.p == p
    ensures ShapesOk(t)
  {
    OnlyOneMoved(s, t, p);
  }

  lemma ShapesKept(w: World, s: State, t: State, a: Action)
    requires Step(w, s, t, a) && ShapesOk(s)
    ensures ShapesOk(t)
  {
    match a
    case Sign(p) => SignShapes(s, p);
    case Take(p) => TakeShapes(s, p);
    case Open(p, _) => OpenShapes(w, s, t, a, p);
    case Look(p) => EarlyShapes(w, s, t, a, p);
    case Check(p) => EarlyShapes(w, s, t, a, p);
    case SignCheck(p) => EarlyShapes(w, s, t, a, p);
    case SignThenCrash(p) => EarlyShapes(w, s, t, a, p);
    case Cancel(p) => EarlyShapes(w, s, t, a, p);
    case GiveUp(p, _, _) => LateShapes(w, s, t, a, p);
    case Pass(p) => LateShapes(w, s, t, a, p);
    case Start(p) => LateShapes(w, s, t, a, p);
    case Finish(p, _) => LateShapes(w, s, t, a, p);
    case RecordEnd(p) => LateShapes(w, s, t, a, p);
    case Die(p) => LateShapes(w, s, t, a, p);
    case _ =>
  }

  lemma {:induction false} ClaimsHave(w: World, tr: seq<State>, i: nat)
    requires Execution(w, tr) && i < |tr|
    ensures ShapesOk(tr[i])
  {
    if i > 0 {
      ClaimsHave(w, tr, i - 1);
      assert Next(w, tr[i - 1], tr[i - 1 + 1]);
      var a :| Step(w, tr[i - 1], tr[i], a);
      ShapesKept(w, tr[i - 1], tr[i], a);
    }
  }
}
