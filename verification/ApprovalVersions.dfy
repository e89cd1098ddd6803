/**
 What a version stands for, what immutable records add to dual control, and the two orders of
 events in which the settlement's guards are not enough.
 */
module ApprovalVersions {
  import opened Base
  import opened JsonText
  import opened Canonical
  import opened Approval
  import opened ApprovalQuorum
  import ApprovalConservation

  /* -------------------------------------------------------------- versions and terms */

  ghost predicate Injective(digest: string -> string) {
    forall a, b {:trigger digest(a), digest(b)} :: digest(a) == digest(b) ==> a == b
  }

  /** `approvalVersion` and `fingerprint`, over canonical text. */
  ghost predicate Canonicalizes(w: World, digest: string -> string, nm: Numerals) {
    && (forall t :: w.version(t) == digest(Serialize(Obj(DecidedFields(t)), nm)))
    && (forall r :: w.fingerprint(r) == Serialize(Obj(FingerprintFields(r)), nm))
  }

  /** Equal versions mean equal decisions, up to the order of keys; and only those. */
  lemma VersionMeansTerms(w: World, digest: string -> string, nm: Numerals, a: Terms, b: Terms)
    requires Injective(digest) && Canonicalizes(w, digest, nm) && Faithful(nm)
    requires WellFormed(Obj(DecidedFields(a)), nm) && WellFormed(Obj(DecidedFields(b)), nm)
    ensures w.version(a) == w.version(b) <==> DeepEqual(Obj(DecidedFields(a)), Obj(DecidedFields(b)))
  {
    SameTextIffEqual(Obj(DecidedFields(a)), Obj(DecidedFields(b)), nm);
  }

  /** Likewise for the fingerprint a single approver is authorized against. */
  lemma FingerprintMeansRecord(w: World, digest: string -> string, nm: Numerals, a: Record, b: Record)
    requires Canonicalizes(w, digest, nm) && Faithful(nm)
    requires WellFormed(Obj(FingerprintFields(a)), nm) && WellFormed(Obj(FingerprintFields(b)), nm)
    ensures w.fingerprint(a) == w.fingerprint(b) <==> DeepEqual(Obj(FingerprintFields(a)), Obj(FingerprintFields(b)))
  {
    SameTextIffEqual(Obj(FingerprintFields(a)), Obj(FingerprintFields(b)), nm);
  }

  lemma ThresholdField(t: Terms)
    ensures Lookup(DecidedFields(t), "requiredApprovals") ==
      match t.requiredApprovals { case Some(n) => Some(Num(n as real)) case None => None }
  {
    var k := "requiredApprovals";
    var head := [Field("content", t.content), Field("context", IdentityJson(t.security))];
    var asker := match t.requestedBy case Some(who) => [Field("requestedBy", IdentityJson(who))] case None => [];
    var at := match t.expiresAt case Some(x) => [Field("expiresAt", Num(x as real))] case None => [];
    var last := match t.requiredApprovals case Some(n) => [Field(k, Num(n as real))] case None => [];
    LookupAppend(head + asker + at, last, k);
    LookupAppend(head + asker, at, k);
    LookupAppend(head, asker, k);
    assert Lookup(head, k).None? by { assert head[1..] == [head[1]] && [head[1]][1..] == []; }
    assert at != [] ==> at[1..] == [];
    assert asker != [] ==> asker[1..] == [];
    assert last != [] ==> last[1..] == [];
  }

  ghost predicate Numbered(o: Option<Json>, n: Option<int>) {
    o == match n { case Some(x) => Some(Num(x as real)) case None => None }
  }

  lemma NumberedAlike(x: Option<Json>, y: Option<Json>, a: Option<int>, b: Option<int>)
    requires Numbered(x, a) && Numbered(y, b) && (x.Some? <==> y.Some?) && (x.Some? ==> DeepEqual(x.value, y.value))
    ensures a == b
  {}

  lemma DecidedDistinct(t: Terms, nm: Numerals)
    requires WellFormed(Obj(DecidedFields(t)), nm)
    ensures DistinctKeys(DecidedFields(t))
  {}

  /** So a signature can never count toward another threshold than its signer saw. */
  lemma VersionFixesThreshold(w: World, digest: string -> string, nm: Numerals, a: Terms, b: Terms)
    requires Injective(digest) && Canonicalizes(w, digest, nm) && Faithful(nm)
    requires WellFormed(Obj(DecidedFields(a)), nm) && WellFormed(Obj(DecidedFields(b)), nm)
    requires w.version(a) == w.version(b)
    ensures b.requiredApprovals == a.requiredApprovals
  {
    VersionMeansTerms(w, digest, nm, a, b);
    ThresholdField(a); ThresholdField(b);
    DecidedDistinct(a, nm); DecidedDistinct(b, nm);
    SameThreshold(DecidedFields(a), DecidedFields(b), a.requiredApprovals, b.requiredApprovals);
  }

  lemma SameThreshold(x: seq<Field>, y: seq<Field>, a: Option<int>, b: Option<int>)
    requires DeepEqual(Obj(x), Obj(y)) && DistinctKeys(x) && DistinctKeys(y)
    requires Numbered(Lookup(x, "requiredApprovals"), a) && Numbered(Lookup(y, "requiredApprovals"), b)
    ensures a == b
  {
    EqualLookups(x, y, "requiredApprovals");
    NumberedAlike(Lookup(x, "requiredApprovals"), Lookup(y, "requiredApprovals"), a, b);
  }

  lemma ListedKey(fs: seq<Field>, k: string)
    requires DistinctKeys(fs)
    ensures Lookup(fs, k).Some? <==> k in Keys(fs)
  {
    if k in Keys(fs) {
      var f :| f in fs && f.key == k;
      LookupOwn(fs, f);
    } else if Lookup(fs, k).Some? {
      assert false;
    }
  }

  /** Objects that are equal up to key order have equal values under every key. */
  lemma EqualLookups(x: seq<Field>, y: seq<Field>, k: string)
    requires DeepEqual(Obj(x), Obj(y)) && DistinctKeys(x) && DistinctKeys(y)
    ensures Lookup(x, k).Some? <==> Lookup(y, k).Some?
    ensures Lookup(x, k).Some? ==> DeepEqual(Lookup(x, k).value, Lookup(y, k).value)
  {
    KeyCount(x); KeyCount(y);
    forall f | f in x ensures f.key in Keys(y) { ListedKey(y, f.key); }
    assert Keys(x) <= Keys(y);
    SameSizeSubset(Keys(x), Keys(y));
    ListedKey(x, k); ListedKey(y, k);
    if Lookup(x, k).Some? { assert Field(k, Lookup(x, k).value) in x; }
  }

  /* --------------------------------------------------------------- immutable records */

  ghost predicate Keeps(terms: Terms, stage: Stage) {
    match stage
    case Checking(seen) => seen.terms == terms
    case SignChecking(seen) => seen.terms == terms
    case ToSign(seen, _) => seen.terms == terms
    case Holding(c) => c.record.terms == terms && c.restore.terms == terms
    case Cleared(c) => c.record.terms == terms
    case _ => true
  }

  ghost predicate SameTerms(terms: Terms, s: State) {
    && (s.stored.Some? ==> s.stored.value.terms == terms)
    && (s.writer.Read? ==> s.writer.record.terms == terms)
    && (forall p | p in s.procs :: Keeps(terms, s.procs[p].stage))
    && (forall g | g in s.grants :: g.seen.terms == terms)
    && (forall run | run in s.runs :: run.record.terms == terms)
  }

  lemma OneKept(terms: Terms, s: State, t: State, p: nat)
    requires SameTerms(terms, s) && p in t.procs && Keeps(terms, t.procs[p].stage)
    requires forall q | q in t.procs && q != p :: q in s.procs && t.procs[q] == s.procs[q]
    requires (t.stored.Some? ==> t.stored.value.terms == terms) && t.writer == s.writer
    requires forall g | g in t.grants - s.grants :: g.seen.terms == terms
    requires forall run | run in t.runs :: run in s.runs || run.record.terms == terms
    ensures SameTerms(terms, t)
  {}

  lemma LookKeepsTerms(w: World, terms: Terms, s: State, t: State, p: nat)
    requires Step(w, s, t, Look(p)) && SameTerms(terms, s)
    ensures SameTerms(terms, t)
  {
    OneKept(terms, s, t, p);
  }

  lemma TakeKeepsTerms(w: World, terms: Terms, s: State, t: State, p: nat)
    requires Step(w, s, t, Take(p)) && SameTerms(terms, s)
    ensures SameTerms(terms, t)
  {
    OneKept(terms, s, t, p);
  }

  lemma SignKeepsTerms(w: World, terms: Terms, s: State, t: State, p: nat)
    requires Step(w, s, t, Sign(p)) && SameTerms(terms, s)
    ensures SameTerms(terms, t)
  {
    OneKept(terms, s, t, p);
  }

  lemma CheckedKept(w: World, terms: Terms, s: State, t: State, a: Action, p: nat)
    requires Step(w, s, t, a) && SameTerms(terms, s) && (a.Check? || a.SignCheck?) && a.p == p
    ensures SameTerms(terms, t)
  {
    assert Keeps(terms, s.procs[p].stage);
    OneKept(terms, s, t, p);
  }

  lemma LateKept(w: World, terms: Terms, s: State, t: State, a: Action, p: nat)
    requires Step(w, s, t, a) && SameTerms(terms, s)
    requires a.GiveUp? || a.Pass? || a.Start? || a.Finish? || a.RecordEnd?
    requires a.p == p
    ensures SameTerms(terms, t)
  {
    assert Keeps(terms, s.procs[p].stage);
    OneKept(terms, s, t, p);
  }

  lemma SameTermsKept(w: World, terms: Terms, s: State, t: State, a: Action)
    requires Step(w, s, t, a) && SameTerms(terms, s) && !w.mutable
    ensures SameTerms(terms, t)
  {
    match a
    case Look(p) => LookKeepsTerms(w, terms, s, t, p);
    case Check(p) => CheckedKept(w, terms, s, t, a, p);
    case SignCheck(p) => CheckedKept(w, terms, s, t, a, p);
    case Take(p) => TakeKeepsTerms(w, terms, s, t, p);
    case Sign(p) => SignKeepsTerms(w, terms, s, t, p);
    case GiveUp(p, _, _) => LateKept(w, terms, s, t, a, p);
    case Pass(p) => LateKept(w, terms, s, t, a, p);
    case Start(p) => LateKept(w, terms, s, t, a, p);
    case Finish(p, _) => LateKept(w, terms, s, t, a, p);
    case RecordEnd(p) => LateKept(w, terms, s, t, a, p);
    case Open(p, _) => OneKept(terms, s, t, p);
    case SignThenCrash(p) => OneKept(terms, s, t, p);
    case Cancel(p) => OneKept(terms, s, t, p);
    case Die(p) => OneKept(terms, s, t, p);
    case _ =>
  }

  lemma {:induction false} SameTermsAlways(w: World, tr: seq<State>, i: nat)
    requires Execution(w, tr) && !w.mutable && i < |tr|
    ensures SameTerms(tr[0].stored.value.terms, tr[i])
  {
    if i > 0 {
      SameTermsAlways(w, tr, i - 1);
      assert Next(w, tr[i - 1], tr[i - 1 + 1]);
      var a :| Step(w, tr[i - 1], tr[i], a);
      SameTermsKept(w, tr[0].stored.value.terms, tr[i - 1], tr[i], a);
    }
  }

  /** With a store that never replaces a record, every run's signatures are for that record. */
  lemma QuorumOnImmutableRecords(w: World, tr: seq<State>, i: nat, run: Run)
    requires Execution(w, tr) && !w.mutable && i < |tr| && run in tr[i].runs
    ensures AllCurrent(w, run.record)
  {
    SameTermsAlways(w, tr, i);
    InvAlways(w, tr, i);
    assert RunOk(w, tr[i].grants, run);
    forall sig | sig in run.record.signatures ensures sig.version == w.version(run.record.terms) {
      assert Backed(w, tr[i].grants, sig);
    }
  }

  /** The signer was let through for the version signed, and as it then identified itself it is not the requester. */
  ghost predicate SignedByAnother(w: World, s: State, record: Record, sig: Signature, g: Grant) {
    && g in s.grants && Allowed(w.policy, g.seen, g.actor)
    && UserOf(g.actor) == Some(sig.user) && w.version(g.seen.terms) == sig.version
    && !Conflict(record, g.actor)
  }

  /** With separation of duties enforced, each signer was authorized as someone who is not the requester. */
  lemma SignersAreNotTheRequester(w: World, tr: seq<State>, i: nat, run: Run, sig: Signature)
    returns (g: Grant)
    requires Execution(w, tr) && !w.mutable && i < |tr| && run in tr[i].runs && sig in run.record.signatures
    requires w.policy.enforceSeparationOfDuties
    ensures SignedByAnother(w, tr[i], run.record, sig, g)
  {
    SameTermsAlways(w, tr, i);
    InvAlways(w, tr, i);
    assert RunOk(w, tr[i].grants, run);
    assert Backed(w, tr[i].grants, sig);
    g :| g in tr[i].grants && UserOf(g.actor) == Some(sig.user) && w.version(g.seen.terms) == sig.version;
    assert Allowed(w.policy, g.seen, g.actor);
  }

  /**
   With tenants isolated too, and the requester known to be of no tenant other than the record's, no
   signature carries the requester's user id.
   */
  lemma NoSignatureOfTheRequester(w: World, tr: seq<State>, i: nat, run: Run, sig: Signature)
    requires Execution(w, tr) && !w.mutable && i < |tr| && run in tr[i].runs && sig in run.record.signatures
    requires w.policy.enforceSeparationOfDuties && w.policy.enforceTenantIsolation
    requires Requester(run.record).tenantId in {None, run.record.terms.security.tenantId}
    ensures Requester(run.record).userId != Some(sig.user)
  {
    SameTermsAlways(w, tr, i);
    var g := SignersAreNotTheRequester(w, tr, i, run, sig);
    assert g.seen.terms == run.record.terms;
  }

  /* ------------------------------------------------------------- one approver alone */

  /** The call settles on its own: it rejects, or it approves what needs no second signature. */
  predicate Alone(terms: Terms, call: Call) {
    call.decision.Reject? || RequiredOf(Record(terms, None, [])) <= 1
  }

  /** A call that settles on its own carries the fingerprint it was authorized for. */
  predicate Carries(terms: Terms, proc: Proc) {
    Alone(terms, proc.call) ==>
      match proc.stage
      case SignChecking(_) => false
      case ToSign(_, _) => false
      case ToClaim(authorized) => authorized.Some?
      case Holding(c) => c.authorized.Some?
      case Cleared(c) => c.authorized.Some?
      case _ => true
  }

  ghost predicate Carried(terms: Terms, s: State) {
    && (forall p | p in s.procs :: Carries(terms, s.procs[p]))
    && (forall run | run in s.runs && Alone(terms, run.call) :: run.authorized.Some?)
  }

  lemma OneCarries(terms: Terms, s: State, t: State, p: nat)
    requires Carried(terms, s) && p in t.procs && Carries(terms, t.procs[p])
    requires forall q | q in t.procs && q != p :: q in s.procs && t.procs[q] == s.procs[q]
    requires forall run | run in t.runs :: run in s.runs || (Alone(terms, run.call) ==> run.authorized.Some?)
    ensures Carried(terms, t)
  {}

  lemma LookCarries(w: World, terms: Terms, s: State, p: nat)
    requires Governed(w.policy) && SameTerms(terms, s) && Carried(terms, s) && p in s.procs && s.procs[p].stage.Begun?
    ensures Carried(terms, AfterRead(w, s, p))
  {
    OneCarries(terms, s, AfterRead(w, s, p), p);
  }

  lemma EarlyCarries(w: World, terms: Terms, s: State, t: State, a: Action, p: nat)
    requires Step(w, s, t, a) && Carried(terms, s) && (a.Check? || a.SignCheck? || a.Take? || a.Sign?) && a.p == p
    ensures Carried(terms, t)
  {
    assert Carries(terms, s.procs[p]);
    OneCarries(terms, s, t, p);
  }

  lemma LateCarries(w: World, terms: Terms, s: State, t: State, a: Action, p: nat)
    requires Step(w, s, t, a) && Carried(terms, s)
    requires a.GiveUp? || a.Pass? || a.Start? || a.Finish? || a.RecordEnd? || a.Cancel? || a.Die? || a.SignThenCrash?
    requires a.p == p
    ensures Carried(terms, t)
  {
    assert Carries(terms, s.procs[p]);
    OneCarries(terms, s, t, p);
  }

  lemma CarriedKept(w: World, terms: Terms, s: State, t: State, a: Action)
    requires Step(w, s, t, a) && Governed(w.policy) && SameTerms(terms, s) && Carried(terms, s)
    ensures Carried(terms, t)
  {
    match a
    case Open(p, _) => OneCarries(terms, s, t, p);
    case Look(p) => LookCarries(w, terms, s, p);
    case Check(p) => EarlyCarries(w, terms, s, t, a, p);
    case SignCheck(p) => EarlyCarries(w, terms, s, t, a, p);
    case Take(p) => EarlyCarries(w, terms, s, t, a, p);
    case Sign(p) => EarlyCarries(w, terms, s, t, a, p);
    case SignThenCrash(p) => LateCarries(w, terms, s, t, a, p);
    case Cancel(p) => LateCarries(w, terms, s, t, a, p);
    case GiveUp(p, _, _) => LateCarries(w, terms, s, t, a, p);
    case Pass(p) => LateCarries(w, terms, s, t, a, p);
    case Start(p) => LateCarries(w, terms, s, t, a, p);
    case Finish(p, _) => LateCarries(w, terms, s, t, a, p);
    case RecordEnd(p) => LateCarries(w, terms, s, t, a, p);
    case Die(p) => LateCarries(w, terms, s, t, a, p);
    case _ =>
  }

  lemma {:induction false} CarriedAlways(w: World, tr: seq<State>, i: nat)
    requires Execution(w, tr) && !w.mutable && Governed(w.policy) && i < |tr|
    ensures Carried(tr[0].stored.value.terms, tr[i])
  {
    if i > 0 {
      var before: nat := i - 1;
      CarriedAlways(w, tr, before);
      SameTermsAlways(w, tr, before);
      assert Next(w, tr[i - 1], tr[i - 1 + 1]);
      var a :| Step(w, tr[before], tr[i], a);
      CarriedKept(w, tr[0].stored.value.terms, tr[before], tr[i], a);
    }
  }

  /**
   With governance and a store that never replaces a record, whoever settles it alone was let
   through for a record with the fingerprint of the one that ran.
   */
  lemma SoleSettlerWasAuthorized(w: World, tr: seq<State>, i: nat, run: Run)
    requires Execution(w, tr) && !w.mutable && Governed(w.policy) && i < |tr| && run in tr[i].runs
    requires run.call.decision.Reject? || RequiredOf(run.record) <= 1
    ensures exists g | g in tr[i].grants ::
      g.actor == run.call.actor && Allowed(w.policy, g.seen, g.actor)
        && w.fingerprint(g.seen) == w.fingerprint(run.record)
  {
    CarriedAlways(w, tr, i);
    SameTermsAlways(w, tr, i);
    GovernedSettlement(w, tr, i, run);
  }

  /* -------------------------------------------------- where the guards do not reach */

  lemma Extends(w: World, tr: seq<State>, t: State, a: Action)
    requires Execution(w, tr) && Step(w, tr[|tr| - 1], t, a)
    ensures Execution(w, tr + [t])
  {
    var longer := tr + [t];
    forall i | 0 <= i < |longer| - 1 ensures Next(w, longer[i], longer[i + 1]) {
      if i < |tr| - 1 { assert Next(w, tr[i], tr[i + 1]); }
    }
  }

  predicate Claimable(w: World, r: Record, actor: Option<Identity>, now: int) {
    !IsExpired(r, now) && RequiredOf(r) <= 1 && (Governed(w.policy) ==> Allowed(w.policy, r, actor))
  }

  /** One person approves, up to the start of the run. */
  lemma SingleApproval(w: World, tr: seq<State>, p: nat, actor: Option<Identity>) returns (longer: seq<State>)
    requires Execution(w, tr)
    requires var s := tr[|tr| - 1];
      && s.stored.Some? && p !in s.procs && (w.streamed || s.writer == Written)
      && Claimable(w, s.stored.value, actor, s.clock)
    ensures Execution(w, longer)
    ensures var s, t := tr[|tr| - 1], longer[|longer| - 1];
      && t.stored.None? && t.writer == s.writer && t.clock == s.clock
      && |t.runs| == |s.runs| + 1 && t.procs.Keys == s.procs.Keys + {p}
  {
    longer := ApproverClaims(w, tr, p, actor);
    var s3 := longer[|longer| - 1];
    var s4 := AfterGuards(s3, p);
    var s5 := AfterStart(s4, p);
    Extends(w, longer, s4, Pass(p)); longer := longer + [s4];
    Extends(w, longer, s5, Start(p)); longer := longer + [s5];
  }

  lemma ApproverClaims(w: World, tr: seq<State>, p: nat, actor: Option<Identity>) returns (longer: seq<State>)
    requires Execution(w, tr)
    requires var s := tr[|tr| - 1];
      && s.stored.Some? && p !in s.procs && (w.streamed || s.writer == Written)
      && Claimable(w, s.stored.value, actor, s.clock)
    ensures Execution(w, longer)
    ensures var s, t := tr[|tr| - 1], longer[|longer| - 1];
      var fingerprint := if Governed(w.policy) then Some(w.fingerprint(s.stored.value)) else None;
      && t.stored.None? && t.writer == s.writer && t.clock == s.clock && t.runs == s.runs
      && t.procs == s.procs[p := Proc(Call(Approve, actor),
           Holding(Claim(s.stored.value, s.stored.value, fingerprint, None, false)))]
  {
    var call := Call(Approve, actor);
    var s0 := tr[|tr| - 1];
    var s1 := s0.(procs := s0.procs[p := Proc(call, Begun)]);
    var s2 := AfterRead(w, s1, p);
    longer := tr + [s1];
    Extends(w, tr, s1, Open(p, call));
    Extends(w, longer, s2, Look(p)); longer := longer + [s2];
    if Governed(w.policy) {
      var checked := AfterCheck(w, s2, p);
      Extends(w, longer, checked, Check(p)); longer := longer + [checked];
    }
    var ready := longer[|longer| - 1];
    var s3 := AfterClaim(ready, p);
    Extends(w, longer, s3, Take(p)); longer := longer + [s3];
  }

  /**
   Handing out the id before the checkpoint is attached breaks conservation, under any policy that
   lets someone approve: a settlement that falls between the read and the save of the checkpoint is
   undone by the save, and the tool runs a second time.
   */
  lemma StreamedRunsTwice(w: World, terms: Terms, checkpoint: Json, actor: Option<Identity>, now: int)
    returns (tr: seq<State>)
    requires w.streamed
    requires Claimable(w, Record(terms, None, []), actor, now)
    requires Claimable(w, Record(terms, Some(checkpoint), []), actor, now)
    ensures Execution(w, tr) && |tr[|tr| - 1].runs| == 2
  {
    var r := Record(terms, None, []);
    var s0 := State(Some(r), map[], [], [], false, {}, Waiting, now);
    var s1 := s0.(writer := Read(r));
    tr := [s0];
    Extends(w, tr, s1, Fetch); tr := tr + [s1];
    tr := SingleApproval(w, tr, 1, actor);
    var s := tr[|tr| - 1];
    var t := s.(stored := Some(r.(checkpoint := Some(checkpoint))), writer := Written);
    Extends(w, tr, t, Attach(checkpoint)); tr := tr + [t];
    tr := SingleApproval(w, tr, 2, actor);
  }

  /** Where anyone can approve at all, the tool runs at most once exactly when ids wait for the checkpoint. */
  lemma AtMostOnceIffNotStreamed(w: World, terms: Terms, checkpoint: Json, actor: Option<Identity>, now: int)
    requires Claimable(w, Record(terms, None, []), actor, now)
    requires Claimable(w, Record(terms, Some(checkpoint), []), actor, now)
    ensures (forall tr: seq<State>, i: nat | Execution(w, tr) && i < |tr| :: |tr[i].runs| <= 1) <==> !w.streamed
  {
    if w.streamed {
      var tr := StreamedRunsTwice(w, terms, checkpoint, actor, now);
      var last: nat := |tr| - 1;
      assert |tr[last].runs| == 2;
    } else {
      forall tr: seq<State>, i: nat | Execution(w, tr) && i < |tr| ensures |tr[i].runs| <= 1 {
        ApprovalConservation.AtMostOnce(w, tr, i);
      }
    }
  }

  /* ------------------------------------------------------- signatures on replaced terms */

  function NameOf(who: Identity): string { match who.userId case Some(name) => name case None => "" }

  predicate Named(who: Identity) { NameOf(who) != "" }

  /** The record once these people have signed it. */
  function SignedBy(w: World, terms: Terms, signers: seq<Identity>, at: int): (r: Record)
    ensures |r.signatures| == |signers|
    ensures forall j :: 0 <= j < |signers| ==>
      r.signatures[j] == Signature(NameOf(signers[j]), at, w.version(terms))
  {
    Record(terms, None, seq(|signers|, j requires 0 <= j < |signers| =>
      Signature(NameOf(signers[j]), at, w.version(terms))))
  }

  /** Different people, each let through for the record as the ones before left it. */
  ghost predicate MaySign(w: World, terms: Terms, signers: seq<Identity>, at: int) {
    && (forall who | who in signers :: Named(who))
    && (forall i, j :: 0 <= i < j < |signers| ==> NameOf(signers[i]) != NameOf(signers[j]))
    && forall j: nat | j < |signers| :: LetThrough(w, terms, signers, at, j)
  }

  predicate LetThrough(w: World, terms: Terms, signers: seq<Identity>, at: int, j: nat)
    requires j < |signers|
  {
    Allowed(w.policy, SignedBy(w, terms, signers[..j], at), Some(signers[j]))
  }

  lemma OneSignature(w: World, tr: seq<State>, p: nat, who: Identity) returns (longer: seq<State>)
    requires Execution(w, tr) && Named(who)
    requires var s := tr[|tr| - 1];
      && s.stored.Some? && p !in s.procs && s.writer == Written && !IsExpired(s.stored.value, s.clock)
      && Allowed(w.policy, s.stored.value, Some(who))
      && !HasSigned(s.stored.value, NameOf(who)) && |s.stored.value.signatures| + 1 < RequiredOf(s.stored.value)
    ensures Execution(w, longer)
    ensures var s, t := tr[|tr| - 1], longer[|longer| - 1];
      && t.procs.Keys == s.procs.Keys + {p} && t.writer == s.writer && t.clock == s.clock && t.runs == s.runs
      && t.stored == Some(Appended(s.stored.value,
           Signature(NameOf(who), s.clock, w.version(s.stored.value.terms))))
  {
    var call := Call(Approve, Some(who));
    var s0 := tr[|tr| - 1];
    var s1 := s0.(procs := s0.procs[p := Proc(call, Begun)]);
    var s2 := AfterRead(w, s1, p);
    var s3 := AfterSignCheck(w, s2, p);
    var s4 := AfterSign(s3, p);
    longer := tr + [s1];
    Extends(w, tr, s1, Open(p, call));
    Extends(w, longer, s2, Look(p)); longer := longer + [s2];
    Extends(w, longer, s3, SignCheck(p)); longer := longer + [s3];
    Extends(w, longer, s4, Sign(p)); longer := longer + [s4];
  }

  lemma MayFirst(w: World, terms: Terms, signers: seq<Identity>, at: int, n: nat)
    requires MaySign(w, terms, signers, at) && |signers| == n + 1
    ensures MaySign(w, terms, signers[..n], at)
    ensures Allowed(w.policy, SignedBy(w, terms, signers[..n], at), Some(signers[n]))
    ensures !HasSigned(SignedBy(w, terms, signers[..n], at), NameOf(signers[n]))
    ensures SignedBy(w, terms, signers, at) == Appended(SignedBy(w, terms, signers[..n], at),
      Signature(NameOf(signers[n]), at, w.version(terms)))
  {
    var first := signers[..n];
    forall j: nat | j < n ensures LetThrough(w, terms, first, at, j) {
      assert LetThrough(w, terms, signers, at, j) && first[..j] == signers[..j];
    }
    assert LetThrough(w, terms, signers, at, n) && signers[n] in signers;
    forall sig | sig in SignedBy(w, terms, first, at).signatures ensures sig.user != NameOf(signers[n]) {
      var j: nat :| j < n && sig == SignedBy(w, terms, first, at).signatures[j];
      assert sig.user == NameOf(signers[j]);
    }
  }

  /** Everyone signs, in time, and more signatures are still asked for. */
  lemma {:induction false} AllSign(w: World, terms: Terms, signers: seq<Identity>, at: int) returns (tr: seq<State>)
    requires MaySign(w, terms, signers, at) && !IsExpired(Record(terms, None, []), at)
    requires RequiredOf(Record(terms, None, [])) > |signers|
    ensures Execution(w, tr)
    ensures var s := tr[|tr| - 1];
      && s.runs == [] && s.writer == Written && s.clock == at && (forall p | p in s.procs :: p < |signers|)
      && s.stored == Some(SignedBy(w, terms, signers, at))
    decreases |signers|
  {
    if signers == [] {
      tr := [State(Some(Record(terms, None, [])), map[], [], [], false, {}, Written, at)];
    } else {
      var n: nat := |signers| - 1;
      MayFirst(w, terms, signers, at, n);
      tr := AllSign(w, terms, signers[..n], at);
      tr := OneSignature(w, tr, n, signers[n]);
    }
  }

  /** A later caller finds the record expired and sets out to claim it. */
  lemma FindsExpired(w: World, tr: seq<State>, p: nat, who: Identity) returns (longer: seq<State>)
    requires Execution(w, tr) && Named(who)
    requires var s := tr[|tr| - 1];
      && s.stored.Some? && p !in s.procs && s.writer == Written && IsExpired(s.stored.value, s.clock)
      && RequiredOf(s.stored.value) > 1 && Allowed(w.policy, s.stored.value, Some(who))
    ensures Execution(w, longer)
    ensures var s, t := tr[|tr| - 1], longer[|longer| - 1];
      && t.stored == s.stored && t.runs == s.runs && t.clock == s.clock && p in t.procs
      && t.procs[p] == Proc(Call(Approve, Some(who)), ToClaim(None))
  {
    var call := Call(Approve, Some(who));
    var s0 := tr[|tr| - 1];
    var s1 := s0.(procs := s0.procs[p := Proc(call, Begun)]);
    var s2 := AfterRead(w, s1, p);
    var s3 := AfterSignCheck(w, s2, p);
    longer := tr + [s1];
    Extends(w, tr, s1, Open(p, call));
    Extends(w, longer, s2, Look(p)); longer := longer + [s2];
    Extends(w, longer, s3, SignCheck(p)); longer := longer + [s3];
  }

  /** The terms are replaced before the claim, and nothing compares versions after it. */
  lemma ClaimsReplaced(w: World, tr: seq<State>, p: nat, terms: Terms) returns (longer: seq<State>)
    requires Execution(w, tr) && w.mutable
    requires var s := tr[|tr| - 1];
      && s.stored.Some? && p in s.procs && s.procs[p].stage == ToClaim(None) && s.procs[p].call.decision == Approve
      && !IsExpired(Record(terms, None, []), s.clock)
      && |s.stored.value.signatures| >= RequiredOf(Record(terms, None, []))
    ensures Execution(w, longer)
    ensures var s, t := tr[|tr| - 1], longer[|longer| - 1];
      && |t.runs| == |s.runs| + 1
      && t.runs[|s.runs|].record == Record(terms, None, s.stored.value.signatures)
      && t.runs[|s.runs|].call.decision == Approve
  {
    longer := ReplacedAndTaken(w, tr, p, terms);
    var s5 := longer[|longer| - 1];
    var s6 := AfterGuards(s5, p);
    var s7 := AfterStart(s6, p);
    Extends(w, longer, s6, Pass(p)); longer := longer + [s6];
    Extends(w, longer, s7, Start(p)); longer := longer + [s7];
  }

  lemma ReplacedAndTaken(w: World, tr: seq<State>, p: nat, terms: Terms) returns (longer: seq<State>)
    requires Execution(w, tr) && w.mutable
    requires var s := tr[|tr| - 1]; s.stored.Some? && p in s.procs && s.procs[p].stage == ToClaim(None)
    ensures Execution(w, longer)
    ensures var s, t := tr[|tr| - 1], longer[|longer| - 1];
      var r := Record(terms, None, s.stored.value.signatures);
      && t.runs == s.runs && t.clock == s.clock
      && t.procs == s.procs[p := Proc(s.procs[p].call, Holding(Claim(r, r, None, None, false)))]
  {
    var s3 := tr[|tr| - 1];
    var s4 := s3.(stored := Some(Record(terms, None, s3.stored.value.signatures)));
    var s5 := AfterClaim(s4, p);
    longer := tr + [s4];
    Extends(w, tr, s4, Replace(terms, None));
    Extends(w, longer, s5, Take(p)); longer := longer + [s5];
  }

  /** Signatures short of the threshold of terms that expire, and enough for terms that ask for less. */
  ghost predicate Misleading(
      w: World, signedFor: Terms, replaced: Terms, signers: seq<Identity>, caller: Identity, at: int)
  {
    && w.version(signedFor) != w.version(replaced)
    && signers != [] && MaySign(w, signedFor, signers, at) && Named(caller)
    && Allowed(w.policy, SignedBy(w, signedFor, signers, at), Some(caller))
    && signedFor.expiresAt == Some(at) && !IsExpired(Record(replaced, None, []), at + 1)
    && RequiredOf(Record(replaced, None, [])) <= |signers| < RequiredOf(Record(signedFor, None, []))
  }

  /**
   A store that replaces records in place can get signatures counted for terms nobody signed, under
   any policy that lets people sign: an expired approval is claimed without a version check, so
   replaced terms that no longer expire run on the signatures given for the old ones.
   */
  lemma ReplacedTermsRunOnOldSignatures(
      w: World, signedFor: Terms, replaced: Terms, signers: seq<Identity>, caller: Identity, at: int)
    returns (tr: seq<State>)
    requires w.mutable && Misleading(w, signedFor, replaced, signers, caller, at)
    ensures Execution(w, tr) && |tr[|tr| - 1].runs| == 1
    ensures var run := tr[|tr| - 1].runs[0];
      && run.call.decision.Approve? && run.record.terms == replaced
      && |run.record.signatures| == |signers| && forall sig | sig in run.record.signatures ::
           sig.version == w.version(signedFor) != w.version(replaced)
  {
    tr := AllSign(w, signedFor, signers, at);
    var s := tr[|tr| - 1];
    var t := s.(clock := s.clock + 1);
    Extends(w, tr, t, Tick(1)); tr := tr + [t];
    tr := FindsExpired(w, tr, |signers|, caller);
    tr := ClaimsReplaced(w, tr, |signers|, replaced);
  }

  ghost predicate CurrentThroughout(w: World, tr: seq<State>) {
    forall i: nat | i < |tr| :: forall run | run in tr[i].runs :: AllCurrent(w, run.record)
  }

  /**
   Where such signatures can be given, runs hold only signatures for the record that ran, in every
   execution, exactly when records are never replaced.
   */
  lemma CurrentIffImmutable(
      w: World, signedFor: Terms, replaced: Terms, signers: seq<Identity>, caller: Identity, at: int)
    requires Misleading(w, signedFor, replaced, signers, caller, at)
    ensures (forall tr | Execution(w, tr) :: CurrentThroughout(w, tr)) <==> !w.mutable
  {
    if w.mutable {
      var tr := ReplacedTermsRunOnOldSignatures(w, signedFor, replaced, signers, caller, at);
      var last: nat := |tr| - 1;
      var run := tr[last].runs[0];
      assert run in tr[last].runs && run.record.signatures[0] in run.record.signatures;
      assert !CurrentThroughout(w, tr);
    } else {
      forall tr: seq<State> | Execution(w, tr) ensures CurrentThroughout(w, tr) {
        forall i: nat, run: Run | i < |tr| && run in tr[i].runs ensures AllCurrent(w, run.record) {
          QuorumOnImmutableRecords(w, tr, i, run);
        }
      }
    }
  }
}
