/**
 Settling one approval (packages/core/src/services/approval.service.ts): any number of approve
 and reject calls, each a small program that gives way to the others wherever the service awaits.
 One step is what runs between two awaits; the store's claim and addSignature are single steps.
 */
module Approval {
  import opened Base
  import opened JsonText

  /* ------------------------------------------------------------------- records */

  datatype Identity = Identity(userId: Option<string>, tenantId: Option<string>)

  /** What is decided about: the whole record but its signatures and the resume checkpoint. */
  datatype Terms = Terms(
    content: Json, security: Identity, requestedBy: Option<Identity>,
    expiresAt: Option<int>, requiredApprovals: Option<int>)

  datatype Signature = Signature(user: string, signedAt: int, version: string)

  datatype Record = Record(terms: Terms, checkpoint: Option<Json>, signatures: seq<Signature>)

  function RequiredOf(r: Record): int {
    match r.terms.requiredApprovals case Some(n) => n case None => 1
  }

  predicate IsExpired(r: Record, now: int) {
    r.terms.expiresAt.Some? && now > r.terms.expiresAt.value
  }

  predicate HasSigned(r: Record, user: string) { exists s | s in r.signatures :: s.user == user }

  predicate DistinctSigners(sigs: seq<Signature>) {
    forall i, j :: 0 <= i < j < |sigs| ==> sigs[i].user != sigs[j].user
  }

  /* ---------------------------------------------------------- versions of a record */

  function IdentityJson(who: Identity): Json {
    Obj((match who.userId case Some(u) => [Field("userId", Str(u))] case None => [])
      + match who.tenantId case Some(t) => [Field("tenantId", Str(t))] case None => [])
  }

  /** The record as `approvalVersion` serializes it: no signatures, no checkpoint. */
  function DecidedFields(t: Terms): seq<Field> {
    [Field("content", t.content), Field("context", IdentityJson(t.security))]
    + (match t.requestedBy case Some(who) => [Field("requestedBy", IdentityJson(who))] case None => [])
    + (match t.expiresAt case Some(at) => [Field("expiresAt", Num(at as real))] case None => [])
    + match t.requiredApprovals case Some(n) => [Field("requiredApprovals", Num(n as real))] case None => []
  }

  /** The record as `fingerprint` serializes it: no signatures. */
  function FingerprintFields(r: Record): seq<Field> {
    DecidedFields(r.terms) + match r.checkpoint case Some(c) => [Field("checkpoint", c)] case None => []
  }

  /* ------------------------------------------------------------------ authorization */

  datatype Policy = Policy(
    enforceTenantIsolation: bool, enforceSeparationOfDuties: bool, requireAuthorizer: bool,
    authorizer: Option<(Record, Option<Identity>) -> bool>)

  predicate Governed(policy: Policy) {
    || policy.authorizer.Some? || policy.enforceSeparationOfDuties
    || policy.enforceTenantIsolation || policy.requireAuthorizer
  }

  function TenantOf(actor: Option<Identity>): Option<string> {
    match actor case Some(a) => a.tenantId case None => None
  }

  function UserOf(actor: Option<Identity>): Option<string> {
    match actor case Some(a) => a.userId case None => None
  }

  predicate TenantsMatch(r: Record, actor: Option<Identity>) {
    r.terms.security.tenantId.Some? && TenantOf(actor) == r.terms.security.tenantId
  }

  /** Who asked for the action, as far as the record tells. */
  function Requester(r: Record): Identity {
    match r.terms.requestedBy case Some(who) => who case None => r.terms.security
  }

  /** The approver is the requester, as far as anyone can show. */
  predicate Conflict(r: Record, actor: Option<Identity>) {
    var requester := Requester(r);
    var tenant := if requester.tenantId.Some? then requester.tenantId else r.terms.security.tenantId;
    var elsewhere := tenant.Some? && TenantOf(actor).Some? && tenant != TenantOf(actor);
    requester.userId.Some? && UserOf(actor).Some? && requester.userId == UserOf(actor) && !elsewhere
  }

  /** `checkAuthorization` finds nothing against the settlement. */
  predicate Allowed(policy: Policy, r: Record, actor: Option<Identity>) {
    && (policy.enforceTenantIsolation ==> TenantsMatch(r, actor))
    && (policy.enforceSeparationOfDuties ==> !Conflict(r, actor))
    && match policy.authorizer case Some(may) => may(r, actor) case None => !policy.requireAuthorizer
  }

  /* ---------------------------------------------------------------------- the store */

  datatype SignatureResult =
    | Absent
    | Duplicate(record: Record)
    | Pending(record: Record)
    | Complete(record: Record)

  function Appended(r: Record, sig: Signature): Record { r.(signatures := r.signatures + [sig]) }

  /** `addSignature` as one atomic step: what it answers and what it leaves stored. */
  function AddSignature(stored: Option<Record>, sig: Signature): (SignatureResult, Option<Record>) {
    match stored
    case None => (Absent, None)
    case Some(r) =>
      if |r.signatures| >= RequiredOf(r) then (Complete(r), None)
      else if HasSigned(r, sig.user) then (Duplicate(r), stored)
      else if |r.signatures| + 1 >= RequiredOf(r) then (Complete(Appended(r, sig)), None)
      else (Pending(Appended(r, sig)), Some(Appended(r, sig)))
  }

  /* ---------------------------------------------------------------------- the calls */

  datatype Decision = Approve | Reject

  datatype Call = Call(decision: Decision, actor: Option<Identity>)

  /** A record taken out of the store, and what goes back when it is not applied. */
  datatype Claim = Claim(
    record: Record, restore: Record,
    authorized: Option<string>,     // fingerprint a single approver was authorized against
    own: Option<Signature>,         // the signature this call appended
    signed: bool)                   // taken by completing the signatures

  datatype Stage =
    | Begun
    | Checking(seen: Record)
    | SignChecking(seen: Record)
    | ToClaim(authorized: Option<string>)
    | ToSign(seen: Record, sig: Signature)
    | Holding(claim: Claim)
    | Cleared(claim: Claim)
    | Expiring(record: Record)
    | Running(record: Record)
    | Settling(record: Record, failed: bool)
    | Ended

  datatype Proc = Proc(call: Call, stage: Stage)

  datatype Event =
    | Denied(who: Option<string>)
    | Signed(user: string)
    | Expired(record: Record)
    | Settled(record: Record)
    | Failed(record: Record)

  /** The withheld tool call carried out or turned down, on the record as it stood. */
  datatype Run = Run(record: Record, call: Call, authorized: Option<string>, signed: bool)

  /** The authorization checks let this actor settle the record as it was read. */
  datatype Grant = Grant(actor: Option<Identity>, seen: Record)

  /** The runtime attaching the resume checkpoint: it reads the record, then saves it back. */
  datatype Writer = Waiting | Read(record: Record) | Written

  datatype State = State(
    stored: Option<Record>, procs: map<nat, Proc>, audit: seq<Event>, runs: seq<Run>,
    consumed: bool, grants: set<Grant>, writer: Writer, clock: int)

  /**
   The deployment: its policy, how versions are told apart, and whether approval ids are handed
   out before the checkpoint is attached (`streamed`) and records are replaced in place (`mutable`).
   */
  datatype World = World(
    policy: Policy, version: Terms -> string, fingerprint: Record -> string, streamed: bool, mutable: bool)

  predicate Init(w: World, s: State) {
    && s.stored.Some? && s.stored.value.signatures == []
    && s.procs == map[] && s.audit == [] && s.runs == [] && s.grants == {} && !s.consumed
    && (s.writer == Waiting || s.writer == Written)
  }

  function Put(s: State, p: nat, stage: Stage): State
    requires p in s.procs
  {
    s.(procs := s.procs[p := s.procs[p].(stage := stage)])
  }

  function Deny(s: State, p: nat): State
    requires p in s.procs
  {
    Put(s, p, Ended).(audit := s.audit + [Denied(UserOf(s.procs[p].call.actor))])
  }

  /** `settle` up to its first await after reading the record, if it reads it at all. */
  function AfterRead(w: World, s: State, p: nat): State
    requires p in s.procs
  {
    var call := s.procs[p].call;
    if !Governed(w.policy) && call.decision.Reject? then Put(s, p, ToClaim(None))
    else
      match s.stored
      case None => Put(s, p, Ended)
      case Some(r) =>
        if call.decision.Approve? && RequiredOf(r) > 1 then
          if UserOf(call.actor).None? || UserOf(call.actor) == Some("") then Deny(s, p) else Put(s, p, SignChecking(r))
        else if Governed(w.policy) then Put(s, p, Checking(r))
        else Put(s, p, ToClaim(None))
  }

  function Noted(s: State, actor: Option<Identity>, seen: Record): State {
    s.(grants := s.grants + {Grant(actor, seen)})
  }

  function AfterCheck(w: World, s: State, p: nat): State
    requires p in s.procs && s.procs[p].stage.Checking?
  {
    var seen, actor := s.procs[p].stage.seen, s.procs[p].call.actor;
    if !Allowed(w.policy, seen, actor) then Deny(s, p)
    else Put(Noted(s, actor, seen), p, ToClaim(Some(w.fingerprint(seen))))
  }

  /** `sign` after the authorizer answered: an expired approval is claimed, any other signed. */
  function AfterSignCheck(w: World, s: State, p: nat): State
    requires p in s.procs && s.procs[p].stage.SignChecking?
  {
    var seen, actor := s.procs[p].stage.seen, s.procs[p].call.actor;
    if !Allowed(w.policy, seen, actor) || UserOf(actor).None? then Deny(s, p)
    else
      var granted := Noted(s, actor, seen);
      if IsExpired(seen, s.clock) then Put(granted, p, ToClaim(None))
      else Put(granted, p, ToSign(seen, Signature(UserOf(actor).value, s.clock, w.version(seen.terms))))
  }

  function AfterClaim(s: State, p: nat): State
    requires p in s.procs && s.procs[p].stage.ToClaim?
  {
    match s.stored
    case None => Put(s, p, Ended)
    case Some(r) => Put(s, p, Holding(Claim(r, r, s.procs[p].stage.authorized, None, false))).(stored := None)
  }

  function FindOwn(sigs: seq<Signature>, sig: Signature): Option<Signature> {
    if sigs == [] then None
    else if sigs[0].user == sig.user && sigs[0].signedAt == sig.signedAt then Some(sigs[0])
    else FindOwn(sigs[1..], sig)
  }

  function Dropping(sigs: seq<Signature>, own: Option<Signature>): (r: seq<Signature>) {
    if sigs == [] then []
    else if Some(sigs[0]) == own then Dropping(sigs[1..], own)
    else [sigs[0]] + Dropping(sigs[1..], own)
  }

  function SignedEvents(own: Option<Signature>): seq<Event> {
    match own case Some(sig) => [Signed(sig.user)] case None => []
  }

  function AfterSign(s: State, p: nat): State
    requires p in s.procs && s.procs[p].stage.ToSign?
  {
    var sig := s.procs[p].stage.sig;
    var (result, stored') := AddSignature(s.stored, sig);
    match result
    case Absent => Put(s, p, Ended)
    case Duplicate(_) => Deny(s, p)
    case Pending(r) =>
      Put(s, p, Ended).(stored := stored', audit := s.audit + SignedEvents(FindOwn(r.signatures, sig)))
    case Complete(r) =>
      var own := FindOwn(r.signatures, sig);
      Put(s, p, Holding(Claim(r, r.(signatures := Dropping(r.signatures, own)), None, own, true))).(stored := stored')
  }

  /** Signatures given for the record as it now stands. */
  function Current(w: World, r: Record, sigs: seq<Signature>): (out: seq<Signature>) {
    if sigs == [] then []
    else if sigs[0].version == w.version(r.terms) then [sigs[0]] + Current(w, r, sigs[1..])
    else Current(w, r, sigs[1..])
  }

  predicate Stale(w: World, c: Claim) {
    c.signed && exists sig | sig in c.record.signatures :: sig.version != w.version(c.record.terms)
  }

  predicate Changed(w: World, c: Claim) { c.authorized.Some? && c.authorized.value != w.fingerprint(c.record) }

  predicate TooFew(c: Claim, call: Call) {
    call.decision.Approve? && RequiredOf(c.record) > 1 && |c.record.signatures| < RequiredOf(c.record)
  }

  datatype Reason = Cancelled | StaleSignatures | ChangedRecord | MissingSignatures

  /** When a call that holds the record gives it up; cancellation may come at any moment. */
  predicate GivesUp(w: World, c: Claim, call: Call, now: int, why: Reason) {
    match why
    case Cancelled => true
    case StaleSignatures => Stale(w, c)
    case ChangedRecord => !Stale(w, c) && Changed(w, c)
    case MissingSignatures => !Stale(w, c) && !Changed(w, c) && !IsExpired(c.record, now) && TooFew(c, call)
  }

  /** What is put back. */
  function Restored(w: World, c: Claim, why: Reason): Record {
    if why.StaleSignatures? then c.record.(signatures := Dropping(Current(w, c.record, c.record.signatures), c.own))
    else c.restore
  }

  function AfterGivingUp(w: World, s: State, p: nat, why: Reason, saved: bool): State
    requires p in s.procs && s.procs[p].stage.Holding?
  {
    var ended := if why.Cancelled? then Put(s, p, Ended) else Deny(s, p);
    if saved then ended.(stored := Some(Restored(w, s.procs[p].stage.claim, why))) else ended.(consumed := true)
  }

  /** The guards of `applyClaimed` pass, or find the record expired. */
  function AfterGuards(s: State, p: nat): State
    requires p in s.procs && s.procs[p].stage.Holding?
  {
    var c := s.procs[p].stage.claim;
    if IsExpired(c.record, s.clock) then Put(s, p, Expiring(c.record)).(consumed := true)
    else Put(s, p, Cleared(c))
  }

  function AfterStart(s: State, p: nat): State
    requires p in s.procs && s.procs[p].stage.Cleared?
  {
    var c, call := s.procs[p].stage.claim, s.procs[p].call;
    Put(s, p, Running(c.record)).(
      consumed := true, audit := s.audit + SignedEvents(c.own),
      runs := s.runs + [Run(c.record, call, c.authorized, c.signed)])
  }

  function AfterRecording(s: State, p: nat): State
    requires p in s.procs && (s.procs[p].stage.Settling? || s.procs[p].stage.Expiring?)
  {
    var event := match s.procs[p].stage
      case Settling(r, failed) => if failed then Failed(r) else Settled(r)
      case stage => Expired(stage.record);
    Put(s, p, Ended).(audit := s.audit + [event])
  }

  predicate Holds(stage: Stage) { stage.Holding? || stage.Cleared? }

  datatype Action =
    | Open(p: nat, call: Call)
    | Look(p: nat)
    | Check(p: nat)
    | SignCheck(p: nat)
    | Take(p: nat)
    | Sign(p: nat)
    | SignThenCrash(p: nat)
    | Cancel(p: nat)
    | GiveUp(p: nat, why: Reason, saved: bool)
    | Pass(p: nat)
    | Start(p: nat)
    | Finish(p: nat, failed: bool)
    | RecordEnd(p: nat)
    | Die(p: nat)
    | Tick(elapsed: nat)
    | Replace(terms: Terms, checkpoint: Option<Json>)
    | Fetch
    | Attach(snapshot: Json)

  predicate At(s: State, p: nat) { p in s.procs }

  /** One step of one participant. */
  predicate Step(w: World, s: State, t: State, a: Action) {
    match a
    case Open(p, call) =>
      && p !in s.procs && (w.streamed || s.writer == Written)
      && t == s.(procs := s.procs[p := Proc(call, Begun)])
    case Look(p) => At(s, p) && s.procs[p].stage.Begun? && t == AfterRead(w, s, p)
    case Check(p) => At(s, p) && s.procs[p].stage.Checking? && t == AfterCheck(w, s, p)
    case SignCheck(p) => At(s, p) && s.procs[p].stage.SignChecking? && t == AfterSignCheck(w, s, p)
    case Take(p) => At(s, p) && s.procs[p].stage.ToClaim? && t == AfterClaim(s, p)
    case Sign(p) => At(s, p) && s.procs[p].stage.ToSign? && t == AfterSign(s, p)
    case SignThenCrash(p) =>
      // The store appends the signature and stops before it removes the record.
      && At(s, p) && s.procs[p].stage.ToSign? && s.stored.Some?
      && |s.stored.value.signatures| < RequiredOf(s.stored.value)
      && !HasSigned(s.stored.value, s.procs[p].stage.sig.user)
      && t == Put(s, p, Ended).(stored := Some(Appended(s.stored.value, s.procs[p].stage.sig)))
    case Cancel(p) =>
      && At(s, p) && (s.procs[p].stage.Begun? || s.procs[p].stage.ToClaim? || s.procs[p].stage.ToSign?)
      && t == Put(s, p, Ended)
    case GiveUp(p, why, saved) =>
      && At(s, p) && s.procs[p].stage.Holding? && GivesUp(w, s.procs[p].stage.claim, s.procs[p].call, s.clock, why)
      && t == AfterGivingUp(w, s, p, why, saved)
    case Pass(p) =>
      && At(s, p) && s.procs[p].stage.Holding?
      && !Stale(w, s.procs[p].stage.claim) && !Changed(w, s.procs[p].stage.claim)
      && (IsExpired(s.procs[p].stage.claim.record, s.clock) || !TooFew(s.procs[p].stage.claim, s.procs[p].call))
      && t == AfterGuards(s, p)
    case Start(p) => At(s, p) && s.procs[p].stage.Cleared? && t == AfterStart(s, p)
    case Finish(p, failed) =>
      At(s, p) && s.procs[p].stage.Running? && t == Put(s, p, Settling(s.procs[p].stage.record, failed))
    case RecordEnd(p) =>
      At(s, p) && (s.procs[p].stage.Settling? || s.procs[p].stage.Expiring?) && t == AfterRecording(s, p)
    case Die(p) =>
      At(s, p) && t == Put(s, p, Ended).(consumed := s.consumed || Holds(s.procs[p].stage))
    case Tick(n) => t == s.(clock := s.clock + n)
    case Replace(terms, checkpoint) =>
      w.mutable && s.stored.Some? && t == s.(stored := Some(Record(terms, checkpoint, s.stored.value.signatures)))
    case Fetch =>
      && s.writer == Waiting
      && t == s.(writer := match s.stored case Some(r) => Read(r) case None => Written)
    case Attach(c) =>
      && s.writer.Read?
      && t == s.(stored := Some(s.writer.record.(checkpoint := Some(c))), writer := Written)
  }

  ghost predicate Next(w: World, s: State, t: State) { exists a :: Step(w, s, t, a) }

  /** A run of the whole system. */
  ghost predicate Execution(w: World, tr: seq<State>) {
    && tr != [] && Init(w, tr[0])
    && forall i :: 0 <= i < |tr| - 1 ==> Next(w, tr[i], tr[i + 1])
  }
}
