/**
 The policy chain in front of a tool (packages/core/src/providers/local-tool.provider.ts): every
 policy has its say, the strictest answer wins, and one approval carries the strictest terms.
 */
module PolicyChain {
  import opened Base

  datatype Verdict =
    | Allow(note: string)
    | Deny(note: string)
    | RequireApproval(note: string, approvers: Option<real>, ttlSeconds: Option<int>)

  /** One policy, on the call at hand. */
  datatype Policy = Policy(name: string, verdict: Verdict)

  datatype Request = Request(reason: string, required: int, ttlSeconds: Option<int>)

  datatype Setting = Setting(canCollectSignatures: bool, defaultTtl: Option<int>)

  datatype Terms = Terms(required: int, ttlSeconds: Option<int>, reason: string)

  datatype Outcome = Run | Withheld(terms: Terms) | Denied(reason: string)

  predicate Whole(n: real) { n == n.Floor as real && n >= 1.0 }

  function ApproversOf(v: Verdict): real
    requires v.RequireApproval?
  {
    match v.approvers case Some(n) => n case None => 1.0
  }

  /** An approver count the store cannot enforce is a denial. */
  predicate Enforceable(v: Verdict, s: Setting)
    requires v.RequireApproval?
  {
    Whole(ApproversOf(v)) && (ApproversOf(v) > 1.0 ==> s.canCollectSignatures)
  }

  predicate Denies(v: Verdict, s: Setting) { v.Deny? || (v.RequireApproval? && !Enforceable(v, s)) }

  predicate Withholds(v: Verdict, s: Setting) { v.RequireApproval? && Enforceable(v, s) }

  function Required(v: Verdict): int
    requires v.RequireApproval?
  {
    ApproversOf(v).Floor
  }

  function Lifetime(v: Verdict, s: Setting): Option<int>
    requires v.RequireApproval?
  {
    if v.ttlSeconds.Some? then v.ttlSeconds else s.defaultTtl
  }

  /* ------------------------------------------------------------ strictness, order aside */

  predicate AnyDenies(policies: seq<Policy>, s: Setting) { exists p | p in policies :: Denies(p.verdict, s) }

  predicate AnyWithholds(policies: seq<Policy>, s: Setting) { exists p | p in policies :: Withholds(p.verdict, s) }

  /** How strict an outcome is. */
  function Rank(o: Outcome): nat { match o case Run => 0 case Withheld(_) => 1 case Denied(_) => 2 }

  function Strictest(policies: seq<Policy>, s: Setting): nat {
    if AnyDenies(policies, s) then 2 else if AnyWithholds(policies, s) then 1 else 0
  }

  /** The approver count asked for by some policy, and no less than any asks for. */
  ghost predicate IsMostApprovers(n: int, policies: seq<Policy>, s: Setting) {
    && (exists p | p in policies :: Withholds(p.verdict, s) && Required(p.verdict) == n)
    && forall p | p in policies && Withholds(p.verdict, s) :: Required(p.verdict) <= n
  }

  /** The shortest lifetime any policy asks for or inherits; none only when none does. */
  ghost predicate IsShortestLifetime(ttl: Option<int>, policies: seq<Policy>, s: Setting) {
    match ttl
    case None => forall p | p in policies && Withholds(p.verdict, s) :: Lifetime(p.verdict, s).None?
    case Some(t) =>
      && (exists p | p in policies :: Withholds(p.verdict, s) && Lifetime(p.verdict, s) == Some(t))
      && forall p | p in policies && Withholds(p.verdict, s) ::
           Lifetime(p.verdict, s).Some? ==> t <= Lifetime(p.verdict, s).value
  }

  /** The outcome is as strict as the strictest policy, on the strictest terms. */
  ghost predicate Governs(o: Outcome, policies: seq<Policy>, s: Setting) {
    && Rank(o) == Strictest(policies, s)
    && (o.Withheld? ==>
          IsMostApprovers(o.terms.required, policies, s) && IsShortestLifetime(o.terms.ttlSeconds, policies, s))
  }

  /* --------------------------------------------------------------------- the tool call */

  class ToolCall {
    const setting: Setting
    var saved: seq<Terms>
    var invoked: nat

    constructor (setting: Setting)
      ensures this.setting == setting && saved == [] && invoked == 0
    {
      this.setting, saved, invoked := setting, [], 0;
    }

    /** `execute`, on a call without an idempotency hit. */
    method Execute(policies: seq<Policy>) returns (o: Outcome)
      modifies this
      ensures Governs(o, policies, setting)
      ensures saved == if o.Withheld? then old(saved) + [o.terms] else old(saved)
      ensures invoked == old(invoked) + if o.Run? then 1 else 0
    {
      var requests: seq<Request> := [];
      for i := 0 to |policies|
        invariant !AnyDenies(policies[..i], setting) && saved == old(saved) && invoked == old(invoked)
        invariant requests == Gather(policies[..i], setting)
      {
        var v := policies[i].verdict;
        assert policies[..i + 1] == policies[..i] + [policies[i]] && policies[i] in policies;
        GatherNext(policies[..i], policies[i], setting);
        match v {
          case Allow(_) =>
          case Deny(note) => return Denied(note);
          case RequireApproval(note, approvers, ttl) =>
            if !Whole(ApproversOf(v)) || (ApproversOf(v) > 1.0 && !setting.canCollectSignatures) {
              return Denied("Approval cannot be requested.");
            }
            requests := requests + [Request(note, ApproversOf(v).Floor, ttl)];
        }
      }
      assert policies[..|policies|] == policies;
      if requests != [] {
        GatheredFrom(policies, setting, requests[0]);
        var terms := RequestApproval(requests);
        MostOf(policies, terms.required);
        ShortestOf(policies, terms.ttlSeconds);
        saved := saved + [terms];
        return Withheld(terms);
      }
      forall p | p in policies ensures !Withholds(p.verdict, setting) {
        if Withholds(p.verdict, setting) { GatherHas(policies, p, setting); }
      }
      invoked := invoked + 1;
      o := Run;
    }

    /** The strictest terms of the requests: most approvers, shortest lifetime. */
    method RequestApproval(requests: seq<Request>) returns (terms: Terms)
      requires requests != []
      ensures MostRequired(requests, terms.required) && ShortestTtl(requests, terms.ttlSeconds)
    {
      var required, ttl: Option<int>, reason := requests[0].required, None, "";
      assert requests[0] in requests;
      for i := 0 to |requests|
        invariant exists r | r in requests :: r.required == required
        invariant forall k :: 0 <= k < i ==> requests[k].required <= required
        invariant ttl.Some? ==> exists r | r in requests :: TtlOf(r) == ttl
        invariant forall k :: 0 <= k < i && TtlOf(requests[k]).Some? ==>
          ttl.Some? && ttl.value <= TtlOf(requests[k]).value
      {
        assert requests[i] in requests;
        if requests[i].required > required { required := requests[i].required; }
        var own := TtlOf(requests[i]);
        if own.Some? && (ttl.None? || own.value < ttl.value) { ttl := own; }
        if !Mentioned(requests[..i], requests[i].reason) {
          reason := if i == 0 then requests[i].reason else reason + " " + requests[i].reason;
        }
      }
      terms := Terms(required, ttl, reason);
    }

    ghost predicate MostRequired(requests: seq<Request>, n: int) {
      && (exists r | r in requests :: r.required == n)
      && forall r | r in requests :: r.required <= n
    }

    ghost predicate ShortestTtl(requests: seq<Request>, ttl: Option<int>) {
      && (ttl.Some? ==> exists r | r in requests :: TtlOf(r) == ttl)
      && forall r | r in requests :: TtlOf(r).Some? ==> ttl.Some? && ttl.value <= TtlOf(r).value
    }

    function TtlOf(r: Request): Option<int> { if r.ttlSeconds.Some? then r.ttlSeconds else setting.defaultTtl }

    lemma MostOf(policies: seq<Policy>, n: int)
      requires MostRequired(Gather(policies, setting), n)
      ensures IsMostApprovers(n, policies, setting)
    {
      var r :| r in Gather(policies, setting) && r.required == n;
      GatheredFrom(policies, setting, r);
      forall p | p in policies && Withholds(p.verdict, setting) ensures Required(p.verdict) <= n {
        GatherHas(policies, p, setting);
      }
    }

    lemma ShortestOf(policies: seq<Policy>, ttl: Option<int>)
      requires ShortestTtl(Gather(policies, setting), ttl)
      ensures IsShortestLifetime(ttl, policies, setting)
    {
      if ttl.Some? {
        var r :| r in Gather(policies, setting) && TtlOf(r) == ttl;
        GatheredFrom(policies, setting, r);
      }
      forall p | p in policies && Withholds(p.verdict, setting) && Lifetime(p.verdict, setting).Some?
        ensures ttl.Some? && ttl.value <= Lifetime(p.verdict, setting).value
      {
        GatherHas(policies, p, setting);
        assert TtlOf(AsRequest(p.verdict)) == Lifetime(p.verdict, setting);
      }
    }
  }

  function AsRequest(v: Verdict): Request
    requires v.RequireApproval?
  {
    Request(v.note, Required(v), v.ttlSeconds)
  }

  /** The requests of the policies that ask for an approval that can be had. */
  function Gather(policies: seq<Policy>, s: Setting): seq<Request> {
    if policies == [] then []
    else (if Withholds(policies[0].verdict, s) then [AsRequest(policies[0].verdict)] else []) + Gather(policies[1..], s)
  }

  lemma {:induction false} GatherNext(policies: seq<Policy>, p: Policy, s: Setting)
    ensures Gather(policies + [p], s)
      == Gather(policies, s) + if Withholds(p.verdict, s) then [AsRequest(p.verdict)] else []
  {
    if policies == [] {
      assert policies + [p] == [p] && [p][1..] == [];
    } else {
      assert (policies + [p])[1..] == policies[1..] + [p];
      GatherNext(policies[1..], p, s);
    }
  }

  lemma {:induction false} GatherHas(policies: seq<Policy>, p: Policy, s: Setting)
    requires p in policies && Withholds(p.verdict, s)
    ensures AsRequest(p.verdict) in Gather(policies, s)
  {
    if p != policies[0] { GatherHas(policies[1..], p, s); }
  }

  lemma {:induction false} GatheredFrom(policies: seq<Policy>, s: Setting, r: Request)
    requires r in Gather(policies, s)
    ensures exists p | p in policies :: Withholds(p.verdict, s) && AsRequest(p.verdict) == r
  {
    if !(Withholds(policies[0].verdict, s) && AsRequest(policies[0].verdict) == r) {
      GatheredFrom(policies[1..], s, r);
    }
  }

  function Mentioned(requests: seq<Request>, reason: string): bool { exists r | r in requests :: r.reason == reason }

  /* ------------------------------------------------------------------------ consequences */

  /** Any two outcomes the chain may give agree in strictness and terms. */
  lemma GovernsOnce(a: Outcome, b: Outcome, policies: seq<Policy>, s: Setting)
    requires Governs(a, policies, s) && Governs(b, policies, s)
    ensures Rank(a) == Rank(b)
    ensures a.Withheld? && b.Withheld? ==>
      a.terms.required == b.terms.required && a.terms.ttlSeconds == b.terms.ttlSeconds
  {
    if a.Withheld? && b.Withheld? {
      SameShortest(a.terms.ttlSeconds, b.terms.ttlSeconds, policies, s);
      SameShortest(b.terms.ttlSeconds, a.terms.ttlSeconds, policies, s);
    }
  }

  lemma SameShortest(a: Option<int>, b: Option<int>, policies: seq<Policy>, s: Setting)
    requires IsShortestLifetime(a, policies, s) && IsShortestLifetime(b, policies, s)
    ensures a.Some? ==> b.Some? && b.value <= a.value
  {}

  /** The order of the policies does not matter. */
  lemma OrderDoesNotMatter(p: seq<Policy>, q: seq<Policy>, a: Outcome, b: Outcome, s: Setting)
    requires multiset(p) == multiset(q) && Governs(a, p, s) && Governs(b, q, s)
    ensures Rank(a) == Rank(b)
    ensures a.Withheld? && b.Withheld? ==>
      a.terms.required == b.terms.required && a.terms.ttlSeconds == b.terms.ttlSeconds
  {
    SameMembers(p, q);
    assert AnyDenies(p, s) == AnyDenies(q, s) && AnyWithholds(p, s) == AnyWithholds(q, s);
    assert Governs(b, p, s);
    GovernsOnce(a, b, p, s);
  }

  lemma SameMembers(p: seq<Policy>, q: seq<Policy>)
    requires multiset(p) == multiset(q)
    ensures forall x :: x in p <==> x in q
  {
    forall x ensures x in p <==> x in q {
      assert x in p <==> x in multiset(p);
      assert x in q <==> x in multiset(q);
    }
  }

  /** More policies are never more lenient, in class or in terms. */
  lemma AddingNeverLoosens(p: seq<Policy>, more: seq<Policy>, a: Outcome, b: Outcome, s: Setting)
    requires Governs(a, p, s) && Governs(b, p + more, s)
    ensures Rank(a) <= Rank(b)
    ensures a.Withheld? && b.Withheld? ==> a.terms.required <= b.terms.required
    ensures a.Withheld? && b.Withheld? && a.terms.ttlSeconds.Some? ==>
      b.terms.ttlSeconds.Some? && b.terms.ttlSeconds.value <= a.terms.ttlSeconds.value
  {}

  /** The tool runs only when every policy allows it. */
  lemma RunsOnlyIfAllAllow(o: Outcome, policies: seq<Policy>, s: Setting)
    requires Governs(o, policies, s)
    ensures o.Run? <==> forall p | p in policies :: p.verdict.Allow?
  {}
}
