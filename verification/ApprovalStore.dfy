/**
 The in-memory approval store: a map of snapshots whose claim and addSignature run without
 yielding.  Its methods are the single steps the settlement protocol is built on.
 */
module ApprovalStore {
  import opened Base
  import opened Approval

  class InMemoryApprovalStore {
    var records: map<string, Record>

    constructor ()
      ensures records == map[]
    {
      records := map[];
    }

    function Find(id: string): Option<Record>
      reads this
    {
      if id in records then Some(records[id]) else None
    }

    method Save(id: string, approval: Record)
      modifies this
      ensures Find(id) == Some(approval)
      ensures forall other | other != id :: Find(other) == old(Find(other))
    {
      records := records[id := approval];
    }

    method Get(id: string) returns (r: Option<Record>)
      ensures r == Find(id)
    {
      r := if id in records then Some(records[id]) else None;
    }

    method Delete(id: string)
      modifies this
      ensures Find(id).None? && forall other | other != id :: Find(other) == old(Find(other))
    {
      records := records - {id};
    }

    /** Reads and removes in one step: of all the claims of an id, one gets the record. */
    method Claim(id: string) returns (r: Option<Record>)
      modifies this
      ensures r == old(Find(id)) && Find(id).None?
      ensures forall other | other != id :: Find(other) == old(Find(other))
    {
      if id !in records { return None; }
      r := Some(records[id]);
      records := records - {id};
    }

    method AddSignature(id: string, sig: Signature) returns (result: SignatureResult)
      modifies this
      ensures (result, Find(id)) == Approval.AddSignature(old(Find(id)), sig)
      ensures forall other | other != id :: Find(other) == old(Find(other))
    {
      if id !in records { return Absent; }
      var approval := records[id];
      var required := RequiredOf(approval);
      if |approval.signatures| >= required {
        records := records - {id};
        return Complete(approval);
      }
      var signed := Signs(approval.signatures, sig.user);
      if signed { return Duplicate(approval); }
      var updated := approval.(signatures := approval.signatures + [sig]);
      if |updated.signatures| >= required {
        records := records - {id};
        return Complete(updated);
      }
      records := records[id := updated];
      return Pending(updated);
    }

    static method Signs(sigs: seq<Signature>, user: string) returns (found: bool)
      ensures found <==> exists s | s in sigs :: s.user == user
    {
      for i := 0 to |sigs|
        invariant forall k :: 0 <= k < i ==> sigs[k].user != user
      {
        if sigs[i].user == user { return true; }
      }
      found := false;
    }
  }

  /** What the store promises of a signature, whoever else is signing. */
  lemma SignatureContract(stored: Option<Record>, sig: Signature)
    requires stored.Some? ==> DistinctSigners(stored.value.signatures)
    ensures var (result, left) := AddSignature(stored, sig);
      && (result.Absent? <==> stored.None?)
      && (result.Complete? ==> left.None? && |result.record.signatures| >= RequiredOf(result.record))
      && (result.Pending? ==> left == Some(result.record) && |result.record.signatures| < RequiredOf(result.record))
      && (result.Pending? ==> HasSigned(result.record, sig.user))
      && (result.Duplicate? ==> left == stored && HasSigned(result.record, sig.user))
      && (stored.Some? ==>
            DistinctSigners(result.record.signatures) && stored.value.signatures <= result.record.signatures)
  {}
}
