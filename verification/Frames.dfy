/** Steps that leave the ledger alone, and clearing, keep the tables sound. */
module Frames {
  import opened Wrappers
  import opened Texts
  import opened Ledger
  import opened Tables
  import opened Invariants
  import opened Refinement
  import opened Registry

  predicate SameLedgerRows(t: Tables, t2: Tables) {
    && t2.items == t.items && t2.sources == t.sources && t2.requirements == t.requirements
    && t2.evidence == t.evidence && t2.transitions == t.transitions
  }

  lemma SameRowsSameEvidence(t: Tables, t2: Tables)
    requires SameLedgerRows(t, t2) && FinalEvidence(t)
    ensures FinalEvidence(t2)
  {
    forall id | id in t2.items
      ensures FinalEvidenceOf(t2, id)
    {
      assert FinalEvidenceOf(t, id) && FinalIds(t2, id) == FinalIds(t, id);
      forall i | t.items[id].state.Terminal? && 0 <= i < |t.items[id].state.evidence|
        ensures Witnessed(t2, id, t.items[id].state.evidence[i])
      {
        assert Witnessed(t, id, t.items[id].state.evidence[i]);
      }
    }
  }

  lemma SameRowsSameReferences(t: Tables, t2: Tables)
    requires SameLedgerRows(t, t2) && References(t)
    ensures References(t2)
  {
    forall id, phase | id in t2.items
      ensures ReferenceOf(t2, id, phase)
    {
      assert ReferenceOf(t, id, phase);
    }
  }

  lemma SameRowsSamePaths(t: Tables, t2: Tables)
    requires SameLedgerRows(t, t2) && Paths(t)
    ensures Paths(t2)
  {
    forall id | id in t2.items
      ensures HasPath(t2, id)
    {
      assert HasPath(t, id);
    }
  }

  /** Leases and requests do not matter to the ledger. */
  lemma LedgerFrame(t: Tables, t2: Tables)
    requires SameLedgerRows(t, t2) && LedgerSound(t)
    ensures LedgerSound(t2)
  {
    hide FinalEvidence, Paths, References, Numbered, NumberedRequirement, EvidenceId, ItemSafe, SourceSafe;
    SameRowsSameReferences(t, t2);
    SameRowsSameEvidence(t, t2);
    SameRowsSamePaths(t, t2);
  }

  lemma LedgerRepresented(t: Tables, t2: Tables, project: Text, st: Backlog)
    requires SameLedgerRows(t, t2) && Represents(t, project, st)
    ensures Represents(t2, project, st)
  {
  }

  lemma SeatsKept(t: Tables, t2: Tables)
    requires SeatRows(t) && t2.leases == t.leases
    ensures SeatRows(t2)
  {
  }

  lemma RequestNames(t: Tables)
    requires Sound(t)
    ensures forall id :: id in t.requests ==> t.requests[id].id == id
  {
    hide LedgerSound, SeatRows;
  }

  lemma LedgerRowsKept(t: Tables, r: Request)
    ensures SameLedgerRows(t, WithRequest(t, r)) && SameLedgerRows(WithRequest(t, r), t)
    ensures Loadable(WithRequest(t, r), r.project) == Loadable(t, r.project)
  {
  }

  // ----- leases -----

  lemma FoundLease(t: Tables, id: Uuid)
    requires SeatRows(t) && LeaseById(t, id).Some?
    ensures var lease := LeaseById(t, id).value;
            SeatOf(lease) in t.leases && t.leases[SeatOf(lease)] == lease && lease.id == id
            && forall seat :: seat in t.leases && t.leases[seat].id == id ==> seat == SeatOf(lease)
  {
  }

  /** Updating a found lease in place keeps one row per seat and one lease per identifier. */
  lemma UpdatedLeaseKeepsSeats(t: Tables, id: Uuid, lease: Lease)
    requires SeatRows(t) && LeaseById(t, id).Some?
    requires var found := LeaseById(t, id).value;
             lease.id == id && SeatOf(lease) == SeatOf(found) && lease.owner == found.owner
    ensures SeatRows(WithLease(t, lease))
  {
    hide SafeText;
    FoundLease(t, id);
  }

  lemma PruneKeepsSeats(t: Tables, now: int)
    requires SeatRows(t)
    ensures SeatRows(t.(leases := Prune(t.leases, now)))
  {
    hide SafeText;
  }

  lemma AddedLeaseKeepsSeats(t: Tables, lease: Lease)
    requires SeatRows(t) && SafeText(lease.owner.id, 128) && !HasLease(t, lease.id)
    ensures SeatRows(WithLease(t, lease))
  {
    hide SafeText;
  }

  lemma ClaimKeepsSeats(
    t: Tables, newId: Uuid, agent: Agent, project: Text, role: Text, mode: LeaseMode, policy: Text, now: int, ttl: int)
    requires SeatRows(t) && ClaimStep(t, newId, agent, project, role, mode, policy, now, ttl).Ok?
    ensures SeatRows(ClaimStep(t, newId, agent, project, role, mode, policy, now, ttl).value.0)
  {
    hide SafeText, RoleName, SeatRows, Prune, HasLease, BoundedText;
    PruneKeepsSeats(t, now);
    var (t2, outcome) := ClaimStep(t, newId, agent, project, role, mode, policy, now, ttl).value;
    if outcome.ClaimedLease? {
      AddedLeaseKeepsSeats(t.(leases := Prune(t.leases, now)), outcome.lease);
    }
  }

  // ----- clearing -----

  lemma {:induction false} KeptTrail(t: Tables, keep: Text -> bool, records: seq<TransitionRecord>, id: Text)
    requires Kept(t, keep, id)
    ensures Trail(KeptTransitions(t, keep, records), id) == Trail(records, id)
  {
    if records != [] {
      var front, last := records[..|records| - 1], records[|records| - 1];
      KeptTrail(t, keep, front, id);
      var kept := KeptTransitions(t, keep, front);
      if Kept(t, keep, last.itemId) {
        assert (kept + [last])[..|kept|] == kept;
      } else {
        assert KeptTransitions(t, keep, records) == kept;
      }
    }
  }

  lemma {:induction false} KeptAreThere(t: Tables, keep: Text -> bool, records: seq<TransitionRecord>)
    ensures forall i :: 0 <= i < |KeptTransitions(t, keep, records)| ==>
              KeptTransitions(t, keep, records)[i] in records
              && Kept(t, keep, KeptTransitions(t, keep, records)[i].itemId)
  {
    if records != [] { KeptAreThere(t, keep, records[..|records| - 1]); }
  }

  lemma ClearKeepsRows(t: Tables, keep: Text -> bool, now: int)
    requires LedgerSound(t) && SeatRows(t) && RequestRows(t) && ClearStep(t, keep, now).Ok?
    ensures var t2 := ClearStep(t, keep, now).value.0;
            SeatRows(t2) && RequestRows(t2) && ItemRows(t2) && SourceRows(t2) && RequirementRows(t2)
            && EvidenceRows(t2) && OneOpenPerDigest(t2)
  {
    hide FinalEvidence, Paths, Starts, TransitionRows, NumberedRequirement, Numbered, ItemSafe, SourceSafe,
         SafeText, KeptTransitions, ReasonTrimmed;
  }

  lemma ClearKeepsTransitions(t: Tables, keep: Text -> bool, now: int)
    requires TransitionRows(t) && EvidenceRows(t) && Starts(t) && ClearStep(t, keep, now).Ok?
    ensures TransitionRows(ClearStep(t, keep, now).value.0) && Starts(ClearStep(t, keep, now).value.0)
  {
    hide EvidenceId, TransitionSafe, RecordSafe, KeptTransitions;
    var t2 := ClearStep(t, keep, now).value.0;
    KeptAreThere(t, keep, t.transitions);
    forall i | 0 <= i < |t2.transitions|
      ensures t2.transitions[i].itemId in t2.items && TransitionSafe(t2.transitions[i])
      ensures t2.transitions[i].event.EStart? ==>
                EvidenceId(t2.transitions[i].itemId, t2.transitions[i].revision, Implementation, 0) in t2.evidence
    {
      assert t2.transitions == KeptTransitions(t, keep, t.transitions);
      assert t2.transitions[i] in t.transitions && Kept(t, keep, t2.transitions[i].itemId);
      var j :| 0 <= j < |t.transitions| && t.transitions[j] == t2.transitions[i];
      if t.transitions[j].event.EStart? { StartEvidenceIsOwn(t, j); }
    }
  }

  lemma StartEvidenceIsOwn(t: Tables, j: nat)
    requires EvidenceRows(t) && j < |t.transitions|
    requires EvidenceId(t.transitions[j].itemId, t.transitions[j].revision, Implementation, 0) in t.evidence
    ensures t.evidence[EvidenceId(t.transitions[j].itemId, t.transitions[j].revision, Implementation, 0)].itemId
            == t.transitions[j].itemId
    ensures var key := EvidenceId(t.transitions[j].itemId, t.transitions[j].revision, Implementation, 0);
            t.evidence[key].phase.Implementation?
  {
    hide RecordSafe;
    var key := EvidenceId(t.transitions[j].itemId, t.transitions[j].revision, Implementation, 0);
    var r := t.evidence[key];
    var revision: nat, n: nat :|
      revision <= t.items[r.itemId].revision && r.id == EvidenceId(r.itemId, revision, r.phase, n);
    EvidenceIdInjective(
      t.transitions[j].itemId, t.transitions[j].revision, Implementation, 0, r.itemId, revision, r.phase, n);
  }

  lemma ClearKeepsHistories(t: Tables, keep: Text -> bool, now: int)
    requires FinalEvidence(t) && Paths(t) && ClearStep(t, keep, now).Ok?
    ensures FinalEvidence(ClearStep(t, keep, now).value.0) && Paths(ClearStep(t, keep, now).value.0)
  {
    var t2 := ClearStep(t, keep, now).value.0;
    forall id | id in t2.items
      ensures FinalEvidenceOf(t2, id) && HasPath(t2, id)
    {
      assert Kept(t, keep, id) && FinalEvidenceOf(t, id) && HasPath(t, id);
      KeptTrail(t, keep, t.transitions, id);
      ClearKeepsEvidenceOf(t, keep, now, id);
    }
  }

  lemma ClearKeepsEvidenceOf(t: Tables, keep: Text -> bool, now: int, id: Text)
    requires Kept(t, keep, id) && FinalEvidenceOf(t, id) && ClearStep(t, keep, now).Ok?
    ensures FinalEvidenceOf(ClearStep(t, keep, now).value.0, id)
  {
    hide KeptTransitions;
    var t2 := ClearStep(t, keep, now).value.0;
    assert FinalIds(t2, id) == FinalIds(t, id);
    forall i | t.items[id].state.Terminal? && 0 <= i < |t.items[id].state.evidence|
      ensures Witnessed(t2, id, t.items[id].state.evidence[i])
    {
      assert Witnessed(t, id, t.items[id].state.evidence[i]);
    }
  }

  lemma ClearKeepsReferences(t: Tables, keep: Text -> bool, now: int)
    requires References(t) && ClearStep(t, keep, now).Ok?
    ensures References(ClearStep(t, keep, now).value.0)
  {
    hide KeptTransitions, RefOf;
    var t2 := ClearStep(t, keep, now).value.0;
    forall id, phase | id in t2.items
      ensures ReferenceOf(t2, id, phase)
    {
      assert ReferenceOf(t, id, phase);
      if RefOf(t.items[id].state, phase).Some? {
        var ref := RefOf(t.items[id].state, phase).value;
        var k :| k in t.evidence && t.evidence[k].itemId == id && t.evidence[k].phase == phase
          && t.evidence[k].ref == ref;
        assert k in t2.evidence;
      }
    }
  }

  /** Clearing removes whole projects and keeps the rest sound. */
  lemma ClearKeepsSound(t: Tables, keep: Text -> bool, now: int)
    requires Sound(t) && ClearStep(t, keep, now).Ok?
    ensures Sound(ClearStep(t, keep, now).value.0)
  {
    hide ClearStep, ItemRows, SourceRows, RequirementRows, EvidenceRows, TransitionRows, FinalEvidence, Paths, Starts,
         OneOpenPerDigest, References, SeatRows, RequestRows;
    ClearKeepsRows(t, keep, now);
    ClearKeepsTransitions(t, keep, now);
    ClearKeepsHistories(t, keep, now);
    ClearKeepsReferences(t, keep, now);
  }
}
