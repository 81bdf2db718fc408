/** What a lease's policy digest guarantees over whole runs, and what it does not (sqlite-store.ts). */
module Policies {
  import opened Wrappers
  import opened Texts
  import opened Ledger
  import opened Tables
  import opened Invariants
  import opened Registry
  import opened Frames
  import opened Steps
  import opened Runs
  import opened Fencing

  /** The claim grants a new lease under this identifier instead of returning the seat's lease. */
  ghost predicate Grants(t: Tables, op: Op, id: Uuid) {
    op.OpClaim? && op.newId == id
    && var r := ClaimStep(t, op.newId, op.agent, op.project, op.role, op.mode, op.policy, op.now, op.ttl);
       r.Ok? && r.value.1.ClaimedLease?
  }

  predicate BeatsUnderAnother(op: Op, id: Uuid, digest: Text) {
    op.OpHeartbeat? && op.leaseId == id && Trim(op.policy) != digest
  }

  ghost predicate GrantedAt(env: Env, states: seq<Tables>, ops: seq<Op>, id: Uuid, k: nat)
    requires k < |ops| && |states| == |ops| + 1
  {
    Grants(states[k], ops[k], id) && Done(env, states[k], ops[k], states[k + 1])
  }

  ghost predicate QuestionedAt(env: Env, states: seq<Tables>, ops: seq<Op>, id: Uuid, digest: Text, k: nat)
    requires k < |ops| && |states| == |ops| + 1
  {
    BeatsUnderAnother(ops[k], id, digest) && Done(env, states[k], ops[k], states[k + 1])
  }

  ghost predicate NotGrantedSince(env: Env, states: seq<Tables>, ops: seq<Op>, id: Uuid, from: nat, n: nat)
    requires n <= |ops| && |states| == |ops| + 1
  {
    forall m :: from <= m < n ==> !GrantedAt(env, states, ops, id, m)
  }

  /** Since the lease was last granted, a heartbeat carried another policy digest than this one. */
  ghost predicate Questioned(env: Env, states: seq<Tables>, ops: seq<Op>, id: Uuid, digest: Text, n: nat)
    requires n <= |ops| && |states| == |ops| + 1
  {
    exists k :: 0 <= k < n && QuestionedAt(env, states, ops, id, digest, k)
      && NotGrantedSince(env, states, ops, id, k + 1, n)
  }

  // ----- one step -----

  lemma SameRow(t: Tables, t2: Tables, id: Uuid)
    requires SeatRows(t) && LeaseById(t2, id).Some?
    requires forall seat :: seat in t2.leases && t2.leases[seat].id == id ==>
             seat in t.leases && t.leases[seat] == t2.leases[seat]
    ensures LeaseById(t, id) == LeaseById(t2, id)
  {
    hide SafeText;
    var seat :| seat in t2.leases && t2.leases[seat] == LeaseById(t2, id).value;
    assert t.leases[seat].id == id;
  }

  lemma RowOf(t: Tables, seat: Seat)
    requires SeatRows(t) && seat in t.leases
    ensures LeaseById(t, t.leases[seat].id) == Some(t.leases[seat])
  {
    hide SafeText;
  }

  lemma GrantedLease(t: Tables, op: Op, id: Uuid)
    requires Sound(t) && Grants(t, op, id)
    ensures var t2 := NextOther(t, op).value;
            LeaseById(t2, id).Some? && LeaseById(t2, id).value.status.Active?
            && LeaseById(t2, id).value.policyDigest == Trim(op.policy)
  {
    hide LedgerSound, SeatRows, RequestRows, Prune, HasLease, RoleName, SafeText, LeaseById;
    ClaimKeepsSeats(t, op.newId, op.agent, op.project, op.role, op.mode, op.policy, op.now, op.ttl);
    var (t2, outcome) :=
      ClaimStep(t, op.newId, op.agent, op.project, op.role, op.mode, op.policy, op.now, op.ttl).value;
    RowOf(t2, SeatOf(outcome.lease));
  }

  lemma ClaimAddsNoOther(t: Tables, op: Op, id: Uuid)
    requires op.OpClaim? && NextOther(t, op).Ok? && !Grants(t, op, id)
    ensures var t2 := NextOther(t, op).value;
            forall seat :: seat in t2.leases && t2.leases[seat].id == id ==>
              seat in t.leases && t.leases[seat] == t2.leases[seat]
  {
    hide ClaimStep, Prune;
    ClaimedRows(t, op.newId, op.agent, op.project, op.role, op.mode, op.policy, op.now, op.ttl);
    PrunedLeases(t.leases, op.now);
  }

  lemma ClaimKeepsRow(t: Tables, op: Op, id: Uuid)
    requires Sound(t) && op.OpClaim? && NextOther(t, op).Ok? && !Grants(t, op, id)
    requires LeaseById(NextOther(t, op).value, id).Some?
    ensures LeaseById(t, id) == LeaseById(NextOther(t, op).value, id)
  {
    hide Sound, SeatRows, LeaseById, NextOther, Grants;
    SoundLedger(t);
    ClaimAddsNoOther(t, op, id);
    SameRow(t, NextOther(t, op).value, id);
  }

  lemma RenewedPolicy(t: Tables, op: Op)
    requires (op.OpHeartbeat? || op.OpPause? || op.OpResume?) && RenewedLease(t, op).Ok?
             && LeaseById(t, op.leaseId).Some?
    ensures var found, lease := LeaseById(t, op.leaseId).value, RenewedLease(t, op).value.1;
            lease.policyDigest == found.policyDigest
            && (lease.status.Suspended? <==>
                found.status.Suspended? || BeatsUnderAnother(op, op.leaseId, found.policyDigest))
  {
    hide LeaseById;
  }

  /** A row that was not granted in this step was there before, under the same policy; it is suspended if it was
      before, or if this is a heartbeat under another policy. */
  ghost predicate KeepsPolicy(t: Tables, op: Op, t2: Tables, id: Uuid, beat: bool) {
    LeaseById(t2, id).Some? ==>
      && LeaseById(t, id).Some?
      && LeaseById(t2, id).value.policyDigest == LeaseById(t, id).value.policyDigest
      && (LeaseById(t2, id).value.status.Suspended? <==>
          LeaseById(t, id).value.status.Suspended?
          || (beat && BeatsUnderAnother(op, id, LeaseById(t, id).value.policyDigest)))
  }

  lemma SameRowKeepsPolicy(t: Tables, op: Op, t2: Tables, id: Uuid, beat: bool)
    requires LeaseById(t2, id).None? || LeaseById(t, id) == LeaseById(t2, id)
    requires beat ==> !(op.OpHeartbeat? && op.leaseId == id)
    ensures KeepsPolicy(t, op, t2, id, beat)
  {
    hide LeaseById;
  }

  lemma RenewedRow(t: Tables, op: Op)
    requires Sound(t) && (op.OpHeartbeat? || op.OpPause? || op.OpResume?) && RenewedLease(t, op).Ok?
    ensures LeaseById(RenewedLease(t, op).value.0, op.leaseId) == Some(RenewedLease(t, op).value.1)
    ensures KeepsPolicy(t, op, RenewedLease(t, op).value.0, op.leaseId, true)
  {
    hide Sound, SeatRows, LeaseById, RenewedLease;
    SoundLedger(t);
    RenewedLeaseIsFound(t, op);
    var (t2, lease) := RenewedLease(t, op).value;
    UpdatedLeaseKeepsSeats(t, op.leaseId, lease);
    RowOf(t2, SeatOf(lease));
    RenewedPolicy(t, op);
  }

  lemma RenewalKeepsPolicy(t: Tables, op: Op, id: Uuid)
    requires Sound(t) && (op.OpHeartbeat? || op.OpPause? || op.OpResume?) && RenewedLease(t, op).Ok?
    ensures KeepsPolicy(t, op, RenewedLease(t, op).value.0, id, true)
  {
    hide Sound, LeaseById, RenewedLease, KeepsPolicy;
    var t2 := RenewedLease(t, op).value.0;
    if id == op.leaseId {
      RenewedRow(t, op);
    } else {
      SoundLedger(t);
      RenewedLeaseIsFound(t, op);
      FoundLease(t, op.leaseId);
      if LeaseById(t2, id).Some? { SameRow(t, t2, id); }
      SameRowKeepsPolicy(t, op, t2, id, true);
    }
  }

  lemma DoneKeepsPolicy(env: Env, t: Tables, op: Op, t2: Tables, id: Uuid)
    requires Sound(t) && Done(env, t, op, t2) && !Grants(t, op, id)
    ensures KeepsPolicy(t, op, t2, id, true)
  {
    hide Sound, Represents, NextIngest, NextRequest, LeaseById, ClaimStep, HeartbeatStep, PauseStep, ResumeStep, Grants,
         KeepsPolicy;
    SoundLedger(t);
    if op.OpHeartbeat? || op.OpPause? || op.OpResume? {
      RenewalKeepsPolicy(t, op, id);
    } else {
      if LeaseById(t2, id).Some? {
        if op.OpClaim? {
          ClaimKeepsRow(t, op, id);
        } else {
          OthersAddNoLease(env, t, op, t2);
          SameRow(t, t2, id);
        }
      }
      SameRowKeepsPolicy(t, op, t2, id, true);
    }
  }

  lemma StepKeepsPolicy(env: Env, t: Tables, op: Op, t2: Tables, id: Uuid)
    requires Sound(t) && Step(env, t, op, t2) && !(Grants(t, op, id) && Done(env, t, op, t2))
    ensures KeepsPolicy(t, op, t2, id, Done(env, t, op, t2))
  {
    hide Sound, Done, LeaseById, Grants, KeepsPolicy;
    if Done(env, t, op, t2) {
      DoneKeepsPolicy(env, t, op, t2, id);
    } else {
      SameRowKeepsPolicy(t, op, t, id, false);
    }
  }

  // ----- whole runs -----

  lemma QuestionedStep(env: Env, states: seq<Tables>, ops: seq<Op>, id: Uuid, digest: Text, n: nat)
    requires n < |ops| && |states| == |ops| + 1
    ensures Questioned(env, states, ops, id, digest, n + 1) <==>
            !GrantedAt(env, states, ops, id, n)
            && (Questioned(env, states, ops, id, digest, n) || QuestionedAt(env, states, ops, id, digest, n))
  {
    hide GrantedAt, QuestionedAt;
    if Questioned(env, states, ops, id, digest, n + 1) {
      var k :| 0 <= k < n + 1 && QuestionedAt(env, states, ops, id, digest, k)
        && NotGrantedSince(env, states, ops, id, k + 1, n + 1);
      GrantIsNoHeartbeat(env, states, ops, id, digest, n);
      if k < n { assert NotGrantedSince(env, states, ops, id, k + 1, n); }
    }
    if Questioned(env, states, ops, id, digest, n) && !GrantedAt(env, states, ops, id, n) {
      var k :| 0 <= k < n && QuestionedAt(env, states, ops, id, digest, k)
        && NotGrantedSince(env, states, ops, id, k + 1, n);
      assert NotGrantedSince(env, states, ops, id, k + 1, n + 1);
    }
    if QuestionedAt(env, states, ops, id, digest, n) {
      assert NotGrantedSince(env, states, ops, id, n + 1, n + 1);
    }
  }

  lemma GrantIsNoHeartbeat(env: Env, states: seq<Tables>, ops: seq<Op>, id: Uuid, digest: Text, n: nat)
    requires n < |ops| && |states| == |ops| + 1
    ensures !(GrantedAt(env, states, ops, id, n) && QuestionedAt(env, states, ops, id, digest, n))
  {
    hide ClaimStep, Done;
  }

  /** In every reachable state a lease is suspended exactly when some heartbeat since its grant carried another policy
      digest than the one it was granted under. */
  lemma {:induction false} SuspendedIff(env: Env, states: seq<Tables>, ops: seq<Op>, id: Uuid, n: nat)
    requires IsRun(env, states, ops) && n < |states| && LeaseById(states[n], id).Some?
    ensures var lease := LeaseById(states[n], id).value;
            lease.status.Suspended? <==> Questioned(env, states, ops, id, lease.policyDigest, n)
  {
    hide Sound, Step, Done, LeaseById, Questioned, Grants;
    if n == 0 {
      NothingIsHeld(id);
    } else {
      var t, op, t2 := states[n - 1], ops[n - 1], states[n];
      QuestionedStep(env, states, ops, id, LeaseById(t2, id).value.policyDigest, n - 1);
      EveryStateIsSound(env, states, ops, n - 1);
      if GrantedAt(env, states, ops, id, n - 1) {
        GrantIsTaken(env, t, op, t2, id);
      } else {
        StepKeepsPolicy(env, t, op, t2, id);
        SuspendedIff(env, states, ops, id, n - 1);
      }
    }
  }

  lemma NothingIsHeld(id: Uuid)
    ensures LeaseById(EMPTY, id).None?
  {
  }

  lemma GrantIsTaken(env: Env, t: Tables, op: Op, t2: Tables, id: Uuid)
    requires Sound(t) && Grants(t, op, id) && Done(env, t, op, t2)
    ensures LeaseById(t2, id).Some? && LeaseById(t2, id).value.status.Active?
    ensures LeaseById(t2, id).value.policyDigest == Trim(op.policy)
  {
    hide Sound, Represents, LeaseById, ClaimStep;
    GrantedLease(t, op, id);
  }

  /** Whatever succeeds under a lease, no heartbeat since its grant carried another policy digest. */
  lemma NothingActsAfterAnotherPolicy(env: Env, states: seq<Tables>, ops: seq<Op>, n: nat)
    requires IsRun(env, states, ops) && n < |ops|
    requires ActsUnderLease(ops[n]) && Done(env, states[n], ops[n], states[n + 1])
    ensures LeaseById(states[n], ops[n].leaseId).Some?
    ensures !Questioned(
              env, states, ops, ops[n].leaseId, LeaseById(states[n], ops[n].leaseId).value.policyDigest, n)
  {
    hide Sound, Step, Done, LeaseById, Questioned;
    var id := ops[n].leaseId;
    EveryStateIsSound(env, states, ops, n);
    ActingNeedsALivingLease(env, states[n], ops[n], states[n + 1]);
    AliveRow(states[n], id, TimeOf(ops[n]));
    SuspendedIff(env, states, ops, id, n);
  }

  lemma AliveRow(t: Tables, id: Uuid, now: int)
    requires Sound(t) && Alive(t, id, now)
    ensures LeaseById(t, id).Some? && !LeaseById(t, id).value.status.Suspended?
  {
    hide LedgerSound, SeatRows, LeaseById;
    var seat :| seat in t.leases && t.leases[seat].id == id
      && t.leases[seat].expiresAt > now && !t.leases[seat].status.Suspended?;
    RowOf(t, seat);
  }

  /** A lease passes the check every operation makes exactly when it has its row, its owner presents it, it is
      unexpired and not paused, and no heartbeat since its grant carried another policy digest. */
  lemma CurrentIff(env: Env, states: seq<Tables>, ops: seq<Op>, id: Uuid, agentId: Text, now: nat, n: nat)
    requires IsRun(env, states, ops) && n < |states|
    ensures CurrentLease(states[n], id, agentId, now).Ok? <==>
            LeaseById(states[n], id).Some?
            && var lease := LeaseById(states[n], id).value;
               lease.owner.id == agentId && lease.expiresAt > now && !lease.status.Paused?
               && !Questioned(env, states, ops, id, lease.policyDigest, n)
  {
    hide Step, LeaseById, Questioned;
    if LeaseById(states[n], id).Some? { SuspendedIff(env, states, ops, id, n); }
  }

  /** But nothing compares digests before that heartbeat: a lease in force stays in force whatever the policy is by
      then, although the next heartbeat under that policy would end it at the very same time. */
  lemma PolicyIsComparedOnHeartbeatsOnly(t: Tables, leaseId: Uuid, agentId: Text, policy: Text, now: int, ttl: int)
    requires Sound(t) && TimeOk(now) && TtlOk(ttl) && now + ttl <= MAX_SAFE_INTEGER
    requires CurrentLease(t, leaseId, agentId, now).Ok?
    requires BoundedText(policy, 256, RegistryError.Invalid).Ok?
    requires Trim(policy) != CurrentLease(t, leaseId, agentId, now).value.policyDigest
    ensures var beat := HeartbeatStep(t, leaseId, agentId, policy, now, ttl);
            beat.Ok? && CurrentLease(beat.value.0, leaseId, agentId, now) == Err(StaleLease)
  {
    hide LedgerSound, SeatRows, LeaseById, Trim, HasUnsafeControl;
    FoundLease(t, leaseId);
    var (t2, lease) := HeartbeatStep(t, leaseId, agentId, policy, now, ttl).value;
    UpdatedLeaseKeepsSeats(t, leaseId, lease);
    RowOf(t2, SeatOf(lease));
  }
}
