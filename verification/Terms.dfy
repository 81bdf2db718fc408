/** Until when a lease lives, whether it is paused and where its row comes from, read off the calls of a run
    (sqlite-store.ts). */
module Terms {
  import opened Wrappers
  import opened Texts
  import opened Ledger
  import opened Tables
  import opened Invariants
  import opened Registry
  import opened Frames
  import opened Steps
  import opened Runs
  import opened Fencing
  import opened Policies
  import opened Guards

  /** What a successful call may be to a lease. */
  datatype Mark = Granting | Renewing | Unpausing | Pausing

  /** The seat a claim asks for has no unexpired lease. */
  predicate SeatFree(t: Tables, op: Op)
    requires op.OpClaim?
  {
    (op.project, Trim(op.role)) in t.leases ==> t.leases[(op.project, Trim(op.role))].expiresAt <= op.now
  }

  /** A claim of a free seat grants the lease; a heartbeat or a resumption of it renews it, too. */
  predicate Marks(t: Tables, op: Op, id: Uuid, mark: Mark) {
    var grants := op.OpClaim? && op.newId == id && SeatFree(t, op);
    match mark
    case Granting => grants
    case Renewing => grants || ((op.OpHeartbeat? || op.OpResume?) && op.leaseId == id)
    case Unpausing => grants || (op.OpResume? && op.leaseId == id)
    case Pausing => op.OpPause? && op.leaseId == id
  }

  /** The last call of that kind that succeeded in the first n of a run. */
  ghost function LastMark(env: Env, states: seq<Tables>, ops: seq<Op>, id: Uuid, mark: Mark, n: nat): (k: Option<nat>)
    requires n <= |ops| && |states| == |ops| + 1
    ensures k.Some? ==>
              k.value < n && Marks(states[k.value], ops[k.value], id, mark)
              && Done(env, states[k.value], ops[k.value], states[k.value + 1])
  {
    if n == 0 then None
    else if Marks(states[n - 1], ops[n - 1], id, mark) && Done(env, states[n - 1], ops[n - 1], states[n])
    then Some(n - 1)
    else LastMark(env, states, ops, id, mark, n - 1)
  }

  /** The lease says who claimed what, and when. */
  predicate TellsGrant(lease: Lease, op: Op) {
    && op.OpClaim? && lease.id == op.newId
    && lease.project == op.project && lease.role == Trim(op.role) && lease.mode == op.mode
    && lease.owner == Agent(Trim(op.agent.id), op.agent.pid)
    && lease.policyDigest == Trim(op.policy) && lease.acquiredAt == op.now
  }

  /** The lease was renewed at the call's time, for as long as the call asked. */
  predicate TellsRenewal(lease: Lease, op: Op) {
    && (op.OpClaim? || op.OpHeartbeat? || op.OpResume?)
    && lease.heartbeatAt == op.now && lease.expiresAt == op.now + op.ttl
  }

  /** What a call does to the status of the lease it names. */
  predicate StatusFollows(op: Op, before: Lease, after: Lease) {
    if op.OpHeartbeat? && op.leaseId == after.id then
      after.status == if Trim(op.policy) == before.policyDigest then before.status else Suspended
    else if op.OpPause? && op.leaseId == after.id then after.status == Paused && before.status != Suspended
    else if op.OpResume? && op.leaseId == after.id then after.status == Active && before.status == Paused
    else after.status == before.status
  }

  /** Where a row comes from: the call granted it, or it was there before, changed as the call says. */
  ghost predicate RowFollows(t: Tables, op: Op, t2: Tables, seat: Seat)
    requires seat in t2.leases
  {
    var after := t2.leases[seat];
    if Marks(t, op, after.id, Granting) then TellsGrant(after, op) && TellsRenewal(after, op) && after.status == Active
    else
      && seat in t.leases
      && var before := t.leases[seat];
         && before.(heartbeatAt := after.heartbeatAt, expiresAt := after.expiresAt, status := after.status) == after
         && StatusFollows(op, before, after)
         && if Marks(t, op, after.id, Renewing) then TellsRenewal(after, op)
            else after.heartbeatAt == before.heartbeatAt && after.expiresAt == before.expiresAt
  }

  // ----- one call -----

  lemma ClaimedIff(t: Tables, op: Op)
    requires op.OpClaim? && NextOther(t, op).Ok?
    ensures var r := ClaimStep(t, op.newId, op.agent, op.project, op.role, op.mode, op.policy, op.now, op.ttl).value;
            && (r.1.ClaimedLease? <==> SeatFree(t, op))
            && (r.1.ClaimedLease? ==>
                  TellsGrant(r.1.lease, op) && TellsRenewal(r.1.lease, op) && r.1.lease.status == Active
                  && SeatOf(r.1.lease) == (op.project, Trim(op.role)))
  {
    hide Trim, HasUnsafeControl, HasLease;
  }

  lemma OneSeat(t: Tables, seat: Seat)
    requires SeatRows(t) && seat in t.leases
    ensures forall other :: other in t.leases && t.leases[other].id == t.leases[seat].id ==> other == seat
  {
    hide SafeText;
  }

  lemma AddedRow(t2: Tables, live: map<Seat, Lease>, lease: Lease, seat: Seat)
    requires SeatRows(t2) && t2.leases == live[SeatOf(lease) := lease] && seat in t2.leases
    ensures if t2.leases[seat].id == lease.id then t2.leases[seat] == lease
            else seat in live && t2.leases[seat] == live[seat]
  {
    OneSeat(t2, SeatOf(lease));
  }

  lemma ClaimFollows(t: Tables, op: Op, seat: Seat)
    requires Sound(t) && op.OpClaim? && NextOther(t, op).Ok? && seat in NextOther(t, op).value.leases
    ensures RowFollows(t, op, NextOther(t, op).value, seat)
  {
    hide Sound, SeatRows, ClaimStep, Trim, Prune, SeatFree, TellsGrant, TellsRenewal, RowFollows;
    ClaimedIff(t, op);
    ClaimedRows(t, op.newId, op.agent, op.project, op.role, op.mode, op.policy, op.now, op.ttl);
    PrunedLeases(t.leases, op.now);
    SoundLedger(t);
    ClaimKeepsSeats(t, op.newId, op.agent, op.project, op.role, op.mode, op.policy, op.now, op.ttl);
    var (t2, outcome) :=
      ClaimStep(t, op.newId, op.agent, op.project, op.role, op.mode, op.policy, op.now, op.ttl).value;
    if outcome.ClaimedLease? { AddedRow(t2, Prune(t.leases, op.now), outcome.lease, seat); }
    if outcome.ClaimedLease? && t2.leases[seat].id == op.newId {
      GrantedRowFollows(t, op, t2, seat);
    } else {
      ClaimKeepsRowAt(t, op, t2, seat);
    }
  }

  lemma GrantedRowFollows(t: Tables, op: Op, t2: Tables, seat: Seat)
    requires op.OpClaim? && SeatFree(t, op) && seat in t2.leases && t2.leases[seat].id == op.newId
    requires TellsGrant(t2.leases[seat], op) && TellsRenewal(t2.leases[seat], op) && t2.leases[seat].status == Active
    ensures RowFollows(t, op, t2, seat)
  {
    hide SeatFree, TellsGrant, TellsRenewal;
  }

  lemma ClaimKeepsRowAt(t: Tables, op: Op, t2: Tables, seat: Seat)
    requires op.OpClaim? && seat in t2.leases && seat in t.leases && t2.leases[seat] == t.leases[seat]
    requires !(SeatFree(t, op) && t2.leases[seat].id == op.newId)
    ensures RowFollows(t, op, t2, seat)
  {
    hide SeatFree, TellsGrant, TellsRenewal;
  }

  lemma RenewalFollows(t: Tables, op: Op)
    requires (op.OpHeartbeat? || op.OpPause? || op.OpResume?) && RenewedLease(t, op).Ok?
             && LeaseById(t, op.leaseId).Some?
    ensures var before, after := LeaseById(t, op.leaseId).value, RenewedLease(t, op).value.1;
            && before.(heartbeatAt := after.heartbeatAt, expiresAt := after.expiresAt, status := after.status) == after
            && StatusFollows(op, before, after)
            && if op.OpPause? then after.heartbeatAt == before.heartbeatAt && after.expiresAt == before.expiresAt
               else TellsRenewal(after, op)
  {
    hide LeaseById, Trim, HasUnsafeControl;
  }

  lemma RenewalKeepsRows(t: Tables, op: Op, seat: Seat)
    requires Sound(t) && (op.OpHeartbeat? || op.OpPause? || op.OpResume?) && RenewedLease(t, op).Ok?
    requires seat in RenewedLease(t, op).value.0.leases
    ensures RowFollows(t, op, RenewedLease(t, op).value.0, seat)
  {
    hide LedgerSound, SeatRows, RequestRows, LeaseById, RenewedLease, Trim;
    RenewedLeaseIsFound(t, op);
    FoundLease(t, op.leaseId);
    RenewalFollows(t, op);
    if seat != SeatOf(RenewedLease(t, op).value.1) { RowOf(t, seat); }
  }

  lemma OtherRowsFollow(t: Tables, op: Op, t2: Tables, seat: Seat)
    requires !WritesLease(op) && seat in t2.leases && seat in t.leases && t2.leases[seat] == t.leases[seat]
    ensures RowFollows(t, op, t2, seat)
  {
  }

  lemma DoneFollows(env: Env, t: Tables, op: Op, t2: Tables, seat: Seat)
    requires Sound(t) && Done(env, t, op, t2) && seat in t2.leases
    ensures RowFollows(t, op, t2, seat)
  {
    hide Sound, Represents, NextIngest, NextRequest, ClaimStep, HeartbeatStep, PauseStep, ResumeStep, RowFollows;
    if op.OpClaim? {
      ClaimFollows(t, op, seat);
    } else if op.OpHeartbeat? || op.OpPause? || op.OpResume? {
      RenewalKeepsRows(t, op, seat);
    } else {
      OthersAddNoLease(env, t, op, t2);
      OtherRowsFollow(t, op, t2, seat);
    }
  }

  // ----- whole runs -----

  /** The last successful pause of the lease came after its grant and after every resumption. */
  ghost predicate PausedSince(env: Env, states: seq<Tables>, ops: seq<Op>, id: Uuid, n: nat)
    requires n <= |ops| && |states| == |ops| + 1
  {
    var paused, unpaused := LastMark(env, states, ops, id, Pausing, n), LastMark(env, states, ops, id, Unpausing, n);
    paused.Some? && unpaused.Some? && unpaused.value < paused.value
  }

  ghost predicate RowIsTold(env: Env, states: seq<Tables>, ops: seq<Op>, n: nat, lease: Lease)
    requires n <= |ops| && |states| == |ops| + 1
  {
    && LastMark(env, states, ops, lease.id, Granting, n).Some?
    && TellsGrant(lease, ops[LastMark(env, states, ops, lease.id, Granting, n).value])
    && LastMark(env, states, ops, lease.id, Renewing, n).Some?
    && TellsRenewal(lease, ops[LastMark(env, states, ops, lease.id, Renewing, n).value])
    && LastMark(env, states, ops, lease.id, Unpausing, n).Some?
    && (lease.status == Paused <==> lease.status != Suspended && PausedSince(env, states, ops, lease.id, n))
  }

  lemma OneMoreCall(env: Env, states: seq<Tables>, ops: seq<Op>, n: nat, before: Lease, after: Lease)
    requires 0 < n <= |ops| && |states| == |ops| + 1 && RowIsTold(env, states, ops, n - 1, before)
    requires Done(env, states[n - 1], ops[n - 1], states[n]) && !Marks(states[n - 1], ops[n - 1], after.id, Granting)
    requires before.(heartbeatAt := after.heartbeatAt, expiresAt := after.expiresAt, status := after.status) == after
    requires StatusFollows(ops[n - 1], before, after)
    requires if Marks(states[n - 1], ops[n - 1], after.id, Renewing) then TellsRenewal(after, ops[n - 1])
             else after.heartbeatAt == before.heartbeatAt && after.expiresAt == before.expiresAt
    ensures RowIsTold(env, states, ops, n, after)
  {
    hide Done, SeatFree, Trim;
  }

  lemma FirstCall(env: Env, states: seq<Tables>, ops: seq<Op>, n: nat, lease: Lease)
    requires 0 < n <= |ops| && |states| == |ops| + 1
    requires Done(env, states[n - 1], ops[n - 1], states[n]) && Marks(states[n - 1], ops[n - 1], lease.id, Granting)
    requires TellsGrant(lease, ops[n - 1]) && TellsRenewal(lease, ops[n - 1]) && lease.status == Active
    ensures RowIsTold(env, states, ops, n, lease)
  {
    hide Done, SeatFree, Trim;
  }

  lemma NoCall(env: Env, states: seq<Tables>, ops: seq<Op>, n: nat, lease: Lease)
    requires 0 < n <= |ops| && |states| == |ops| + 1 && RowIsTold(env, states, ops, n - 1, lease)
    requires !Done(env, states[n - 1], ops[n - 1], states[n])
    ensures RowIsTold(env, states, ops, n, lease)
  {
    hide Done, Marks, TellsGrant, TellsRenewal;
  }

  /** In every reachable state every lease row is what the calls made of it: it says who claimed it and when, was last
      renewed by the last successful grant, heartbeat or resumption and expires as long after as that call asked, and
      is paused exactly when it is not suspended and the last pause came after the grant and every resumption. */
  lemma {:induction false} EveryRowIsTold(env: Env, states: seq<Tables>, ops: seq<Op>, n: nat, seat: Seat)
    requires IsRun(env, states, ops) && n < |states| && seat in states[n].leases
    ensures RowIsTold(env, states, ops, n, states[n].leases[seat])
  {
    hide Sound, Step, Done, Marks, RowIsTold, TellsGrant, TellsRenewal, StatusFollows;
    if n > 0 {
      var t, op, t2 := states[n - 1], ops[n - 1], states[n];
      assert Step(env, t, op, t2);
      EveryStateIsSound(env, states, ops, n - 1);
      if Done(env, t, op, t2) {
        DoneFollows(env, t, op, t2, seat);
        if Marks(t, op, t2.leases[seat].id, Granting) {
          FirstCall(env, states, ops, n, t2.leases[seat]);
        } else {
          EveryRowIsTold(env, states, ops, n - 1, seat);
          OneMoreCall(env, states, ops, n, t.leases[seat], t2.leases[seat]);
        }
      } else {
        NothingDone(env, t, op, t2);
        EveryRowIsTold(env, states, ops, n - 1, seat);
        NoCall(env, states, ops, n, t.leases[seat]);
      }
    }
  }

  lemma NothingDone(env: Env, t: Tables, op: Op, t2: Tables)
    requires Step(env, t, op, t2) && !Done(env, t, op, t2)
    ensures t2 == t
  {
    hide Done;
  }

  // ----- how long a row stays -----

  /** A call that takes the lease's row away: its release, clearing its project, or any claim once it has expired. */
  predicate Removes(op: Op, lease: Lease) {
    || (op.OpRelease? && op.leaseId == lease.id)
    || (op.OpClear? && !op.keep(lease.project))
    || (op.OpClaim? && lease.expiresAt <= op.now)
  }

  /** The lease's row is still in its seat. */
  predicate Stays(t2: Tables, seat: Seat, id: Uuid) {
    seat in t2.leases && t2.leases[seat].id == id
  }

  lemma ClaimKeepsOrRemoves(t: Tables, op: Op, seat: Seat)
    requires Sound(t) && op.OpClaim? && NextOther(t, op).Ok? && seat in t.leases
    requires !Marks(t, op, t.leases[seat].id, Granting)
    ensures Stays(NextOther(t, op).value, seat, t.leases[seat].id) <==> !Removes(op, t.leases[seat])
  {
    hide LedgerSound, ClaimStep, Trim, RequestRows, SeatRows, TellsGrant, TellsRenewal;
    ClaimedIff(t, op);
    ClaimedRows(t, op.newId, op.agent, op.project, op.role, op.mode, op.policy, op.now, op.ttl);
  }

  lemma RenewalKeepsAll(t: Tables, op: Op, seat: Seat)
    requires Sound(t) && (op.OpHeartbeat? || op.OpPause? || op.OpResume?) && RenewedLease(t, op).Ok? && seat in t.leases
    ensures Stays(RenewedLease(t, op).value.0, seat, t.leases[seat].id)
  {
    hide LedgerSound, SeatRows, RequestRows, LeaseById, RenewedLease;
    RenewedLeaseIsFound(t, op);
    FoundLease(t, op.leaseId);
  }

  lemma ReleaseRemoves(t: Tables, op: Op, seat: Seat)
    requires Sound(t) && op.OpRelease? && NextOther(t, op).Ok? && seat in t.leases
    ensures Stays(NextOther(t, op).value, seat, t.leases[seat].id) <==> op.leaseId != t.leases[seat].id
  {
    hide LedgerSound, SeatRows, RequestRows, LeaseById;
    FoundLease(t, op.leaseId);
    RowOf(t, seat);
  }

  lemma OthersKeepLeases(env: Env, t: Tables, op: Op, t2: Tables)
    requires Sound(t) && Done(env, t, op, t2) && !WritesLease(op) && !op.OpRelease? && !op.OpClear?
    ensures t2.leases == t.leases
  {
    hide Sound, Represents, NextIngest, NextRequest, MovesOn, SameLedgerRows, SameRequestsBut, ReceiveStep,
         AcknowledgeStep, LeaseById;
    var st :| (IngestsWork(op) ==> Represents(t, ProjectOf(t, op), st)) && Next(env, t, st, op) == Ok(t2);
    if IngestsWork(op) { IngestWork(env, t, st, op); }
    else if WorksOnRequest(op) { RequestWork(env, t, op); }
    else { OtherRequestWork(t, op); }
  }

  lemma ClearRemoves(t: Tables, op: Op, seat: Seat)
    requires op.OpClear? && NextOther(t, op).Ok? && seat in t.leases
    ensures Stays(NextOther(t, op).value, seat, t.leases[seat].id) <==> op.keep(t.leases[seat].project)
  {
    hide KeptTransitions;
  }

  lemma DoneOther(env: Env, t: Tables, op: Op, t2: Tables)
    requires !IngestsWork(op) && !WorksOnRequest(op) && Done(env, t, op, t2)
    ensures NextOther(t, op) == Ok(t2)
  {
    hide NextRequest, NextIngest, NextOther, Represents;
  }

  /** A call that does not grant a row's lease leaves the row in its seat exactly when it is no release of the lease, no
      clearing of its project and no claim after it expired. */
  lemma DoneKeepsRowIff(env: Env, t: Tables, op: Op, t2: Tables, seat: Seat)
    requires Sound(t) && Done(env, t, op, t2) && seat in t.leases && !Marks(t, op, t.leases[seat].id, Granting)
    ensures Stays(t2, seat, t.leases[seat].id) <==> !Removes(op, t.leases[seat])
  {
    hide Sound, Done, NextOther, RenewedLease, Marks, Stays;
    if op.OpClaim? || op.OpHeartbeat? || op.OpPause? || op.OpResume? || op.OpRelease? || op.OpClear? {
      DoneOther(env, t, op, t2);
      if op.OpClaim? { ClaimKeepsOrRemoves(t, op, seat); }
      else if op.OpRelease? { ReleaseRemoves(t, op, seat); }
      else if op.OpClear? { ClearRemoves(t, op, seat); }
      else {
        RenewedIsNext(t, op);
        RenewalKeepsAll(t, op, seat);
      }
    } else {
      OthersKeepLeases(env, t, op, t2);
      RowStays(t, t2, seat);
    }
  }

  lemma RowStays(t: Tables, t2: Tables, seat: Seat)
    requires t2.leases == t.leases && seat in t.leases
    ensures Stays(t2, seat, t.leases[seat].id)
  {
  }

  lemma RenewedIsNext(t: Tables, op: Op)
    requires op.OpHeartbeat? || op.OpPause? || op.OpResume?
    ensures NextOther(t, op) == Rows(RenewedLease(t, op))
  {
    hide HeartbeatStep, PauseStep, ResumeStep;
  }

  /** The lease lost its row in this call. */
  ghost predicate RemovedAt(env: Env, states: seq<Tables>, ops: seq<Op>, id: Uuid, k: nat)
    requires k < |ops| && |states| == |ops| + 1
  {
    Done(env, states[k], ops[k], states[k + 1])
    && exists seat :: seat in states[k].leases && states[k].leases[seat].id == id
         && Removes(ops[k], states[k].leases[seat])
  }

  ghost predicate NotRemovedSince(env: Env, states: seq<Tables>, ops: seq<Op>, id: Uuid, from: nat, n: nat)
    requires n <= |ops| && |states| == |ops| + 1
  {
    forall k :: from <= k < n ==> !RemovedAt(env, states, ops, id, k)
  }

  ghost predicate HeldSince(env: Env, states: seq<Tables>, ops: seq<Op>, id: Uuid, n: nat)
    requires n <= |ops| && |states| == |ops| + 1
  {
    var granted := LastMark(env, states, ops, id, Granting, n);
    granted.Some? && NotRemovedSince(env, states, ops, id, granted.value + 1, n)
  }

  lemma KeptUnlessRemoved(env: Env, states: seq<Tables>, ops: seq<Op>, id: Uuid, n: nat)
    requires 0 < n <= |ops| && |states| == |ops| + 1 && Sound(states[n - 1])
    requires Step(env, states[n - 1], ops[n - 1], states[n])
    requires !(Marks(states[n - 1], ops[n - 1], id, Granting) && Done(env, states[n - 1], ops[n - 1], states[n]))
    ensures HasLease(states[n], id) <==> HasLease(states[n - 1], id) && !RemovedAt(env, states, ops, id, n - 1)
  {
    hide Sound, Step, Done, Marks, Removes, TellsGrant, TellsRenewal, StatusFollows;
    var t, op, t2 := states[n - 1], ops[n - 1], states[n];
    if Done(env, t, op, t2) {
      SoundLedger(t);
      if HasLease(t, id) {
        var seat :| seat in t.leases && t.leases[seat].id == id;
        DoneKeepsRowIff(env, t, op, t2, seat);
        OneSeat(t, seat);
      }
      if HasLease(t2, id) {
        var seat :| seat in t2.leases && t2.leases[seat].id == id;
        DoneFollows(env, t, op, t2, seat);
        DoneKeepsRowIff(env, t, op, t2, seat);
        OneSeat(t, seat);
      }
    } else {
      NothingDone(env, t, op, t2);
    }
  }

  lemma GrantHasRow(env: Env, t: Tables, op: Op, t2: Tables, id: Uuid)
    requires Sound(t) && Done(env, t, op, t2) && Marks(t, op, id, Granting)
    ensures HasLease(t2, id)
  {
    hide Sound, Done, ClaimStep, Trim, TellsRenewal;
    DoneOther(env, t, op, t2);
    ClaimedIff(t, op);
    ClaimedRows(t, op.newId, op.agent, op.project, op.role, op.mode, op.policy, op.now, op.ttl);
    assert (op.project, Trim(op.role)) in t2.leases;
  }

  /** In every reachable state a lease has its row exactly when it was granted and since then neither released nor
      cleared with its project nor swept away by a claim after it expired. */
  lemma {:induction false} HeldIff(env: Env, states: seq<Tables>, ops: seq<Op>, id: Uuid, n: nat)
    requires IsRun(env, states, ops) && n < |states|
    ensures HasLease(states[n], id) <==> HeldSince(env, states, ops, id, n)
  {
    hide Sound, Step, Done, Marks, RemovedAt;
    if n > 0 {
      assert Step(env, states[n - 1], ops[n - 1], states[n]);
      EveryStateIsSound(env, states, ops, n - 1);
      HeldIff(env, states, ops, id, n - 1);
      if Marks(states[n - 1], ops[n - 1], id, Granting) && Done(env, states[n - 1], ops[n - 1], states[n]) {
        GrantHasRow(env, states[n - 1], ops[n - 1], states[n], id);
      } else {
        KeptUnlessRemoved(env, states, ops, id, n);
      }
    }
  }

  // ----- what the calls say about a lease in force -----

  /** When the lease expires, as its grant or its last heartbeat or resumption said. */
  ghost function Expiry(env: Env, states: seq<Tables>, ops: seq<Op>, id: Uuid, n: nat): Option<int>
    requires n <= |ops| && |states| == |ops| + 1
  {
    match LastMark(env, states, ops, id, Renewing, n)
    case None => None
    case Some(k) => Some(ops[k].now + ops[k].ttl)
  }

  /** A lease is unexpired exactly when it has its row and the time at which its grant or its last heartbeat or
      resumption succeeded, plus the time this asked for, is still to come. */
  lemma UnexpiredIff(env: Env, states: seq<Tables>, ops: seq<Op>, id: Uuid, n: nat, at: int)
    requires IsRun(env, states, ops) && n < |states|
    ensures Unexpired(states[n], id, at) <==>
            HeldSince(env, states, ops, id, n)
            && Expiry(env, states, ops, id, n).Some? && Expiry(env, states, ops, id, n).value > at
  {
    hide Sound, Step, Done, Marks, TellsGrant, HeldSince;
    HeldIff(env, states, ops, id, n);
    EveryStateIsSound(env, states, ops, n);
    SoundLedger(states[n]);
    if HasLease(states[n], id) {
      var seat :| seat in states[n].leases && states[n].leases[seat].id == id;
      OneSeat(states[n], seat);
      EveryRowIsTold(env, states, ops, n, seat);
    }
  }

  /** A lease is in force for a caller exactly when it has its row, the caller is the agent that claimed it, its last
      renewal still lasts, it was not paused since the grant and the last resumption, and no heartbeat since the grant
      carried another policy digest. */
  lemma InForceIff(env: Env, states: seq<Tables>, ops: seq<Op>, id: Uuid, agentId: Text, n: nat, at: int)
    requires IsRun(env, states, ops) && n < |states|
    ensures InForce(states[n], id, agentId, at) <==>
            && HeldSince(env, states, ops, id, n)
            && var grant := ops[LastMark(env, states, ops, id, Granting, n).value];
               && agentId == Trim(grant.agent.id)
               && Expiry(env, states, ops, id, n).Some? && Expiry(env, states, ops, id, n).value > at
               && !PausedSince(env, states, ops, id, n)
               && !Questioned(env, states, ops, id, Trim(grant.policy), n)
  {
    hide Sound, Step, Done, Marks, HeldSince, Trim, PausedSince, Questioned;
    GrantIsClaim(env, states, ops, id, n);
    HeldIff(env, states, ops, id, n);
    EveryStateIsSound(env, states, ops, n);
    SoundLedger(states[n]);
    if HasLease(states[n], id) {
      var seat :| seat in states[n].leases && states[n].leases[seat].id == id;
      OneSeat(states[n], seat);
      EveryRowIsTold(env, states, ops, n, seat);
      RowOf(states[n], seat);
      SuspendedIff(env, states, ops, id, n);
    }
  }

  lemma GrantIsClaim(env: Env, states: seq<Tables>, ops: seq<Op>, id: Uuid, n: nat)
    requires n <= |ops| && |states| == |ops| + 1
    ensures HeldSince(env, states, ops, id, n) ==> ops[LastMark(env, states, ops, id, Granting, n).value].OpClaim?
  {
    hide Done;
  }
}
