/** Lease and claim safety over whole runs: a dead lease never acts again, and a request is taken over only
    from one. */
module Fencing {
  import opened Wrappers
  import opened Texts
  import opened Ledger
  import opened Tables
  import opened Invariants
  import opened Evolution
  import opened Registry
  import opened Frames
  import opened Steps
  import opened Runs

  /** The lease has its row, has not expired and is not suspended. */
  ghost predicate Alive(t: Tables, id: Uuid, now: int) {
    exists seat :: seat in t.leases && t.leases[seat].id == id
      && t.leases[seat].expiresAt > now && !t.leases[seat].status.Suspended?
  }

  /** The lease has its row and has not expired, whatever its status. */
  ghost predicate Unexpired(t: Tables, id: Uuid, now: int) {
    exists seat :: seat in t.leases && t.leases[seat].id == id && t.leases[seat].expiresAt > now
  }

  /** Operations that need the presented lease to be in force. A suspended lease may still send heartbeats. */
  predicate ActsUnderLease(op: Op) {
    || op.OpPause? || op.OpResume? || op.OpReceive? || op.OpClaimRequest? || op.OpAdvance? || op.OpComplete?
    || op.OpFail?
  }

  predicate Mints(op: Op, id: Uuid) {
    op.OpClaim? && op.newId == id
  }

  /** Operations that present a lease's identifier, releasing it apart. */
  predicate PresentsLease(op: Op, id: Uuid) {
    (op.OpHeartbeat? || ActsUnderLease(op)) && op.leaseId == id
  }

  lemma CurrentIsAlive(t: Tables, id: Uuid, agentId: Text, now: int)
    requires now >= 0 && CurrentLease(t, id, agentId, now).Ok?
    ensures Alive(t, id, now) && CurrentLease(t, id, agentId, now).value.id == id
    ensures CurrentLease(t, id, agentId, now).value.owner.id == agentId
  {
  }

  /** Whatever is done under a lease is done under a living one. */
  lemma ActingNeedsALivingLease(env: Env, t: Tables, op: Op, t2: Tables)
    requires Sound(t) && Done(env, t, op, t2) && ActsUnderLease(op)
    ensures Alive(t, op.leaseId, TimeOf(op))
  {
    hide Sound, Represents, ChangeRequest, PersistedText, BoundedText, StepItem, ClaimIsHeld, Loadable, NextIngest,
         CurrentLease, LeaseById;
    if op.OpPause? || op.OpResume? {
      RenewingNeedsALivingLease(t, op);
    } else {
      CurrentIsAlive(t, op.leaseId, op.agentId, op.now);
    }
  }

  lemma RenewingNeedsALivingLease(t: Tables, op: Op)
    requires (op.OpPause? || op.OpResume?) && RenewedLease(t, op).Ok?
    ensures Alive(t, op.leaseId, op.now)
  {
    hide BoundedText;
  }

  // ----- a dead lease stays dead -----

  lemma ClaimedRows(
    t: Tables, newId: Uuid, agent: Agent, project: Text, role: Text, mode: LeaseMode, policy: Text, now: int, ttl: int)
    requires ClaimStep(t, newId, agent, project, role, mode, policy, now, ttl).Ok?
    ensures var (t2, outcome) := ClaimStep(t, newId, agent, project, role, mode, policy, now, ttl).value;
            var live := Prune(t.leases, now);
            if outcome.AlreadyOwned? then t2.leases == live
            else outcome.lease.id == newId && t2.leases == live[SeatOf(outcome.lease) := outcome.lease]
  {
    hide BoundedText, RoleName, HasLease, Prune, TimeOk, TtlOk;
  }

  lemma ClaimBringsNothingBack(
    t: Tables, newId: Uuid, agent: Agent, project: Text, role: Text, mode: LeaseMode, policy: Text, now: int, ttl: int,
    id: Uuid, at: int)
    requires ClaimStep(t, newId, agent, project, role, mode, policy, now, ttl).Ok? && newId != id && !Alive(t, id, at)
    ensures !Alive(ClaimStep(t, newId, agent, project, role, mode, policy, now, ttl).value.0, id, at)
  {
    hide ClaimStep, Alive, Prune;
    ClaimedRows(t, newId, agent, project, role, mode, policy, now, ttl);
    PrunedLeases(t.leases, now);
    OnlyOldLeases(t, ClaimStep(t, newId, agent, project, role, mode, policy, now, ttl).value.0, id, at);
  }

  lemma PrunedLeases(leases: map<Seat, Lease>, now: int)
    ensures forall seat :: seat in Prune(leases, now) ==> seat in leases && leases[seat] == Prune(leases, now)[seat]
  {
  }

  lemma OnlyOldLeases(t: Tables, t2: Tables, id: Uuid, now: int)
    requires forall seat :: seat in t2.leases && t2.leases[seat].id == id ==>
             seat in t.leases && t.leases[seat] == t2.leases[seat]
    requires !Alive(t, id, now)
    ensures !Alive(t2, id, now)
  {
  }

  lemma RenewalBringsNothingBack(t: Tables, op: Op, id: Uuid, now: int)
    requires SeatRows(t) && (op.OpHeartbeat? || op.OpPause? || op.OpResume?) && RenewedLease(t, op).Ok?
    requires PresentsLease(op, id) ==> now <= op.now
    requires !Alive(t, id, now)
    ensures !Alive(RenewedLease(t, op).value.0, id, now)
  {
    hide LeaseById, RenewedLease;
    RenewedLeaseIsFound(t, op);
    FoundLease(t, op.leaseId);
  }

  lemma FewerLeasesBringNothingBack(t: Tables, t2: Tables, id: Uuid, now: int, later: int)
    requires forall seat :: seat in t2.leases ==> seat in t.leases && t2.leases[seat] == t.leases[seat]
    requires now <= later && !Alive(t, id, now)
    ensures !Alive(t2, id, later)
  {
  }

  predicate WritesLease(op: Op) { op.OpClaim? || op.OpHeartbeat? || op.OpPause? || op.OpResume? }

  lemma OthersAddNoLease(env: Env, t: Tables, op: Op, t2: Tables)
    requires Sound(t) && Done(env, t, op, t2) && !WritesLease(op)
    ensures forall seat :: seat in t2.leases ==> seat in t.leases && t2.leases[seat] == t.leases[seat]
  {
    hide Sound, Represents, NextIngest, NextRequest, MovesOn, SameLedgerRows, SameRequestsBut, ReceiveStep,
         AcknowledgeStep, KeptTransitions, LeaseById;
    var st :| (IngestsWork(op) ==> Represents(t, ProjectOf(t, op), st)) && Next(env, t, st, op) == Ok(t2);
    if IngestsWork(op) { IngestWork(env, t, st, op); }
    else if WorksOnRequest(op) { RequestWork(env, t, op); }
    else if op.OpReceive? || op.OpAcknowledge? { OtherRequestWork(t, op); }
  }

  lemma WritingKeepsDead(t: Tables, op: Op, id: Uuid, now: int)
    requires Sound(t) && WritesLease(op) && NextOther(t, op).Ok?
    requires PresentsLease(op, id) ==> now <= op.now
    requires !Mints(op, id) && !Alive(t, id, now)
    ensures !Alive(NextOther(t, op).value, id, now)
  {
    hide Sound, Alive, HeartbeatStep, PauseStep, ResumeStep, ClaimStep;
    SoundLedger(t);
    if op.OpClaim? {
      ClaimBringsNothingBack(t, op.newId, op.agent, op.project, op.role, op.mode, op.policy, op.now, op.ttl, id, now);
    } else {
      RenewalBringsNothingBack(t, op, id, now);
    }
  }

  /** A lease dead at some time stays dead for that time, if it is not presented with an earlier time. */
  lemma StepKeepsDead(env: Env, t: Tables, op: Op, t2: Tables, id: Uuid, now: int)
    requires Sound(t) && Step(env, t, op, t2) && !Mints(op, id) && !Alive(t, id, now)
    requires PresentsLease(op, id) ==> now <= TimeOf(op)
    ensures !Alive(t2, id, now)
  {
    hide Sound, Represents, NextIngest, NextRequest, NextOther, Alive;
    if Done(env, t, op, t2) {
      if WritesLease(op) {
        WritingKeepsDead(t, op, id, now);
      } else {
        OthersAddNoLease(env, t, op, t2);
        FewerLeasesBringNothingBack(t, t2, id, now, now);
      }
    }
  }

  predicate NeverMinted(ops: seq<Op>, id: Uuid, from: nat) {
    forall k :: from <= k < |ops| ==> !Mints(ops[k], id)
  }

  /** From some step on, the lease is presented with no earlier time. */
  predicate PresentedAfter(ops: seq<Op>, id: Uuid, from: nat, now: int) {
    forall k :: from <= k < |ops| && PresentsLease(ops[k], id) ==> now <= TimeOf(ops[k])
  }

  lemma {:induction false} DeadStaysDead(
    env: Env, states: seq<Tables>, ops: seq<Op>, id: Uuid, now: int, i: nat, j: nat)
    requires IsRun(env, states, ops) && i <= j < |ops|
    requires NeverMinted(ops, id, i) && PresentedAfter(ops, id, i, now)
    requires !Alive(states[i], id, now)
    ensures !Alive(states[j], id, now)
    decreases j - i
  {
    hide Sound, Step, Alive;
    if i < j {
      DeadStaysDead(env, states, ops, id, now, i, j - 1);
      EveryStateIsSound(env, states, ops, j - 1);
      StepKeepsDead(env, states[j - 1], ops[j - 1], states[j], id, now);
    }
  }

  /** Once a lease has expired, was suspended, released or cleared at some time, nothing is ever done under it again
      at that time or later, whatever times other operations carry. */
  lemma DeadLeaseNeverActs(env: Env, states: seq<Tables>, ops: seq<Op>, id: Uuid, now: int, i: nat, j: nat)
    requires IsRun(env, states, ops) && i <= j < |ops|
    requires NeverMinted(ops, id, i) && PresentedAfter(ops, id, i, now)
    requires !Alive(states[i], id, now)
    requires ActsUnderLease(ops[j]) && ops[j].leaseId == id
    ensures !Done(env, states[j], ops[j], states[j + 1])
  {
    hide Sound, Step, Alive, Done;
    DeadStaysDead(env, states, ops, id, now, i, j);
    EveryStateIsSound(env, states, ops, j);
    FewerLeasesBringNothingBack(states[j], states[j], id, now, TimeOf(ops[j]));
    if Done(env, states[j], ops[j], states[j + 1]) {
      ActingNeedsALivingLease(env, states[j], ops[j], states[j + 1]);
    }
  }

  // ----- how a request's status may change -----

  predicate SameRequest(a: Request, b: Request) {
    && b.id == a.id && b.project == a.project && b.role == a.role && b.requesterId == a.requesterId
    && b.text == a.text && b.priority == a.priority && b.createdAt == a.createdAt
  }

  /** The edges of a request's life: claimed from the queue or from an expired claim, closed by its claimant,
      withdrawn by its requester. */
  ghost predicate StatusEdge(t: Tables, op: Op, a: Request, b: Request) {
    || b.status == a.status
    || (op.OpClaimRequest? && op.requestId == a.id && b.status == Claimed(op.leaseId, op.agentId)
        && Alive(t, op.leaseId, op.now)
        && (a.status.Queued? || (a.status.Claimed? && !Unexpired(t, a.status.leaseId, op.now))))
    || (op.OpComplete? && op.requestId == a.id && a.status == Claimed(op.leaseId, op.agentId)
        && Alive(t, op.leaseId, op.now)
        && b.status.Fulfilled? && b.status.leaseId == op.leaseId && b.status.agentId == op.agentId)
    || (op.OpFail? && op.requestId == a.id && a.status == Claimed(op.leaseId, op.agentId)
        && Alive(t, op.leaseId, op.now)
        && b.status.Failed? && b.status.leaseId == op.leaseId && b.status.agentId == op.agentId)
    || (op.OpCancel? && op.requestId == a.id && op.requesterId == a.requesterId && !a.status.Final()
        && b.status.Withdrawn?)
  }

  ghost predicate RequestMoves(t: Tables, op: Op, t2: Tables, id: Uuid) {
    id in t.requests ==>
      id in t2.requests && SameRequest(t.requests[id], t2.requests[id])
      && StatusEdge(t, op, t.requests[id], t2.requests[id])
  }

  lemma ChangedRequest(t: Tables, r: Request)
    requires Sound(t) && ChangeRequest(t, r).Ok? && r.id in t.requests && r.project == t.requests[r.id].project
    ensures ChangeRequest(t, r).value.0.requests == t.requests[r.id := r]
  {
    hide Sound, ChangeRequest, MovesOn;
    RequestChange(t, r);
  }

  lemma UnheldIsExpired(t: Tables, request: Request, now: int)
    requires SeatRows(t) && request.status.Claimed? && !ClaimIsHeld(t, request, now)
    ensures !Unexpired(t, request.status.leaseId, now)
  {
    hide SafeText;
    if LeaseById(t, request.status.leaseId).Some? { FoundLease(t, request.status.leaseId); }
  }

  lemma ClaimMoves(t: Tables, op: Op)
    requires Sound(t) && op.OpClaimRequest? && ClaimRequestStep(t, op.requestId, op.leaseId, op.agentId, op.now).Ok?
    ensures op.requestId in t.requests
    ensures var t2 := ClaimRequestStep(t, op.requestId, op.leaseId, op.agentId, op.now).value.0;
            t2.requests.Keys == t.requests.Keys && RequestMoves(t, op, t2, op.requestId)
            && t2.requests[op.requestId].status == Claimed(op.leaseId, op.agentId)
  {
    hide Sound, ChangeRequest, CurrentLease, ClaimIsHeld, Alive, Unexpired;
    RequestNames(t);
    SoundLedger(t);
    CurrentIsAlive(t, op.leaseId, op.agentId, op.now);
    var request := t.requests[op.requestId];
    var lease := CurrentLease(t, op.leaseId, op.agentId, op.now).value;
    ChangedRequest(t, request.(status := Claimed(lease.id, lease.owner.id), updatedAt := op.now));
    if request.status.Claimed? { UnheldIsExpired(t, request, op.now); }
  }

  lemma CloseMoves(env: Env, t: Tables, op: Op)
    requires Sound(t) && (op.OpComplete? || op.OpFail? || op.OpCancel?) && NextRequest(env, t, op).Ok?
    ensures op.requestId in t.requests
    ensures var t2 := NextRequest(env, t, op).value;
            t2.requests.Keys == t.requests.Keys && RequestMoves(t, op, t2, op.requestId)
  {
    hide Sound, ChangeRequest, CurrentLease, PersistedText, Alive, Unexpired;
    RequestNames(t);
    var request := t.requests[op.requestId];
    if op.OpCancel? {
      ChangedRequest(t, request.(status := Withdrawn, updatedAt := op.now));
    } else {
      CurrentIsAlive(t, op.leaseId, op.agentId, op.now);
      if op.OpComplete? {
        var body := PersistedText(env, op.summary, MAX_SUMMARY_TEXT).value;
        ChangedRequest(t, request.(status := Fulfilled(op.leaseId, op.agentId, body), updatedAt := op.now));
      } else {
        var body := PersistedText(env, op.diagnostic, MAX_SUMMARY_TEXT).value;
        ChangedRequest(t, request.(status := Failed(op.leaseId, op.agentId, op.failure, body), updatedAt := op.now));
      }
    }
  }

  lemma SideMoves(t: Tables, op: Op)
    requires Sound(t) && (op.OpReceive? || op.OpAcknowledge?) && NextOther(t, op).Ok?
    ensures RequestMoves(t, op, NextOther(t, op).value, op.requestId)
  {
    hide LedgerSound, SeatRows, CurrentLease, Alive, Unexpired;
  }

  lemma OthersMove(t: Tables, op: Op, t2: Tables, id: Uuid)
    requires id in t.requests ==> id in t2.requests && t2.requests[id] == t.requests[id]
    ensures RequestMoves(t, op, t2, id)
  {
  }

  /** Every call but clearing moves every request along an edge of its life, or leaves it alone. */
  lemma StepMovesRequests(env: Env, t: Tables, op: Op, t2: Tables, id: Uuid)
    requires Sound(t) && Step(env, t, op, t2) && !op.OpClear?
    ensures RequestMoves(t, op, t2, id)
  {
    hide Sound, Represents, NextIngest, MovesOn, SameLedgerRows, RequestMoves, CancelStep, ClaimRequestStep,
         CompleteStep, FailStep, AdvanceStep, ReceiveStep, AcknowledgeStep, HeartbeatStep, PauseStep, ResumeStep,
         ClaimStep, ReleaseStep;
    OthersMove(t, op, t, id);
    if Done(env, t, op, t2) {
      var st :| (IngestsWork(op) ==> Represents(t, ProjectOf(t, op), st)) && Next(env, t, st, op) == Ok(t2);
      if IngestsWork(op) {
        IngestWork(env, t, st, op);
        OthersMove(t, op, t2, id);
      } else if WorksOnRequest(op) {
        WorkMoves(env, t, op, id);
      } else if op.OpReceive? || op.OpAcknowledge? {
        OtherRequestWork(t, op);
        if id == op.requestId { SideMoves(t, op); } else { OthersMove(t, op, t2, id); }
      } else {
        LeaseWork(t, op);
        OthersMove(t, op, t2, id);
      }
    }
  }

  lemma WorkMoves(env: Env, t: Tables, op: Op, id: Uuid)
    requires Sound(t) && WorksOnRequest(op) && NextRequest(env, t, op).Ok?
    ensures RequestMoves(t, op, NextRequest(env, t, op).value, id)
  {
    hide Sound, MovesOn, RequestMoves, CancelStep, ClaimRequestStep, CompleteStep, FailStep, AdvanceStep;
    if id != op.requestId {
      RequestWork(env, t, op);
      OthersMove(t, op, NextRequest(env, t, op).value, id);
    } else if op.OpClaimRequest? {
      ClaimMoves(t, op);
    } else if op.OpAdvance? {
      AdvanceWork(t, op.requestId, op.leaseId, op.agentId, op.now, op.phase, op.evidenceRef);
      OthersMove(t, op, NextRequest(env, t, op).value, id);
    } else {
      CloseMoves(env, t, op);
    }
  }

  // ----- requests over whole runs -----

  /** Who a request was claimed by, while its status says. */
  function Carrier(status: RequestStatus): Option<(Uuid, Text)> {
    if status.Queued? || status.Withdrawn? then None else Some((status.leaseId, status.agentId))
  }

  /** The last successful claim of a request in the first n steps of a run. */
  ghost function LastClaim(env: Env, states: seq<Tables>, ops: seq<Op>, id: Uuid, n: nat): Option<(Uuid, Text)>
    requires n <= |ops| && |states| == |ops| + 1
  {
    if n == 0 then None
    else if ops[n - 1].OpClaimRequest? && ops[n - 1].requestId == id && Done(env, states[n - 1], ops[n - 1], states[n])
    then Some((ops[n - 1].leaseId, ops[n - 1].agentId))
    else LastClaim(env, states, ops, id, n - 1)
  }

  lemma ClaimSetsCarrier(env: Env, t: Tables, op: Op, t2: Tables)
    requires Sound(t) && op.OpClaimRequest? && Done(env, t, op, t2)
    ensures op.requestId in t2.requests && t2.requests[op.requestId].status == Claimed(op.leaseId, op.agentId)
  {
    hide Sound, Represents, ClaimRequestStep, RequestMoves, NextIngest, NextOther;
    ClaimMoves(t, op);
  }

  lemma OnlyEnqueueAddsRequests(env: Env, t: Tables, op: Op, t2: Tables, id: Uuid)
    requires Sound(t) && Step(env, t, op, t2) && id !in t.requests && id in t2.requests
    ensures op.OpEnqueue? && op.requestId == id && Done(env, t, op, t2)
    ensures t2.requests[id].status.Queued?
  {
    hide Sound, Represents, NextIngest, MovesOn, SameLedgerRows, CancelStep, ClaimRequestStep, CompleteStep, FailStep,
         AdvanceStep, ReceiveStep, AcknowledgeStep, HeartbeatStep, PauseStep, ResumeStep, ClaimStep, ReleaseStep;
    if Done(env, t, op, t2) {
      var st :| (IngestsWork(op) ==> Represents(t, ProjectOf(t, op), st)) && Next(env, t, st, op) == Ok(t2);
      if IngestsWork(op) { IngestWork(env, t, st, op); }
      else if WorksOnRequest(op) {
        RequestWork(env, t, op);
        WorkedOnIsThere(env, t, op);
      } else if op.OpReceive? || op.OpAcknowledge? {
        OtherRequestWork(t, op);
        OtherIsThere(t, op);
      } else if !op.OpClear? { LeaseWork(t, op); }
    }
  }

  lemma WorkedOnIsThere(env: Env, t: Tables, op: Op)
    requires WorksOnRequest(op) && NextRequest(env, t, op).Ok?
    ensures op.requestId in t.requests
  {
    hide CurrentLease, ChangeRequest, PersistedText, StepItem, ClaimIsHeld;
  }

  lemma OtherIsThere(t: Tables, op: Op)
    requires (op.OpReceive? || op.OpAcknowledge?) && NextOther(t, op).Ok?
    ensures op.requestId in t.requests
  {
    hide CurrentLease;
  }

  lemma ClearedRequests(env: Env, t: Tables, op: Op, t2: Tables, id: Uuid)
    requires op.OpClear? && Step(env, t, op, t2) && id in t2.requests
    ensures id in t.requests && t2.requests[id] == t.requests[id]
  {
    hide KeptTransitions, Represents;
  }

  /** Whoever a request says claimed, completed or failed it made the last successful claim of it. */
  lemma {:induction false} CarrierMadeTheLastClaim(env: Env, states: seq<Tables>, ops: seq<Op>, id: Uuid, n: nat)
    requires IsRun(env, states, ops) && n < |states| && id in states[n].requests
    requires Carrier(states[n].requests[id].status).Some?
    ensures Carrier(states[n].requests[id].status) == LastClaim(env, states, ops, id, n)
  {
    hide Sound, Step, Done, Alive, Unexpired;
    if n > 0 {
      var t, op, t2 := states[n - 1], ops[n - 1], states[n];
      EveryStateIsSound(env, states, ops, n - 1);
      if op.OpClaimRequest? && op.requestId == id && Done(env, t, op, t2) {
        ClaimSetsCarrier(env, t, op, t2);
      } else if id !in t.requests {
        OnlyEnqueueAddsRequests(env, t, op, t2, id);
      } else {
        CarrierIsKept(env, t, op, t2, id);
        CarrierMadeTheLastClaim(env, states, ops, id, n - 1);
      }
    }
  }

  lemma CarrierIsKept(env: Env, t: Tables, op: Op, t2: Tables, id: Uuid)
    requires Sound(t) && Step(env, t, op, t2) && id in t.requests && id in t2.requests
    requires !(op.OpClaimRequest? && op.requestId == id && Done(env, t, op, t2))
    requires Carrier(t2.requests[id].status).Some?
    ensures Carrier(t.requests[id].status) == Carrier(t2.requests[id].status)
  {
    hide Sound, Done, Alive, Unexpired;
    RequestNames(t);
    if op.OpClear? { ClearedRequests(env, t, op, t2, id); } else { StepMovesRequests(env, t, op, t2, id); }
  }

  /** A closed request keeps its status for ever, until it is cleared away. */
  lemma {:induction false} ClosedRequestStaysClosed(
      env: Env, states: seq<Tables>, ops: seq<Op>, id: Uuid, i: nat, j: nat)
    requires IsRun(env, states, ops) && i <= j < |states| && NoClear(ops, i, j)
    requires id in states[i].requests && states[i].requests[id].status.Final()
    ensures id in states[j].requests && states[j].requests[id].status == states[i].requests[id].status
    decreases j - i
  {
    hide Sound, Step, Alive, Unexpired;
    if i < j {
      ClosedRequestStaysClosed(env, states, ops, id, i, j - 1);
      EveryStateIsSound(env, states, ops, j - 1);
      StepMovesRequests(env, states[j - 1], ops[j - 1], states[j], id);
    }
  }

  /** A claim passes to another lease only over a step at which the first lease had no unexpired row. */
  lemma {:induction false} TakenOverOnlyWhenExpired(
      env: Env, states: seq<Tables>, ops: seq<Op>, id: Uuid, i: nat, j: nat)
    returns (k: nat)
    requires IsRun(env, states, ops) && i <= j < |states| && NoClear(ops, i, j)
    requires id in states[i].requests && states[i].requests[id].status.Claimed?
    requires id in states[j].requests && Carrier(states[j].requests[id].status).Some?
    requires Carrier(states[j].requests[id].status).value.0 != states[i].requests[id].status.leaseId
    ensures i <= k < j && ops[k].OpClaimRequest? && ops[k].requestId == id
    ensures !Unexpired(states[k], states[i].requests[id].status.leaseId, TimeOf(ops[k]))
    decreases j - i
  {
    hide Sound, Step, Alive, Unexpired;
    EveryStateIsSound(env, states, ops, i);
    StepMovesRequests(env, states[i], ops[i], states[i + 1], id);
    RequestNames(states[i]);
    var a, b := states[i].requests[id].status, states[i + 1].requests[id].status;
    if Carrier(b).Some? && Carrier(b).value.0 != a.leaseId {
      k := i;
    } else if b.Final() {
      ClosedRequestStaysClosed(env, states, ops, id, i + 1, j);
      assert false;
    } else {
      k := TakenOverOnlyWhenExpired(env, states, ops, id, i + 1, j);
    }
  }

  /** Time does not run back from a claim of the request to a later operation that presents the lease. */
  predicate ClaimsComeFirst(ops: seq<Op>, id: Uuid, leaseId: Uuid) {
    forall k :: 0 <= k < |ops| && ops[k].OpClaimRequest? && ops[k].requestId == id ==>
      PresentedAfter(ops, leaseId, k, TimeOf(ops[k]))
  }

  /** Fencing: once a claim has passed to another lease, the first lease does nothing more, if it is presented with
      no time before that claim. */
  lemma TakenOverLeaseNeverActs(env: Env, states: seq<Tables>, ops: seq<Op>, id: Uuid, i: nat, j: nat, m: nat)
    requires IsRun(env, states, ops) && i <= j <= m < |ops| && NoClear(ops, i, j)
    requires id in states[i].requests && states[i].requests[id].status.Claimed?
    requires NeverMinted(ops, states[i].requests[id].status.leaseId, i)
    requires ClaimsComeFirst(ops, id, states[i].requests[id].status.leaseId)
    requires id in states[j].requests && Carrier(states[j].requests[id].status).Some?
    requires Carrier(states[j].requests[id].status).value.0 != states[i].requests[id].status.leaseId
    requires ActsUnderLease(ops[m]) && ops[m].leaseId == states[i].requests[id].status.leaseId
    ensures !Done(env, states[m], ops[m], states[m + 1])
  {
    assert |states| == |ops| + 1;
    hide IsRun, PresentedAfter;
    var lease := states[i].requests[id].status.leaseId;
    var k := TakenOverOnlyWhenExpired(env, states, ops, id, i, j);
    var now := TimeOf(ops[k]);
    assert !Alive(states[k], lease, now);
    DeadLeaseNeverActs(env, states, ops, lease, now, k, m);
  }
}
