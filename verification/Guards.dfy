/** When a call on a request succeeds, told from the tables before it: every way such a call can fail
    (sqlite-store.ts). */
module Guards {
  import opened Wrappers
  import opened Texts
  import opened Ledger
  import opened Tables
  import opened Invariants
  import opened Refinement
  import opened Registry
  import opened Soundness
  import opened Frames
  import opened Steps
  import opened Runs
  import opened Fencing
  import opened Readability
  import opened Effects
  import RuntimeIdentity

  // ----- what the caller presents -----

  /** The lease has its row, belongs to the caller, is unexpired and active. */
  predicate Holds(lease: Lease, leaseId: Uuid, agentId: Text, now: int) {
    lease.id == leaseId && lease.owner.id == agentId && lease.expiresAt > now && lease.status == Active
  }

  ghost predicate InForce(t: Tables, leaseId: Uuid, agentId: Text, now: int) {
    exists seat :: seat in t.leases && Holds(t.leases[seat], leaseId, agentId, now)
  }

  lemma CurrentIffInForce(t: Tables, leaseId: Uuid, agentId: Text, now: nat)
    requires SeatRows(t)
    ensures CurrentLease(t, leaseId, agentId, now).Ok? <==> InForce(t, leaseId, agentId, now)
    ensures CurrentLease(t, leaseId, agentId, now).Ok? ==>
              var lease := CurrentLease(t, leaseId, agentId, now).value;
              SeatOf(lease) in t.leases && t.leases[SeatOf(lease)] == lease && Holds(lease, leaseId, agentId, now)
  {
    hide SafeText;
    if LeaseById(t, leaseId).Some? { FoundLease(t, leaseId); }
    if InForce(t, leaseId, agentId, now) {
      var seat :| seat in t.leases && Holds(t.leases[seat], leaseId, agentId, now);
      assert LeaseById(t, leaseId).Some?;
      FoundLease(t, leaseId);
    }
  }

  /** The request is claimed by the caller, under a lease of the caller's that is in force. */
  ghost predicate OwnsClaim(t: Tables, requestId: Uuid, leaseId: Uuid, agentId: Text, now: int) {
    && 0 <= now <= MAX_SAFE_INTEGER && requestId in t.requests
    && t.requests[requestId].status == Claimed(leaseId, agentId)
    && InForce(t, leaseId, agentId, now)
  }

  lemma OwnClaimIff(t: Tables, requestId: Uuid, leaseId: Uuid, agentId: Text, now: int)
    requires SeatRows(t)
    ensures OwnClaim(t, requestId, leaseId, agentId, now).Ok? <==> OwnsClaim(t, requestId, leaseId, agentId, now)
    ensures OwnClaim(t, requestId, leaseId, agentId, now).Ok? ==>
              OwnClaim(t, requestId, leaseId, agentId, now).value == t.requests[requestId]
  {
    hide SeatRows, CurrentLease, InForce;
    if 0 <= now { CurrentIffInForce(t, leaseId, agentId, now); }
  }

  /** What a caller may attach: trimmed it is not empty, not too long, without control characters and shows no
      credential. */
  predicate Attachable(env: Env, text: Text) {
    1 <= |Trim(text)| <= 4_000 && !HasUnsafeControl(Trim(text)) && !env.sensitive(Trim(text))
  }

  // ----- whether the item can follow -----

  lemma CompletedIff(t: Tables, item: Item, r: Request)
    requires r.status.Fulfilled? && TimeOk(r.updatedAt)
    ensures AfterCompleted(t, item, r).Ok? <==>
            if item.Open() then item.state.Assigned? || Working(item.state.Kind())
            else item.state.outcome == Outcome.Completed
  {
    hide StepItem, NextState, EventEntries, Identifier, CompletionEvidence, Unlisted, AdvanceRow;
    RegistryIsActor();
    if item.state.Assigned? {
      StartIsPlanned(item.state, r.id);
      StepIff(t, item, ACTOR, r.updatedAt, Start(r.id));
      var (t1, item1) := StepItem(t, item, ACTOR, r.updatedAt, Start(r.id)).value;
      SteppedState(t, item, ACTOR, r.updatedAt, Start(r.id));
      CompletionIsPlanned(item1.state, r.id);
      StepIff(t1, item1, ACTOR, r.updatedAt, Complete(CompletionEvidence(r.id)));
    } else if item.Open() {
      CompletionIsPlanned(item.state, r.id);
      StepIff(t, item, ACTOR, r.updatedAt, Complete(CompletionEvidence(r.id)));
    }
  }

  lemma SteppedState(t: Tables, item: Item, actor: Text, now: int, event: Event)
    requires StepItem(t, item, actor, now, event).Ok?
    ensures NextState(item.state, event) == Ok(StepItem(t, item, actor, now, event).value.1.state)
  {
    hide NextState, EventEntries, Identifier, AdvanceRow;
  }

  lemma ClosedIff(t: Tables, item: Item, r: Request)
    requires (r.status.Withdrawn? || r.status.Failed?) && TimeOk(r.updatedAt) && item.Open()
    ensures StepItem(t, item, ACTOR, r.updatedAt, ClosingEvent(r)).Ok?
  {
    hide StepItem, NextState, EventEntries, Identifier, ClosingEvent;
    RegistryIsActor();
    ClosingIsPlanned(item.state, r);
    StepIff(t, item, ACTOR, r.updatedAt, ClosingEvent(r));
  }

  /** With the caller's lease of the request's seat in force, only assigning may fail, if the caller's name is none. */
  lemma ClaimedIff(t: Tables, item: Item, r: Request)
    requires r.status.Claimed? && TimeOk(r.updatedAt)
    requires var lease := LeaseById(t, r.status.leaseId);
             lease.Some? && lease.value.owner.id == r.status.agentId && SeatOf(lease.value) == (r.project, r.role)
             && lease.value.status.Active? && lease.value.expiresAt > r.updatedAt
    ensures AfterClaimed(t, item, r).Ok? <==> (item.state.Ready? ==> IsIdentifier(Trim(r.status.agentId)))
  {
    hide StepItem, LeaseById, AdvanceRow, RuntimeIdentity.SameRuntimeSession, EventEntries;
    var agentId, leaseId := r.status.agentId, r.status.leaseId;
    RegistryIsActor();
    StepIff(t, item, ACTOR, r.updatedAt, Assign(agentId, leaseId));
    AssignIff(item.state, agentId, leaseId);
  }

  lemma AssignIff(state: ItemState, agentId: Text, leaseId: Uuid)
    ensures NextState(state, Assign(agentId, leaseId)).Ok? <==> state.Ready? && IsIdentifier(Trim(agentId))
    ensures EventEntries(Assign(agentId, leaseId)).Ok?
  {
    hide Trim, IsUuid;
    UuidIsIdentifier(leaseId);
    if IsIdentifier(Trim(agentId)) { IdentifierIsTrimmed(Trim(agentId)); }
  }

  /** Whether the item behind a request can follow its new status. */
  predicate CanFollow(item: Item, status: RequestStatus) {
    match status
    case Claimed(_, agentId) => item.state.Ready? ==> IsIdentifier(Trim(agentId))
    case Fulfilled(_, _, _) =>
      if item.state.Terminal? then item.state.outcome == Outcome.Completed
      else item.state.Assigned? || item.state.Implementing? || item.state.InReview? || item.state.Publishing?
    case _ => true
  }

  ghost predicate LeaseFits(t: Tables, r: Request)
    requires r.status.Claimed?
  {
    var lease := LeaseById(t, r.status.leaseId);
    lease.Some? && lease.value.owner.id == r.status.agentId && SeatOf(lease.value) == (r.project, r.role)
    && lease.value.status.Active? && lease.value.expiresAt > r.updatedAt
  }

  lemma AfterRequestIff(t: Tables, r: Request)
    requires TimeOk(r.updatedAt) && r.id in t.requests && r.project == t.requests[r.id].project
    requires r.status.Claimed? ==> LeaseFits(t, r)
    ensures AfterRequest(t, r).Ok? <==>
            Loadable(t, r.project) && (ItemOf(t, r.id).Some? ==> CanFollow(ItemOf(t, r.id).value, r.status))
  {
    hide AfterClaimed, AfterCompleted, StepItem, ClosingEvent, Loadable, Trim, IsIdentifier, LeaseById;
    if ItemOf(t, r.id).Some? {
      var item := ItemOf(t, r.id).value;
      if r.status.Claimed? { ClaimedIff(t, item, r); }
      else if r.status.Fulfilled? { CompletedIff(t, item, r); }
      else if !r.status.Queued? && item.Open() { ClosedIff(t, item, r); }
    }
  }

  lemma ChangeIff(t: Tables, r: Request)
    requires SeatRows(t) && TimeOk(r.updatedAt) && r.id in t.requests && r.project == t.requests[r.id].project
    requires r.status.Claimed? ==> LeaseFits(t, r)
    ensures ChangeRequest(t, r).Ok? <==>
            Loadable(t, r.project) && (ItemOf(t, r.id).Some? ==> CanFollow(ItemOf(t, r.id).value, r.status))
  {
    hide AfterRequest, Loadable, CanFollow, SeatRows, LeaseFits;
    LedgerRowsKept(t, r);
    if r.status.Claimed? { SameLeases(t, r); }
    AfterRequestIff(WithRequest(t, r), r);
  }

  lemma SameLeases(t: Tables, r: Request)
    requires SeatRows(t) && r.status.Claimed? && LeaseFits(t, r)
    ensures LeaseFits(WithRequest(t, r), r)
  {
    hide SeatRows, LeaseById;
    SeatsKept(t, WithRequest(t, r));
    FoundLease(t, r.status.leaseId);
    assert HasLease(WithRequest(t, r), r.status.leaseId);
    FoundLease(WithRequest(t, r), r.status.leaseId);
  }

  // ----- the calls -----

  /** The lease of the request's own seat is the caller's and in force. */
  ghost predicate HoldsSeat(t: Tables, request: Request, leaseId: Uuid, agentId: Text, now: int) {
    && (request.project, request.role) in t.leases
    && Holds(t.leases[(request.project, request.role)], leaseId, agentId, now)
  }

  /** No lease that is unexpired claims the request. */
  ghost predicate Claimable(t: Tables, request: Request, now: int) {
    request.status.Queued? || (request.status.Claimed? && !Unexpired(t, request.status.leaseId, now))
  }

  lemma ClaimableIff(t: Tables, request: Request, now: int)
    requires SeatRows(t)
    ensures Claimable(t, request, now) <==>
            !request.status.Final() && !(request.status.Claimed? && ClaimIsHeld(t, request, now))
  {
    hide SafeText;
    if request.status.Claimed? && LeaseById(t, request.status.leaseId).Some? {
      FoundLease(t, request.status.leaseId);
    }
  }

  /** A claim succeeds exactly when the caller's lease of the request's seat is in force, the request is queued or its
      claim's lease is gone or expired, the project loads, and - where the work is ready and has to be assigned - the
      caller's name is an identifier. */
  lemma ClaimSucceedsIff(env: Env, t: Tables, op: Op)
    requires Sound(t) && op.OpClaimRequest?
    ensures NextRequest(env, t, op).Ok? <==>
            && 0 <= op.now <= MAX_SAFE_INTEGER && op.requestId in t.requests
            && var request := t.requests[op.requestId];
               && HoldsSeat(t, request, op.leaseId, op.agentId, op.now) && Claimable(t, request, op.now)
               && Loadable(t, request.project)
               && (ItemOf(t, op.requestId).Some? && ItemOf(t, op.requestId).value.state.Ready? ==>
                     IsIdentifier(Trim(op.agentId)))
  {
    hide LedgerSound, SeatRows, CurrentLease, ChangeRequest, ClaimIsHeld, Claimable, Loadable, Trim, IsIdentifier,
         LeaseById, ItemOf;
    if 0 <= op.now <= MAX_SAFE_INTEGER && op.requestId in t.requests {
      var request := t.requests[op.requestId];
      CurrentIffInForce(t, op.leaseId, op.agentId, op.now);
      ClaimableIff(t, request, op.now);
      SeatIsItsOwn(t, request, op.leaseId, op.agentId, op.now);
      if HoldsSeat(t, request, op.leaseId, op.agentId, op.now) {
        var r := request.(status := Claimed(op.leaseId, op.agentId), updatedAt := op.now);
        HeldSeatFits(t, r);
        ChangeIff(t, r);
      }
    }
  }

  lemma SeatIsItsOwn(t: Tables, request: Request, leaseId: Uuid, agentId: Text, now: nat)
    requires SeatRows(t)
    ensures HoldsSeat(t, request, leaseId, agentId, now) <==>
            CurrentLease(t, leaseId, agentId, now).Ok?
            && SeatOf(CurrentLease(t, leaseId, agentId, now).value) == (request.project, request.role)
  {
    hide CurrentLease, SafeText;
    CurrentIffInForce(t, leaseId, agentId, now);
    if HoldsSeat(t, request, leaseId, agentId, now) { assert InForce(t, leaseId, agentId, now); }
  }

  lemma HeldSeatFits(t: Tables, r: Request)
    requires SeatRows(t) && r.status.Claimed? && HoldsSeat(t, r, r.status.leaseId, r.status.agentId, r.updatedAt)
    ensures LeaseFits(t, r)
  {
    hide SafeText, LeaseById;
    assert HasLease(t, r.status.leaseId);
    FoundLease(t, r.status.leaseId);
  }

  /** A completion succeeds exactly when the caller owns the claim, the summary may be kept, the project loads, and the
      item - if there is one - is assigned, in work or completed already. */
  lemma CompletionSucceedsIff(env: Env, t: Tables, op: Op)
    requires Sound(t) && op.OpComplete?
    ensures NextRequest(env, t, op).Ok? <==>
            && OwnsClaim(t, op.requestId, op.leaseId, op.agentId, op.now) && Attachable(env, op.summary)
            && Loadable(t, t.requests[op.requestId].project)
            && (ItemOf(t, op.requestId).Some? ==>
                  var state := ItemOf(t, op.requestId).value.state;
                  if state.Terminal? then state.outcome == Outcome.Completed
                  else state.Assigned? || state.Implementing? || state.InReview? || state.Publishing?)
  {
    hide LedgerSound, SeatRows, OwnClaim, ChangeRequest, InForce, Loadable, Trim, HasUnsafeControl, ItemOf;
    OwnClaimIff(t, op.requestId, op.leaseId, op.agentId, op.now);
    if OwnsClaim(t, op.requestId, op.leaseId, op.agentId, op.now) && Attachable(env, op.summary) {
      ChangeIff(t, t.requests[op.requestId].(
                   status := Fulfilled(op.leaseId, op.agentId, Trim(op.summary)), updatedAt := op.now));
    }
  }

  /** A failure can be recorded exactly when the caller owns the claim, the diagnostic may be kept and the project
      loads, whatever the item's state. */
  lemma FailureSucceedsIff(env: Env, t: Tables, op: Op)
    requires Sound(t) && op.OpFail?
    ensures NextRequest(env, t, op).Ok? <==>
            && OwnsClaim(t, op.requestId, op.leaseId, op.agentId, op.now) && Attachable(env, op.diagnostic)
            && Loadable(t, t.requests[op.requestId].project)
  {
    hide LedgerSound, SeatRows, OwnClaim, ChangeRequest, InForce, Loadable, Trim, HasUnsafeControl, ItemOf;
    OwnClaimIff(t, op.requestId, op.leaseId, op.agentId, op.now);
    if OwnsClaim(t, op.requestId, op.leaseId, op.agentId, op.now) && Attachable(env, op.diagnostic) {
      ChangeIff(t, t.requests[op.requestId].(
                   status := Failed(op.leaseId, op.agentId, op.failure, Trim(op.diagnostic)), updatedAt := op.now));
    }
  }

  /** A cancellation succeeds exactly when the requester asks for it, the request is open and the project loads. */
  lemma CancellationSucceedsIff(env: Env, t: Tables, op: Op)
    requires Sound(t) && op.OpCancel?
    ensures NextRequest(env, t, op).Ok? <==>
            && 0 <= op.now <= MAX_SAFE_INTEGER && op.requestId in t.requests
            && var request := t.requests[op.requestId];
               && request.requesterId == op.requesterId && (request.status.Queued? || request.status.Claimed?)
               && Loadable(t, request.project)
  {
    hide LedgerSound, SeatRows, ChangeRequest, Loadable, ItemOf;
    if 0 <= op.now <= MAX_SAFE_INTEGER && op.requestId in t.requests {
      ChangeIff(t, t.requests[op.requestId].(status := Withdrawn, updatedAt := op.now));
    }
  }

  /** The item is held by the caller's lease and stands in the named phase with the same reference, or in the phase
      before it. */
  predicate CanAdvance(item: Item, leaseId: Uuid, agentId: Text, phase: AdvancePhase, ref: Text) {
    && item.state.Held() && item.state.agentId == agentId && item.state.leaseId == leaseId
    && match phase
       case ToImplementation =>
         if item.state.Assigned? then IsIdentifier(Trim(agentId))
         else item.state.Implementing? && item.state.implementationRef == ref
       case ToReview =>
         if item.state.Implementing? then IsIdentifier(Trim(agentId))
         else item.state.InReview? && item.state.reviewRef == ref
       case ToPublication =>
         if item.state.InReview? then IsIdentifier(Trim(agentId))
         else item.state.Publishing? && item.state.publicationRef == ref
  }

  lemma EventFits(state: ItemState, phase: AdvancePhase, ref: Text)
    requires Trim(ref) == ref && SafeText(ref, MAX_REF_UNITS)
    ensures NextState(state, AdvanceEvent(phase, ref)).Ok? <==>
            match phase
            case ToImplementation => state.Assigned?
            case ToReview => state.Implementing?
            case ToPublication => state.InReview?
    ensures EventEntries(AdvanceEvent(phase, ref)).Ok?
  {
    hide Trim, HasUnsafeControl;
  }

  lemma IdentifierIff(text: Text)
    ensures Identifier(text).Ok? <==> IsIdentifier(Trim(text))
  {
    hide Trim;
    if IsIdentifier(Trim(text)) { IdentifierIsTrimmed(Trim(text)); }
  }

  /** Advancing succeeds exactly when the caller owns the claim, the project loads, the reference is safe text, and the
      item is held by the caller's lease in the phase before the named one, or in that one with the same reference. */
  lemma AdvanceSucceedsIff(env: Env, t: Tables, op: Op)
    requires Sound(t) && op.OpAdvance?
    ensures NextRequest(env, t, op).Ok? <==>
            && OwnsClaim(t, op.requestId, op.leaseId, op.agentId, op.now)
            && Loadable(t, t.requests[op.requestId].project)
            && SafeText(Trim(op.evidenceRef), 1_024)
            && ItemOf(t, op.requestId).Some?
            && CanAdvance(ItemOf(t, op.requestId).value, op.leaseId, op.agentId, op.phase, Trim(op.evidenceRef))
  {
    hide LedgerSound, SeatRows, OwnClaim, InForce, Loadable, Trim, HasUnsafeControl, StepItem, AdvanceEvent,
         NextState, IsIdentifier;
    OwnClaimIff(t, op.requestId, op.leaseId, op.agentId, op.now);
    if OwnsClaim(t, op.requestId, op.leaseId, op.agentId, op.now) && SafeText(Trim(op.evidenceRef), 1_024)
       && ItemOf(t, op.requestId).Some? {
      var item, ref := ItemOf(t, op.requestId).value, Trim(op.evidenceRef);
      TrimIsStable(op.evidenceRef);
      StepIff(t, item, op.agentId, op.now, AdvanceEvent(op.phase, ref));
      EventFits(item.state, op.phase, ref);
      IdentifierIff(op.agentId);
    }
  }

  // ----- calls on a lease -----

  predicate TimesOk(now: int, ttl: int) {
    0 <= now <= MAX_SAFE_INTEGER && 1 <= ttl <= 86_400_000 && now + ttl <= MAX_SAFE_INTEGER
  }

  /** The caller's lease has its row, and satisfies some more. */
  ghost predicate Owns(t: Tables, leaseId: Uuid, agentId: Text, more: Lease -> bool) {
    exists seat :: seat in t.leases && t.leases[seat].id == leaseId && t.leases[seat].owner.id == agentId
      && more(t.leases[seat])
  }

  lemma OwnsIff(t: Tables, leaseId: Uuid, agentId: Text, more: Lease -> bool)
    requires SeatRows(t)
    ensures Owns(t, leaseId, agentId, more) <==>
            LeaseById(t, leaseId).Some? && LeaseById(t, leaseId).value.owner.id == agentId
            && more(LeaseById(t, leaseId).value)
  {
    hide SafeText;
    if LeaseById(t, leaseId).Some? { FoundLease(t, leaseId); }
    if Owns(t, leaseId, agentId, more) { assert HasLease(t, leaseId); }
  }

  /** A heartbeat succeeds exactly on an unexpired lease of the caller's, suspended or not; a pause needs one that is
      not suspended, a resumption a paused one that was granted under the presented policy, and a release any. */
  lemma RenewalSucceedsIff(t: Tables, op: Op)
    requires Sound(t) && (op.OpHeartbeat? || op.OpPause? || op.OpResume? || op.OpRelease?)
    ensures NextOther(t, op).Ok? <==>
            match op
            case OpHeartbeat(id, agentId, policy, now, ttl) =>
              TimesOk(now, ttl) && SafeText(Trim(policy), 256) && Owns(t, id, agentId, (l: Lease) => l.expiresAt > now)
            case OpPause(id, agentId, now) =>
              0 <= now <= MAX_SAFE_INTEGER
              && Owns(t, id, agentId, (l: Lease) => l.expiresAt > now && l.status != Suspended)
            case OpResume(id, agentId, policy, now, ttl) =>
              TimesOk(now, ttl) && SafeText(Trim(policy), 256)
              && Owns(t, id, agentId,
                      (l: Lease) => l.expiresAt > now && l.status == Paused && l.policyDigest == Trim(policy))
            case OpRelease(id, agentId, now) =>
              0 <= now <= MAX_SAFE_INTEGER && Owns(t, id, agentId, (l: Lease) => true)
  {
    hide LedgerSound, SeatRows, RequestRows, LeaseById, Owns, Trim, HasUnsafeControl;
    match op
    case OpHeartbeat(id, agentId, _, now, _) => OwnsIff(t, id, agentId, (l: Lease) => l.expiresAt > now);
    case OpPause(id, agentId, now) =>
      OwnsIff(t, id, agentId, (l: Lease) => l.expiresAt > now && l.status != Suspended);
    case OpResume(id, agentId, policy, now, _) =>
      OwnsIff(t, id, agentId,
              (l: Lease) => l.expiresAt > now && l.status == Paused && l.policyDigest == Trim(policy));
    case OpRelease(id, agentId, _) => OwnsIff(t, id, agentId, (l: Lease) => true);
  }

  /** A role's name: up to 64 small letters, digits and dashes, a letter first. */
  predicate RoleOk(name: Text) {
    && 1 <= |name| <= 64 && 97 <= name[0] <= 122
    && forall i :: 0 <= i < |name| ==> 97 <= name[i] <= 122 || 48 <= name[i] <= 57 || name[i] == 45
  }

  /** The seats whose lease is unexpired. */
  function Taken(t: Tables, now: int): set<Seat> {
    set seat | seat in t.leases && t.leases[seat].expiresAt > now
  }

  lemma PrunedIsTaken(t: Tables, now: int)
    ensures Prune(t.leases, now).Keys == Taken(t, now) && |Prune(t.leases, now)| == |Taken(t, now)|
  {
    assert Prune(t.leases, now).Keys == Taken(t, now);
  }

  lemma FreshIff(t: Tables, id: Uuid, now: int)
    ensures HasLease(t.(leases := Prune(t.leases, now)), id) <==>
            exists seat :: seat in Taken(t, now) && t.leases[seat].id == id
  {
    if seat :| seat in Taken(t, now) && t.leases[seat].id == id {
      assert seat in Prune(t.leases, now);
    }
  }

  /** A claim succeeds exactly with valid arguments, if its seat is taken - the caller learns by whom - or there is room
      for one more unexpired lease, it ends in time and its identifier is new. */
  lemma LeaseIsClaimedIff(t: Tables, op: Op)
    requires op.OpClaim?
    ensures NextOther(t, op).Ok? <==>
            && 0 <= op.now <= MAX_SAFE_INTEGER && 1 <= op.ttl <= 86_400_000
            && SafeText(Trim(op.agent.id), 128) && op.agent.pid >= 1 && RoleOk(Trim(op.role))
            && SafeText(Trim(op.policy), 256)
            && ((op.project, Trim(op.role)) in Taken(t, op.now)
                || (|Taken(t, op.now)| < 1_024 && TimesOk(op.now, op.ttl)
                    && !exists seat :: seat in Taken(t, op.now) && t.leases[seat].id == op.newId))
  {
    hide Trim, HasUnsafeControl, Prune, HasLease, Taken;
    PrunedIsTaken(t, op.now);
    FreshIff(t, op.newId, op.now);
  }

  // ----- receipts, acknowledgements and clearing -----

  /** Receiving a queued request stores the receipt of the caller's lease, which is of the request's seat and in force;
      the same receipt again changes nothing, not even its time. */
  lemma ReceivingDoes(t: Tables, op: Op)
    requires Sound(t) && op.OpReceive?
    ensures NextOther(t, op).Ok? <==>
            && 0 <= op.now <= MAX_SAFE_INTEGER && op.requestId in t.requests
            && t.requests[op.requestId].status == Queued
            && HoldsSeat(t, t.requests[op.requestId], op.leaseId, op.agentId, op.now)
    ensures NextOther(t, op).Ok? ==>
              var request := t.requests[op.requestId];
              var known := request.receipt.Some? && request.receipt.value.leaseId == op.leaseId
                           && request.receipt.value.agentId == op.agentId;
              NextOther(t, op).value ==
              if known then t
              else t.(requests := t.requests[
                        op.requestId := request.(receipt := Some(Receipt(op.now, op.agentId, op.leaseId)))])
  {
    hide LedgerSound, SeatRows, CurrentLease, HoldsSeat;
    if 0 <= op.now <= MAX_SAFE_INTEGER && op.requestId in t.requests {
      CurrentIffInForce(t, op.leaseId, op.agentId, op.now);
      SeatIsItsOwn(t, t.requests[op.requestId], op.leaseId, op.agentId, op.now);
    }
  }

  /** The requester of a closed request, and nobody else, may acknowledge it: its row says when. */
  lemma AcknowledgingDoes(t: Tables, op: Op)
    requires Sound(t) && op.OpAcknowledge?
    ensures NextOther(t, op).Ok? <==>
            && 0 <= op.now <= MAX_SAFE_INTEGER && op.requestId in t.requests
            && var request := t.requests[op.requestId];
               && request.requesterId == op.requesterId && request.status != Queued && !request.status.Claimed?
    ensures NextOther(t, op).Ok? ==>
              NextOther(t, op).value == t.(requests := t.requests[
                                             op.requestId := t.requests[op.requestId].(acknowledgedAt := Some(op.now))])
  {
    hide LedgerSound, SeatRows;
    RequestNames(t);
  }

  /** A row of one of the kept projects. */
  ghost predicate OfKept(t: Tables, keep: Text -> bool, itemId: Text) {
    itemId in t.items && keep(t.items[itemId].project)
  }

  /** Clearing keeps the rows of the named projects, and of no others, as they are: leases, requests, items, and the
      sources, requirements, evidence and steps of these items. */
  lemma ClearingDoes(t: Tables, op: Op)
    requires op.OpClear? && NextOther(t, op).Ok?
    ensures var t2 := NextOther(t, op).value;
            && (forall s :: s in t2.leases <==> s in t.leases && op.keep(t.leases[s].project))
            && (forall r :: r in t2.requests <==> r in t.requests && op.keep(t.requests[r].project))
            && (forall i :: i in t2.items <==> OfKept(t, op.keep, i))
            && (forall k :: k in t2.sources <==> k in t.sources && OfKept(t, op.keep, t.sources[k].itemId))
            && (forall k :: k in t2.requirements <==>
                            k in t.requirements && OfKept(t, op.keep, t.requirements[k].itemId))
            && (forall k :: k in t2.evidence <==> k in t.evidence && OfKept(t, op.keep, t.evidence[k].itemId))
            && (forall s :: s in t2.leases ==> t2.leases[s] == t.leases[s])
            && (forall r :: r in t2.requests ==> t2.requests[r] == t.requests[r])
            && (forall i :: i in t2.items ==> t2.items[i] == t.items[i])
            && (forall k :: k in t2.sources ==> t2.sources[k] == t.sources[k])
            && (forall k :: k in t2.requirements ==> t2.requirements[k] == t.requirements[k])
            && (forall k :: k in t2.evidence ==> t2.evidence[k] == t.evidence[k])
  {
    hide KeptTransitions;
  }

  /** The steps of every kept item are kept in order, and no others are. */
  lemma ClearingKeepsTrails(t: Tables, op: Op, id: Text)
    requires op.OpClear? && NextOther(t, op).Ok?
    ensures Trail(NextOther(t, op).value.transitions, id)
            == if OfKept(t, op.keep, id) then Trail(t.transitions, id) else []
  {
    var kept := KeptTransitions(t, op.keep, t.transitions);
    if OfKept(t, op.keep, id) {
      KeptTrail(t, op.keep, t.transitions, id);
    } else {
      KeptAreThere(t, op.keep, t.transitions);
      NoTrail(kept, id);
    }
  }
}
