/** Every registry operation as one step of the whole store, and what every step keeps. */
module Steps {
  import opened Wrappers
  import opened Texts
  import opened Ledger
  import opened Tables
  import opened Invariants
  import opened Evolution
  import opened Refinement
  import opened Loader
  import opened Registry
  import opened Soundness
  import opened Reconcile
  import opened Frames

  datatype Op =
    | OpClaim(newId: Uuid, agent: Agent, project: Text, role: Text, mode: LeaseMode, policy: Text, now: int, ttl: int)
    | OpHeartbeat(leaseId: Uuid, agentId: Text, policy: Text, now: int, ttl: int)
    | OpPause(leaseId: Uuid, agentId: Text, now: int)
    | OpResume(leaseId: Uuid, agentId: Text, policy: Text, now: int, ttl: int)
    | OpRelease(leaseId: Uuid, agentId: Text, now: int)
    | OpEnqueue(requestId: Uuid, itemId: Uuid, project: Text, role: Text, requesterId: Text, text: Text,
                priority: Priority, now: int)
    | OpReceive(requestId: Uuid, leaseId: Uuid, agentId: Text, now: int)
    | OpAcknowledge(requestId: Uuid, requesterId: Text, now: int)
    | OpCancel(requestId: Uuid, requesterId: Text, now: int)
    | OpClaimRequest(requestId: Uuid, leaseId: Uuid, agentId: Text, now: int)
    | OpAdvance(requestId: Uuid, leaseId: Uuid, agentId: Text, now: int, phase: AdvancePhase, evidenceRef: Text)
    | OpComplete(requestId: Uuid, leaseId: Uuid, agentId: Text, now: int, summary: Text)
    | OpFail(requestId: Uuid, leaseId: Uuid, agentId: Text, now: int, failure: Failure, diagnostic: Text)
    | OpMessage(message: Message, itemId: Uuid)
    | OpCanonical(uuids: Text -> Uuid, project: Text, kind: SourceKind, scopeId: Text, observedAt: int,
                  records: seq<(Text, FeedRecord)>)
    | OpBranch(uuids: Text -> Uuid, project: Text, observedAt: int, records: seq<(Text, FeedRecord)>)
    | OpClear(keep: Text -> bool, now: int)

  /** The time an operation carries. */
  function TimeOf(op: Op): int {
    match op
    case OpMessage(m, _) => m.observedAt
    case OpCanonical(_, _, _, _, observedAt, _) => observedAt
    case OpBranch(_, _, observedAt, _) => observedAt
    case _ => op.now
  }

  predicate IngestsWork(op: Op) {
    op.OpEnqueue? || op.OpMessage? || op.OpCanonical? || op.OpBranch?
  }

  predicate WorksOnRequest(op: Op) {
    op.OpCancel? || op.OpClaimRequest? || op.OpAdvance? || op.OpComplete? || op.OpFail?
  }

  /** The project whose ledger an operation may change. */
  function ProjectOf(t: Tables, op: Op): Text {
    match op
    case OpEnqueue(_, _, project, _, _, _, _, _) => project
    case OpMessage(m, _) => m.project
    case OpCanonical(_, project, _, _, _, _) => project
    case OpBranch(_, project, _, _) => project
    case _ => if WorksOnRequest(op) && op.requestId in t.requests then t.requests[op.requestId].project else []
  }

  function Rows<T>(r: Result<(Tables, T), RegistryError>): Result<Tables, RegistryError> {
    if r.Ok? then Ok(r.value.0) else Err(r.error)
  }

  function FeedOf(op: Op): Feed
    requires op.OpCanonical? || op.OpBranch?
  {
    if op.OpCanonical? then CanonicalFeed(op.project, op.kind, op.scopeId, op.observedAt, op.records)
    else BranchTodoFeed(op.project, op.observedAt, op.records)
  }

  /** The tables after an operation that ingests work into the ledger the reader loaded. */
  ghost function NextIngest(env: Env, t: Tables, st: Backlog, op: Op): Result<Tables, RegistryError>
    requires IngestsWork(op)
  {
    match op
    case OpEnqueue(newId, itemId, project, role, requesterId, text, priority, now) =>
      Rows(EnqueueStep(env, t, st, newId, itemId, project, role, requesterId, text, priority, now))
    case OpMessage(m, itemId) => Rows(MessageStep(env, t, st, m, itemId))
    case _ => Rows(ReconcileStep(env.sha, op.uuids, t, st, FeedOf(op)))
  }

  ghost function NextRequest(env: Env, t: Tables, op: Op): Result<Tables, RegistryError>
    requires WorksOnRequest(op)
  {
    match op
    case OpCancel(id, requesterId, now) => Rows(CancelStep(t, id, requesterId, now))
    case OpClaimRequest(id, leaseId, agentId, now) => Rows(ClaimRequestStep(t, id, leaseId, agentId, now))
    case OpAdvance(id, leaseId, agentId, now, phase, ref) => Rows(AdvanceStep(t, id, leaseId, agentId, now, phase, ref))
    case OpComplete(id, leaseId, agentId, now, summary) =>
      Rows(CompleteStep(env, t, id, leaseId, agentId, now, summary))
    case OpFail(id, leaseId, agentId, now, failure, diagnostic) =>
      Rows(FailStep(env, t, id, leaseId, agentId, now, failure, diagnostic))
  }

  ghost function NextOther(t: Tables, op: Op): Result<Tables, RegistryError>
    requires !IngestsWork(op) && !WorksOnRequest(op)
  {
    match op
    case OpClaim(newId, agent, project, role, mode, policy, now, ttl) =>
      Rows(ClaimStep(t, newId, agent, project, role, mode, policy, now, ttl))
    case OpHeartbeat(leaseId, agentId, policy, now, ttl) => Rows(HeartbeatStep(t, leaseId, agentId, policy, now, ttl))
    case OpPause(leaseId, agentId, now) => Rows(PauseStep(t, leaseId, agentId, now))
    case OpResume(leaseId, agentId, policy, now, ttl) => Rows(ResumeStep(t, leaseId, agentId, policy, now, ttl))
    case OpRelease(leaseId, agentId, now) => Rows(ReleaseStep(t, leaseId, agentId, now))
    case OpReceive(id, leaseId, agentId, now) => Rows(ReceiveStep(t, id, leaseId, agentId, now))
    case OpAcknowledge(id, requesterId, now) => Rows(AcknowledgeStep(t, id, requesterId, now))
    case OpClear(keep, now) => Rows(ClearStep(t, keep, now))
  }

  ghost function Next(env: Env, t: Tables, st: Backlog, op: Op): Result<Tables, RegistryError> {
    if IngestsWork(op) then NextIngest(env, t, st, op)
    else if WorksOnRequest(op) then NextRequest(env, t, op)
    else NextOther(t, op)
  }

  /** A successful operation; work is ingested into the project's ledger as loaded, in whatever row order. */
  ghost predicate Done(env: Env, t: Tables, op: Op, t2: Tables) {
    exists st :: (IngestsWork(op) ==> Represents(t, ProjectOf(t, op), st)) && Next(env, t, st, op) == Ok(t2)
  }

  /** One call: it succeeds, or it fails and leaves no trace. */
  ghost predicate Step(env: Env, t: Tables, op: Op, t2: Tables) {
    Done(env, t, op, t2) || t2 == t
  }

  // ----- what a successful operation does to the ledger -----

  ghost predicate SameRequestsBut(t: Tables, t2: Tables, id: Uuid) {
    && (forall r :: r != id ==> (r in t.requests <==> r in t2.requests))
    && (forall r :: r != id && r in t.requests ==> t2.requests[r] == t.requests[r])
  }

  /** The ledger moves on in one project at one time, and only if the reader accepts that project. */
  ghost predicate MovesOn(t: Tables, t2: Tables, project: Text, at: int) {
    && Follows(t, t2) && Stamped(t, t2, project, at) && Dated(t, t2, project, at)
    && (!Loadable(t, project) ==> t2.items == t.items && t2.transitions == t.transitions)
  }

  lemma RowsOnlyMoveOn(t: Tables, t1: Tables, t2: Tables, project: Text, at: int)
    requires SameLedgerRows(t, t1) && Evolves(t1, t2, project, at)
    requires Loadable(t, project)
    ensures MovesOn(t, t2, project, at)
  {
  }

  lemma SameRowsMoveOn(t: Tables, t2: Tables, project: Text, at: int)
    requires SameLedgerRows(t, t2)
    ensures MovesOn(t, t2, project, at)
  {
  }

  lemma RequestChange(t: Tables, r: Request)
    requires Sound(t) && ChangeRequest(t, r).Ok? && r.id in t.requests && r.project == t.requests[r.id].project
    ensures var t2 := ChangeRequest(t, r).value.0;
            Sound(t2) && MovesOn(t, t2, r.project, r.updatedAt)
            && t2.leases == t.leases && t2.requests == t.requests[r.id := r]
  {
    hide LedgerSound, AfterRequest, SeatRows, MovesOn, Evolves;
    var t1 := WithRequest(t, r);
    LedgerFrame(t, t1);
    assert SeatRows(t1) by { SeatsKept(t, t1); }
    AfterRequestKeepsSound(t1, r);
    var t2 := AfterRequest(t1, r).value;
    LoadedBefore(t1, r);
    RowsOnlyMoveOn(t, t1, t2, r.project, r.updatedAt);
    EvolvedSides(t1, t2, r.project, r.updatedAt);
    SeatsKept(t, t2);
  }

  lemma EvolvedSides(t: Tables, t2: Tables, project: Text, at: int)
    requires Evolves(t, t2, project, at)
    ensures t2.leases == t.leases && t2.requests == t.requests
  {
  }

  lemma LoadedBefore(t: Tables, r: Request)
    requires AfterRequest(t, r).Ok?
    ensures Loadable(t, r.project)
  {
    hide AfterClaimed, AfterCompleted, StepItem;
  }

  lemma RequestWork(env: Env, t: Tables, op: Op)
    requires Sound(t) && WorksOnRequest(op) && NextRequest(env, t, op).Ok?
    ensures var t2 := NextRequest(env, t, op).value;
            Sound(t2) && MovesOn(t, t2, ProjectOf(t, op), TimeOf(op))
            && t2.leases == t.leases && SameRequestsBut(t, t2, op.requestId)
  {
    hide Sound, MovesOn, ChangeRequest, CurrentLease, PersistedText, ClaimIsHeld, AdvanceStep;
    assert forall id :: id in t.requests ==> t.requests[id].id == id by { RequestNames(t); }
    if op.OpCancel? {
      RequestChange(t, t.requests[op.requestId].(status := Withdrawn, updatedAt := op.now));
    } else if op.OpAdvance? {
      AdvanceWork(t, op.requestId, op.leaseId, op.agentId, op.now, op.phase, op.evidenceRef);
    } else {
      var lease := CurrentLease(t, op.leaseId, op.agentId, op.now).value;
      if op.OpClaimRequest? {
        RequestChange(t, t.requests[op.requestId].(status := Claimed(lease.id, lease.owner.id), updatedAt := op.now));
      } else if op.OpComplete? {
        var body := PersistedText(env, op.summary, MAX_SUMMARY_TEXT).value;
        RequestChange(
          t, t.requests[op.requestId].(status := Fulfilled(op.leaseId, op.agentId, body), updatedAt := op.now));
      } else {
        var body := PersistedText(env, op.diagnostic, MAX_SUMMARY_TEXT).value;
        RequestChange(
          t, t.requests[op.requestId].(
            status := Failed(op.leaseId, op.agentId, op.failure, body), updatedAt := op.now));
      }
    }
  }

  lemma AdvanceWork(
    t: Tables, id: Uuid, leaseId: Uuid, agentId: Text, now: int, phase: AdvancePhase, ref: Text)
    requires Sound(t) && AdvanceStep(t, id, leaseId, agentId, now, phase, ref).Ok?
    ensures id in t.requests
    ensures var t2 := AdvanceStep(t, id, leaseId, agentId, now, phase, ref).value.0;
            Sound(t2) && MovesOn(t, t2, t.requests[id].project, now) && t2.leases == t.leases
            && t2.requests == t.requests
  {
    hide LedgerSound, SeatRows, MovesOn, Evolves, StepItem, CurrentLease, Reached, AdvanceEvent, ShortKinds, Loadable;
    var t2 := AdvanceStep(t, id, leaseId, agentId, now, phase, ref).value.0;
    var item := t.items[t.sources[(RegistryRequest, id)].itemId];
    assert t.items[item.id] == item by { RowsNameThemselves(t, t.sources[(RegistryRequest, id)].itemId); }
    var text := BoundedText(ref, 1_024, RegistryError.Invalid).value;
    if Reached(item.state, phase, text) {
      assert t2 == t;
      SameRowsMoveOn(t, t, t.requests[id].project, now);
    } else {
      AdvanceEventsAreShort(phase, text);
      StepItemKeepsSound(t, item, agentId, now, AdvanceEvent(phase, text));
      EvolvedSides(t, t2, t.requests[id].project, now);
      RowsOnlyMoveOn(t, t, t2, t.requests[id].project, now);
      SeatsKept(t, t2);
    }
  }

  lemma AdvanceEventsAreShort(phase: AdvancePhase, ref: Text)
    ensures ShortKinds(AdvanceEvent(phase, ref))
  {
  }

  lemma IngestWork(env: Env, t: Tables, st: Backlog, op: Op)
    requires Sound(t) && IngestsWork(op) && Represents(t, ProjectOf(t, op), st) && NextIngest(env, t, st, op).Ok?
    ensures var t2 := NextIngest(env, t, st, op).value;
            Sound(t2) && MovesOn(t, t2, ProjectOf(t, op), TimeOf(op)) && t2.leases == t.leases
            && (if op.OpEnqueue? then
                  op.requestId !in t.requests && op.requestId in t2.requests && t2.requests[op.requestId].status.Queued?
                  && t2.requests[op.requestId].receipt.None? && SameRequestsBut(t, t2, op.requestId)
                else t2.requests == t.requests)
  {
    hide LedgerSound, SeatRows, RequestRows, Evolves, Represents, Ingest, IngestStep, MovesOn, Loadable, NewRequest,
         ReconcileGroups, FeedOf, InStep;
    var t2 := NextIngest(env, t, st, op).value;
    match op
    case OpEnqueue(newId, itemId, project, role, requesterId, text, priority, now) =>
      EnqueueWork(env, t, st, newId, itemId, project, role, requesterId, text, priority, now);
    case OpMessage(m, itemId) =>
      IngestStepKeepsSound(t, m.project, env.sha, st, MessageInput(m, itemId));
      EvolvedSides(t, t2, m.project, m.observedAt);
      SeatsKept(t, t2);
      RequestsFrame(t, t2);
      RowsOnlyMoveOn(t, t, t2, m.project, m.observedAt);
    case _ =>
      FeedWork(env, t, st, op);
  }

  lemma RequestsFrame(t: Tables, t2: Tables)
    requires RequestRows(t) && t2.requests == t.requests
    ensures RequestRows(t2)
  {
  }

  lemma FeedsHaveShortStatus(op: Op)
    requires op.OpCanonical? || op.OpBranch?
    ensures ShortStatus(FeedOf(op)) && FeedOf(op).project == op.project && FeedOf(op).observedAt == op.observedAt
  {
    hide ShortStatus;
    if op.OpCanonical? {
      SnapshotsHaveShortStatus(op.project, op.kind, op.scopeId, op.observedAt, op.records);
    } else {
      SnapshotsHaveShortStatus(op.project, BranchTodo, [], op.observedAt, op.records);
    }
  }

  lemma FeedWork(env: Env, t: Tables, st: Backlog, op: Op)
    requires Sound(t) && (op.OpCanonical? || op.OpBranch?) && Represents(t, op.project, st)
    requires ReconcileStep(env.sha, op.uuids, t, st, FeedOf(op)).Ok?
    ensures var t2 := ReconcileStep(env.sha, op.uuids, t, st, FeedOf(op)).value.0;
            Sound(t2) && MovesOn(t, t2, op.project, op.observedAt) && t2.leases == t.leases && t2.requests == t.requests
  {
    hide LedgerSound, SeatRows, RequestRows, Evolves, Represents, MovesOn, Loadable, ReconcileGroups, FeedOf,
         ShortStatus;
    FeedsHaveShortStatus(op);
    GroupsKeepInStep(env.sha, op.uuids, Work(t, st), FeedOf(op), FeedOf(op).groups);
    var t2 := ReconcileStep(env.sha, op.uuids, t, st, FeedOf(op)).value.0;
    EvolvedSides(t, t2, op.project, op.observedAt);
    SeatsKept(t, t2);
    RequestsFrame(t, t2);
    RowsOnlyMoveOn(t, t, t2, op.project, op.observedAt);
  }

  lemma EnqueueWork(
    env: Env, t: Tables, st: Backlog, newId: Uuid, itemId: Uuid, project: Text, role: Text, requesterId: Text,
    text: Text, priority: Priority, now: int)
    requires Sound(t) && Represents(t, project, st)
    requires EnqueueStep(env, t, st, newId, itemId, project, role, requesterId, text, priority, now).Ok?
    ensures var t2 := EnqueueStep(env, t, st, newId, itemId, project, role, requesterId, text, priority, now).value.0;
            Sound(t2) && MovesOn(t, t2, project, now) && t2.leases == t.leases
            && newId !in t.requests && newId in t2.requests && t2.requests[newId].status.Queued?
            && t2.requests[newId].receipt.None? && SameRequestsBut(t, t2, newId)
  {
    hide LedgerSound, SeatRows, Evolves, Represents, Ingest, IngestStep, MovesOn, Loadable, RoleName, BoundedText;
    var request := NewRequest(env, newId, project, role, requesterId, text, priority, now).value;
    var t1 := WithRequest(t, request);
    LedgerFrame(t, t1);
    LedgerRepresented(t, t1, project, st);
    IngestStepKeepsSound(t1, project, env.sha, st, RequestInput(request, itemId));
    var t2 := EnqueueStep(env, t, st, newId, itemId, project, role, requesterId, text, priority, now).value.0;
    EvolvedSides(t1, t2, project, now);
    SeatsKept(t, t2);
    RowsOnlyMoveOn(t, t1, t2, project, now);
  }

  lemma SeatChange(t: Tables, t2: Tables)
    requires Sound(t) && SeatRows(t2) && SameLedgerRows(t, t2) && t2.requests == t.requests
    ensures Sound(t2)
  {
    hide LedgerSound, SeatRows, RequestRows, SameLedgerRows;
    LedgerFrame(t, t2);
    RequestsFrame(t, t2);
  }

  /** The lease a heartbeat, a pause or a resumption writes. */
  ghost function RenewedLease(t: Tables, op: Op): Result<(Tables, Lease), RegistryError>
    requires op.OpHeartbeat? || op.OpPause? || op.OpResume?
  {
    match op
    case OpHeartbeat(leaseId, agentId, policy, now, ttl) => HeartbeatStep(t, leaseId, agentId, policy, now, ttl)
    case OpPause(leaseId, agentId, now) => PauseStep(t, leaseId, agentId, now)
    case OpResume(leaseId, agentId, policy, now, ttl) => ResumeStep(t, leaseId, agentId, policy, now, ttl)
  }

  /** A renewed lease is the presented one: it was unexpired and not suspended unless it stays suspended. */
  lemma RenewedLeaseIsFound(t: Tables, op: Op)
    requires (op.OpHeartbeat? || op.OpPause? || op.OpResume?) && RenewedLease(t, op).Ok?
    ensures var found, (t2, lease) := LeaseById(t, op.leaseId), RenewedLease(t, op).value;
            && found.Some? && t2 == WithLease(t, lease)
            && lease.id == op.leaseId && SeatOf(lease) == SeatOf(found.value) && lease.owner == found.value.owner
            && found.value.owner.id == op.agentId && found.value.expiresAt > op.now
            && (found.value.status.Suspended? ==> lease.status.Suspended?)
  {
    hide LeaseById, BoundedText;
  }

  lemma RenewWork(t: Tables, op: Op)
    requires Sound(t) && (op.OpHeartbeat? || op.OpPause? || op.OpResume?) && RenewedLease(t, op).Ok?
    ensures var t2 := RenewedLease(t, op).value.0;
            Sound(t2) && SameLedgerRows(t, t2) && t2.requests == t.requests
  {
    hide LedgerSound, SeatRows, RequestRows, LeaseById, RenewedLease;
    RenewedLeaseIsFound(t, op);
    UpdatedLeaseKeepsSeats(t, op.leaseId, RenewedLease(t, op).value.1);
    SeatChange(t, RenewedLease(t, op).value.0);
  }

  lemma ClaimLeavesTheLedger(
    t: Tables, newId: Uuid, agent: Agent, project: Text, role: Text, mode: LeaseMode, policy: Text, now: int, ttl: int)
    requires ClaimStep(t, newId, agent, project, role, mode, policy, now, ttl).Ok?
    ensures var t2 := ClaimStep(t, newId, agent, project, role, mode, policy, now, ttl).value.0;
            SameLedgerRows(t, t2) && t2.requests == t.requests
  {
    hide BoundedText, RoleName, HasLease, Prune;
  }

  lemma ClaimWork(t: Tables, op: Op)
    requires Sound(t) && op.OpClaim? && NextOther(t, op).Ok?
    ensures var t2 := NextOther(t, op).value;
            Sound(t2) && SameLedgerRows(t, t2) && t2.requests == t.requests
  {
    hide LedgerSound, SeatRows, RequestRows, ClaimStep, SameLedgerRows;
    ClaimKeepsSeats(t, op.newId, op.agent, op.project, op.role, op.mode, op.policy, op.now, op.ttl);
    ClaimLeavesTheLedger(t, op.newId, op.agent, op.project, op.role, op.mode, op.policy, op.now, op.ttl);
    SeatChange(t, NextOther(t, op).value);
  }

  lemma ReleaseWork(t: Tables, op: Op)
    requires Sound(t) && op.OpRelease? && NextOther(t, op).Ok?
    ensures var t2 := NextOther(t, op).value;
            Sound(t2) && SameLedgerRows(t, t2) && t2.requests == t.requests
  {
    hide LedgerSound, SeatRows, RequestRows, LeaseById;
    RemovedLeaseKeepsSeats(t, SeatOf(LeaseById(t, op.leaseId).value));
    SeatChange(t, NextOther(t, op).value);
  }

  lemma LeaseWork(t: Tables, op: Op)
    requires Sound(t) && (op.OpClaim? || op.OpHeartbeat? || op.OpPause? || op.OpResume? || op.OpRelease?)
    requires NextOther(t, op).Ok?
    ensures var t2 := NextOther(t, op).value;
            Sound(t2) && SameLedgerRows(t, t2) && t2.requests == t.requests
  {
    hide Sound, SameLedgerRows, ClaimStep, ReleaseStep, HeartbeatStep, PauseStep, ResumeStep;
    if op.OpClaim? { ClaimWork(t, op); }
    else if op.OpRelease? { ReleaseWork(t, op); }
    else { RenewWork(t, op); }
  }

  lemma RemovedLeaseKeepsSeats(t: Tables, seat: Seat)
    requires SeatRows(t)
    ensures SeatRows(t.(leases := t.leases - {seat}))
  {
    hide SafeText;
  }

  lemma RewrittenRequest(t: Tables, r: Request)
    requires Sound(t)
    ensures Sound(WithRequest(t, r)) && SameLedgerRows(t, WithRequest(t, r)) && SameLedgerRows(t, t)
    ensures SameRequestsBut(t, WithRequest(t, r), r.id)
  {
    hide LedgerSound, SeatRows;
    LedgerFrame(t, WithRequest(t, r));
    SeatsKept(t, WithRequest(t, r));
  }

  lemma OtherRequestWork(t: Tables, op: Op)
    requires Sound(t) && (op.OpReceive? || op.OpAcknowledge?) && NextOther(t, op).Ok?
    ensures var t2 := NextOther(t, op).value;
            Sound(t2) && SameLedgerRows(t, t2) && t2.leases == t.leases && SameRequestsBut(t, t2, op.requestId)
  {
    hide LedgerSound, SeatRows, CurrentLease, SameLedgerRows;
    var t2 := NextOther(t, op).value;
    RequestNames(t);
    var r := if op.OpReceive? then ReceiveStep(t, op.requestId, op.leaseId, op.agentId, op.now).value.1
             else AcknowledgeStep(t, op.requestId, op.requesterId, op.now).value.1;
    assert r.id == op.requestId;
    RewrittenRequest(t, r);
    assert t2 == t || t2 == WithRequest(t, r);
  }

  /** Every call keeps the tables sound: all the rows the reader checks, every path, one open item per digest. */
  lemma StepKeepsSound(env: Env, t: Tables, op: Op, t2: Tables)
    requires Sound(t) && Step(env, t, op, t2)
    ensures Sound(t2)
  {
    hide Sound, Represents, NextIngest, NextRequest, NextOther, MovesOn, SameLedgerRows, SameRequestsBut;
    if Done(env, t, op, t2) {
      var st :| (IngestsWork(op) ==> Represents(t, ProjectOf(t, op), st)) && Next(env, t, st, op) == Ok(t2);
      if IngestsWork(op) { IngestWork(env, t, st, op); }
      else if WorksOnRequest(op) { RequestWork(env, t, op); }
      else if op.OpReceive? || op.OpAcknowledge? { OtherRequestWork(t, op); }
      else if op.OpClear? { ClearWork(t, op); }
      else { LeaseWork(t, op); }
    }
  }

  lemma ClearWork(t: Tables, op: Op)
    requires Sound(t) && op.OpClear? && NextOther(t, op).Ok?
    ensures Sound(NextOther(t, op).value)
    ensures var t2 := NextOther(t, op).value;
            t2.items.Keys <= t.items.Keys && (forall id :: id in t2.items ==> t2.items[id] == t.items[id])
  {
    hide Sound;
    ClearKeepsSound(t, op.keep, op.now);
  }

  /** Every call but clearing only moves the ledger on, in one project, at its own time, if that project loads. */
  lemma StepMovesOn(env: Env, t: Tables, op: Op, t2: Tables)
    requires Sound(t) && Step(env, t, op, t2) && !op.OpClear?
    ensures MovesOn(t, t2, ProjectOf(t, op), TimeOf(op))
    ensures !IngestsWork(op) && !WorksOnRequest(op) ==> SameLedgerRows(t, t2)
  {
    hide Sound, Represents, NextIngest, NextRequest, NextOther, MovesOn, SameLedgerRows, SameRequestsBut;
    if Done(env, t, op, t2) {
      var st :| (IngestsWork(op) ==> Represents(t, ProjectOf(t, op), st)) && Next(env, t, st, op) == Ok(t2);
      if IngestsWork(op) { IngestWork(env, t, st, op); }
      else if WorksOnRequest(op) { RequestWork(env, t, op); }
      else if op.OpReceive? || op.OpAcknowledge? {
        OtherRequestWork(t, op);
        SameRowsMoveOn(t, t2, ProjectOf(t, op), TimeOf(op));
      } else {
        LeaseWork(t, op);
        SameRowsMoveOn(t, t2, ProjectOf(t, op), TimeOf(op));
      }
    } else {
      TableIsItself(t);
      SameRowsMoveOn(t, t, ProjectOf(t, op), TimeOf(op));
    }
  }

  lemma TableIsItself(t: Tables)
    ensures SameLedgerRows(t, t)
  {
  }
}
