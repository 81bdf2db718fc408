/** What each registry operation does to the tables, as one atomic step (sqlite-store.ts). The store's
    methods are proved to take exactly these steps; the safety results are about runs of them. */
module Registry {
  import opened Wrappers
  import opened Texts
  import opened Ledger
  import opened Tables
  import opened Invariants
  import opened Refinement
  import RuntimeIdentity
  import Chunks

  const MAX_LEASES := 1_024
  const MAX_REQUESTS := 10_000
  const MAX_REQUEST_TEXT := 8_000
  const MAX_SUMMARY_TEXT := 4_000
  const MAX_TTL := 86_400_000

  datatype RegistryError =
    | Capacity | Corrupt | Invalid | Io | Missing | StaleLease | BadTransition

  /** The hash and the detector of credential-shaped text, both left open. */
  datatype Env = Env(sha: Text -> Digest, sensitive: Text -> bool)

  const ACTOR: Text := Ascii("agent-registry")

  // ----- validation -----

  predicate TimeOk(now: int) { 0 <= now <= MAX_SAFE_INTEGER }

  predicate TtlOk(ttl: int) { 1 <= ttl <= MAX_TTL }

  predicate RoleUnit(u: CodeUnit) { 97 <= u <= 122 || 48 <= u <= 57 || u == 45 }

  function RoleName(role: Text): Result<Text, RegistryError> {
    var name := Trim(role);
    if 1 <= |name| <= 64 && 97 <= name[0] <= 122 && forall i :: 0 <= i < |name| ==> RoleUnit(name[i]) then Ok(name)
    else Err(Invalid)
  }

  function PersistedText(env: Env, text: Text, maximum: nat): (r: Result<Text, RegistryError>) {
    var bounded :- BoundedText(text, maximum, Invalid);
    if env.sensitive(bounded) then Err(Invalid) else Ok(bounded)
  }

  function Domain<T>(r: Result<T, LedgerError>): Result<T, RegistryError> {
    if r.Ok? then Ok(r.value) else Err(Invalid)
  }

  // ----- leases -----

  function SeatOf(lease: Lease): Seat { (lease.project, lease.role) }

  ghost predicate HasLease(t: Tables, id: Uuid) {
    exists seat :: seat in t.leases && t.leases[seat].id == id
  }

  ghost function LeaseById(t: Tables, id: Uuid): (r: Option<Lease>)
    ensures r.Some? ==> r.value.id == id && exists seat :: seat in t.leases && t.leases[seat] == r.value
    ensures r.None? <==> !HasLease(t, id)
  {
    if HasLease(t, id) then
      var seat :| seat in t.leases && t.leases[seat].id == id;
      Some(t.leases[seat])
    else None
  }

  /** The lease a caller presents, if it is its own, unexpired and active. */
  ghost function CurrentLease(t: Tables, leaseId: Uuid, agentId: Text, now: nat): (r: Result<Lease, RegistryError>)
  {
    var lease := LeaseById(t, leaseId);
    if lease.None? || lease.value.owner.id != agentId || lease.value.expiresAt <= now || !lease.value.status.Active?
    then Err(StaleLease)
    else Ok(lease.value)
  }

  function Prune(leases: map<Seat, Lease>, now: int): map<Seat, Lease> {
    map seat | seat in leases && leases[seat].expiresAt > now :: leases[seat]
  }

  datatype ClaimOutcome = ClaimedLease(lease: Lease) | AlreadyOwned(lease: Lease)

  ghost function ClaimStep(
    t: Tables, newId: Uuid, agent: Agent, project: Text, role: Text, mode: LeaseMode, policy: Text, now: int, ttl: int)
    : Result<(Tables, ClaimOutcome), RegistryError>
  {
    if !TimeOk(now) || !TtlOk(ttl) then Err(Invalid) else
      var owner :- BoundedText(agent.id, 128, Invalid);
      if agent.pid < 1 then Err(Invalid) else
        var name :- RoleName(role);
        var digest :- BoundedText(policy, 256, Invalid);
        var live := Prune(t.leases, now);
        if (project, name) in live then Ok((t.(leases := live), AlreadyOwned(live[(project, name)])))
        else if |live| >= MAX_LEASES then Err(Capacity)
        else if now + ttl > MAX_SAFE_INTEGER then Err(Invalid)
        else if HasLease(t.(leases := live), newId) then Err(Io)
        else
          var lease := Lease(newId, project, name, mode, Agent(owner, agent.pid), digest, now, now, now + ttl, Active);
          Ok((t.(leases := live[(project, name) := lease]), ClaimedLease(lease)))
  }

  function WithLease(t: Tables, lease: Lease): Tables {
    t.(leases := t.leases[SeatOf(lease) := lease])
  }

  ghost function HeartbeatStep(t: Tables, leaseId: Uuid, agentId: Text, policy: Text, now: int, ttl: int)
    : Result<(Tables, Lease), RegistryError>
  {
    if !TimeOk(now) || !TtlOk(ttl) then Err(Invalid) else
      var digest :- BoundedText(policy, 256, Invalid);
      var found := LeaseById(t, leaseId);
      if found.None? || found.value.owner.id != agentId || found.value.expiresAt <= now then Err(StaleLease)
      else if now + ttl > MAX_SAFE_INTEGER then Err(Invalid)
      else
        var lease := found.value.(
          heartbeatAt := now, expiresAt := now + ttl,
          status := if found.value.policyDigest == digest then found.value.status else Suspended);
        Ok((WithLease(t, lease), lease))
  }

  ghost function PauseStep(t: Tables, leaseId: Uuid, agentId: Text, now: int): Result<(Tables, Lease), RegistryError> {
    if !TimeOk(now) then Err(Invalid) else
      var found := LeaseById(t, leaseId);
      if found.None? || found.value.owner.id != agentId || found.value.expiresAt <= now || found.value.status.Suspended?
      then Err(StaleLease)
      else
        var lease := found.value.(status := Paused);
        Ok((WithLease(t, lease), lease))
  }

  ghost function ResumeStep(t: Tables, leaseId: Uuid, agentId: Text, policy: Text, now: int, ttl: int)
    : Result<(Tables, Lease), RegistryError>
  {
    if !TimeOk(now) || !TtlOk(ttl) then Err(Invalid) else
      var digest :- BoundedText(policy, 256, Invalid);
      var found := LeaseById(t, leaseId);
      if found.None? || found.value.owner.id != agentId || found.value.expiresAt <= now
         || !found.value.status.Paused? || found.value.policyDigest != digest
      then Err(StaleLease)
      else if now + ttl > MAX_SAFE_INTEGER then Err(Invalid)
      else
        var lease := found.value.(heartbeatAt := now, expiresAt := now + ttl, status := Active);
        Ok((WithLease(t, lease), lease))
  }

  ghost function ReleaseStep(t: Tables, leaseId: Uuid, agentId: Text, now: int): Result<(Tables, ()), RegistryError> {
    if !TimeOk(now) then Err(Invalid) else
      var found := LeaseById(t, leaseId);
      if found.None? || found.value.owner.id != agentId then Err(StaleLease)
      else Ok((t.(leases := t.leases - {SeatOf(found.value)}), ()))
  }

  // ----- the ledger steps a request drives -----

  /** Whether the reader accepts the project's rows. */
  predicate Loadable(t: Tables, project: Text) {
    forall id :: id in t.items && t.items[id].project == project ==> t.items[id].createdAt <= t.items[id].updatedAt
  }

  function StepItem(t: Tables, item: Item, actor: Text, now: int, event: Event): Result<(Tables, Item), RegistryError> {
    var who :- Domain(Identifier(actor));
    var at :- Domain(Timestamp(now));
    var change :- Domain(Plan(item, who, at, event));
    Ok((AdvanceRow(t, item, change), Updated(item, change)))
  }

  function Reassigned(state: ItemState, agentId: Text, leaseId: Text): ItemState
    requires state.Held()
  {
    match state
    case Assigned(_, _) => Assigned(agentId, leaseId)
    case Implementing(_, _, i) => Implementing(agentId, leaseId, i)
    case InReview(_, _, i, r) => InReview(agentId, leaseId, i, r)
    case Publishing(_, _, i, r, p) => Publishing(agentId, leaseId, i, r, p)
  }

  function RebindChange(item: Item, agentId: Text, leaseId: Text, at: nat): Change
    requires item.state.Held()
  {
    Change(Reassigned(item.state, agentId, leaseId), ACTOR, ERebind, at, Final, [])
  }

  function CompletionEvidence(requestId: Text): seq<Evidence> {
    [Evidence(Ascii("registry-outcome"), requestId), Evidence(Ascii("implementation-summary"), requestId)]
  }

  /** The expected entries a terminal item does not list yet. */
  function Unlisted(expected: seq<Evidence>, listed: seq<Evidence>): (r: seq<Evidence>)
    ensures forall e :: e in r <==> e in expected && e !in listed
  {
    if expected == [] then []
    else (if expected[0] in listed then [] else [expected[0]]) + Unlisted(expected[1..], listed)
  }

  function AppendChange(item: Item, added: seq<Evidence>, at: nat): Change
    requires item.state.Terminal?
  {
    Change(Terminal(item.state.outcome, item.state.evidence + added), ACTOR, EComplete, at, Final, added)
  }

  ghost function AfterClaimed(t: Tables, item: Item, r: Request): Result<Tables, RegistryError>
    requires r.status.Claimed?
  {
    var agentId, leaseId := r.status.agentId, r.status.leaseId;
    if item.state.Assigned? && item.state.agentId == agentId && item.state.leaseId == leaseId then Ok(t)
    else if item.state.Held() && RuntimeIdentity.SameRuntimeSession(item.state.agentId, agentId)
            && item.state.leaseId != leaseId then
      var lease := LeaseById(t, leaseId);
      if lease.None? || lease.value.owner.id != agentId || SeatOf(lease.value) != (r.project, r.role)
         || !lease.value.status.Active? || lease.value.expiresAt <= r.updatedAt
      then Err(StaleLease)
      else Ok(AdvanceRow(t, item, RebindChange(item, agentId, leaseId, r.updatedAt)))
    else if !item.state.Ready? then Ok(t)
    else
      var (t2, _) :- StepItem(t, item, ACTOR, r.updatedAt, Assign(agentId, leaseId));
      Ok(t2)
  }

  function AfterCompleted(t: Tables, item: Item, r: Request): Result<Tables, RegistryError> {
    var (t1, item1) :-
      if item.state.Assigned? then StepItem(t, item, ACTOR, r.updatedAt, Start(r.id)) else Ok((t, item));
    if item1.state.Terminal? then
      if item1.state.outcome.Cancelled? then Err(BadTransition)
      else
        var added := Unlisted(CompletionEvidence(r.id), item1.state.evidence);
        if added == [] then Ok(t1) else Ok(AdvanceRow(t1, item1, AppendChange(item1, added, r.updatedAt)))
    else
      var (t2, _) :- StepItem(t1, item1, ACTOR, r.updatedAt, Complete(CompletionEvidence(r.id)));
      Ok(t2)
  }

  function FailureName(failure: Failure): Text {
    match failure
    case FailedBlocked => Ascii("blocked")
    case FailedCancelled => Ascii("cancelled")
    case FailedError => Ascii("error")
    case FailedTimedOut => Ascii("timed_out")
  }

  /** The event a cancelled or failed request sends its open item. */
  function ClosingEvent(r: Request): Event
    requires r.status.Withdrawn? || r.status.Failed?
  {
    if r.status.Withdrawn? then Cancel([Evidence(Ascii("registry-cancellation"), r.id)])
    else if r.status.failure.FailedCancelled? then Cancel([Evidence(Ascii("registry-failure"), r.id)])
    else Block(Ascii("registry request ") + FailureName(r.status.failure))
  }

  /** The ledger step that follows a request's new status, in the request's project. */
  ghost function AfterRequest(t: Tables, r: Request): Result<Tables, RegistryError> {
    if !Loadable(t, r.project) then Err(Corrupt)
    else if (RegistryRequest, r.id) !in t.sources || !InProject(t, r.project, t.sources[(RegistryRequest, r.id)].itemId)
    then Ok(t)
    else
      var item := t.items[t.sources[(RegistryRequest, r.id)].itemId];
      match r.status
      case Queued => Ok(t)
      case Claimed(_, _) => AfterClaimed(t, item, r)
      case Fulfilled(_, _, _) => AfterCompleted(t, item, r)
      case _ =>
        if item.state.Terminal? then Ok(t)
        else
          var (t2, _) :- StepItem(t, item, ACTOR, r.updatedAt, ClosingEvent(r));
          Ok(t2)
  }

  // ----- requests -----

  function WithRequest(t: Tables, r: Request): Tables {
    t.(requests := t.requests[r.id := r])
  }

  /** Persisting an ingestion: nothing for a known source, an error when a primary key is taken. */
  ghost function IngestStep(t: Tables, st: Backlog, r: Ingested): Result<Tables, RegistryError> {
    if |r.state.sources| == |st.sources| then Ok(t)
    else if !Fits(t, st, r) then Err(Io)
    else Ok(IngestRow(t, r.item, NewSource(st, r), NewRequirements(st, r)))
  }

  function RequestInput(r: Request, itemId: Uuid): IngestInput {
    IngestInput(itemId, r.project, RegistryRequest, r.id, r.createdAt, r.priority, Chunks.ChunksFrom(r.text, 0),
                RoutingOnly, ExactContent(Some(r.role)), StartReady)
  }

  function NewRequest(
    env: Env, newId: Uuid, project: Text, role: Text, requesterId: Text, text: Text, priority: Priority, now: int)
    : Result<Request, RegistryError>
  {
    if !TimeOk(now) then Err(Invalid) else
      var name :- RoleName(role);
      var requester :- BoundedText(requesterId, 128, Invalid);
      var body :- PersistedText(env, text, MAX_REQUEST_TEXT);
      Ok(Request(newId, project, name, requester, body, priority, now, now, None, None, Queued))
  }

  ghost function EnqueueStep(
    env: Env, t: Tables, st: Backlog, newId: Uuid, itemId: Uuid, project: Text, role: Text, requesterId: Text,
    text: Text, priority: Priority, now: int): Result<(Tables, Request), RegistryError>
  {
    if |t.requests| >= MAX_REQUESTS then Err(Capacity) else
      var request :- NewRequest(env, newId, project, role, requesterId, text, priority, now);
      if newId in t.requests then Err(Io)
      else if !Loadable(t, project) then Err(Corrupt)
      else
        var ingested :- Domain(Ingest(env.sha, st, RequestInput(request, itemId)));
        var t2 :- IngestStep(WithRequest(t, request), st, ingested);
        Ok((t2, request))
  }

  /** A message from the owner or another agent, kept as unreconciled work. */
  datatype Message = Message(
    source: SourceKind, project: Text, id: Text, observedAt: int, requirements: seq<Text>, fromOwner: bool)

  function MessageInput(m: Message, itemId: Uuid): IngestInput {
    IngestInput(itemId, m.project, m.source, m.id, m.observedAt, Normal, m.requirements,
                if m.fromOwner then AuthenticatedOwner(m.id) else RoutingOnly, ExactContent(None), StartUnreconciled)
  }

  ghost function MessageStep(env: Env, t: Tables, st: Backlog, m: Message, itemId: Uuid)
    : Result<(Tables, Backlog), RegistryError>
  {
    if !Loadable(t, m.project) then Err(Corrupt)
    else
      var ingested :- Domain(Ingest(env.sha, st, MessageInput(m, itemId)));
      var t2 :- IngestStep(t, st, ingested);
      Ok((t2, ingested.state))
  }

  ghost function ReceiveStep(t: Tables, requestId: Uuid, leaseId: Uuid, agentId: Text, now: int)
    : Result<(Tables, Request), RegistryError>
  {
    if !TimeOk(now) then Err(Invalid) else
      var lease :- CurrentLease(t, leaseId, agentId, now);
      if requestId !in t.requests then Err(Missing) else
        var request := t.requests[requestId];
        if (request.project, request.role) != SeatOf(lease) then Err(StaleLease)
        else if !request.status.Queued? then Err(BadTransition)
        else if request.receipt.Some? && request.receipt.value.leaseId == lease.id
                && request.receipt.value.agentId == lease.owner.id then Ok((t, request))
        else
          var received := request.(receipt := Some(Receipt(now, lease.owner.id, lease.id)));
          Ok((WithRequest(t, received), received))
  }

  function AcknowledgeStep(t: Tables, requestId: Uuid, requesterId: Text, now: int)
    : Result<(Tables, Request), RegistryError>
  {
    if !TimeOk(now) then Err(Invalid)
    else if requestId !in t.requests then Err(Missing)
    else
      var request := t.requests[requestId];
      if request.requesterId != requesterId || !request.status.Final() then Err(BadTransition)
      else
        var acknowledged := request.(acknowledgedAt := Some(now));
        Ok((WithRequest(t, acknowledged), acknowledged))
  }

  /** A request's status changes and its item follows, or neither happens. */
  ghost function ChangeRequest(t: Tables, r: Request): Result<(Tables, Request), RegistryError> {
    var t2 :- AfterRequest(WithRequest(t, r), r);
    Ok((t2, r))
  }

  ghost function CancelStep(t: Tables, requestId: Uuid, requesterId: Text, now: int)
    : Result<(Tables, Request), RegistryError>
  {
    if !TimeOk(now) then Err(Invalid)
    else if requestId !in t.requests then Err(Missing)
    else
      var request := t.requests[requestId];
      if request.requesterId != requesterId || request.status.Final() then Err(BadTransition)
      else ChangeRequest(t, request.(status := Withdrawn, updatedAt := now))
  }

  ghost function ClaimRequestStep(t: Tables, requestId: Uuid, leaseId: Uuid, agentId: Text, now: int)
    : Result<(Tables, Request), RegistryError>
  {
    if !TimeOk(now) then Err(Invalid) else
      var lease :- CurrentLease(t, leaseId, agentId, now);
      if requestId !in t.requests then Err(Missing) else
        var request := t.requests[requestId];
        if (request.project, request.role) != SeatOf(lease) then Err(StaleLease)
        else if request.status.Final() then Err(BadTransition)
        else if request.status.Claimed? && ClaimIsHeld(t, request, now) then Err(BadTransition)
        else ChangeRequest(t, request.(status := Claimed(lease.id, lease.owner.id), updatedAt := now))
  }

  /** The claim's lease still has its row and has not expired. */
  ghost predicate ClaimIsHeld(t: Tables, request: Request, now: int)
    requires request.status.Claimed?
  {
    LeaseById(t, request.status.leaseId).Some? && LeaseById(t, request.status.leaseId).value.expiresAt > now
  }

  /** The claimed request a lease holder works on. */
  ghost function OwnClaim(t: Tables, requestId: Uuid, leaseId: Uuid, agentId: Text, now: int)
    : Result<Request, RegistryError>
  {
    if !TimeOk(now) then Err(Invalid) else
      var lease :- CurrentLease(t, leaseId, agentId, now);
      if requestId !in t.requests then Err(Missing)
      else if t.requests[requestId].status != Claimed(lease.id, lease.owner.id) then Err(BadTransition)
      else Ok(t.requests[requestId])
  }

  ghost function CompleteStep(
    env: Env, t: Tables, requestId: Uuid, leaseId: Uuid, agentId: Text, now: int, summary: Text)
    : Result<(Tables, Request), RegistryError>
  {
    var request :- OwnClaim(t, requestId, leaseId, agentId, now);
    var body :- PersistedText(env, summary, MAX_SUMMARY_TEXT);
    ChangeRequest(t, request.(status := Fulfilled(leaseId, agentId, body), updatedAt := now))
  }

  ghost function FailStep(
    env: Env, t: Tables, requestId: Uuid, leaseId: Uuid, agentId: Text, now: int, failure: Failure, diagnostic: Text)
    : Result<(Tables, Request), RegistryError>
  {
    var request :- OwnClaim(t, requestId, leaseId, agentId, now);
    var body :- PersistedText(env, diagnostic, MAX_SUMMARY_TEXT);
    ChangeRequest(t, request.(status := Failed(leaseId, agentId, failure, body), updatedAt := now))
  }

  datatype AdvancePhase = ToImplementation | ToReview | ToPublication

  function AdvanceEvent(phase: AdvancePhase, ref: Text): Event {
    match phase
    case ToImplementation => Start(ref)
    case ToReview => ReviewWork(ref)
    case ToPublication => Publish(ref)
  }

  /** The phase was already reached with this reference. */
  predicate Reached(state: ItemState, phase: AdvancePhase, ref: Text) {
    match phase
    case ToImplementation => state.Implementing? && state.implementationRef == ref
    case ToReview => state.InReview? && state.reviewRef == ref
    case ToPublication => state.Publishing? && state.publicationRef == ref
  }

  ghost function AdvanceStep(
    t: Tables, requestId: Uuid, leaseId: Uuid, agentId: Text, now: int, phase: AdvancePhase, evidenceRef: Text)
    : Result<(Tables, Request), RegistryError>
  {
    var request :- OwnClaim(t, requestId, leaseId, agentId, now);
    if !Loadable(t, request.project) then Err(Corrupt)
    else if (RegistryRequest, requestId) !in t.sources
            || !InProject(t, request.project, t.sources[(RegistryRequest, requestId)].itemId) then Err(Corrupt)
    else
      var item := t.items[t.sources[(RegistryRequest, requestId)].itemId];
      if item.state.Terminal? then Err(BadTransition)
      else if !item.state.Ready?
          && !(item.state.Held() && item.state.agentId == agentId && item.state.leaseId == leaseId)
      then Err(BadTransition)
      else
        var ref :- BoundedText(evidenceRef, 1_024, Invalid);
        if Reached(item.state, phase, ref) then Ok((t, request))
        else
          var (t2, _) :- StepItem(t, item, agentId, now, AdvanceEvent(phase, ref));
          Ok((t2, request))
  }

  // ----- clearing -----

  predicate Kept(t: Tables, keep: Text -> bool, itemId: Text) {
    itemId in t.items && keep(t.items[itemId].project)
  }

  function KeptTransitions(t: Tables, keep: Text -> bool, records: seq<TransitionRecord>): seq<TransitionRecord> {
    if records == [] then []
    else KeptTransitions(t, keep, records[..|records| - 1])
         + if Kept(t, keep, records[|records| - 1].itemId) then [records[|records| - 1]] else []
  }

  function KeptLeases(leases: map<Seat, Lease>, keep: Text -> bool): map<Seat, Lease> {
    map s | s in leases && keep(leases[s].project) :: leases[s]
  }

  function KeptRequests(requests: map<Uuid, Request>, keep: Text -> bool): map<Uuid, Request> {
    map r | r in requests && keep(requests[r].project) :: requests[r]
  }

  /** Everything outside the preserved projects goes, table by table. */
  function ClearStep(t: Tables, keep: Text -> bool, now: int): Result<(Tables, ()), RegistryError> {
    if !TimeOk(now) then Err(Invalid) else
      Ok((Tables(
            KeptLeases(t.leases, keep),
            KeptRequests(t.requests, keep),
            map i | i in t.items && keep(t.items[i].project) :: t.items[i],
            map k | k in t.sources && Kept(t, keep, t.sources[k].itemId) :: t.sources[k],
            map k | k in t.requirements && Kept(t, keep, t.requirements[k].itemId) :: t.requirements[k],
            map k | k in t.evidence && Kept(t, keep, t.evidence[k].itemId) :: t.evidence[k],
            KeptTransitions(t, keep, t.transitions)),
          ()))
  }
}
