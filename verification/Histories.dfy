/** Two short histories from empty tables that show what the registry does not check. */
module Histories {
  import opened Wrappers
  import opened Texts
  import opened Ledger
  import opened Tables
  import opened Invariants
  import opened Refinement
  import opened Registry
  import opened Soundness
  import opened Frames
  import opened Steps
  import opened Runs
  import opened Fencing
  import opened Enqueueing
  import opened Policies

  /** The identifiers drawn along the way, whatever they are. */
  datatype Drawn = Drawn(requestId: Uuid, itemId: Uuid, leaseId: Uuid)

  const PROJECT: Text := Ascii("project")
  const ROLE: Text := Ascii("builder")
  const OWNER: Text := Ascii("owner")
  const AGENT: Text := Ascii("agent")
  const WORK: Text := Ascii("work")
  const EMPTY_LEDGER := Backlog([], [], [], [], [])

  // ----- the first request -----

  lemma WordIsText(s: string)
    requires 1 <= |s| <= 64
    requires forall i :: 0 <= i < |s| ==> 'a' <= s[i] <= 'z'
    ensures Trim(Ascii(s)) == Ascii(s) && !HasUnsafeControl(Ascii(s))
    ensures RoleName(Ascii(s)) == Ok(Ascii(s)) && Identifier(Ascii(s)) == Ok(Ascii(s))
  {
    AsciiIsIdentifier(s);
    IdentifierIsTrimmed(Ascii(s));
  }

  lemma EmptyLedgerIsHeld(t: Tables, project: Text)
    requires SameLedgerRows(EMPTY, t)
    ensures Represents(t, project, EMPTY_LEDGER)
  {
  }

  lemma FirstItem(sha: Text -> Digest, input: IngestInput)
    requires Ingest(sha, EMPTY_LEDGER, input).Ok? && !input.dedupe.ItemId? && input.initial.StartReady?
    ensures var r := Ingest(sha, EMPTY_LEDGER, input).value;
            r.created && r.item.state.Ready? && |r.state.sources| == 1
  {
    hide RequirementId, NormalizedRequirements, Join, RequirementRecords, Identifier;
  }

  ghost function Queued(env: Env, d: Drawn, t: Tables, now: int): Result<(Tables, Request), RegistryError> {
    EnqueueStep(env, t, EMPTY_LEDGER, d.requestId, d.itemId, PROJECT, ROLE, OWNER, WORK, Normal, now)
  }

  ghost predicate FirstQueued(d: Drawn, t: Tables, now: int) {
    && d.requestId in t.requests && t.requests[d.requestId].status.Queued?
    && t.requests[d.requestId].requesterId == OWNER
    && t.requests[d.requestId].project == PROJECT && t.requests[d.requestId].role == ROLE
    && (RegistryRequest, d.requestId) in t.sources && t.sources[(RegistryRequest, d.requestId)].itemId == d.itemId
    && d.itemId in t.items && t.items[d.itemId].project == PROJECT && t.items[d.itemId].state.Ready?
    && t.items[d.itemId].createdAt == now && Loadable(t, PROJECT)
  }

  lemma RequestIsNew(env: Env, d: Drawn, now: int)
    requires TimeOk(now) && !env.sensitive(WORK)
    ensures NewRequest(env, d.requestId, PROJECT, ROLE, OWNER, WORK, Normal, now)
            == Ok(Request(d.requestId, PROJECT, ROLE, OWNER, WORK, Normal, now, now, None, None, RequestStatus.Queued))
  {
    hide Trim, HasUnsafeControl, RoleName, Ascii;
    WordIsText("builder");
    WordIsText("owner");
    WordIsText("work");
  }

  lemma FirstIngestion(sha: Text -> Digest, request: Request, itemId: Uuid)
    requires Ingest(sha, EMPTY_LEDGER, RequestInput(request, itemId)).Ok?
    ensures var r := Ingest(sha, EMPTY_LEDGER, RequestInput(request, itemId)).value;
            && |r.state.sources| == 1 && |r.state.requirements| >= 0
            && r.item.id == itemId && r.item.project == request.project && r.item.state.Ready?
            && r.item.createdAt == r.item.updatedAt == request.createdAt
            && KeyOf(NewSource(EMPTY_LEDGER, r)) == (RegistryRequest, request.id)
            && NewSource(EMPTY_LEDGER, r).itemId == itemId
  {
    hide Ingest, IsUuid, Represents, RequirementsOf, IsIdentifier, SafeText;
    UuidIsIdentifier(itemId);
    UuidIsIdentifier(request.id);
    var input := RequestInput(request, itemId);
    FirstItem(sha, input);
    IngestShape(sha, EMPTY_LEDGER, input);
    IngestItem(sha, EMPTY_LEDGER, input);
  }

  /** A request can be queued in tables without work; its item is new and ready. */
  lemma FirstRequest(env: Env, d: Drawn, t: Tables, now: int)
    requires Sound(t) && SameLedgerRows(EMPTY, t) && t.requests == map[]
    requires TimeOk(now) && !env.sensitive(WORK)
    ensures Queued(env, d, t, now).Ok? && FirstQueued(d, Queued(env, d, t, now).value.0, now)
    ensures Queued(env, d, t, now).value.0.leases == t.leases
  {
    hide Sound, Represents, Ingest, NewRequest, IsUuid, InsertRows, Ascii;
    EmptyLedgerIsHeld(t, PROJECT);
    RequestIsNew(env, d, now);
    EnqueuedIff(env, t, EMPTY_LEDGER, d.requestId, d.itemId, PROJECT, ROLE, OWNER, WORK, Normal, now);
    var request := NewRequest(env, d.requestId, PROJECT, ROLE, OWNER, WORK, Normal, now).value;
    FirstIngestion(env.sha, request, d.itemId);
  }

  lemma QueuedIsDone(env: Env, d: Drawn, t: Tables, now: int)
    requires SameLedgerRows(EMPTY, t) && Queued(env, d, t, now).Ok?
    ensures Done(env, t, QueueOp(d, now), Queued(env, d, t, now).value.0)
  {
    hide Represents, EnqueueStep;
    EmptyLedgerIsHeld(t, PROJECT);
    assert Next(env, t, EMPTY_LEDGER, QueueOp(d, now)) == Ok(Queued(env, d, t, now).value.0);
  }

  function QueueOp(d: Drawn, now: int): Op {
    OpEnqueue(d.requestId, d.itemId, PROJECT, ROLE, OWNER, WORK, Normal, now)
  }

  // ----- a cancellation before the creation -----

  /** A request queued at 5 and cancelled by its requester at 3: both succeed, and from then on the reader refuses the
      project. */
  lemma EarlyCancelLocksTheProject(env: Env, d: Drawn) returns (states: seq<Tables>, ops: seq<Op>)
    requires !env.sensitive(WORK)
    ensures ops == [QueueOp(d, 5), OpCancel(d.requestId, OWNER, 3)]
    ensures IsRun(env, states, ops) && Done(env, states[0], ops[0], states[1])
            && Done(env, states[1], ops[1], states[2])
    ensures Loadable(states[1], PROJECT) && !Loadable(states[2], PROJECT)
  {
    hide Sound, Done, EnqueueStep, Loadable, Represents, CancelStep;
    EmptyIsSound();
    FirstRequest(env, d, EMPTY, 5);
    QueuedIsDone(env, d, EMPTY, 5);
    var t1 := Queued(env, d, EMPTY, 5).value.0;
    ops := [QueueOp(d, 5), OpCancel(d.requestId, OWNER, 3)];
    StepKeepsSound(env, EMPTY, ops[0], t1);
    CancelLoadsIff(t1, d.requestId, 3);
    var t2 := CancelStep(t1, d.requestId, OWNER, 3).value.0;
    CancelIsDone(env, t1, ops[1], t2);
    states := [EMPTY, t1, t2];
  }

  lemma CancelIsDone(env: Env, t: Tables, op: Op, t2: Tables)
    requires op.OpCancel? && Rows(CancelStep(t, op.requestId, op.requesterId, op.now)) == Ok(t2)
    ensures Done(env, t, op, t2)
  {
    hide Represents, CancelStep;
    assert Next(env, t, EMPTY_LEDGER, op) == Ok(t2);
  }

  // ----- work claimed under a policy that changed -----

  const OLD: Text := Ascii("old")
  const NEW: Text := Ascii("new")

  function SeatOp(d: Drawn): Op {
    OpClaim(d.leaseId, Agent(AGENT, 1), PROJECT, ROLE, Task, OLD, 0, 100)
  }

  function WorkOp(d: Drawn): Op {
    OpClaimRequest(d.requestId, d.leaseId, AGENT, 2)
  }

  ghost predicate OnlyLease(d: Drawn, t: Tables) {
    t.leases == map[(PROJECT, ROLE) := Lease(d.leaseId, PROJECT, ROLE, Task, Agent(AGENT, 1), OLD, 0, 0, 100, Active)]
  }

  lemma FirstSeat(env: Env, d: Drawn) returns (t: Tables)
    ensures Done(env, EMPTY, SeatOp(d), t) && SameLedgerRows(EMPTY, t) && t.requests == map[] && OnlyLease(d, t)
  {
    hide Trim, HasUnsafeControl, Ascii, RoleName, Represents;
    WordIsText("agent");
    WordIsText("builder");
    WordIsText("old");
    assert Prune(EMPTY.leases, 0) == map[];
    t := NextOther(EMPTY, SeatOp(d)).value;
    assert Next(env, EMPTY, EMPTY_LEDGER, SeatOp(d)) == Ok(t);
  }

  lemma AssignIsPlanned(item: Item, leaseId: Uuid, now: nat)
    requires item.state.Ready?
    ensures Plan(item, ACTOR, now, Assign(AGENT, leaseId)).Ok?
  {
    hide Identifier, Ascii, IsUuid;
    WordIsText("agent");
    UuidIsIdentifier(leaseId);
    assert Identifier(leaseId).Ok? by { UuidPasses(leaseId); }
  }

  lemma UuidPasses(id: Uuid)
    ensures Identifier(id).Ok?
  {
    UuidIsIdentifier(id);
  }

  lemma WorkIsClaimed(env: Env, d: Drawn, t: Tables)
    requires Sound(t) && FirstQueued(d, t, 1) && OnlyLease(d, t)
    ensures CurrentLease(t, d.leaseId, AGENT, 2).Ok? && CurrentLease(t, d.leaseId, AGENT, 2).value.policyDigest == OLD
    ensures ClaimRequestStep(t, d.requestId, d.leaseId, AGENT, 2).Ok?
  {
    hide LedgerSound, SeatRows, Identifier, Ascii, Plan, IsUuid, AdvanceRow, LeaseById;
    SoundLedger(t);
    RowOf(t, (PROJECT, ROLE));
    RequestNames(t);
    RowsNameThemselves(t, d.itemId);
    AsciiIsIdentifier("agent-registry");
    AssignIsPlanned(t.items[d.itemId], d.leaseId, 2);
    var r := t.requests[d.requestId].(status := RequestStatus.Claimed(d.leaseId, AGENT), updatedAt := 2);
    LedgerRowsKept(t, r);
  }

  lemma WorkIsDone(env: Env, t: Tables, op: Op, t2: Tables)
    requires op.OpClaimRequest? && Rows(ClaimRequestStep(t, op.requestId, op.leaseId, op.agentId, op.now)) == Ok(t2)
    ensures Done(env, t, op, t2)
  {
    hide Represents, ClaimRequestStep;
    assert Next(env, t, EMPTY_LEDGER, op) == Ok(t2);
  }

  /** A seat claimed under one policy, a request, and the request claimed: it succeeds whatever the policy is by then.
      Had the agent first sent the heartbeat that names the new policy, the same claim would have been refused. */
  lemma WorkIsClaimedUnderAnOldPolicy(env: Env, d: Drawn) returns (states: seq<Tables>, ops: seq<Op>)
    requires !env.sensitive(WORK)
    ensures ops == [SeatOp(d), QueueOp(d, 1), WorkOp(d)] && IsRun(env, states, ops)
    ensures Done(env, states[0], ops[0], states[1]) && Done(env, states[1], ops[1], states[2])
    ensures Done(env, states[2], ops[2], states[3])
    ensures var beat := HeartbeatStep(states[2], d.leaseId, AGENT, NEW, 2, 100);
            beat.Ok? && ClaimRequestStep(beat.value.0, d.requestId, d.leaseId, AGENT, 2) == Err(StaleLease)
  {
    hide Sound, Done, EnqueueStep, Represents, ClaimRequestStep, CurrentLease, HeartbeatStep, Ascii, FirstQueued;
    var t1 := FirstSeat(env, d);
    ops := [SeatOp(d), QueueOp(d, 1), WorkOp(d)];
    EmptyIsSound();
    StepKeepsSound(env, EMPTY, ops[0], t1);
    FirstRequest(env, d, t1, 1);
    QueuedIsDone(env, d, t1, 1);
    var t2 := Queued(env, d, t1, 1).value.0;
    StepKeepsSound(env, t1, ops[1], t2);
    WorkIsClaimed(env, d, t2);
    var t3 := ClaimRequestStep(t2, d.requestId, d.leaseId, AGENT, 2).value.0;
    WorkIsDone(env, t2, ops[2], t3);
    states := [EMPTY, t1, t2, t3];
    NewIsAnother();
    PolicyIsComparedOnHeartbeatsOnly(t2, d.leaseId, AGENT, NEW, 2, 100);
    StaleClaimIsRefused(HeartbeatStep(t2, d.leaseId, AGENT, NEW, 2, 100).value.0, d.requestId, d.leaseId, AGENT, 2);
  }

  lemma NewIsAnother()
    ensures BoundedText(NEW, 256, RegistryError.Invalid).Ok? && Trim(NEW) != OLD
  {
    WordIsText("new");
    assert NEW[0] != OLD[0];
  }

  lemma StaleClaimIsRefused(t: Tables, requestId: Uuid, leaseId: Uuid, agentId: Text, now: int)
    requires TimeOk(now) && CurrentLease(t, leaseId, agentId, now) == Err(StaleLease)
    ensures ClaimRequestStep(t, requestId, leaseId, agentId, now) == Err(StaleLease)
  {
    hide CurrentLease;
  }
}
