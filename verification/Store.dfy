/** The registry store: tables updated in place, the reader that loads a project's ledger from them, and the
    writers that persist only the difference (sqlite-store.ts). */
module Store {
  import opened Wrappers
  import opened Texts
  import opened Ledger
  import opened Tables
  import opened Invariants
  import opened Evolution
  import opened Refinement
  import opened Registry
  import opened Soundness
  import opened Frames
  import Loader
  import R = Reconcile
  import S = Steps
  import Reader
  import Chunks
  import RuntimeIdentity

  /** A transaction's work did what the step says; failed work may leave rows behind to roll back. */
  ghost predicate Worked<T(!new)>(step: Result<(Tables, T), RegistryError>, t: Tables, r: Result<T, RegistryError>) {
    match step
    case Ok((rows, value)) => r == Ok(value) && t == rows
    case Err(e) => r == Err(e)
  }

  /** The same for work that returns only rows. */
  ghost predicate Wrote(step: Result<Tables, RegistryError>, t: Tables, r: Result<(), RegistryError>) {
    match step
    case Ok(rows) => r == Ok(()) && t == rows
    case Err(e) => r == Err(e)
  }

  // ----- the ledger's transition is the row step -----

  lemma TransitionIsStep(t: Tables, st: Backlog, item: Item, actor: Text, now: int, event: Event)
    requires IsIdentifier(item.id) && FindItem(st.items, item.id) == Some(item)
    ensures var done := Domain(Transition(st, item.id, item.revision, actor, now, event));
            var step := StepItem(t, item, actor, now, event);
            && done.Ok? == step.Ok?
            && (done.Err? ==> done.error == step.error)
            && (done.Ok? ==> exists change ::
                  && done.value == (Advance(st, item, change), Updated(item, change))
                  && step.value == (AdvanceRow(t, item, change), Updated(item, change)))
  {
    hide Plan, Advance, AdvanceRow, IsIdentifierUnit;
    IdentifierIsTrimmed(item.id);
    var who, at := Identifier(actor), Timestamp(now);
    if who.Ok? && at.Ok? && Plan(item, who.value, at.value, event).Ok? {
      var change := Plan(item, who.value, at.value, event).value;
      assert Domain(Transition(st, item.id, item.revision, actor, now, event)).value
          == (Advance(st, item, change), Updated(item, change));
      assert StepItem(t, item, actor, now, event).value == (AdvanceRow(t, item, change), Updated(item, change));
    }
  }

  class RegistryStore {
    const env: Env
    var leases: map<Seat, Lease>
    var requests: map<Uuid, Request>
    var items: map<Text, Item>
    var sources: map<SourceKey, Source>
    var requirements: map<Text, Requirement>
    var evidence: map<Text, EvidenceRecord>
    var transitions: seq<TransitionRecord>

    /** The rows as one value. */
    function Snapshot(): Tables
      reads this
    {
      Tables(leases, requests, items, sources, requirements, evidence, transitions)
    }

    ghost predicate Valid()
      reads this
    {
      Sound(Snapshot())
    }

    constructor (env: Env)
      ensures Valid() && Snapshot() == EMPTY && this.env == env
    {
      this.env := env;
      leases, requests, items, sources := map[], map[], map[], map[];
      requirements, evidence, transitions := map[], map[], [];
      new;
      EmptyIsSound();
    }

    // ----- reading -----

    method LeaseRow(leaseId: Uuid) returns (lease: Option<Lease>)
      requires SeatRows(Snapshot())
      ensures lease == LeaseById(Snapshot(), leaseId)
    {
      hide SafeText;
      if seat :| seat in leases && leases[seat].id == leaseId {
        lease := Some(leases[seat]);
        assert HasLease(Snapshot(), leaseId);
      } else {
        lease := None;
      }
    }

    method CurrentLeaseRow(leaseId: Uuid, agentId: Text, now: nat) returns (r: Result<Lease, RegistryError>)
      requires SeatRows(Snapshot())
      ensures r == CurrentLease(Snapshot(), leaseId, agentId, now)
    {
      var lease := LeaseRow(leaseId);
      if lease.None? || lease.value.owner.id != agentId || lease.value.expiresAt <= now || !lease.value.status.Active? {
        return Err(StaleLease);
      }
      return Ok(lease.value);
    }

    method RequestRow(requestId: Uuid) returns (r: Result<Request, RegistryError>)
      ensures r == if requestId in requests then Ok(requests[requestId]) else Err(Missing)
    {
      return if requestId in requests then Ok(requests[requestId]) else Err(Missing);
    }

    /** The project's ledger, or corruption: exactly when some item was last touched before its creation. */
    method LoadBacklog(project: Text) returns (r: Result<Backlog, RegistryError>, ghost st: Backlog)
      requires LedgerSound(Snapshot())
      ensures Represents(Snapshot(), project, st)
      ensures r.Ok? <==> Loadable(Snapshot(), project)
      ensures if r.Ok? then r.value == st else r.error == Corrupt
    {
      hide LedgerSound, Represents, LoaderAccepts;
      var t := Snapshot();
      var itemKeys := Reader.ListOf(Reader.ItemKeys(t, project));
      var sourceKeys := Reader.ListOf(Reader.SourceKeys(t, project));
      var requirementKeys := Reader.ListOf(Reader.RequirementKeys(t, project));
      var evidenceKeys := Reader.ListOf(Reader.EvidenceKeys(t, project));
      var ledger := Reader.LedgerOf(t, project, itemKeys, sourceKeys, requirementKeys, evidenceKeys);
      Reader.RowsAreRepresented(t, project, itemKeys, sourceKeys, requirementKeys, evidenceKeys);
      Loader.LoaderAcceptsIff(t, project, ledger);
      st := ledger;
      return if LoaderAccepts(ledger) then Ok(ledger) else Err(Corrupt), ledger;
    }

    // ----- persisting the difference -----

    /** One INSERT for each of the item's evidence records the prior ledger does not hold; no key is taken. */
    method InsertEvidence(
      itemId: Text, prior: seq<EvidenceRecord>, next: seq<EvidenceRecord>, ghost records: seq<EvidenceRecord>)
      returns (r: Result<(), RegistryError>)
      requires next == prior + records && DistinctKeys(EvidenceKey, records)
      requires forall i :: 0 <= i < |records| ==> records[i].itemId == itemId && records[i].id !in evidence
      requires forall i :: 0 <= i < |prior| ==> prior[i].id in evidence
      modifies this`evidence
      ensures r == Ok(()) && evidence == InsertRows(old(evidence), EvidenceKey, records)
    {
      ghost var before := evidence;
      var priorIds := set i | 0 <= i < |prior| :: prior[i].id;
      assert InsertRows(before, EvidenceKey, records[..0]) == before;
      for i := 0 to |next|
        invariant evidence == InsertRows(before, EvidenceKey, records[..if i <= |prior| then 0 else i - |prior|])
      {
        var e := next[i];
        if i >= |prior| { InsertOneMore(before, records, i - |prior|); }
        if e.itemId != itemId || e.id in priorIds {
          assert i < |prior|;
          continue;
        }
        if e.id in evidence { return Err(Io); }
        evidence := evidence[e.id := e];
      }
      assert records[..|records|] == records;
      return Ok(());
    }

    /** One UPDATE, one transition and the new evidence rows: the row step exactly. */
    method PersistTransition(
        project: Text, prior: Backlog, next: Backlog, item: Item, ghost was: Item, ghost change: Change)
      returns (r: Result<(), RegistryError>)
      requires LedgerSound(Snapshot()) && Represents(Snapshot(), project, prior) && was in prior.items
      requires next == Advance(prior, was, change) && item == Updated(was, change)
      modifies this`items, this`evidence, this`transitions
      ensures r == Ok(()) && Snapshot() == AdvanceRow(old(Snapshot()), was, change)
    {
      hide LedgerSound, EvidenceRecords, Represents, InsertRows, DistinctKeys, HasKey;
      HeldRow(Snapshot(), project, prior, was);
      NewEvidence(Snapshot(), project, prior, was, change);
      var row := items[item.id];
      items := items[item.id := row.(state := item.state, revision := item.revision, updatedAt := item.updatedAt)];
      transitions := transitions + [next.transitions[|next.transitions| - 1]];
      r := InsertEvidence(item.id, prior.evidence, next.evidence, EvidenceRecords(was.id, was.revision + 1, change));
    }

    /** One INSERT for each requirement of a new source; a taken key is an error. */
    method InsertRequirements(records: seq<Requirement>) returns (r: Result<(), RegistryError>)
      requires DistinctKeys(RequirementKey, records)
      requires forall i :: 0 <= i < |records| ==> records[i].id !in requirements
      modifies this`requirements
      ensures r == Ok(()) && requirements == InsertRows(old(requirements), RequirementKey, records)
    {
      ghost var before := requirements;
      assert records[..0] == [];
      for i := 0 to |records|
        invariant requirements == InsertRows(before, RequirementKey, records[..i])
      {
        InsertAnother(before, records, i);
        if records[i].id in requirements { return Err(Io); }
        requirements := requirements[records[i].id := records[i]];
      }
      assert records[..|records|] == records;
      return Ok(());
    }

    /** The item inserted or touched, the new source and its requirements inserted; a taken key is an error. */
    method PersistSource(project: Text, prior: Backlog, result: Ingested, source: Source, ghost input: IngestInput)
      returns (r: Result<(), RegistryError>)
      requires LedgerSound(Snapshot()) && Represents(Snapshot(), project, prior) && input.project == project
      requires Ingest(env.sha, prior, input) == Ok(result)
      requires FindSource(prior.sources, input.kind, SourceIdOf(input)).None?
      requires |result.state.sources| == |prior.sources| + 1 && source == NewSource(prior, result)
      requires |result.state.requirements| >= |prior.requirements|
      modifies this`items, this`sources, this`requirements
      ensures if Fits(old(Snapshot()), prior, result) then
                r == Ok(())
                && Snapshot() == IngestRow(old(Snapshot()), result.item, source, NewRequirements(prior, result))
              else r == Err(Io)
    {
      hide LedgerSound, Represents, Ingest, InsertRows, DistinctKeys, SourceRequirements;
      ghost var before := Snapshot();
      TouchedItemRow(before, project, env.sha, prior, input);
      if result.created {
        if result.item.id in items { return Err(Io); }
        items := items[result.item.id := result.item];
      } else {
        var row := items[result.item.id];
        items := items[result.item.id := row.(
          priority := result.item.priority, revision := result.item.revision, updatedAt := result.item.updatedAt)];
      }
      if KeyOf(source) in sources { return Err(Io); }
      sources := sources[KeyOf(source) := source];
      FreshRequirements(before, project, env.sha, prior, input);
      r := InsertRequirements(SourceRequirements(result.state.requirements, source.kind, source.id));
    }

    /** What an ingestion adds to the ledger, written to the rows; nothing for a known source. */
    method PersistIngestion(project: Text, prior: Backlog, result: Ingested, ghost input: IngestInput)
      returns (r: Result<(), RegistryError>)
      requires LedgerSound(Snapshot()) && Represents(Snapshot(), project, prior) && input.project == project
      requires Ingest(env.sha, prior, input) == Ok(result)
      modifies this`items, this`sources, this`requirements
      ensures Wrote(IngestStep(old(Snapshot()), prior, result), Snapshot(), r)
    {
      hide LedgerSound, Represents, Ingest, IngestRow, Fits, RequirementsOf, IsIdentifier, SafeText;
      IngestShape(env.sha, prior, input);
      if result.state.sources == [] { return Err(Corrupt); }
      var source := result.state.sources[|result.state.sources| - 1];
      assert |result.state.sources| == |prior.sources| ==> source == prior.sources[|result.state.sources| - 1];
      if exists i :: 0 <= i < |prior.sources| && prior.sources[i].kind == source.kind
          && prior.sources[i].id == source.id {
        return Ok(());
      }
      r := PersistSource(project, prior, result, source, input);
    }

    // ----- the ledger follows a request -----

    /** One transition of one item, in the held ledger and in the rows. */
    method MoveItem(project: Text, st: Backlog, item: Item, actor: Text, now: int, event: Event)
      returns (r: Result<(Backlog, Item), RegistryError>)
      requires LedgerSound(Snapshot()) && Represents(Snapshot(), project, st) && item in st.items && ShortKinds(event)
      modifies this`items, this`evidence, this`transitions
      ensures match StepItem(old(Snapshot()), item, actor, now, event)
              case Ok((rows, moved)) =>
                && r.Ok? && r.value.1 == moved && Snapshot() == rows
                && LedgerSound(rows) && Represents(rows, project, r.value.0) && moved in r.value.0.items
              case Err(e) => r == Err(e)
      ensures r == Domain(Transition(st, item.id, item.revision, actor, now, event))
    {
      hide LedgerSound, Represents, StepItem, Plan, ShortKinds, Advance, AdvanceRow, Ledger.Transition;
      ghost var before := Snapshot();
      HeldRow(before, project, st, item);
      TransitionIsStep(before, st, item, actor, now, event);
      var done :- Domain(Transition(st, item.id, item.revision, actor, now, event));
      var (next, moved) := done;
      ghost var change :| (next, moved) == (Advance(st, item, change), Updated(item, change))
        && StepItem(before, item, actor, now, event).value == (AdvanceRow(before, item, change), Updated(item, change));
      StepItemKeepsSound(before, item, actor, now, event);
      AdvanceRefines(before, project, st, item, change);
      AdvancedItemIsHeld(st, item, change);
      var _ := PersistTransition(project, st, next, moved, item, change);
      return Ok((next, moved));
    }

    method FollowClaim(st: Backlog, item: Item, request: Request) returns (r: Result<(), RegistryError>)
      requires SeatRows(Snapshot()) && LedgerSound(Snapshot()) && Represents(Snapshot(), request.project, st)
      requires item in st.items && request.status.Claimed?
      modifies this`items, this`evidence, this`transitions
      ensures Wrote(AfterClaimed(old(Snapshot()), item, request), Snapshot(), r)
    {
      hide LedgerSound, SeatRows, Represents, StepItem, RuntimeIdentity.SameRuntimeSession, LeaseById, AdvanceRow;
      var agentId, leaseId := request.status.agentId, request.status.leaseId;
      if item.state.Assigned? && item.state.agentId == agentId && item.state.leaseId == leaseId {
        return Ok(());
      }
      if item.state.Held() && RuntimeIdentity.SameRuntimeSession(item.state.agentId, agentId)
         && item.state.leaseId != leaseId {
        var lease := LeaseRow(leaseId);
        if lease.None? || lease.value.owner.id != agentId || lease.value.project != request.project
           || lease.value.role != request.role || !lease.value.status.Active?
           || lease.value.expiresAt <= request.updatedAt {
          return Err(StaleLease);
        }
        var kind := item.state.Kind();
        var updated := item.(
          revision := item.revision + 1, updatedAt := request.updatedAt,
          state := Reassigned(item.state, agentId, leaseId));
        var rebound := st.(
          items := Replace(st.items, updated),
          transitions := st.transitions
                         + [TransitionRecord(
                              item.id, updated.revision, ACTOR, ERebind, kind, kind, request.updatedAt)]);
        ghost var change := RebindChange(item, agentId, leaseId, request.updatedAt);
        assert rebound == Advance(st, item, change) && updated == Updated(item, change);
        r := PersistTransition(request.project, st, rebound, updated, item, change);
        return;
      }
      if !item.state.Ready? { return Ok(()); }
      var _ :- MoveItem(request.project, st, item, ACTOR, request.updatedAt, Assign(agentId, leaseId));
      return Ok(());
    }

    /** A completed request's closed item takes the request's evidence, if it does not list it yet. */
    method AppendEvidence(st: Backlog, item: Item, request: Request) returns (r: Result<(), RegistryError>)
      requires LedgerSound(Snapshot()) && Represents(Snapshot(), request.project, st)
      requires item in st.items && item.state.Terminal?
      modifies this`items, this`evidence, this`transitions
      ensures var added := Unlisted(CompletionEvidence(request.id), item.state.evidence);
              r == Ok(())
              && Snapshot() == if added == [] then old(Snapshot())
                               else AdvanceRow(old(Snapshot()), item, AppendChange(item, added, request.updatedAt))
    {
      hide LedgerSound, Represents, AdvanceRow, CompletionEvidence, EvidenceId;
      var expected := CompletionEvidence(request.id);
      var added := Unlisted(expected, item.state.evidence);
      assert added != [] ==> added[0] in added;
      if forall e :: e in expected ==> e in item.state.evidence {
        return Ok(());
      }
      assert added != [];
      var updated := item.(
        revision := item.revision + 1, updatedAt := request.updatedAt,
        state := Terminal(item.state.outcome, item.state.evidence + added));
      var records := seq(|added|, i requires 0 <= i < |added| =>
        EvidenceRecord(EvidenceId(item.id, updated.revision, Final, i), item.id, Final, added[i].kind, added[i].ref,
                       request.updatedAt));
      var next := st.(
        items := Replace(st.items, updated),
        evidence := st.evidence + records,
        transitions := st.transitions
                       + [TransitionRecord(
                            item.id, updated.revision, ACTOR, EComplete, KTerminal, KTerminal, request.updatedAt)]);
      ghost var change := AppendChange(item, added, request.updatedAt);
      assert records == EvidenceRecords(item.id, item.revision + 1, change);
      assert next == Advance(st, item, change) && updated == Updated(item, change);
      r := PersistTransition(request.project, st, next, updated, item, change);
    }

    method FollowCompletion(held: Backlog, linked: Item, request: Request) returns (r: Result<(), RegistryError>)
      requires LedgerSound(Snapshot()) && Represents(Snapshot(), request.project, held) && linked in held.items
      modifies this`items, this`evidence, this`transitions
      ensures Wrote(AfterCompleted(old(Snapshot()), linked, request), Snapshot(), r)
    {
      hide LedgerSound, Represents, StepItem, AdvanceRow, CompletionEvidence, ShortKinds;
      var state, item := held, linked;
      if item.state.Assigned? {
        StartHasShortKinds(request.id);
        var started :- MoveItem(request.project, state, item, ACTOR, request.updatedAt, Start(request.id));
        state, item := started.0, started.1;
      }
      if item.state.Terminal? {
        if item.state.outcome.Cancelled? { return Err(BadTransition); }
        r := AppendEvidence(state, item, request);
        return;
      }
      CompletionKindsAreShort(request.id);
      var _ :- MoveItem(
        request.project, state, item, ACTOR, request.updatedAt, Complete(CompletionEvidence(request.id)));
      return Ok(());
    }

    /** The ledger step a request's new status calls for. */
    method TransitionRequestBacklog(request: Request) returns (r: Result<(), RegistryError>)
      requires SeatRows(Snapshot()) && LedgerSound(Snapshot())
      modifies this`items, this`evidence, this`transitions
      ensures Wrote(AfterRequest(old(Snapshot()), request), Snapshot(), r)
    {
      hide LedgerSound, SeatRows, Represents, StepItem, AfterClaimed, AfterCompleted, ClosingEvent, ShortKinds,
           Loadable;
      ghost var before := Snapshot();
      var loaded, st := LoadBacklog(request.project);
      var state :- loaded;
      LinkedRows(before, request.project, state, request.id);
      var source := FindSource(state.sources, RegistryRequest, request.id);
      if source.None? { return Ok(()); }
      var linked := FindItem(state.items, source.value.itemId);
      if linked.None? { return Err(Corrupt); }
      var item := linked.value;
      if request.status.Claimed? {
        r := FollowClaim(state, item, request);
      } else if request.status.Fulfilled? {
        r := FollowCompletion(state, item, request);
      } else if (request.status.Withdrawn? || request.status.Failed?) && !item.state.Terminal? {
        ClosingKindsAreShort(request);
        var _ :- MoveItem(request.project, state, item, ACTOR, request.updatedAt, ClosingEvent(request));
        r := Ok(());
      } else {
        r := Ok(());
      }
    }

    // ----- leases -----

    method Claim(
      newId: Uuid, agent: Agent, project: Text, role: Text, mode: LeaseMode, policy: Text, now: int, ttl: int)
      returns (r: Result<ClaimOutcome, RegistryError>)
      modifies this`leases
      ensures Worked(ClaimStep(old(Snapshot()), newId, agent, project, role, mode, policy, now, ttl), Snapshot(), r)
    {
      hide BoundedText, RoleName;
      if !TimeOk(now) || !TtlOk(ttl) { return Err(Invalid); }
      var owner :- BoundedText(agent.id, 128, RegistryError.Invalid);
      if agent.pid < 1 { return Err(Invalid); }
      var name :- RoleName(role);
      var digest :- BoundedText(policy, 256, RegistryError.Invalid);
      leases := Prune(leases, now);
      if (project, name) in leases { return Ok(AlreadyOwned(leases[(project, name)])); }
      if |leases| >= MAX_LEASES { return Err(Capacity); }
      if now + ttl > MAX_SAFE_INTEGER { return Err(Invalid); }
      if exists seat :: seat in leases && leases[seat].id == newId { return Err(Io); }
      var lease := Lease(newId, project, name, mode, Agent(owner, agent.pid), digest, now, now, now + ttl, Active);
      leases := leases[(project, name) := lease];
      return Ok(ClaimedLease(lease));
    }

    /** UPDATE leases ... WHERE lease_id = ?. */
    method UpdateLease(lease: Lease)
      modifies this`leases
      ensures Snapshot() == WithLease(old(Snapshot()), lease)
    {
      leases := leases[SeatOf(lease) := lease];
    }

    method Heartbeat(leaseId: Uuid, agentId: Text, policy: Text, now: int, ttl: int)
      returns (r: Result<Lease, RegistryError>)
      requires SeatRows(Snapshot())
      modifies this`leases
      ensures Worked(HeartbeatStep(old(Snapshot()), leaseId, agentId, policy, now, ttl), Snapshot(), r)
    {
      hide SeatRows, BoundedText, LeaseById, WithLease;
      if !TimeOk(now) || !TtlOk(ttl) { return Err(Invalid); }
      var digest :- BoundedText(policy, 256, RegistryError.Invalid);
      var found := LeaseRow(leaseId);
      if found.None? { return Err(StaleLease); }
      var lease := found.value;
      if lease.owner.id != agentId || lease.expiresAt <= now { return Err(StaleLease); }
      var status := if lease.policyDigest == digest && !lease.status.Suspended? then lease.status else Suspended;
      if now + ttl > MAX_SAFE_INTEGER { return Err(Invalid); }
      lease := lease.(heartbeatAt := now, expiresAt := now + ttl, status := status);
      UpdateLease(lease);
      return Ok(lease);
    }

    method Pause(leaseId: Uuid, agentId: Text, now: int) returns (r: Result<Lease, RegistryError>)
      requires SeatRows(Snapshot())
      modifies this`leases
      ensures Worked(PauseStep(old(Snapshot()), leaseId, agentId, now), Snapshot(), r)
    {
      hide SeatRows, LeaseById, WithLease;
      if !TimeOk(now) { return Err(Invalid); }
      var found := LeaseRow(leaseId);
      if found.None? { return Err(StaleLease); }
      var lease := found.value;
      if lease.owner.id != agentId || lease.expiresAt <= now || lease.status.Suspended? { return Err(StaleLease); }
      lease := lease.(status := Paused);
      UpdateLease(lease);
      return Ok(lease);
    }

    method Resume(leaseId: Uuid, agentId: Text, policy: Text, now: int, ttl: int)
      returns (r: Result<Lease, RegistryError>)
      requires SeatRows(Snapshot())
      modifies this`leases
      ensures Worked(ResumeStep(old(Snapshot()), leaseId, agentId, policy, now, ttl), Snapshot(), r)
    {
      hide SeatRows, BoundedText, LeaseById, WithLease;
      if !TimeOk(now) || !TtlOk(ttl) { return Err(Invalid); }
      var digest :- BoundedText(policy, 256, RegistryError.Invalid);
      var found := LeaseRow(leaseId);
      if found.None? { return Err(StaleLease); }
      var lease := found.value;
      if lease.owner.id != agentId || lease.expiresAt <= now || !lease.status.Paused? || lease.policyDigest != digest {
        return Err(StaleLease);
      }
      if now + ttl > MAX_SAFE_INTEGER { return Err(Invalid); }
      lease := lease.(heartbeatAt := now, expiresAt := now + ttl, status := Active);
      UpdateLease(lease);
      return Ok(lease);
    }

    method Release(leaseId: Uuid, agentId: Text, now: int) returns (r: Result<(), RegistryError>)
      requires SeatRows(Snapshot())
      modifies this`leases
      ensures Worked(ReleaseStep(old(Snapshot()), leaseId, agentId, now), Snapshot(), r)
    {
      hide SeatRows, LeaseById;
      if !TimeOk(now) { return Err(Invalid); }
      var found := LeaseRow(leaseId);
      if found.None? || found.value.owner.id != agentId { return Err(StaleLease); }
      leases := leases - {SeatOf(found.value)};
      return Ok(());
    }

    // ----- requests -----

    /** INSERT or UPDATE of one request row. */
    method WriteRequest(request: Request)
      requires Valid() && (request.id in requests ==> requests[request.id].id == request.id)
      modifies this`requests
      ensures Snapshot() == WithRequest(old(Snapshot()), request) && Valid()
    {
      hide LedgerSound, SeatRows;
      requests := requests[request.id := request];
      LedgerFrame(old(Snapshot()), Snapshot());
      SeatsKept(old(Snapshot()), Snapshot());
    }

    /** The request row takes its new status and the ledger follows. */
    method ChangeStatus(request: Request) returns (r: Result<Request, RegistryError>)
      requires Valid()
      modifies this`requests, this`items, this`evidence, this`transitions
      ensures Worked(ChangeRequest(old(Snapshot()), request), Snapshot(), r)
    {
      hide LedgerSound, SeatRows, AfterRequest, WithRequest;
      RequestNames(Snapshot());
      WriteRequest(request);
      var _ :- TransitionRequestBacklog(request);
      return Ok(request);
    }

    method Enqueue(
      newId: Uuid, itemId: Uuid, project: Text, role: Text, requesterId: Text, text: Text, priority: Priority, now: int)
      returns (r: Result<Request, RegistryError>, ghost st: Backlog)
      requires Valid()
      modifies this`requests, this`items, this`sources, this`requirements
      ensures Represents(old(Snapshot()), project, st)
      ensures Worked(EnqueueStep(env, old(Snapshot()), st, newId, itemId, project, role, requesterId, text,
              priority, now),
                     Snapshot(), r)
    {
      hide Represents, Ingest, IngestStep, LedgerSound, SeatRows, NewRequest, Loadable, WithRequest;
      st := Reader.EveryProjectIsRepresented(Snapshot(), project);
      if |requests| >= MAX_REQUESTS { return Err(Capacity), st; }
      var drafted := NewRequest(env, newId, project, role, requesterId, text, priority, now);
      if drafted.Err? { return Err(drafted.error), st; }
      var request := drafted.value;
      NewRequestFields(env, newId, project, role, requesterId, text, priority, now);
      if newId in requests { return Err(Io), st; }
      WriteRequest(request);
      var loaded, held := LoadBacklog(project);
      LedgerRowsKept(old(Snapshot()), request);
      LedgerRepresented(Snapshot(), old(Snapshot()), project, held);
      st := held;
      if loaded.Err? { return Err(loaded.error), st; }
      var chunks := Chunks.RequestRequirements(request.text);
      var input := RequestInput(request, itemId).(requirements := chunks);
      assert input == RequestInput(request, itemId);
      var ingested := Domain(Ingest(env.sha, loaded.value, input));
      if ingested.Err? { return Err(ingested.error), st; }
      var persisted := PersistIngestion(project, loaded.value, ingested.value, input);
      return if persisted.Ok? then Ok(request) else Err(persisted.error), st;
    }

    method IngestMessage(message: Message, itemId: Uuid) returns (r: Result<Backlog, RegistryError>, ghost st: Backlog)
      requires Valid()
      modifies this`items, this`sources, this`requirements
      ensures Represents(old(Snapshot()), message.project, st)
      ensures Worked(MessageStep(env, old(Snapshot()), st, message, itemId), Snapshot(), r)
    {
      hide Represents, Ingest, IngestStep, LedgerSound, SeatRows, Loadable;
      var loaded, held := LoadBacklog(message.project);
      st := held;
      if loaded.Err? { return Err(loaded.error), st; }
      var input := MessageInput(message, itemId);
      var ingested := Domain(Ingest(env.sha, loaded.value, input));
      if ingested.Err? { return Err(ingested.error), st; }
      var persisted := PersistIngestion(message.project, loaded.value, ingested.value, input);
      return if persisted.Ok? then Ok(ingested.value.state) else Err(persisted.error), st;
    }

    method ReceiveRequest(
        requestId: Uuid, leaseId: Uuid, agentId: Text, now: int)
        returns (r: Result<Request, RegistryError>)
      requires Valid()
      modifies this`requests
      ensures Worked(ReceiveStep(old(Snapshot()), requestId, leaseId, agentId, now), Snapshot(), r)
    {
      hide LedgerSound, SeatRows, CurrentLease, WithRequest;
      RequestNames(Snapshot());
      if !TimeOk(now) { return Err(Invalid); }
      var lease :- CurrentLeaseRow(leaseId, agentId, now);
      var request :- RequestRow(requestId);
      if request.project != lease.project || request.role != lease.role { return Err(StaleLease); }
      if !request.status.Queued? { return Err(BadTransition); }
      if request.receipt.Some? && request.receipt.value.leaseId == lease.id
         && request.receipt.value.agentId == lease.owner.id {
        return Ok(request);
      }
      var received := request.(receipt := Some(Receipt(now, lease.owner.id, lease.id)));
      WriteRequest(received);
      return Ok(received);
    }

    method AcknowledgeRequest(requestId: Uuid, requesterId: Text, now: int) returns (r: Result<Request, RegistryError>)
      requires Valid()
      modifies this`requests
      ensures Worked(AcknowledgeStep(old(Snapshot()), requestId, requesterId, now), Snapshot(), r)
    {
      hide LedgerSound, SeatRows, WithRequest;
      RequestNames(Snapshot());
      if !TimeOk(now) { return Err(Invalid); }
      var request :- RequestRow(requestId);
      if request.requesterId != requesterId { return Err(BadTransition); }
      if !request.status.Fulfilled? && !request.status.Failed? && !request.status.Withdrawn? {
        return Err(BadTransition);
      }
      var acknowledged := request.(acknowledgedAt := Some(now));
      WriteRequest(acknowledged);
      return Ok(acknowledged);
    }

    method CancelRequest(requestId: Uuid, requesterId: Text, now: int) returns (r: Result<Request, RegistryError>)
      requires Valid()
      modifies this`requests, this`items, this`evidence, this`transitions
      ensures Worked(CancelStep(old(Snapshot()), requestId, requesterId, now), Snapshot(), r)
    {
      hide LedgerSound, SeatRows, ChangeRequest;
      if !TimeOk(now) { return Err(Invalid); }
      var request :- RequestRow(requestId);
      if request.requesterId != requesterId { return Err(BadTransition); }
      if request.status.Fulfilled? || request.status.Failed? || request.status.Withdrawn? { return Err(BadTransition); }
      r := ChangeStatus(request.(status := Withdrawn, updatedAt := now));
    }

    method ClaimRequest(
        requestId: Uuid, leaseId: Uuid, agentId: Text, now: int)
        returns (r: Result<Request, RegistryError>)
      requires Valid()
      modifies this`requests, this`items, this`evidence, this`transitions
      ensures Worked(ClaimRequestStep(old(Snapshot()), requestId, leaseId, agentId, now), Snapshot(), r)
    {
      hide LedgerSound, SeatRows, CurrentLease, LeaseById, ChangeRequest;
      if !TimeOk(now) { return Err(Invalid); }
      var lease :- CurrentLeaseRow(leaseId, agentId, now);
      var request :- RequestRow(requestId);
      if request.project != lease.project || request.role != lease.role { return Err(StaleLease); }
      if request.status.Claimed? {
        var prior := LeaseRow(request.status.leaseId);
        if prior.Some? && prior.value.expiresAt > now { return Err(BadTransition); }
      } else if !request.status.Queued? {
        return Err(BadTransition);
      }
      r := ChangeStatus(request.(status := Claimed(lease.id, lease.owner.id), updatedAt := now));
    }

    /** The claimed request the presented lease works on. */
    method ClaimedRequest(requestId: Uuid, leaseId: Uuid, agentId: Text, now: int)
      returns (r: Result<Request, RegistryError>)
      requires Valid()
      ensures r == OwnClaim(Snapshot(), requestId, leaseId, agentId, now)
    {
      hide LedgerSound, SeatRows, CurrentLease;
      if !TimeOk(now) { return Err(Invalid); }
      var lease :- CurrentLeaseRow(leaseId, agentId, now);
      var request :- RequestRow(requestId);
      if !request.status.Claimed? || request.status.leaseId != lease.id || request.status.agentId != lease.owner.id {
        return Err(BadTransition);
      }
      return Ok(request);
    }

    method CompleteRequest(requestId: Uuid, leaseId: Uuid, agentId: Text, now: int, summary: Text)
      returns (r: Result<Request, RegistryError>)
      requires Valid()
      modifies this`requests, this`items, this`evidence, this`transitions
      ensures Worked(CompleteStep(env, old(Snapshot()), requestId, leaseId, agentId, now, summary), Snapshot(), r)
    {
      hide LedgerSound, SeatRows, CurrentLease, ChangeRequest, PersistedText;
      var request :- ClaimedRequest(requestId, leaseId, agentId, now);
      var text :- PersistedText(env, summary, MAX_SUMMARY_TEXT);
      OwnClaimIsOwn(Snapshot(), requestId, leaseId, agentId, now);
      r := ChangeStatus(
        request.(status := Fulfilled(request.status.leaseId, request.status.agentId, text), updatedAt := now));
    }

    method FailRequest(requestId: Uuid, leaseId: Uuid, agentId: Text, now: int, failure: Failure, diagnostic: Text)
      returns (r: Result<Request, RegistryError>)
      requires Valid()
      modifies this`requests, this`items, this`evidence, this`transitions
      ensures Worked(FailStep(env, old(Snapshot()), requestId, leaseId, agentId, now, failure, diagnostic),
              Snapshot(), r)
    {
      hide LedgerSound, SeatRows, CurrentLease, ChangeRequest, PersistedText;
      var request :- ClaimedRequest(requestId, leaseId, agentId, now);
      var text :- PersistedText(env, diagnostic, MAX_SUMMARY_TEXT);
      OwnClaimIsOwn(Snapshot(), requestId, leaseId, agentId, now);
      r := ChangeStatus(request.(
        status := Failed(request.status.leaseId, request.status.agentId, failure, text), updatedAt := now));
    }

    method AdvanceRequest(
      requestId: Uuid, leaseId: Uuid, agentId: Text, now: int, phase: AdvancePhase, evidenceRef: Text)
      returns (r: Result<Request, RegistryError>)
      requires Valid()
      modifies this`items, this`evidence, this`transitions
      ensures Worked(AdvanceStep(old(Snapshot()), requestId, leaseId, agentId, now, phase, evidenceRef), Snapshot(), r)
    {
      hide LedgerSound, SeatRows, Represents, CurrentLease, OwnClaim, StepItem, Loadable, ShortKinds, BoundedText;
      var request :- ClaimedRequest(requestId, leaseId, agentId, now);
      var loaded, st := LoadBacklog(request.project);
      var state :- loaded;
      LinkedRows(Snapshot(), request.project, state, requestId);
      OwnClaimNames(Snapshot(), requestId, leaseId, agentId, now);
      var source := FindSource(state.sources, RegistryRequest, request.id);
      if source.None? { return Err(Corrupt); }
      var linked := FindItem(state.items, source.value.itemId);
      if linked.None? { return Err(Corrupt); }
      var item := linked.value;
      if item.state.Terminal? { return Err(BadTransition); }
      if !item.state.Ready?
         && (!item.state.Held() || item.state.agentId != agentId || item.state.leaseId != leaseId) {
        return Err(BadTransition);
      }
      var ref :- BoundedText(evidenceRef, 1_024, RegistryError.Invalid);
      if (phase.ToImplementation? && item.state.Implementing? && item.state.implementationRef == ref)
         || (phase.ToReview? && item.state.InReview? && item.state.reviewRef == ref)
         || (phase.ToPublication? && item.state.Publishing? && item.state.publicationRef == ref) {
        return Ok(request);
      }
      var event := match phase
        case ToImplementation => Start(ref)
        case ToReview => ReviewWork(ref)
        case ToPublication => Publish(ref);
      ReferencesAreShort(event);
      var _ :- MoveItem(request.project, state, item, agentId, now, event);
      return Ok(request);
    }

    // ----- reconciliation -----

    /** A group's records ingested one after the other, each into the item of the one before. */
    method IngestRecords(
      uuids: Text -> Uuid, held: Backlog, feed: R.Feed, key: Text, known: Option<Item>, records: seq<R.FeedRecord>)
      returns (r: Result<(Backlog, Option<Item>), RegistryError>)
      requires R.InStep(R.Work(Snapshot(), held), feed.project)
      modifies this`items, this`sources, this`requirements
      ensures match R.IngestRecords(env.sha, uuids, R.Work(old(Snapshot()), held), feed, key, known, records)
              case Ok((w, item)) => r == Ok((w.held, item)) && Snapshot() == w.tables
              case Err(e) => r == Err(e)
    {
      hide R.InStep, Ingest, IngestStep, R.RecordInput;
      var state, item := held, known;
      for i := 0 to |records|
        invariant R.InStep(R.Work(Snapshot(), state), feed.project)
        invariant R.IngestRecords(env.sha, uuids, R.Work(old(Snapshot()), held), feed, key, known, records)
                  == R.IngestRecords(env.sha, uuids, R.Work(Snapshot(), state), feed, key, item, records[i..])
      {
        ghost var w := R.Work(Snapshot(), state);
        var input := R.RecordInput(feed, uuids, key, item, records[i]);
        InputNamesProject(feed, uuids, key, item, records[i]);
        StepParts(w, feed.project);
        assert records[i..][1..] == records[i + 1..];
        var result :- Domain(Ingest(env.sha, state, input));
        var _ :- PersistIngestion(feed.project, state, result, input);
        R.RecordKeepsInStep(env.sha, uuids, w, feed, key, item, records[i]);
        state, item := result.state, Some(result.item);
      }
      return Ok((state, item));
    }

    /** The event that brings an open item to its group's status, if it is not there yet. */
    method DesiredEvent(
        feed: R.Feed, group: R.Group, state: ItemState)
        returns (r: Result<Option<Event>, RegistryError>)
      requires group.records != []
      ensures r == R.GroupEvent(feed, group, state)
    {
      var status := group.records[0].status;
      var event: Option<Event> := None;
      if status.FeedCompleted? {
        event := Some(Event.Reconcile(Outcome.Completed, [Evidence(feed.statusKind, group.ref)]));
      } else if status.FeedCancelled? {
        event := Some(Event.Reconcile(Outcome.Cancelled, [Evidence(feed.statusKind, group.ref)]));
      } else if status.FeedBlocked? {
        var reason := group.records[0].reason;
        if reason == [] { return Err(Invalid); }
        if !state.Blocked? || state.reason != reason { event := Some(Block(reason)); }
      } else if state.Blocked? || state.Unreconciled? {
        event := Some(MakeReady);
      }
      return Ok(event);
    }

    method SettleItem(
        held: Backlog, feed: R.Feed, group: R.Group, item: Item)
        returns (r: Result<Backlog, RegistryError>)
      requires R.InStep(R.Work(Snapshot(), held), feed.project) && R.ShortStatus(feed)
      requires group.records != [] && item in held.items
      modifies this`items, this`evidence, this`transitions
      ensures var event := R.GroupEvent(feed, group, item.state);
              if event.Err? then r == Err(event.error)
              else if event.value.None? then r == Ok(held) && Snapshot() == old(Snapshot())
              else match R.MoveItem(R.Work(old(Snapshot()), held), feed, item, event.value.value)
                case Ok(w) => r == Ok(w.held) && Snapshot() == w.tables
                case Err(e) => r == Err(e)
    {
      hide R.InStep, R.GroupEvent, ShortKinds, R.MoveItem, R.ShortStatus, LedgerSound, Represents, StepItem, Transition;
      ghost var w := R.Work(Snapshot(), held);
      var event :- DesiredEvent(feed, group, item.state);
      if event.None? { return Ok(held); }
      R.GroupEventHasShortKinds(feed, group, item.state);
      StepParts(w, feed.project);
      MovedAlike(w, feed, item, event.value);
      var moved :- MoveItem(feed.project, held, item, feed.actor, feed.observedAt, event.value);
      return Ok(moved.0);
    }

    /** One group: its records ingested, then its item brought to the group's status. */
    method ReconcileGroup(uuids: Text -> Uuid, held: Backlog, feed: R.Feed, group: R.Group)
      returns (r: Result<Backlog, RegistryError>)
      requires R.InStep(R.Work(Snapshot(), held), feed.project) && R.ShortStatus(feed)
      modifies this`items, this`sources, this`requirements, this`evidence, this`transitions
      ensures match R.ReconcileGroup(env.sha, uuids, R.Work(old(Snapshot()), held), feed, group)
              case Ok(w) => r == Ok(w.held) && Snapshot() == w.tables
              case Err(e) => r == Err(e)
    {
      hide R.InStep, R.IngestRecords, R.MoveItem, R.GroupEvent, R.ShortStatus;
      if group.records == []
         || exists i :: 0 <= i < |group.records| && group.records[i].status != group.records[0].status {
        return Err(Invalid);
      }
      var status := group.records[0].status;
      var existing := R.FindByPrefix(held.sources, feed.kind, group.prefix);
      if status.Closed() && existing.None? { return Ok(held); }
      var known := if existing.Some? then FindItem(held.items, existing.value.itemId) else None;
      KnownItemHasItsRow(R.Work(Snapshot(), held), feed.project, known);
      var ingested :- IngestRecords(uuids, held, feed, group.key, known, group.records);
      R.RecordsKeepInStep(env.sha, uuids, R.Work(old(Snapshot()), held), feed, group.key, known, group.records);
      var state, current := ingested.0, ingested.1;
      if current.None? || current.value.state.Terminal? { return Ok(state); }
      r := SettleItem(state, feed, group, current.value);
    }

    /** The loop over the groups, from a ledger that is held and stored. */
    method ReconcileAll(uuids: Text -> Uuid, held: Backlog, feed: R.Feed) returns (r: Result<Backlog, RegistryError>)
      requires R.InStep(R.Work(Snapshot(), held), feed.project) && R.ShortStatus(feed)
      modifies this`items, this`sources, this`requirements, this`evidence, this`transitions
      ensures match R.ReconcileGroups(env.sha, uuids, R.Work(old(Snapshot()), held), feed, feed.groups)
              case Ok(w) => r == Ok(w.held) && Snapshot() == w.tables
              case Err(e) => r == Err(e)
    {
      hide R.InStep, R.ReconcileGroup, R.ShortStatus, R.ReconcileGroups;
      ghost var w := R.Work(Snapshot(), held);
      var state := held;
      NoGroups(env.sha, uuids, w, feed);
      for i := 0 to |feed.groups|
        invariant R.InStep(R.Work(Snapshot(), state), feed.project)
        invariant R.ReconcileGroups(env.sha, uuids, w, feed, feed.groups[..i]) == Ok(R.Work(Snapshot(), state))
      {
        OneMoreGroup(env.sha, uuids, w, R.Work(Snapshot(), state), feed, i);
        var next := ReconcileGroup(uuids, state, feed, feed.groups[i]);
        if next.Err? {
          ErrorsStay(env.sha, uuids, w, feed, i + 1, next.error);
          return Err(next.error);
        }
        state := next.value;
      }
      assert feed.groups[..|feed.groups|] == feed.groups;
      return Ok(state);
    }

    /** The groups of a feed reconciled in order with the loaded ledger, or nothing on the first error. */
    method ReconcileFeed(uuids: Text -> Uuid, feed: R.Feed)
      returns (r: Result<Backlog, RegistryError>, ghost st: Backlog)
      requires LedgerSound(Snapshot()) && R.ShortStatus(feed)
      modifies this`items, this`sources, this`requirements, this`evidence, this`transitions
      ensures Represents(old(Snapshot()), feed.project, st)
      ensures Worked(R.ReconcileStep(env.sha, uuids, old(Snapshot()), st, feed), Snapshot(), r)
    {
      hide LedgerSound, Represents, R.ReconcileGroups, R.ShortStatus, Loadable;
      var loaded, held := LoadBacklog(feed.project);
      st := held;
      if loaded.Err? { return Err(loaded.error), st; }
      r := ReconcileAll(uuids, loaded.value, feed);
    }

    /** Records grouped by identifier. */
    method GroupRecords(records: seq<(Text, R.FeedRecord)>) returns (groups: seq<(Text, seq<R.FeedRecord>)>)
      ensures groups == R.Regroup(records)
    {
      groups := [];
      for i := 0 to |records|
        invariant groups == R.Regroup(records[..i])
      {
        assert records[..i + 1][..i] == records[..i];
        groups := R.AddTo(groups, records[i].0, records[i].1);
      }
      assert records[..|records|] == records;
    }

    method ReconcileCanonicalBacklog(
      uuids: Text -> Uuid, project: Text, kind: SourceKind, scopeId: Text, observedAt: int,
      records: seq<(Text, R.FeedRecord)>)
      returns (r: Result<Backlog, RegistryError>, ghost st: Backlog)
      requires LedgerSound(Snapshot())
      modifies this`items, this`sources, this`requirements, this`evidence, this`transitions
      ensures Represents(old(Snapshot()), project, st)
      ensures Worked(R.ReconcileStep(env.sha, uuids, old(Snapshot()), st,
                                     R.CanonicalFeed(project, kind, scopeId, observedAt, records)), Snapshot(), r)
    {
      hide R.Regroup, R.ReconcileStep, LedgerSound, Represents, R.ShortStatus;
      R.SnapshotsHaveShortStatus(project, kind, scopeId, observedAt, records);
      var groups := GroupRecords(records);
      r, st := ReconcileFeed(uuids, R.CanonicalGroups(project, kind, scopeId, observedAt, groups));
    }

    method ReconcileBranchTodos(
      uuids: Text -> Uuid, project: Text, observedAt: int, records: seq<(Text, R.FeedRecord)>)
      returns (r: Result<Backlog, RegistryError>, ghost st: Backlog)
      requires LedgerSound(Snapshot())
      modifies this`items, this`sources, this`requirements, this`evidence, this`transitions
      ensures Represents(old(Snapshot()), project, st)
      ensures Worked(R.ReconcileStep(env.sha, uuids, old(Snapshot()), st,
              R.BranchTodoFeed(project, observedAt, records)),
                     Snapshot(), r)
    {
      hide R.Regroup, R.ReconcileStep, LedgerSound, Represents, R.ShortStatus;
      R.SnapshotsHaveShortStatus(project, BranchTodo, [], observedAt, records);
      var groups := GroupRecords(records);
      r, st := ReconcileFeed(uuids, R.BranchTodoGroups(project, observedAt, groups));
    }

    // ----- clearing -----

    /** Deletes one item's rows, children first. */
    method DeleteItem(id: Text)
      modifies this`requirements, this`evidence, this`transitions, this`sources, this`items
      ensures Snapshot() == Without(old(Snapshot()), {id})
    {
      hide StepsWithout, RequirementsWithout, EvidenceWithout, SourcesWithout;
      requirements := RequirementsWithout(requirements, {id});
      evidence := EvidenceWithout(evidence, {id});
      transitions := StepsWithout(transitions, {id});
      sources := SourcesWithout(sources, {id});
      items := items - {id};
    }

    /** Deletes every request, lease and item of the projects not kept, with all the rows of those items. */
    method ClearExceptProject(keep: Text -> bool, now: int) returns (r: Result<(), RegistryError>)
      requires Valid()
      modifies this
      ensures Worked(ClearStep(old(Snapshot()), keep, now), Snapshot(), r)
    {
      hide Sound, StepsWithout, KeptTransitions, KeptRequests, KeptLeases, RequirementsWithout, EvidenceWithout,
           SourcesWithout;
      if !TimeOk(now) { return Err(Invalid); }
      var outside := set i | i in items && !keep(items[i].project);
      var ids := Reader.ListOf(outside);
      requests := KeptRequests(requests, keep);
      ghost var start := Snapshot();
      NothingGone(start);
      ghost var gone: set<Text> := {};
      for i := 0 to |ids|
        invariant Snapshot() == Without(start, gone)
        invariant gone <= outside && forall j :: 0 <= j < i ==> ids[j] in gone
      {
        WithoutMore(start, gone, ids[i]);
        DeleteItem(ids[i]);
        gone := gone + {ids[i]};
      }
      assert gone == outside;
      ClearedRows(old(Snapshot()), keep, now, outside);
      leases := KeptLeases(leases, keep);
      return Ok(());
    }

    // ----- transactions -----

    method PerformIngest(op: S.Op) returns (r: Result<(), RegistryError>, ghost st: Backlog)
      requires Valid() && S.IngestsWork(op)
      modifies this
      ensures Represents(old(Snapshot()), S.ProjectOf(old(Snapshot()), op), st)
      ensures Wrote(S.NextIngest(env, old(Snapshot()), st, op), Snapshot(), r)
    {
      hide Sound, Represents, EnqueueStep, MessageStep, R.ReconcileStep;
      SoundParts(Snapshot());
      if op.OpEnqueue? {
        var done, held := Enqueue(op.requestId, op.itemId, op.project, op.role, op.requesterId, op.text,
            op.priority, op.now);
        r, st := Success(done), held;
      } else if op.OpMessage? {
        var done, held := IngestMessage(op.message, op.itemId);
        r, st := Success(done), held;
      } else if op.OpCanonical? {
        var done, held := ReconcileCanonicalBacklog(op.uuids, op.project, op.kind, op.scopeId, op.observedAt,
            op.records);
        r, st := Success(done), held;
      } else {
        var done, held := ReconcileBranchTodos(op.uuids, op.project, op.observedAt, op.records);
        r, st := Success(done), held;
      }
    }

    method PerformRequest(op: S.Op) returns (r: Result<(), RegistryError>)
      requires Valid() && S.WorksOnRequest(op)
      modifies this
      ensures Wrote(S.NextRequest(env, old(Snapshot()), op), Snapshot(), r)
    {
      hide Sound, CancelStep, ClaimRequestStep, AdvanceStep, CompleteStep, FailStep;
      var done: Result<Request, RegistryError>;
      match op {
        case OpCancel(id, requesterId, now) => done := CancelRequest(id, requesterId, now);
        case OpClaimRequest(id, leaseId, agentId, now) => done := ClaimRequest(id, leaseId, agentId, now);
        case OpAdvance(id, leaseId, agentId, now, phase, ref) =>
          done := AdvanceRequest(id, leaseId, agentId, now, phase, ref);
        case OpComplete(id, leaseId, agentId, now, summary) =>
          done := CompleteRequest(id, leaseId, agentId, now, summary);
        case OpFail(id, leaseId, agentId, now, failure, diagnostic) =>
          done := FailRequest(id, leaseId, agentId, now, failure, diagnostic);
      }
      return Success(done);
    }

    method PerformOther(op: S.Op) returns (r: Result<(), RegistryError>)
      requires Valid() && !S.IngestsWork(op) && !S.WorksOnRequest(op)
      modifies this
      ensures Wrote(S.NextOther(old(Snapshot()), op), Snapshot(), r)
    {
      hide Sound, ClaimStep, HeartbeatStep, PauseStep, ResumeStep, ReleaseStep, ReceiveStep, AcknowledgeStep, ClearStep;
      SoundParts(Snapshot());
      match op {
        case OpClaim(newId, agent, project, role, mode, policy, now, ttl) =>
          var done := Claim(newId, agent, project, role, mode, policy, now, ttl);
          r := Success(done);
        case OpHeartbeat(leaseId, agentId, policy, now, ttl) =>
          var done := Heartbeat(leaseId, agentId, policy, now, ttl);
          r := Success(done);
        case OpPause(leaseId, agentId, now) =>
          var done := Pause(leaseId, agentId, now);
          r := Success(done);
        case OpResume(leaseId, agentId, policy, now, ttl) =>
          var done := Resume(leaseId, agentId, policy, now, ttl);
          r := Success(done);
        case OpRelease(leaseId, agentId, now) =>
          var done := Release(leaseId, agentId, now);
          r := Success(done);
        case OpReceive(id, leaseId, agentId, now) =>
          var done := ReceiveRequest(id, leaseId, agentId, now);
          r := Success(done);
        case OpAcknowledge(id, requesterId, now) =>
          var done := AcknowledgeRequest(id, requesterId, now);
          r := Success(done);
        case OpClear(keep, now) =>
          var done := ClearExceptProject(keep, now);
          r := Success(done);
      }
    }

    method Rollback(before: Tables)
      modifies this
      ensures Snapshot() == before
    {
      leases, requests, items, sources := before.leases, before.requests, before.items, before.sources;
      requirements, evidence, transitions := before.requirements, before.evidence, before.transitions;
    }

    method Perform(op: S.Op) returns (r: Result<(), RegistryError>, ghost st: Backlog)
      requires Valid()
      modifies this
      ensures S.IngestsWork(op) ==> Represents(old(Snapshot()), S.ProjectOf(old(Snapshot()), op), st)
      ensures Wrote(S.Next(env, old(Snapshot()), st, op), Snapshot(), r)
    {
      hide Sound, Represents, S.NextIngest, S.NextRequest, S.NextOther, S.ProjectOf;
      st := Backlog([], [], [], [], []);
      if S.IngestsWork(op) {
        r, st := PerformIngest(op);
      } else if S.WorksOnRequest(op) {
        r := PerformRequest(op);
      } else {
        r := PerformOther(op);
      }
    }

    /** One transaction: the operation's step is taken exactly, or it fails and every row is as before. */
    method Transact(op: S.Op) returns (r: Result<(), RegistryError>)
      requires Valid()
      modifies this
      ensures Valid()
      ensures r.Ok? ==> S.Done(env, old(Snapshot()), op, Snapshot())
      ensures r.Err? ==> Snapshot() == old(Snapshot()) && Fails(env, old(Snapshot()), op, r.error)
    {
      hide Sound, Represents, S.Next, S.ProjectOf;
      var before := Snapshot();
      ghost var st;
      r, st := Perform(op);
      if r.Err? {
        assert Fails(env, before, op, r.error);
        Rollback(before);
      } else {
        assert S.Done(env, before, op, Snapshot());
        S.StepKeepsSound(env, before, op, Snapshot());
      }
    }
  }

  function Success<T>(r: Result<T, RegistryError>): Result<(), RegistryError> {
    if r.Ok? then Ok(()) else Err(r.error)
  }

  /** The operation's step fails with this error, for a ledger the reader may load. */
  ghost predicate Fails(env: Env, t: Tables, op: S.Op, error: RegistryError) {
    exists st :: (S.IngestsWork(op) ==> Represents(t, S.ProjectOf(t, op), st)) && S.Next(env, t, st, op) == Err(error)
  }

  lemma SoundParts(t: Tables)
    requires Sound(t)
    ensures SeatRows(t) && LedgerSound(t)
  {
    hide SeatRows, LedgerSound;
  }

  function StepsWithout(records: seq<TransitionRecord>, gone: set<Text>): seq<TransitionRecord> {
    if records == [] then []
    else
      var last := records[|records| - 1];
      StepsWithout(records[..|records| - 1], gone) + if last.itemId in gone then [] else [last]
  }

  function SourcesWithout(rows: map<SourceKey, Source>, gone: set<Text>): map<SourceKey, Source> {
    map k | k in rows && rows[k].itemId !in gone :: rows[k]
  }

  function RequirementsWithout(rows: map<Text, Requirement>, gone: set<Text>): map<Text, Requirement> {
    map k | k in rows && rows[k].itemId !in gone :: rows[k]
  }

  function EvidenceWithout(rows: map<Text, EvidenceRecord>, gone: set<Text>): map<Text, EvidenceRecord> {
    map k | k in rows && rows[k].itemId !in gone :: rows[k]
  }

  /** The rows without some items and everything that belongs to them. */
  function Without(t: Tables, gone: set<Text>): Tables {
    t.(items := t.items - gone,
       sources := SourcesWithout(t.sources, gone),
       requirements := RequirementsWithout(t.requirements, gone),
       evidence := EvidenceWithout(t.evidence, gone),
       transitions := StepsWithout(t.transitions, gone))
  }

  lemma {:induction false} StepsWithoutMore(records: seq<TransitionRecord>, gone: set<Text>, id: Text)
    ensures StepsWithout(StepsWithout(records, gone), {id}) == StepsWithout(records, gone + {id})
  {
    if records != [] {
      var front, last := records[..|records| - 1], records[|records| - 1];
      StepsWithoutMore(front, gone, id);
      var kept := StepsWithout(front, gone);
      assert (kept + [last])[..|kept|] == kept;
      assert kept + [] == kept;
    }
  }

  lemma WithoutMore(t: Tables, gone: set<Text>, id: Text)
    ensures Without(Without(t, gone), {id}) == Without(t, gone + {id})
  {
    hide StepsWithout;
    var one, two := Without(Without(t, gone), {id}), Without(t, gone + {id});
    StepsWithoutMore(t.transitions, gone, id);
    assert one.items == two.items;
    assert one.sources == two.sources;
    assert one.requirements == two.requirements;
    assert one.evidence == two.evidence;
  }

  lemma {:induction false} NoStepsGone(records: seq<TransitionRecord>)
    ensures StepsWithout(records, {}) == records
  {
    if records != [] { NoStepsGone(records[..|records| - 1]); }
  }

  lemma NothingGone(t: Tables)
    ensures Without(t, {}) == t
  {
    hide StepsWithout;
    NoStepsGone(t.transitions);
    var t2 := Without(t, {});
    assert t2.items == t.items && t2.sources == t.sources && t2.requirements == t.requirements
        && t2.evidence == t.evidence;
  }

  lemma {:induction false} KeptSteps(t: Tables, keep: Text -> bool, gone: set<Text>, records: seq<TransitionRecord>)
    requires forall i :: 0 <= i < |records| ==> records[i].itemId in t.items
    requires gone == set i | i in t.items && !keep(t.items[i].project)
    ensures StepsWithout(records, gone) == KeptTransitions(t, keep, records)
  {
    if records != [] {
      var front := records[..|records| - 1];
      assert forall i :: 0 <= i < |front| ==> front[i] == records[i];
      KeptSteps(t, keep, gone, front);
    }
  }

  ghost predicate Owned(t: Tables) {
    && (forall k :: k in t.sources ==> t.sources[k].itemId in t.items)
    && (forall k :: k in t.requirements ==> t.requirements[k].itemId in t.items)
    && (forall k :: k in t.evidence ==> t.evidence[k].itemId in t.items)
    && (forall i :: 0 <= i < |t.transitions| ==> t.transitions[i].itemId in t.items)
  }

  lemma EveryRowIsOwned(t: Tables)
    requires Sound(t)
    ensures Owned(t)
  {
    hide FinalEvidence, Paths, Starts, OneOpenPerDigest, References, SeatRows, RequestRows, ItemRows, Numbered,
         NumberedRequirement, RecordSafe, RequirementSafe, SourceSafe, TransitionSafe;
  }

  lemma ClearedRows(t: Tables, keep: Text -> bool, now: int, gone: set<Text>)
    requires Sound(t) && TimeOk(now) && gone == set i | i in t.items && !keep(t.items[i].project)
    ensures ClearStep(t, keep, now).value.0
            == Without(t.(requests := KeptRequests(t.requests, keep)), gone).(leases := KeptLeases(t.leases, keep))
  {
    hide Sound, StepsWithout, KeptTransitions, KeptRequests, KeptLeases;
    EveryRowIsOwned(t);
    KeptSteps(t, keep, gone, t.transitions);
  }

  lemma StepParts(w: R.Work, project: Text)
    requires R.InStep(w, project)
    ensures LedgerSound(w.tables) && Represents(w.tables, project, w.held)
  {
    hide LedgerSound, Represents;
  }

  lemma InputNamesProject(feed: R.Feed, uuids: Text -> Uuid, key: Text, item: Option<Item>, record: R.FeedRecord)
    ensures R.RecordInput(feed, uuids, key, item, record).project == feed.project
  {
  }

  lemma KnownItemHasItsRow(w: R.Work, project: Text, item: Option<Item>)
    requires R.InStep(w, project) && (item.Some? ==> item.value in w.held.items)
    ensures item.Some? ==> item.value.id in w.tables.items && w.tables.items[item.value.id] == item.value
  {
    hide R.InStep;
    if item.Some? { R.HeldItemHasItsRow(w, project, item.value); }
  }

  lemma MovedAlike(w: R.Work, feed: R.Feed, item: Item, event: Event)
    requires R.InStep(w, feed.project) && item in w.held.items
    ensures var one := R.MoveItem(w, feed, item, event);
            var two := StepItem(w.tables, item, feed.actor, feed.observedAt, event);
            var three := Domain(Transition(w.held, item.id, item.revision, feed.actor, feed.observedAt, event));
            && one.Ok? == two.Ok? == three.Ok?
            && (one.Err? ==> one.error == two.error)
            && (one.Ok? ==> one.value == R.Work(two.value.0, three.value.0))
  {
    hide R.InStep, Plan, Advance, AdvanceRow, LedgerSound, Represents, IsIdentifierUnit;
    StepParts(w, feed.project);
    HeldRow(w.tables, feed.project, w.held, item);
    TransitionIsStep(w.tables, w.held, item, feed.actor, feed.observedAt, event);
    IdentifierIsTrimmed(item.id);
  }

  lemma NoGroups(sha: Text -> Digest, uuids: Text -> Uuid, w: R.Work, feed: R.Feed)
    ensures R.ReconcileGroups(sha, uuids, w, feed, feed.groups[..0]) == Ok(w)
  {
  }

  /** One more group is reconciled from where the ones before it left off. */
  lemma OneMoreGroup(
    sha: Text -> Digest, uuids: Text -> Uuid, w: R.Work, before: R.Work, feed: R.Feed, i: nat)
    requires i < |feed.groups| && R.InStep(before, feed.project) && R.ShortStatus(feed)
    requires R.ReconcileGroups(sha, uuids, w, feed, feed.groups[..i]) == Ok(before)
    ensures R.ReconcileGroups(sha, uuids, w, feed, feed.groups[..i + 1])
            == R.ReconcileGroup(sha, uuids, before, feed, feed.groups[i])
    ensures R.ReconcileGroup(sha, uuids, before, feed, feed.groups[i]).Ok? ==>
              R.InStep(R.ReconcileGroup(sha, uuids, before, feed, feed.groups[i]).value, feed.project)
  {
    hide R.InStep, R.ReconcileGroup, R.ShortStatus;
    assert feed.groups[..i + 1][..i] == feed.groups[..i];
    if R.ReconcileGroup(sha, uuids, before, feed, feed.groups[i]).Ok? {
      R.GroupKeepsInStep(sha, uuids, before, feed, feed.groups[i]);
    }
  }

  lemma {:induction false} ErrorsStay(
    sha: Text -> Digest, uuids: Text -> Uuid, w: R.Work, feed: R.Feed, n: nat, e: RegistryError)
    requires n <= |feed.groups| && R.ReconcileGroups(sha, uuids, w, feed, feed.groups[..n]) == Err(e)
    ensures R.ReconcileGroups(sha, uuids, w, feed, feed.groups) == Err(e)
    decreases |feed.groups| - n
  {
    hide R.ReconcileGroup;
    if n < |feed.groups| {
      assert feed.groups[..n + 1][..n] == feed.groups[..n];
      ErrorsStay(sha, uuids, w, feed, n + 1, e);
    } else {
      assert feed.groups[..n] == feed.groups;
    }
  }

  lemma ReferencesAreShort(event: Event)
    requires event.Start? || event.ReviewWork? || event.Publish?
    ensures ShortKinds(event)
  {
  }

  lemma OwnClaimIsOwn(t: Tables, requestId: Uuid, leaseId: Uuid, agentId: Text, now: int)
    requires OwnClaim(t, requestId, leaseId, agentId, now).Ok?
    ensures OwnClaim(t, requestId, leaseId, agentId, now).value.status == Claimed(leaseId, agentId)
  {
    hide LeaseById;
  }

  lemma OwnClaimNames(t: Tables, requestId: Uuid, leaseId: Uuid, agentId: Text, now: int)
    requires Sound(t) && OwnClaim(t, requestId, leaseId, agentId, now).Ok?
    ensures OwnClaim(t, requestId, leaseId, agentId, now).value.id == requestId
  {
    hide LedgerSound, SeatRows, CurrentLease;
  }

  lemma NewRequestFields(
    env: Env, newId: Uuid, project: Text, role: Text, requesterId: Text, text: Text, priority: Priority, now: int)
    requires NewRequest(env, newId, project, role, requesterId, text, priority, now).Ok?
    ensures var r := NewRequest(env, newId, project, role, requesterId, text, priority, now).value;
            r.id == newId && r.project == project
  {
    hide RoleName, BoundedText, PersistedText;
  }

  lemma AdvancedItemIsHeld(st: Backlog, item: Item, change: Change)
    requires item in st.items
    ensures Updated(item, change) in Advance(st, item, change).items
  {
    var i :| 0 <= i < |st.items| && st.items[i] == item;
    assert Advance(st, item, change).items[i] == Updated(item, change);
  }

  /** The request's source and its item, in the held ledger as in the rows. */
  lemma LinkedRows(t: Tables, project: Text, st: Backlog, requestId: Uuid)
    requires LedgerSound(t) && Represents(t, project, st)
    ensures var source := FindSource(st.sources, RegistryRequest, requestId);
            if (RegistryRequest, requestId) in t.sources
                && InProject(t, project, t.sources[(RegistryRequest, requestId)].itemId)
            then source == Some(t.sources[(RegistryRequest, requestId)])
                 && FindItem(st.items, source.value.itemId) == Some(t.items[source.value.itemId])
                 && t.items[source.value.itemId] in st.items
            else source.None?
  {
    hide RequirementRows, EvidenceRows, TransitionRows, FinalEvidence, Paths, Starts, OneOpenPerDigest, References,
         ItemSafe, SourceSafe;
    var key := (RegistryRequest, requestId);
    if key in t.sources && InProject(t, project, t.sources[key].itemId) {
      assert t.sources[key] in st.sources;
      assert t.items[t.sources[key].itemId] in st.items;
    }
  }

  /** The requirements of one source, in order. */
  function SourceRequirements(records: seq<Requirement>, kind: SourceKind, id: Text): seq<Requirement> {
    if records == [] then []
    else
      var last := records[|records| - 1];
      SourceRequirements(records[..|records| - 1], kind, id)
      + if last.sourceKind == kind && last.sourceId == id then [last] else []
  }

  lemma {:induction false} NoneOfSource(before: seq<Requirement>, kind: SourceKind, id: Text)
    requires forall i :: 0 <= i < |before| ==> !(before[i].sourceKind == kind && before[i].sourceId == id)
    ensures SourceRequirements(before, kind, id) == []
  {
    if before != [] {
      var front := before[..|before| - 1];
      assert forall i :: 0 <= i < |front| ==> front[i] == before[i];
      NoneOfSource(front, kind, id);
    }
  }

  lemma {:induction false} OnlyNewRequirements(
      before: seq<Requirement>, records: seq<Requirement>, kind: SourceKind, id: Text)
    requires forall i :: 0 <= i < |before| ==> !(before[i].sourceKind == kind && before[i].sourceId == id)
    requires forall i :: 0 <= i < |records| ==> records[i].sourceKind == kind && records[i].sourceId == id
    ensures SourceRequirements(before + records, kind, id) == records
    decreases |records|
  {
    var all := before + records;
    if records == [] {
      assert all == before;
      NoneOfSource(before, kind, id);
    } else {
      var front, last := records[..|records| - 1], records[|records| - 1];
      assert all[..|all| - 1] == before + front && all[|all| - 1] == last;
      assert forall i :: 0 <= i < |front| ==> front[i] == records[i];
      OnlyNewRequirements(before, front, kind, id);
      assert front + [last] == records;
    }
  }

  lemma InsertAnother(rows: map<Text, Requirement>, records: seq<Requirement>, n: nat)
    requires n < |records| && DistinctKeys(RequirementKey, records)
    requires forall i :: 0 <= i < |records| ==> records[i].id !in rows
    ensures InsertRows(rows, RequirementKey, records[..n + 1])
            == InsertRows(rows, RequirementKey, records[..n])[records[n].id := records[n]]
    ensures records[n].id !in InsertRows(rows, RequirementKey, records[..n])
  {
    assert records[..n + 1][..n] == records[..n];
    InsertedRows(rows, RequirementKey, records[..n]);
    assert forall i :: 0 <= i < n ==> RequirementKey(records[i]) != RequirementKey(records[n]);
  }

  lemma TouchedItemRow(t: Tables, project: Text, sha: Text -> Digest, prior: Backlog, input: IngestInput)
    requires LedgerSound(t) && Represents(t, project, prior)
    requires Ingest(sha, prior, input).Ok? && FindSource(prior.sources, input.kind, SourceIdOf(input)).None?
    ensures var item := Ingest(sha, prior, input).value.item;
            Ingest(sha, prior, input).value.created ||
            (item.id in t.items
             && item == t.items[item.id].(
                          priority := item.priority, revision := item.revision, updatedAt := item.updatedAt))
  {
    hide LedgerSound, Represents, Ingest;
    IngestItem(sha, prior, input);
    var r := Ingest(sha, prior, input).value;
    if !r.created {
      var known :| known in prior.items && r.state.items == Replace(prior.items, r.item) && known.id == r.item.id
        && 0 <= input.observedAt && r.item == Joined(known, input.priority, input.observedAt);
      HeldRow(t, project, prior, known);
    }
  }

  lemma FreshRequirements(t: Tables, project: Text, sha: Text -> Digest, prior: Backlog, input: IngestInput)
    requires LedgerSound(t) && Represents(t, project, prior) && input.project == project
    requires Ingest(sha, prior, input).Ok? && FindSource(prior.sources, input.kind, SourceIdOf(input)).None?
    requires Fits(t, prior, Ingest(sha, prior, input).value)
    ensures var result := Ingest(sha, prior, input).value;
            var source, records := NewSource(prior, result), NewRequirements(prior, result);
            && SourceRequirements(result.state.requirements, source.kind, source.id) == records
            && DistinctKeys(RequirementKey, records)
            && forall i :: 0 <= i < |records| ==> records[i].id !in t.requirements
  {
    hide Ingest, LedgerSound, NewOrTouched, RequirementsMatch, ItemsMatch, SourcesMatch, EvidenceMatch,
         TransitionsMatch, RequirementsOf, RequirementRows, SourceSafe;
    var result := Ingest(sha, prior, input).value;
    var source, records := NewSource(prior, result), NewRequirements(prior, result);
    IngestAppends(sha, prior, input);
    IngestIsIngestible(t, project, sha, prior, input);
    RequirementsAreSound(t);
    RequirementsAreFresh(t, result.item, source, records);
    IngestedRequirements(t, result.item, source, records);
    NoneWereThere(t, project, prior, source);
    OfTheSource(source, records);
    OnlyNewRequirements(prior.requirements, records, source.kind, source.id);
  }

  lemma RequirementsAreSound(t: Tables)
    requires LedgerSound(t)
    ensures RequirementRows(t)
  {
    hide RequirementRows;
  }

  lemma OfTheSource(source: Source, records: seq<Requirement>)
    requires RequirementsOf(source, records)
    ensures forall r :: r in records ==> r.sourceKind == source.kind && r.sourceId == source.id
  {
    hide RequirementId, SafeText;
  }

  lemma NoneWereThere(t: Tables, project: Text, prior: Backlog, source: Source)
    requires RequirementRows(t) && RequirementsMatch(t, project, prior.requirements) && KeyOf(source) !in t.sources
    ensures forall r :: r in prior.requirements ==> !(r.sourceKind == source.kind && r.sourceId == source.id)
  {
    hide NumberedRequirement, RequirementSafe, InProject;
  }

  lemma HeldRow(t: Tables, project: Text, st: Backlog, item: Item)
    requires LedgerSound(t) && Represents(t, project, st) && item in st.items
    ensures item.id in t.items && t.items[item.id] == item && item.project == project
    ensures FindItem(st.items, item.id) == Some(item) && IsIdentifier(item.id)
  {
    hide SourceRows, RequirementRows, EvidenceRows, TransitionRows, FinalEvidence, Paths, Starts, OneOpenPerDigest,
         References;
    var i :| 0 <= i < |st.items| && st.items[i] == item;
  }

  lemma NewEvidence(t: Tables, project: Text, st: Backlog, item: Item, change: Change)
    requires LedgerSound(t) && Represents(t, project, st) && item in st.items
    ensures var records := EvidenceRecords(item.id, item.revision + 1, change);
            && DistinctKeys(EvidenceKey, records)
            && (forall k :: k in t.evidence ==> !HasKey(EvidenceKey, records, k))
            && (forall i :: 0 <= i < |records| ==> records[i].itemId == item.id && records[i].id !in t.evidence)
            && (forall i :: 0 <= i < |st.evidence| ==> st.evidence[i].id in t.evidence)
  {
    hide ItemRows, SourceRows, RequirementRows, EvidenceRows, TransitionRows, FinalEvidence, Paths, Starts,
         OneOpenPerDigest, References;
    HeldRow(t, project, st, item);
    var records := EvidenceRecords(item.id, item.revision + 1, change);
    RecordsAreDistinct(item, change);
    RecordsAreFresh(t, item, change);
    AdvancedEvidence(t, item, change);
  }

  lemma InsertOneMore(rows: map<Text, EvidenceRecord>, records: seq<EvidenceRecord>, n: nat)
    requires n < |records| && DistinctKeys(EvidenceKey, records)
    requires forall i :: 0 <= i < |records| ==> records[i].id !in rows
    ensures InsertRows(rows, EvidenceKey, records[..n + 1])
            == InsertRows(rows, EvidenceKey, records[..n])[records[n].id := records[n]]
    ensures records[n].id !in InsertRows(rows, EvidenceKey, records[..n])
    ensures records[..0] == [] && InsertRows(rows, EvidenceKey, records[..0]) == rows
  {
    assert records[..n + 1][..n] == records[..n];
    InsertedRows(rows, EvidenceKey, records[..n]);
    assert forall i :: 0 <= i < n ==> EvidenceKey(records[i]) != EvidenceKey(records[n]);
  }
}
