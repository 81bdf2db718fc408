/** Which calls leave a readable project readable, told from the state before the call. */
module Readability {
  import opened Wrappers
  import opened Texts
  import opened Ledger
  import opened Tables
  import opened Invariants
  import opened Evolution
  import opened Refinement
  import opened Registry
  import opened Soundness
  import opened Frames
  import opened Steps
  import opened Runs
  import opened Links
  import RuntimeIdentity

  /** One item was written, at some time, and nothing else of the items. */
  ghost predicate Written(t: Tables, t2: Tables, item: Item, at: int) {
    && item.id in t.items && t.items[item.id] == item && item.id in t2.items
    && t2.items == t.items[item.id := t2.items[item.id]]
    && t2.items[item.id].project == item.project && t2.items[item.id].createdAt == item.createdAt
    && t2.items[item.id].updatedAt == at
  }

  lemma WrittenLoadsIff(t: Tables, t2: Tables, item: Item, at: int)
    requires Written(t, t2, item, at) && Loadable(t, item.project)
    ensures Loadable(t2, item.project) <==> item.createdAt <= at
  {
    assert t2.items[item.id].project == item.project;
  }

  lemma RowIsWritten(t: Tables, item: Item, change: Change)
    requires item.id in t.items && t.items[item.id] == item
    ensures Written(t, AdvanceRow(t, item, change), item, change.at)
  {
    hide InsertRows, EvidenceRecords;
  }

  lemma StepIsWritten(t: Tables, item: Item, actor: Text, now: int, event: Event)
    requires item.id in t.items && t.items[item.id] == item && StepItem(t, item, actor, now, event).Ok?
    ensures var (t2, item2) := StepItem(t, item, actor, now, event).value;
            Written(t, t2, item, now) && item2.id == item.id && item.id in t2.items && t2.items[item.id] == item2
    ensures var item2 := StepItem(t, item, actor, now, event).value.1;
            item2.project == item.project && item2.createdAt == item.createdAt
  {
    hide InsertRows, EvidenceRecords, NextState, EventEntries, Identifier;
    var who, at := Identifier(actor).value, Timestamp(now).value;
    RowIsWritten(t, item, Plan(item, who, at, event).value);
  }

  // ----- operations on a request -----

  /** The item behind a request. */
  function ItemOf(t: Tables, id: Uuid): Option<Item> {
    if id in t.requests && (RegistryRequest, id) in t.sources
       && InProject(t, t.requests[id].project, t.sources[(RegistryRequest, id)].itemId)
    then Some(t.items[t.sources[(RegistryRequest, id)].itemId])
    else None
  }

  /** Whether a claim moves the item: it assigns ready work, or rebinds work the same session holds under another
      lease. */
  predicate ClaimWrites(item: Item, leaseId: Text, agentId: Text) {
    || item.state.Ready?
    || (item.state.Held() && item.state.leaseId != leaseId
        && RuntimeIdentity.SameRuntimeSession(item.state.agentId, agentId))
  }

  /** Whether a completion does: unless the item is closed and lists all of its evidence. */
  predicate CompletionWrites(item: Item, requestId: Text) {
    item.state.Terminal? ==> exists e :: e in CompletionEvidence(requestId) && e !in item.state.evidence
  }

  /** Whether an operation on a request writes the item behind it, as its caller can tell beforehand. */
  predicate Writes(item: Item, op: Op)
    requires WorksOnRequest(op)
  {
    if op.OpClaimRequest? then ClaimWrites(item, op.leaseId, op.agentId)
    else if op.OpAdvance? then !Reached(item.state, op.phase, Trim(op.evidenceRef))
    else if op.OpComplete? then CompletionWrites(item, op.requestId)
    else item.Open()
  }

  lemma ClaimedIsWritten(t: Tables, item: Item, r: Request)
    requires item.id in t.items && t.items[item.id] == item
    requires r.status.Claimed? && AfterClaimed(t, item, r).Ok?
    ensures var t2 := AfterClaimed(t, item, r).value;
            if ClaimWrites(item, r.status.leaseId, r.status.agentId) then Written(t, t2, item, r.updatedAt) else t2 == t
  {
    hide StepItem, Written, LeaseById, AdvanceRow, RuntimeIdentity.SameRuntimeSession;
    var agentId, leaseId := r.status.agentId, r.status.leaseId;
    if item.state.Held() { RowIsWritten(t, item, RebindChange(item, agentId, leaseId, r.updatedAt)); }
    if StepItem(t, item, ACTOR, r.updatedAt, Assign(agentId, leaseId)).Ok? {
      StepIsWritten(t, item, ACTOR, r.updatedAt, Assign(agentId, leaseId));
    }
  }

  lemma UnlistedIff(item: Item, requestId: Text)
    requires item.state.Terminal?
    ensures CompletionWrites(item, requestId) <==> Unlisted(CompletionEvidence(requestId), item.state.evidence) != []
  {
    hide CompletionEvidence, Unlisted;
    var added := Unlisted(CompletionEvidence(requestId), item.state.evidence);
    if added != [] { assert added[0] in added; }
  }

  lemma CompletedIsWritten(t: Tables, item: Item, r: Request)
    requires item.id in t.items && t.items[item.id] == item
    requires r.status.Fulfilled? && AfterCompleted(t, item, r).Ok?
    ensures var t2 := AfterCompleted(t, item, r).value;
            if CompletionWrites(item, r.id) then Written(t, t2, item, r.updatedAt) else t2 == t
  {
    hide StepItem, Written, CompletionWrites, CompletionEvidence, AdvanceRow;
    if item.state.Terminal? {
      UnlistedIff(item, r.id);
      RowIsWritten(
        t, item, AppendChange(item, Unlisted(CompletionEvidence(r.id), item.state.evidence), r.updatedAt));
    } else {
      OpenIsCompleted(item, r.id);
      if item.state.Assigned? {
        StepIsWritten(t, item, ACTOR, r.updatedAt, Start(r.id));
        var (t1, item1) := StepItem(t, item, ACTOR, r.updatedAt, Start(r.id)).value;
        StartedIsOpen(t, item, r);
        StepIsWritten(t1, item1, ACTOR, r.updatedAt, Complete(CompletionEvidence(r.id)));
        var t2 := StepItem(t1, item1, ACTOR, r.updatedAt, Complete(CompletionEvidence(r.id))).value.0;
        WrittenTwice(t, t1, t2, item, item1, r.updatedAt);
      } else {
        StepIsWritten(t, item, ACTOR, r.updatedAt, Complete(CompletionEvidence(r.id)));
      }
    }
  }

  lemma OpenIsCompleted(item: Item, requestId: Text)
    requires item.Open()
    ensures CompletionWrites(item, requestId)
  {
  }

  lemma StartedIsOpen(t: Tables, item: Item, r: Request)
    requires item.state.Assigned? && StepItem(t, item, ACTOR, r.updatedAt, Start(r.id)).Ok?
    ensures StepItem(t, item, ACTOR, r.updatedAt, Start(r.id)).value.1.Open()
  {
    hide AdvanceRow, Identifier;
  }

  lemma WrittenTwice(t: Tables, t1: Tables, t2: Tables, item: Item, item1: Item, at: int)
    requires Written(t, t1, item, at) && t1.items[item.id] == item1 && item1.id == item.id && Written(t1, t2, item1, at)
    ensures Written(t, t2, item, at)
  {
  }

  /** Whether the ledger step after a request's new status writes the item. */
  predicate StatusWrites(item: Item, r: Request) {
    match r.status
    case Queued => false
    case Claimed(leaseId, agentId) => ClaimWrites(item, leaseId, agentId)
    case Fulfilled(_, _, _) => CompletionWrites(item, r.id)
    case _ => item.Open()
  }

  lemma AfterRequestLoadsIff(t: Tables, r: Request)
    requires LedgerSound(t) && r.id in t.requests && r.project == t.requests[r.id].project && AfterRequest(t, r).Ok?
    ensures Loadable(AfterRequest(t, r).value, r.project) <==>
            (ItemOf(t, r.id).Some? && StatusWrites(ItemOf(t, r.id).value, r) ==>
               ItemOf(t, r.id).value.createdAt <= r.updatedAt)
  {
    hide LedgerSound, AfterClaimed, AfterCompleted, StepItem, ClosingEvent, ClaimWrites, CompletionWrites, Loadable,
         Written;
    LoadedBefore(t, r);
    if ItemOf(t, r.id).Some? {
      var item := ItemOf(t, r.id).value;
      RowsNameThemselves(t, t.sources[(RegistryRequest, r.id)].itemId);
      var t2 := AfterRequest(t, r).value;
      if r.status.Claimed? {
        ClaimedIsWritten(t, item, r);
      } else if r.status.Fulfilled? {
        CompletedIsWritten(t, item, r);
      } else if !r.status.Queued? && item.Open() {
        StepIsWritten(t, item, ACTOR, r.updatedAt, ClosingEvent(r));
      }
      if StatusWrites(item, r) { WrittenLoadsIff(t, t2, item, r.updatedAt); }
    }
  }

  lemma ChangeLoadsIff(t: Tables, r: Request)
    requires Sound(t) && r.id in t.requests && r.project == t.requests[r.id].project && ChangeRequest(t, r).Ok?
    ensures Loadable(ChangeRequest(t, r).value.0, r.project) <==>
            (ItemOf(t, r.id).Some? && StatusWrites(ItemOf(t, r.id).value, r) ==>
               ItemOf(t, r.id).value.createdAt <= r.updatedAt)
  {
    hide Sound, LedgerSound, AfterRequest, StatusWrites, Loadable;
    var t1 := WithRequest(t, r);
    SoundLedger(t);
    LedgerRowsKept(t, r);
    LedgerFrame(t, t1);
    AfterRequestLoadsIff(t1, r);
  }

  lemma AdvancedLoadsIff(t: Tables, op: Op)
    requires Sound(t) && op.OpAdvance?
    requires AdvanceStep(t, op.requestId, op.leaseId, op.agentId, op.now, op.phase, op.evidenceRef).Ok?
    ensures op.requestId in t.requests && ItemOf(t, op.requestId).Some?
    ensures var t2 :=
              AdvanceStep(t, op.requestId, op.leaseId, op.agentId, op.now, op.phase, op.evidenceRef).value.0;
            var item := ItemOf(t, op.requestId).value;
            Loadable(t2, t.requests[op.requestId].project) <==> (Writes(item, op) ==> item.createdAt <= op.now)
  {
    hide LedgerSound, SeatRows, RequestRows, StepItem, CurrentLease, Reached, AdvanceEvent, Loadable, Trim, Written,
         HasUnsafeControl;
    var item := ItemOf(t, op.requestId).value;
    RowsNameThemselves(t, t.sources[(RegistryRequest, op.requestId)].itemId);
    var ref := BoundedText(op.evidenceRef, 1_024, RegistryError.Invalid).value;
    if Writes(item, op) {
      StepIsWritten(t, item, op.agentId, op.now, AdvanceEvent(op.phase, ref));
      var t2 := AdvanceStep(t, op.requestId, op.leaseId, op.agentId, op.now, op.phase, op.evidenceRef).value.0;
      WrittenLoadsIff(t, t2, item, op.now);
    }
  }

  /** After a successful claim, advance, completion, failure or cancellation the project loads exactly when the item
      behind the request was not to be written or is not older than the call says. */
  lemma RequestLoadsIff(env: Env, t: Tables, op: Op)
    requires Sound(t) && WorksOnRequest(op) && NextRequest(env, t, op).Ok?
    ensures Loadable(NextRequest(env, t, op).value, ProjectOf(t, op)) <==>
            (ItemOf(t, op.requestId).Some? && Writes(ItemOf(t, op.requestId).value, op) ==>
               ItemOf(t, op.requestId).value.createdAt <= op.now)
  {
    hide Sound, ChangeRequest, CurrentLease, PersistedText, ClaimIsHeld, AdvanceStep, Loadable, ClaimWrites,
         CompletionWrites, Reached, Trim;
    RequestNames(t);
    if op.OpCancel? {
      ChangeLoadsIff(t, t.requests[op.requestId].(status := Withdrawn, updatedAt := op.now));
    } else if op.OpAdvance? {
      AdvancedLoadsIff(t, op);
    } else {
      var lease := CurrentLease(t, op.leaseId, op.agentId, op.now).value;
      PresentedLease(t, op.leaseId, op.agentId, op.now);
      if op.OpClaimRequest? {
        ChangeLoadsIff(t, t.requests[op.requestId].(status := Claimed(lease.id, lease.owner.id), updatedAt := op.now));
      } else if op.OpComplete? {
        var body := PersistedText(env, op.summary, MAX_SUMMARY_TEXT).value;
        ChangeLoadsIff(
          t, t.requests[op.requestId].(status := Fulfilled(op.leaseId, op.agentId, body), updatedAt := op.now));
      } else {
        var body := PersistedText(env, op.diagnostic, MAX_SUMMARY_TEXT).value;
        ChangeLoadsIff(
          t, t.requests[op.requestId].(
            status := Failed(op.leaseId, op.agentId, op.failure, body), updatedAt := op.now));
      }
    }
  }

  lemma PresentedLease(t: Tables, leaseId: Uuid, agentId: Text, now: nat)
    requires CurrentLease(t, leaseId, agentId, now).Ok?
    ensures CurrentLease(t, leaseId, agentId, now).value.id == leaseId
    ensures CurrentLease(t, leaseId, agentId, now).value.owner.id == agentId
  {
  }

  // ----- operations that ingest -----

  /** Ingesting records no step, whatever time it carries. */
  lemma IngestionRecordsNothing(t: Tables, st: Backlog, r: Ingested)
    requires IngestStep(t, st, r).Ok?
    ensures IngestStep(t, st, r).value.transitions == t.transitions
  {
    hide Fits, InsertRows;
  }

  lemma NothingRecordedLoads(t: Tables, t2: Tables, project: Text, at: int, p: Text)
    requires MovesOn(t, t2, project, at) && t2.transitions == t.transitions && Loadable(t, p)
    ensures Loadable(t2, p)
  {
    hide Loadable, MovesOn;
    MovedLoadsIff(t, t2, project, at, p);
  }

  /** Queueing a request and taking a message in never make a readable project unreadable, whatever time they carry. */
  lemma IngestingKeepsReadable(env: Env, t: Tables, st: Backlog, op: Op, project: Text)
    requires Sound(t) && (op.OpEnqueue? || op.OpMessage?) && Represents(t, ProjectOf(t, op), st)
    requires NextIngest(env, t, st, op).Ok? && Loadable(t, project)
    ensures Loadable(NextIngest(env, t, st, op).value, project)
  {
    hide Sound, MovesOn, Loadable, Represents, Ingest, IngestStep, NewRequest;
    IngestWork(env, t, st, op);
    var t2 := NextIngest(env, t, st, op).value;
    if op.OpEnqueue? {
      var request :=
        NewRequest(env, op.requestId, op.project, op.role, op.requesterId, op.text, op.priority, op.now).value;
      IngestionRecordsNothing(WithRequest(t, request), st, Ingest(env.sha, st, RequestInput(request, op.itemId)).value);
    } else {
      IngestionRecordsNothing(t, st, Ingest(env.sha, st, MessageInput(op.message, op.itemId)).value);
    }
    NothingRecordedLoads(t, t2, ProjectOf(t, op), TimeOf(op), project);
  }

  // ----- every call but a snapshot and clearing -----

  /** The call writes the item behind its request with a time before the item's creation. */
  predicate WritesEarly(t: Tables, op: Op) {
    && WorksOnRequest(op) && ItemOf(t, op.requestId).Some? && Writes(ItemOf(t, op.requestId).value, op)
    && op.now < ItemOf(t, op.requestId).value.createdAt
  }

  lemma OtherProjectsLoad(t: Tables, t2: Tables, project: Text, at: int, p: Text)
    requires MovesOn(t, t2, project, at) && Loadable(t, p) && p != project
    ensures Loadable(t2, p)
  {
    hide Dated;
  }

  lemma SameRowsLoad(t: Tables, t2: Tables, p: Text)
    requires SameLedgerRows(t, t2) && Loadable(t, p)
    ensures Loadable(t2, p)
  {
  }

  /** A successful call leaves a readable project readable exactly when it does not write the item behind a request of
      that project with a time before the item's creation. All of this can be told before the call. */
  lemma CallLoadsIff(env: Env, t: Tables, op: Op, t2: Tables, project: Text)
    requires Sound(t) && Done(env, t, op, t2) && Loadable(t, project)
    requires !op.OpClear? && !op.OpCanonical? && !op.OpBranch?
    ensures Loadable(t2, project) <==> !(ProjectOf(t, op) == project && WritesEarly(t, op))
  {
    hide Sound, MovesOn, Loadable, Represents, NextIngest, NextRequest, NextOther, ItemOf, Writes;
    StepMovesOn(env, t, op, t2);
    if !IngestsWork(op) && !WorksOnRequest(op) {
      SameRowsLoad(t, t2, project);
    } else if ProjectOf(t, op) != project {
      OtherProjectsLoad(t, t2, ProjectOf(t, op), TimeOf(op), project);
    } else if WorksOnRequest(op) {
      RequestLoadsIff(env, t, op);
    } else {
      var st :| Represents(t, ProjectOf(t, op), st) && Next(env, t, st, op) == Ok(t2);
      IngestingKeepsReadable(env, t, st, op, project);
    }
  }
}
