/** What a call on a request does to the request and to the item behind it, told on the tables before and after, and
    when it succeeds at all (sqlite-store.ts). */
module Effects {
  import opened Wrappers
  import opened Texts
  import opened Ledger
  import opened Tables
  import opened Invariants
  import opened Evolution
  import opened Refinement
  import opened Registry
  import opened Soundness
  import opened Frames
  import opened Steps
  import opened Runs
  import opened Readability
  import RuntimeIdentity

  // ----- one step, two steps or none -----

  /** The item is in a new state, some recorded steps later, and nothing else of the items changed. */
  ghost predicate Moved(t: Tables, t2: Tables, item: Item, state: ItemState, steps: nat, at: int) {
    && item.id in t2.items && t2.items == t.items[item.id := t2.items[item.id]]
    && t2.items[item.id].(revision := item.revision, updatedAt := item.updatedAt) == item.(state := state)
    && t2.items[item.id].revision == item.revision + steps && t2.items[item.id].updatedAt == at
    && t2.sources == t.sources && t2.requirements == t.requirements
    && |t2.transitions| == |t.transitions| + steps && t2.transitions[..|t.transitions|] == t.transitions
  }

  /** A recorded step of an item. */
  predicate Tells(
    r: TransitionRecord, item: Item, revision: nat, actor: Text, event: EventKind, from: StateKind, to: StateKind,
    at: int)
  {
    && r.itemId == item.id && r.revision == revision && r.actor == actor && r.event == event
    && r.from == from && r.to == to && r.at == at
  }

  /** The last step but so many that was recorded. */
  function LastStep(t: Tables, back: nat): TransitionRecord
    requires back < |t.transitions|
  {
    t.transitions[|t.transitions| - 1 - back]
  }

  /** The phase whose evidence a step records. */
  function PhaseOf(event: EventKind): Phase {
    match event
    case EStart => Implementation
    case EReview => Review
    case EPublish => Publication
    case _ => Final
  }

  /** The evidence rows with the entries of one step, numbered in order. */
  function WithEntries(
    rows: map<Text, EvidenceRecord>, itemId: Text, revision: nat, phase: Phase, entries: seq<Evidence>, at: nat)
    : map<Text, EvidenceRecord>
  {
    if entries == [] then rows
    else
      var n, last := |entries| - 1, entries[|entries| - 1];
      var id := EvidenceId(itemId, revision, phase, n);
      WithEntries(rows, itemId, revision, phase, entries[..n], at)[
        id := EvidenceRecord(id, itemId, phase, last.kind, last.ref, at)]
  }

  /** One recorded step and the evidence it records. */
  ghost predicate OneStep(
    t: Tables, t2: Tables, item: Item, state: ItemState, actor: Text, event: EventKind, entries: seq<Evidence>, at: int)
  {
    && Moved(t, t2, item, state, 1, at)
    && Tells(LastStep(t2, 0), item, item.revision + 1, actor, event, item.state.Kind(), state.Kind(), at)
    && at >= 0
    && t2.evidence == WithEntries(t.evidence, item.id, item.revision + 1, PhaseOf(event), entries, at)
  }

  lemma {:induction false} InsertedEntries(
    rows: map<Text, EvidenceRecord>, itemId: Text, revision: nat, change: Change, n: nat)
    requires n <= |change.entries|
    ensures InsertRows(rows, EvidenceKey, EvidenceRecords(itemId, revision, change)[..n])
            == WithEntries(rows, itemId, revision, change.phase, change.entries[..n], change.at)
  {
    hide EvidenceId;
    if n > 0 {
      var records, entries := EvidenceRecords(itemId, revision, change), change.entries;
      InsertedEntries(rows, itemId, revision, change, n - 1);
      assert records[..n][..n - 1] == records[..n - 1] && entries[..n][..n - 1] == entries[..n - 1];
    }
  }

  lemma RowIsOneStep(t: Tables, item: Item, change: Change)
    requires item.id in t.items && t.items[item.id] == item
    requires change.phase == PhaseOf(change.event)
    ensures OneStep(t, AdvanceRow(t, item, change), item, change.next, change.actor, change.event, change.entries,
                    change.at)
  {
    hide InsertRows, EvidenceRecords, WithEntries;
    var records := EvidenceRecords(item.id, item.revision + 1, change);
    InsertedEntries(t.evidence, item.id, item.revision + 1, change, |change.entries|);
    assert records[..|change.entries|] == records && change.entries[..|change.entries|] == change.entries;
  }

  lemma StepIsOneStep(t: Tables, item: Item, actor: Text, now: int, event: Event)
    requires item.id in t.items && t.items[item.id] == item && StepItem(t, item, actor, now, event).Ok?
    ensures NextState(item.state, event).Ok? && EventEntries(event).Ok?
    ensures var (t2, item2) := StepItem(t, item, actor, now, event).value;
            OneStep(t, t2, item, NextState(item.state, event).value, Trim(actor), event.Kind(),
                    EventEntries(event).value, now)
            && t2.items[item.id] == item2
  {
    hide InsertRows, EvidenceRecords, NextState, EventEntries, IsIdentifier, Trim, HasUnsafeControl, WithEntries;
    var who, at := Identifier(actor).value, Timestamp(now).value;
    RowIsOneStep(t, item, Plan(item, who, at, event).value);
  }

  /** A step succeeds exactly when its actor is an identifier, its time is one and the event fits the item's state. */
  lemma StepIff(t: Tables, item: Item, actor: Text, now: int, event: Event)
    ensures StepItem(t, item, actor, now, event).Ok? <==>
            Identifier(actor).Ok? && TimeOk(now) && NextState(item.state, event).Ok? && EventEntries(event).Ok?
  {
    hide InsertRows, EvidenceRecords, NextState, EventEntries, Identifier;
  }

  const REGISTRY: Text := Ascii("agent-registry")

  lemma RegistryIsActor()
    ensures Trim(ACTOR) == REGISTRY && Identifier(ACTOR).Ok?
  {
    AsciiIsIdentifier("agent-registry");
  }

  // ----- claims -----

  /** The item is held by this agent under this lease now, in the phase it was in and with the references it had. */
  predicate HandedOver(before: ItemState, after: ItemState, agentId: Text, leaseId: Text) {
    && before.Held() && after.Held() && after.Kind() == before.Kind()
    && after.agentId == agentId && after.leaseId == leaseId
    && RefOf(after, Implementation) == RefOf(before, Implementation)
    && RefOf(after, Review) == RefOf(before, Review)
    && RefOf(after, Publication) == RefOf(before, Publication)
  }

  /** What claiming does to the item behind the request: ready work is assigned, work the same session holds under
      another lease is handed over as it is, and anything else is left alone. */
  ghost predicate ClaimedEffect(t: Tables, t2: Tables, item: Item, agentId: Text, leaseId: Uuid, at: int) {
    if item.state.Ready? then
      OneStep(t, t2, item, Assigned(Trim(agentId), leaseId), REGISTRY, EAssign, [], at)
    else if item.state.Held() && item.state.leaseId != leaseId
            && RuntimeIdentity.SameRuntimeSession(item.state.agentId, agentId) then
      exists state ::
        && HandedOver(item.state, state, agentId, leaseId)
        && OneStep(t, t2, item, state, REGISTRY, ERebind, [], at)
    else SameLedgerRows(t, t2)
  }

  lemma AfterClaimedDoes(t: Tables, item: Item, r: Request)
    requires item.id in t.items && t.items[item.id] == item
    requires r.status.Claimed? && AfterClaimed(t, item, r).Ok?
    ensures ClaimedEffect(t, AfterClaimed(t, item, r).value, item, r.status.agentId, r.status.leaseId, r.updatedAt)
  {
    hide StepItem, OneStep, LeaseById, AdvanceRow, RuntimeIdentity.SameRuntimeSession, Trim, IsIdentifier,
         HasUnsafeControl, IsUuid;
    var agentId, leaseId := r.status.agentId, r.status.leaseId;
    UuidIsIdentifier(leaseId);
    RegistryIsActor();
    if item.state.Ready? {
      StepIsOneStep(t, item, ACTOR, r.updatedAt, Assign(agentId, leaseId));
    } else if item.state.Held() && item.state.leaseId != leaseId
              && RuntimeIdentity.SameRuntimeSession(item.state.agentId, agentId) {
      RowIsOneStep(t, item, RebindChange(item, agentId, leaseId, r.updatedAt));
      assert HandedOver(item.state, Reassigned(item.state, agentId, leaseId), agentId, leaseId);
    } else {
      TableIsItself(t);
    }
  }

  // ----- completion -----

  /** What completing does to the item behind the request. Work in hand is completed, a start being recorded first if
      there was none; a completed item lists the request's entries too; and there is nothing else to complete. */
  ghost predicate CompletedEffect(t: Tables, t2: Tables, item: Item, requestId: Uuid, at: int) {
    var outcome, summary := Evidence(Ascii("registry-outcome"), requestId),
                            Evidence(Ascii("implementation-summary"), requestId);
    && item.id in t2.items
    && var done := t2.items[item.id];
    && done.state.Terminal? && done.state.outcome == Outcome.Completed
    && outcome in done.state.evidence && summary in done.state.evidence
    && (item.Open() ==>
          && done.state.evidence == [outcome, summary]
          && Moved(t, t2, item, done.state, if item.state.Assigned? then 2 else 1, at)
          && Working(LastStep(t2, 0).from)
          && Tells(LastStep(t2, 0), item, done.revision, REGISTRY, EComplete, LastStep(t2, 0).from, KTerminal, at)
          && at >= 0
          && t2.evidence == WithEntries(
                              if item.state.Assigned? then
                                WithEntries(t.evidence, item.id, item.revision + 1, Implementation,
                                            [Evidence(Ascii("implementation-reference"), requestId)], at)
                              else t.evidence,
                              item.id, done.revision, Final, [outcome, summary], at)
          && if item.state.Assigned? then
               && LastStep(t2, 0).from == KImplementing
               && Tells(LastStep(t2, 1), item, item.revision + 1, REGISTRY, EStart, KAssigned, KImplementing, at)
             else LastStep(t2, 0).from == item.state.Kind())
    && (!item.Open() ==>
          && item.state.outcome == Outcome.Completed
          && if outcome in item.state.evidence && summary in item.state.evidence then SameLedgerRows(t, t2)
             else
               && item.state.evidence < done.state.evidence
               && (forall e :: e in done.state.evidence[|item.state.evidence|..] <==>
                       (e == outcome || e == summary) && e !in item.state.evidence)
               && OneStep(t, t2, item, done.state, REGISTRY, EComplete,
                          done.state.evidence[|item.state.evidence|..], at))
  }

  lemma AfterCompletedDoes(t: Tables, item: Item, r: Request)
    requires item.id in t.items && t.items[item.id] == item
    requires r.status.Fulfilled? && AfterCompleted(t, item, r).Ok?
    ensures CompletedEffect(t, AfterCompleted(t, item, r).value, item, r.id, r.updatedAt)
  {
    hide StepItem, AdvanceRow, CompletedEffect;
    if item.state.Terminal? {
      CompletedAgain(t, item, r);
    } else if item.state.Assigned? {
      CompletedFromAssigned(t, item, r);
    } else {
      CompletedFromWork(t, item, r);
    }
  }

  lemma CompletionIsPlanned(state: ItemState, requestId: Uuid)
    ensures NextState(state, Complete(CompletionEvidence(requestId))) ==
            if Working(state.Kind()) then Ok(Terminal(Outcome.Completed, CompletionEvidence(requestId)))
            else Err(InvalidTransition)
    ensures EventEntries(Complete(CompletionEvidence(requestId))) == Ok(CompletionEvidence(requestId))
  {
    hide CompletionEvidence, ValidatedEvidence;
    CompletionEvidencePasses(requestId);
  }

  lemma CompletionEvidencePasses(requestId: Uuid)
    ensures ValidatedEvidence(CompletionEvidence(requestId)) == Ok(CompletionEvidence(requestId))
  {
    hide Ascii, Trim, IsIdentifier, HasUnsafeControl, Identifier;
    AsciiIsIdentifier("registry-outcome");
    AsciiIsIdentifier("implementation-summary");
    UuidIsIdentifier(requestId);
    var evidence := CompletionEvidence(requestId);
    EntryPasses(evidence[1], []);
    assert [evidence[1]] + [] == [evidence[1]];
    EntryPasses(evidence[0], [evidence[1]]);
    assert [evidence[0]] + [evidence[1]] == evidence;
  }

  /** An entry whose kind is an identifier and whose reference is trimmed and safe is taken as it is. */
  lemma EntryPasses(e: Evidence, rest: seq<Evidence>)
    requires Identifier(e.kind) == Ok(e.kind) && Trim(e.ref) == e.ref && SafeText(e.ref, MAX_REF_UNITS)
    requires EvidenceEntries(rest) == Ok(rest)
    ensures EvidenceEntries([e] + rest) == Ok([e] + rest)
  {
    hide Identifier, Trim, HasUnsafeControl;
    assert ([e] + rest)[1..] == rest;
  }

  lemma CompletedFromWork(t: Tables, item: Item, r: Request)
    requires item.id in t.items && t.items[item.id] == item
    requires r.status.Fulfilled? && AfterCompleted(t, item, r).Ok? && item.Open() && !item.state.Assigned?
    ensures CompletedEffect(t, AfterCompleted(t, item, r).value, item, r.id, r.updatedAt)
  {
    hide StepItem, NextState, EventEntries, Trim, Ascii, ValidatedEvidence;
    RegistryIsActor();
    CompletionIsPlanned(item.state, r.id);
    StepIsOneStep(t, item, ACTOR, r.updatedAt, Complete(CompletionEvidence(r.id)));
  }

  lemma StartIsPlanned(state: ItemState, requestId: Uuid)
    requires state.Assigned?
    ensures NextState(state, Start(requestId)) == Ok(Implementing(state.agentId, state.leaseId, requestId))
    ensures EventEntries(Start(requestId)) == Ok([Evidence(Ascii("implementation-reference"), requestId)])
  {
    UuidIsIdentifier(requestId);
  }

  lemma CompletedFromAssigned(t: Tables, item: Item, r: Request)
    requires item.id in t.items && t.items[item.id] == item
    requires r.status.Fulfilled? && AfterCompleted(t, item, r).Ok? && item.state.Assigned?
    ensures CompletedEffect(t, AfterCompleted(t, item, r).value, item, r.id, r.updatedAt)
  {
    hide StepItem, NextState, EventEntries, Trim, Ascii, ValidatedEvidence;
    RegistryIsActor();
    StartIsPlanned(item.state, r.id);
    StepIsOneStep(t, item, ACTOR, r.updatedAt, Start(r.id));
    var (t1, item1) := StepItem(t, item, ACTOR, r.updatedAt, Start(r.id)).value;
    CompletionIsPlanned(item1.state, r.id);
    StepIsOneStep(t1, item1, ACTOR, r.updatedAt, Complete(CompletionEvidence(r.id)));
    var t2 := StepItem(t1, item1, ACTOR, r.updatedAt, Complete(CompletionEvidence(r.id))).value.0;
    assert t2.transitions[|t.transitions|] == t1.transitions[|t.transitions|];
  }

  lemma CompletedAgain(t: Tables, item: Item, r: Request)
    requires item.id in t.items && t.items[item.id] == item
    requires r.status.Fulfilled? && AfterCompleted(t, item, r).Ok? && item.state.Terminal?
    ensures CompletedEffect(t, AfterCompleted(t, item, r).value, item, r.id, r.updatedAt)
  {
    hide Ascii, Unlisted, AdvanceRow, OneStep, CompletionEvidence;
    var added := Unlisted(CompletionEvidence(r.id), item.state.evidence);
    CompletionNames(r.id);
    if added == [] {
      assert forall e :: e in CompletionEvidence(r.id) ==> e in item.state.evidence || e in added;
    } else {
      assert added[0] in added;
      RowIsOneStep(t, item, AppendChange(item, added, r.updatedAt));
      assert (item.state.evidence + added)[|item.state.evidence|..] == added;
      AppendedItem(t, item, added, r.updatedAt);
    }
  }

  lemma CompletionNames(requestId: Text)
    ensures forall e :: e in CompletionEvidence(requestId) <==>
              e == Evidence(Ascii("registry-outcome"), requestId)
              || e == Evidence(Ascii("implementation-summary"), requestId)
  {
  }

  lemma AppendedItem(t: Tables, item: Item, added: seq<Evidence>, at: nat)
    requires item.state.Terminal?
    ensures var t2 := AdvanceRow(t, item, AppendChange(item, added, at));
            item.id in t2.items
            && t2.items[item.id].state == Terminal(item.state.outcome, item.state.evidence + added)
  {
    hide InsertRows, EvidenceRecords;
  }

  // ----- failure and cancellation -----

  /** What a failed request says of the work it leaves blocked. */
  function BlockReason(failure: Failure): Text
    requires !failure.FailedCancelled?
  {
    match failure
    case FailedBlocked => Ascii("registry request blocked")
    case FailedError => Ascii("registry request error")
    case FailedTimedOut => Ascii("registry request timed_out")
  }

  lemma AsciiJoins(a: string, b: string)
    ensures Ascii(a) + Ascii(b) == Ascii(a + b)
  {
  }

  /** A short printable text with no space at its ends passes as it is. */
  lemma AsciiPasses(s: string)
    requires 1 <= |s| <= MAX_REASON_UNITS && s[0] != ' ' && s[|s| - 1] != ' '
    requires forall i :: 0 <= i < |s| ==> ' ' <= s[i] <= '~'
    ensures BoundedText(Ascii(s), MAX_REASON_UNITS, InvalidInput) == Ok(Ascii(s))
  {
    hide Trim;
    AsciiIsSafe(s);
    TrimIsExact(Ascii(s));
  }

  lemma ReasonIsSpelled(failure: Failure)
    requires !failure.FailedCancelled?
    ensures Ascii("registry request ") + FailureName(failure) == BlockReason(failure)
    ensures BoundedText(BlockReason(failure), MAX_REASON_UNITS, InvalidInput) == Ok(BlockReason(failure))
  {
    hide Ascii, BoundedText;
    var name :=
      if failure.FailedBlocked? then "blocked" else if failure.FailedError? then "error" else "timed_out";
    AsciiJoins("registry request ", name);
    AsciiPasses("registry request " + name);
    match failure
    case FailedBlocked => assert "registry request " + name == "registry request blocked";
    case FailedError => assert "registry request " + name == "registry request error";
    case FailedTimedOut => assert "registry request " + name == "registry request timed_out";
  }

  /** The item is cancelled, with one entry that names the request. */
  ghost predicate CancelledEffect(t: Tables, t2: Tables, item: Item, kind: string, requestId: Uuid, at: int) {
    if item.Open() then
      OneStep(t, t2, item, Terminal(Outcome.Cancelled, [Evidence(Ascii(kind), requestId)]), REGISTRY, ECancel,
              [Evidence(Ascii(kind), requestId)], at)
    else SameLedgerRows(t, t2)
  }

  /** The item is blocked, for the reason the failure gives. */
  ghost predicate BlockedEffect(t: Tables, t2: Tables, item: Item, failure: Failure, at: int)
    requires !failure.FailedCancelled?
  {
    if item.Open() then OneStep(t, t2, item, Blocked(BlockReason(failure)), REGISTRY, EBlock, [], at)
    else SameLedgerRows(t, t2)
  }

  lemma CancelIsPlanned(state: ItemState, kind: string, requestId: Uuid)
    requires !state.Terminal? && Identifier(Ascii(kind)) == Ok(Ascii(kind))
    ensures var evidence := [Evidence(Ascii(kind), requestId)];
            NextState(state, Event.Cancel(evidence)) == Ok(Terminal(Outcome.Cancelled, evidence))
            && EventEntries(Event.Cancel(evidence)) == Ok(evidence)
  {
    hide Ascii, Trim, IsIdentifier, HasUnsafeControl, Identifier;
    UuidIsIdentifier(requestId);
    var e := Evidence(Ascii(kind), requestId);
    EntryPasses(e, []);
    assert [e] + [] == [e];
  }

  lemma BlockIsPlanned(state: ItemState, failure: Failure)
    requires !state.Terminal? && !failure.FailedCancelled?
    ensures NextState(state, Block(BlockReason(failure))) == Ok(Blocked(BlockReason(failure)))
    ensures EventEntries(Block(BlockReason(failure))) == Ok([])
  {
    hide Ascii, BlockReason, FailureName;
    ReasonIsSpelled(failure);
  }

  /** The event a closing request sends, spelled out. */
  lemma ClosingIs(r: Request)
    requires r.status.Withdrawn? || r.status.Failed?
    ensures ClosingEvent(r) ==
            if r.status.Withdrawn? then Event.Cancel([Evidence(Ascii("registry-cancellation"), r.id)])
            else if r.status.failure.FailedCancelled? then Event.Cancel([Evidence(Ascii("registry-failure"), r.id)])
            else Block(BlockReason(r.status.failure))
  {
    hide Ascii, BlockReason, FailureName;
    if r.status.Failed? && !r.status.failure.FailedCancelled? { ReasonIsSpelled(r.status.failure); }
  }

  /** The state a closing request asks of its open item. */
  function ClosedBy(r: Request): ItemState
    requires r.status.Withdrawn? || r.status.Failed?
  {
    if r.status.Withdrawn? then Terminal(Outcome.Cancelled, [Evidence(Ascii("registry-cancellation"), r.id)])
    else if r.status.failure.FailedCancelled? then
      Terminal(Outcome.Cancelled, [Evidence(Ascii("registry-failure"), r.id)])
    else Blocked(BlockReason(r.status.failure))
  }

  lemma ClosingIsPlanned(state: ItemState, r: Request)
    requires !state.Terminal? && (r.status.Withdrawn? || r.status.Failed?)
    ensures NextState(state, ClosingEvent(r)) == Ok(ClosedBy(r))
    ensures EventEntries(ClosingEvent(r)) == Ok(if ClosedBy(r).Terminal? then ClosedBy(r).evidence else [])
    ensures ClosingEvent(r).Kind() == if r.status.Failed? && !r.status.failure.FailedCancelled? then EBlock else ECancel
  {
    hide Ascii, BlockReason, NextState, EventEntries, ClosingEvent, Identifier;
    ClosingIs(r);
    if r.status.Withdrawn? {
      AsciiIsIdentifier("registry-cancellation");
      CancelIsPlanned(state, "registry-cancellation", r.id);
    } else if r.status.failure.FailedCancelled? {
      AsciiIsIdentifier("registry-failure");
      CancelIsPlanned(state, "registry-failure", r.id);
    } else {
      BlockIsPlanned(state, r.status.failure);
    }
  }

  // ----- advance -----

  /** What advancing does to the item behind the request: it enters the next phase with the new reference, keeping
      its holder and its earlier references, or it was there already. */
  ghost predicate AdvancedEffect(
    t: Tables, t2: Tables, item: Item, phase: AdvancePhase, agentId: Text, leaseId: Uuid, ref: Text, at: int)
  {
    match phase
    case ToImplementation =>
      || (item.state == Implementing(agentId, leaseId, ref) && SameLedgerRows(t, t2))
      || (item.state == Assigned(agentId, leaseId)
          && OneStep(t, t2, item, Implementing(agentId, leaseId, ref), Trim(agentId), EStart,
                     [Evidence(Ascii("implementation-reference"), ref)], at))
    case ToReview =>
      || (item.state.InReview? && item.state == InReview(agentId, leaseId, item.state.implementationRef, ref)
          && SameLedgerRows(t, t2))
      || (item.state.Implementing? && item.state == Implementing(agentId, leaseId, item.state.implementationRef)
          && OneStep(t, t2, item, InReview(agentId, leaseId, item.state.implementationRef, ref), Trim(agentId), EReview,
                     [Evidence(Ascii("review-reference"), ref)], at))
    case ToPublication =>
      || (item.state.Publishing? && SameLedgerRows(t, t2)
          && item.state == Publishing(agentId, leaseId, item.state.implementationRef, item.state.reviewRef, ref))
      || (item.state.InReview?
          && item.state == InReview(agentId, leaseId, item.state.implementationRef, item.state.reviewRef)
          && OneStep(t, t2, item,
                     Publishing(agentId, leaseId, item.state.implementationRef, item.state.reviewRef, ref),
                     Trim(agentId), EPublish, [Evidence(Ascii("publication-reference"), ref)], at))
  }

  lemma AdvanceIsPlanned(state: ItemState, phase: AdvancePhase, ref: Text)
    requires Trim(ref) == ref && NextState(state, AdvanceEvent(phase, ref)).Ok?
    ensures match phase
            case ToImplementation =>
              state.Assigned?
              && NextState(state, AdvanceEvent(phase, ref)).value == Implementing(state.agentId, state.leaseId, ref)
            case ToReview =>
              state.Implementing?
              && NextState(state, AdvanceEvent(phase, ref)).value
                 == InReview(state.agentId, state.leaseId, state.implementationRef, ref)
            case ToPublication =>
              state.InReview?
              && NextState(state, AdvanceEvent(phase, ref)).value
                 == Publishing(state.agentId, state.leaseId, state.implementationRef, state.reviewRef, ref)
  {
    hide Trim, HasUnsafeControl;
  }

  lemma AdvanceEntries(phase: AdvancePhase, ref: Text)
    requires Trim(ref) == ref && EventEntries(AdvanceEvent(phase, ref)).Ok?
    ensures EventEntries(AdvanceEvent(phase, ref)).value ==
            match phase
            case ToImplementation => [Evidence(Ascii("implementation-reference"), ref)]
            case ToReview => [Evidence(Ascii("review-reference"), ref)]
            case ToPublication => [Evidence(Ascii("publication-reference"), ref)]
  {
    hide Trim, HasUnsafeControl, Ascii;
  }

  // ----- from the item to the call -----

  lemma ItemRow(t: Tables, id: Uuid)
    requires LedgerSound(t) && ItemOf(t, id).Some?
    ensures var item := ItemOf(t, id).value;
            item.id in t.items && t.items[item.id] == item && item.id == t.sources[(RegistryRequest, id)].itemId
  {
    hide LedgerSound;
    RowsNameThemselves(t, t.sources[(RegistryRequest, id)].itemId);
  }

  /** What the new status of a request does to its item. */
  ghost predicate StatusEffect(t: Tables, t2: Tables, item: Item, r: Request) {
    match r.status
    case Queued => SameLedgerRows(t, t2)
    case Claimed(leaseId, agentId) => ClaimedEffect(t, t2, item, agentId, leaseId, r.updatedAt)
    case Fulfilled(_, _, _) => CompletedEffect(t, t2, item, r.id, r.updatedAt)
    case Failed(_, _, failure, _) =>
      if failure.FailedCancelled? then CancelledEffect(t, t2, item, "registry-failure", r.id, r.updatedAt)
      else BlockedEffect(t, t2, item, failure, r.updatedAt)
    case Withdrawn => CancelledEffect(t, t2, item, "registry-cancellation", r.id, r.updatedAt)
  }

  lemma ClosedDoes(t: Tables, item: Item, r: Request)
    requires item.id in t.items && t.items[item.id] == item && item.Open()
    requires (r.status.Withdrawn? || r.status.Failed?) && StepItem(t, item, ACTOR, r.updatedAt, ClosingEvent(r)).Ok?
    ensures StatusEffect(t, StepItem(t, item, ACTOR, r.updatedAt, ClosingEvent(r)).value.0, item, r)
  {
    hide StepItem, NextState, EventEntries, Trim, Ascii, ClosingEvent, OneStep;
    RegistryIsActor();
    ClosingIsPlanned(item.state, r);
    StepIsOneStep(t, item, ACTOR, r.updatedAt, ClosingEvent(r));
  }

  lemma AfterRequestDoes(t: Tables, r: Request)
    requires LedgerSound(t) && r.id in t.requests && r.project == t.requests[r.id].project && AfterRequest(t, r).Ok?
    ensures if ItemOf(t, r.id).Some? then StatusEffect(t, AfterRequest(t, r).value, ItemOf(t, r.id).value, r)
            else AfterRequest(t, r).value == t
  {
    hide LedgerSound, AfterClaimed, AfterCompleted, StepItem, ClosingEvent, Loadable, ClaimedEffect, CompletedEffect;
    TableIsItself(t);
    if ItemOf(t, r.id).Some? {
      var item := ItemOf(t, r.id).value;
      ItemRow(t, r.id);
      if r.status.Claimed? {
        AfterClaimedDoes(t, item, r);
      } else if r.status.Fulfilled? {
        AfterCompletedDoes(t, item, r);
      } else if !r.status.Queued? && item.Open() {
        ClosedDoes(t, item, r);
      }
    }
  }

  lemma EffectFrame(t: Tables, t1: Tables, t2: Tables, item: Item, r: Request)
    requires SameLedgerRows(t, t1) && StatusEffect(t1, t2, item, r)
    ensures StatusEffect(t, t2, item, r)
  {
    hide Trim, Ascii, ClaimedEffect, CompletedEffect, OneStep;
    StepFrame(t, t1, t2, item);
    if r.status.Claimed? {
      ClaimedFrame(t, t1, t2, item, r.status.agentId, r.status.leaseId, r.updatedAt);
    } else if r.status.Fulfilled? {
      CompletedFrame(t, t1, t2, item, r.id, r.updatedAt);
    }
  }

  lemma StepFrame(t: Tables, t1: Tables, t2: Tables, item: Item)
    requires SameLedgerRows(t, t1)
    ensures forall state, actor, event, entries, at :: OneStep(t1, t2, item, state, actor, event, entries, at) ==>
              OneStep(t, t2, item, state, actor, event, entries, at)
    ensures SameLedgerRows(t1, t2) ==> SameLedgerRows(t, t2)
  {
    hide Tells, WithEntries;
  }

  lemma CompletedFrame(t: Tables, t1: Tables, t2: Tables, item: Item, requestId: Uuid, at: int)
    requires SameLedgerRows(t, t1) && CompletedEffect(t1, t2, item, requestId, at)
    ensures CompletedEffect(t, t2, item, requestId, at)
  {
    hide Tells, Ascii, WithEntries;
  }

  lemma ClaimedFrame(t: Tables, t1: Tables, t2: Tables, item: Item, agentId: Text, leaseId: Uuid, at: int)
    requires SameLedgerRows(t, t1) && ClaimedEffect(t1, t2, item, agentId, leaseId, at)
    ensures ClaimedEffect(t, t2, item, agentId, leaseId, at)
  {
    hide OneStep, SameLedgerRows, RuntimeIdentity.SameRuntimeSession, Trim, HandedOver;
    StepFrame(t, t1, t2, item);
    if !item.state.Ready? && item.state.Held() && item.state.leaseId != leaseId
       && RuntimeIdentity.SameRuntimeSession(item.state.agentId, agentId) {
      var state :| HandedOver(item.state, state, agentId, leaseId)
        && OneStep(t1, t2, item, state, REGISTRY, ERebind, [], at);
      assert OneStep(t, t2, item, state, REGISTRY, ERebind, [], at);
    }
  }

  lemma ChangeDoes(t: Tables, r: Request)
    requires Sound(t) && r.id in t.requests && r.project == t.requests[r.id].project && ChangeRequest(t, r).Ok?
    ensures var t2 := ChangeRequest(t, r).value.0;
            && t2.requests == t.requests[r.id := r]
            && if ItemOf(t, r.id).Some? then StatusEffect(t, t2, ItemOf(t, r.id).value, r) else SameLedgerRows(t, t2)
  {
    hide Sound, LedgerSound, AfterRequest, StatusEffect, Loadable, MovesOn;
    var t1 := WithRequest(t, r);
    SoundLedger(t);
    LedgerRowsKept(t, r);
    LedgerFrame(t, t1);
    RequestChange(t, r);
    AfterRequestDoes(t1, r);
    if ItemOf(t, r.id).Some? { EffectFrame(t, t1, ChangeRequest(t, r).value.0, ItemOf(t, r.id).value, r); }
  }

  // ----- the calls -----

  /** The request is as it was but for its status and its time. */
  ghost predicate Rewritten(t: Tables, t2: Tables, id: Uuid, status: RequestStatus, at: int) {
    && id in t.requests && id in t2.requests && t2.requests == t.requests[id := t2.requests[id]]
    && t2.requests[id].(updatedAt := t.requests[id].updatedAt) == t.requests[id].(status := status)
    && t2.requests[id].updatedAt == at
  }

  lemma DoneRequest(env: Env, t: Tables, op: Op, t2: Tables)
    requires WorksOnRequest(op) && Done(env, t, op, t2)
    ensures NextRequest(env, t, op) == Ok(t2)
  {
    hide NextRequest, NextIngest, NextOther, Represents;
  }

  /** The status a call gives the request. */
  function NewStatus(op: Op): RequestStatus
    requires WorksOnRequest(op) && !op.OpAdvance?
  {
    match op
    case OpClaimRequest(_, leaseId, agentId, _) => Claimed(leaseId, agentId)
    case OpComplete(_, leaseId, agentId, _, summary) => Fulfilled(leaseId, agentId, Trim(summary))
    case OpFail(_, leaseId, agentId, _, failure, diagnostic) => Failed(leaseId, agentId, failure, Trim(diagnostic))
    case OpCancel(_, _, _) => Withdrawn
  }

  /** The call gives the request its new status and its item follows. */
  ghost predicate ChangedBy(t: Tables, op: Op, t2: Tables)
    requires WorksOnRequest(op) && !op.OpAdvance?
  {
    && op.now >= 0 && op.requestId in t.requests && t.requests[op.requestId].id == op.requestId
    && var r := t.requests[op.requestId].(status := NewStatus(op), updatedAt := op.now);
       ChangeRequest(t, r).Ok? && t2 == ChangeRequest(t, r).value.0
  }

  lemma CallChanges(env: Env, t: Tables, op: Op, t2: Tables)
    requires Sound(t) && WorksOnRequest(op) && !op.OpAdvance? && Done(env, t, op, t2)
    ensures ChangedBy(t, op, t2)
  {
    hide Sound, ChangeRequest, CurrentLease, ClaimIsHeld, Represents, Trim, HasUnsafeControl, Done;
    DoneRequest(env, t, op, t2);
    RequestNames(t);
    if op.OpClaimRequest? { PresentedLease(t, op.leaseId, op.agentId, op.now); }
  }

  /** What the call leaves of the request and of its item. */
  ghost predicate Followed(t: Tables, op: Op, t2: Tables)
    requires WorksOnRequest(op) && !op.OpAdvance?
  {
    && Rewritten(t, t2, op.requestId, NewStatus(op), op.now) && t2.requests[op.requestId].id == op.requestId
    && match ItemOf(t, op.requestId)
       case None => SameLedgerRows(t, t2)
       case Some(item) =>
         && item.id in t.items && t.items[item.id] == item
         && item.id == t.sources[(RegistryRequest, op.requestId)].itemId
         && StatusEffect(t, t2, item, t2.requests[op.requestId])
  }

  lemma ChangeFollows(t: Tables, op: Op, t2: Tables)
    requires Sound(t) && WorksOnRequest(op) && !op.OpAdvance? && ChangedBy(t, op, t2)
    ensures Followed(t, op, t2)
  {
    hide Sound, LedgerSound, ChangeRequest, StatusEffect, NewStatus, SameLedgerRows;
    ChangeDoes(t, t.requests[op.requestId].(status := NewStatus(op), updatedAt := op.now));
    SoundLedger(t);
    if ItemOf(t, op.requestId).Some? { ItemRow(t, op.requestId); }
  }

  lemma CallFollows(env: Env, t: Tables, op: Op, t2: Tables)
    requires Sound(t) && WorksOnRequest(op) && !op.OpAdvance? && Done(env, t, op, t2)
    ensures Followed(t, op, t2)
  {
    hide Sound, Done, ChangedBy, Followed;
    CallChanges(env, t, op, t2);
    ChangeFollows(t, op, t2);
  }

  /** Claiming a request: its status names the caller now, and ready work is assigned to the caller, work its session
      holds under another lease is handed over unchanged, other work is left alone. */
  lemma ClaimingDoes(env: Env, t: Tables, op: Op, t2: Tables)
    requires Sound(t) && op.OpClaimRequest? && Done(env, t, op, t2)
    ensures Rewritten(t, t2, op.requestId, Claimed(op.leaseId, op.agentId), op.now)
    ensures if ItemOf(t, op.requestId).Some? then
              ClaimedEffect(t, t2, ItemOf(t, op.requestId).value, op.agentId, op.leaseId, op.now)
            else SameLedgerRows(t, t2)
  {
    hide Sound, ClaimedEffect, Done, SameLedgerRows;
    CallFollows(env, t, op, t2);
  }

  /** The request's item is closed as completed and lists the request's entries; if it was open, the last step the
      registry recorded is its completion, out of work in hand. */
  ghost predicate IsCompleted(t2: Tables, item: Item, requestId: Uuid) {
    && ItemOf(t2, requestId).Some?
    && var done := ItemOf(t2, requestId).value;
    && done.id == item.id && done.state.Terminal? && done.state.outcome == Outcome.Completed
    && Evidence(Ascii("registry-outcome"), requestId) in done.state.evidence
    && Evidence(Ascii("implementation-summary"), requestId) in done.state.evidence
    && (item.Open() ==>
          && t2.transitions != []
          && var last := t2.transitions[|t2.transitions| - 1];
             && last.itemId == item.id && last.event == EComplete
             && (last.from == KImplementing || last.from == KInReview || last.from == KPublishing))
  }

  lemma CompletedIsTold(t: Tables, op: Op, t2: Tables)
    requires op.OpComplete? && Followed(t, op, t2)
    ensures Rewritten(t, t2, op.requestId, NewStatus(op), op.now)
    ensures match ItemOf(t, op.requestId)
            case None => SameLedgerRows(t, t2)
            case Some(item) => CompletedEffect(t, t2, item, op.requestId, op.now) && IsCompleted(t2, item, op.requestId)
  {
    hide Trim, Ascii;
  }

  /** Completing a request completes the work behind it: the item is closed as completed and lists both entries of the
      request. If it was open, its last recorded step is that completion, out of work in hand. */
  lemma CompletingCompletes(env: Env, t: Tables, op: Op, t2: Tables)
    requires Sound(t) && op.OpComplete? && Done(env, t, op, t2)
    ensures Rewritten(t, t2, op.requestId, Fulfilled(op.leaseId, op.agentId, Trim(op.summary)), op.now)
    ensures match ItemOf(t, op.requestId)
            case None => SameLedgerRows(t, t2)
            case Some(item) => CompletedEffect(t, t2, item, op.requestId, op.now) && IsCompleted(t2, item, op.requestId)
  {
    hide Sound, Done, Trim, Ascii, SameLedgerRows, Followed, CompletedEffect;
    CallFollows(env, t, op, t2);
    CompletedIsTold(t, op, t2);
  }

  /** Failing a request: open work behind it is cancelled, if the failure is a cancellation, with the request as its
      evidence, and blocked otherwise, the kind of the failure being the reason. Closed work is left alone. */
  lemma FailingDoes(env: Env, t: Tables, op: Op, t2: Tables)
    requires Sound(t) && op.OpFail? && Done(env, t, op, t2)
    ensures Rewritten(t, t2, op.requestId, Failed(op.leaseId, op.agentId, op.failure, Trim(op.diagnostic)), op.now)
    ensures if ItemOf(t, op.requestId).None? then SameLedgerRows(t, t2)
            else if op.failure.FailedCancelled? then
              CancelledEffect(t, t2, ItemOf(t, op.requestId).value, "registry-failure", op.requestId, op.now)
            else BlockedEffect(t, t2, ItemOf(t, op.requestId).value, op.failure, op.now)
  {
    hide Sound, Done, Trim, Ascii, SameLedgerRows, CancelledEffect, BlockedEffect;
    CallFollows(env, t, op, t2);
  }

  /** Cancelling a request cancels open work behind it, with the request as its evidence, and leaves closed work
      alone. */
  lemma CancellingCancels(env: Env, t: Tables, op: Op, t2: Tables)
    requires Sound(t) && op.OpCancel? && Done(env, t, op, t2)
    ensures Rewritten(t, t2, op.requestId, Withdrawn, op.now)
    ensures if ItemOf(t, op.requestId).None? then SameLedgerRows(t, t2)
            else CancelledEffect(
                   t, t2, ItemOf(t, op.requestId).value, "registry-cancellation", op.requestId, op.now)
  {
    hide Sound, Done, CancelledEffect, SameLedgerRows, Ascii;
    CallFollows(env, t, op, t2);
  }

  lemma AdvanceOfItem(t: Tables, op: Op)
    requires op.OpAdvance?
    requires AdvanceStep(t, op.requestId, op.leaseId, op.agentId, op.now, op.phase, op.evidenceRef).Ok?
    ensures op.now >= 0 && ItemOf(t, op.requestId).Some?
    ensures var t2 := AdvanceStep(t, op.requestId, op.leaseId, op.agentId, op.now, op.phase, op.evidenceRef).value.0;
            var item, ref := ItemOf(t, op.requestId).value, Trim(op.evidenceRef);
            && item.state.Held() && item.state.agentId == op.agentId && item.state.leaseId == op.leaseId
            && if Reached(item.state, op.phase, ref) then t2 == t
               else var step := StepItem(t, item, op.agentId, op.now, AdvanceEvent(op.phase, ref));
                    step.Ok? && t2 == step.value.0
  {
    hide CurrentLease, Loadable, Trim, HasUnsafeControl, LeaseById, InsertRows, EvidenceRecords, Identifier, Timestamp,
         EventEntries, Updated, Recorded;
  }

  lemma AdvancedItem(t: Tables, item: Item, op: Op, ref: Text)
    requires op.OpAdvance? && op.now >= 0 && item.id in t.items && t.items[item.id] == item && Trim(ref) == ref
    requires item.state.Held() && item.state.agentId == op.agentId && item.state.leaseId == op.leaseId
    requires !Reached(item.state, op.phase, ref)
             && StepItem(t, item, op.agentId, op.now, AdvanceEvent(op.phase, ref)).Ok?
    ensures AdvancedEffect(t, StepItem(t, item, op.agentId, op.now, AdvanceEvent(op.phase, ref)).value.0, item,
                           op.phase, op.agentId, op.leaseId, ref, op.now)
  {
    hide StepItem, AdvanceEvent, Trim, NextState, OneStep, SameLedgerRows, Reached, EventEntries, Ascii;
    StepIsOneStep(t, item, op.agentId, op.now, AdvanceEvent(op.phase, ref));
    AdvanceEntries(op.phase, ref);
    AdvanceIsPlanned(item.state, op.phase, ref);
    AdvanceIsNamed(op.phase, ref);
  }

  /** Advancing a request moves its item into the named phase from the one before, or finds it there with the same
      reference; the request itself is left alone. */
  lemma AdvancingDoes(env: Env, t: Tables, op: Op, t2: Tables)
    requires Sound(t) && op.OpAdvance? && Done(env, t, op, t2)
    ensures t2.requests == t.requests && ItemOf(t, op.requestId).Some?
    ensures AdvancedEffect(t, t2, ItemOf(t, op.requestId).value, op.phase, op.agentId, op.leaseId,
                           Trim(op.evidenceRef), op.now)
  {
    hide Sound, Done, AdvanceStep, Trim, StepItem, OneStep, LedgerSound;
    DoneRequest(env, t, op, t2);
    AdvanceWork(t, op.requestId, op.leaseId, op.agentId, op.now, op.phase, op.evidenceRef);
    AdvanceOfItem(t, op);
    SoundLedger(t);
    ItemRow(t, op.requestId);
    var item, ref := ItemOf(t, op.requestId).value, Trim(op.evidenceRef);
    TrimIsStable(op.evidenceRef);
    if Reached(item.state, op.phase, ref) { TableIsItself(t); } else { AdvancedItem(t, item, op, ref); }
  }

  lemma AdvanceIsNamed(phase: AdvancePhase, ref: Text)
    ensures AdvanceEvent(phase, ref).Kind() == match phase
            case ToImplementation => EStart
            case ToReview => EReview
            case ToPublication => EPublish
  {
  }

  lemma TrimIsStable(text: Text)
    ensures Trim(Trim(text)) == Trim(text)
  {
    TrimIsExact(text);
    TrimIsExact(Trim(text));
  }
}
