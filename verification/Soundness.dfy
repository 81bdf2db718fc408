/** Every registry step keeps the tables sound. */
module Soundness {
  import opened Wrappers
  import opened Texts
  import opened Ledger
  import opened Tables
  import opened Invariants
  import opened Evolution
  import opened Refinement
  import opened Registry
  import RuntimeIdentity

  // ----- the steps the program persists are legal -----

  function KindsOf(event: Event): seq<Evidence> {
    match event
    case Complete(e) => e
    case Reconcile(_, e) => e
    case Cancel(e) => e
    case _ => []
  }

  /** Evidence kinds short enough for the reader, which allows 128 units where the ledger allows 256. */
  predicate ShortKinds(event: Event) {
    forall i :: 0 <= i < |KindsOf(event)| ==> |KindsOf(event)[i].kind| <= 128
  }

  lemma EntriesAreSafe(evidence: seq<Evidence>)
    requires EvidenceEntries(evidence).Ok?
    requires forall i :: 0 <= i < |evidence| ==> |evidence[i].kind| <= 128
    ensures forall i :: 0 <= i < |evidence| ==> EvidenceSafe(EvidenceEntries(evidence).value[i])
  {
    var entries := EvidenceEntries(evidence).value;
    forall i | 0 <= i < |evidence|
      ensures EvidenceSafe(entries[i])
    {
      TrimIsSafe(evidence[i].kind);
      IdentifierIsTrimmed(entries[i].kind);
    }
  }

  lemma ReferenceEntryIsSafe(event: Event)
    requires EventEntries(event).Ok? && (event.Start? || event.ReviewWork? || event.Publish?)
    ensures |EventEntries(event).value| == 1 && EvidenceSafe(EventEntries(event).value[0])
  {
    match event
    case Start(ref) => AsciiIsSafe("implementation-reference");
    case ReviewWork(ref) => AsciiIsSafe("review-reference");
    case Publish(ref) => AsciiIsSafe("publication-reference");
  }

  lemma NextStateFollowsAnEdge(state: ItemState, event: Event)
    requires NextState(state, event).Ok?
    ensures Allowed(event.Kind(), state.Kind(), NextState(state, event).value.Kind())
    ensures !state.Terminal?
  {
    hide HasUnsafeControl, Trim, IsIdentifier, SafeText, ValidatedEvidence;
  }

  lemma NextStateIsSafe(state: ItemState, event: Event)
    requires NextState(state, event).Ok? && StateSafe(state) && ShortKinds(event)
    ensures StateSafe(NextState(state, event).value)
  {
    hide HasUnsafeControl, Trim, IsIdentifier;
    if KindsOf(event) != [] { EntriesAreSafe(KindsOf(event)); }
  }

  lemma NextReasonIsTrimmed(state: ItemState, event: Event)
    requires NextState(state, event).Ok?
    ensures ReasonTrimmed(NextState(state, event).value)
  {
    hide HasUnsafeControl, IsIdentifier;
    if event.Block? { TrimIsExact(event.reason); }
  }

  /** Moving on keeps who holds the item and every reference of the phases behind, and shows the new one recorded. */
  lemma PlanKeepsReferences(item: Item, actor: Text, at: nat, event: Event, phase: Phase)
    requires Plan(item, actor, at, event).Ok?
    ensures KeepsReference(item, Plan(item, actor, at, event).value, phase)
    ensures var next := Plan(item, actor, at, event).value.next;
            item.state.Held() && next.Held() ==>
                next.agentId == item.state.agentId && next.leaseId == item.state.leaseId
  {
    hide Trim, HasUnsafeControl, IsIdentifier, ValidatedEvidence;
  }

  /** A closed item lists exactly the evidence recorded on closing; no other step records terminal evidence. */
  lemma PlanKeepsEvidence(item: Item, actor: Text, at: nat, event: Event)
    requires Plan(item, actor, at, event).Ok?
    ensures var change := Plan(item, actor, at, event).value;
            if change.next.Terminal? then change.phase.Final? && change.next.evidence == change.entries
            else change.phase.Final? ==> change.entries == []
  {
    hide Trim, HasUnsafeControl, IsIdentifier, ValidatedEvidence;
  }

  lemma PlanEntriesAreSafe(item: Item, actor: Text, at: nat, event: Event)
    requires Plan(item, actor, at, event).Ok? && ShortKinds(event)
    ensures var change := Plan(item, actor, at, event).value;
            && (forall i :: 0 <= i < |change.entries| ==> EvidenceSafe(change.entries[i]))
            && (event.Start? ==> change.phase.Implementation? && |change.entries| == 1)
  {
    hide NextState, EvidenceSafe, Trim, HasUnsafeControl, IsIdentifier;
    if event.Start? || event.ReviewWork? || event.Publish? {
      ReferenceEntryIsSafe(event);
    } else if KindsOf(event) != [] {
      EntriesAreSafe(KindsOf(event));
    }
  }

  /** Whatever the ledger plans for an item the reader accepts is legal, given short evidence kinds. */
  lemma PlanIsLegal(item: Item, actor: Text, at: nat, event: Event)
    requires Plan(item, actor, at, event).Ok? && StateSafe(item.state) && SafeText(actor, 512) && ShortKinds(event)
    ensures Legal(item, Plan(item, actor, at, event).value)
  {
    hide StateSafe, SafeText, Allowed, ReasonTrimmed, NextState, EventEntries, KeepsReference, EvidenceSafe, ShortKinds;
    NextStateIsSafe(item.state, event);
    NextStateFollowsAnEdge(item.state, event);
    NextReasonIsTrimmed(item.state, event);
    PlanKeepsEvidence(item, actor, at, event);
    PlanEntriesAreSafe(item, actor, at, event);
    forall phase
      ensures KeepsReference(item, Plan(item, actor, at, event).value, phase)
    {
      PlanKeepsReferences(item, actor, at, event, phase);
    }
  }

  lemma ActorIsSafe()
    ensures SafeText(ACTOR, 512)
  {
    AsciiIsSafe("agent-registry");
  }

  lemma RebindIsLegal(item: Item, agentId: Text, leaseId: Uuid, at: nat)
    requires item.state.Held() && StateSafe(item.state) && SafeText(agentId, 128)
    ensures Legal(item, RebindChange(item, agentId, leaseId, at))
  {
    UuidIsIdentifier(leaseId);
    ActorIsSafe();
    hide HasUnsafeControl, IsIdentifier, IsUuid;
  }

  lemma CompletionEvidenceIsSafe(requestId: Uuid)
    ensures forall e :: e in CompletionEvidence(requestId) ==> EvidenceSafe(e)
  {
    AsciiIsSafe("registry-outcome");
    AsciiIsSafe("implementation-summary");
    UuidIsIdentifier(requestId);
  }

  lemma AppendIsLegal(item: Item, requestId: Uuid, at: nat)
    requires item.state.Terminal? && StateSafe(item.state)
    ensures Legal(item, AppendChange(item, Unlisted(CompletionEvidence(requestId), item.state.evidence), at))
  {
    CompletionEvidenceIsSafe(requestId);
    ActorIsSafe();
    var added := Unlisted(CompletionEvidence(requestId), item.state.evidence);
    hide EvidenceSafe, SafeText;
    forall i | 0 <= i < |added|
      ensures EvidenceSafe(added[i])
    {
      assert added[i] in added;
    }
  }

  // ----- ledger steps keep the ledger sound -----

  lemma StepItemKeepsSound(t: Tables, item: Item, actor: Text, now: int, event: Event)
    requires LedgerSound(t) && item.id in t.items && t.items[item.id] == item && ShortKinds(event)
    requires StepItem(t, item, actor, now, event).Ok?
    ensures LedgerSound(StepItem(t, item, actor, now, event).value.0)
    ensures var (t2, item2) := StepItem(t, item, actor, now, event).value;
            item2.id == item.id && item2.project == item.project && t2.items == t.items[item.id := item2]
            && Evolves(t, t2, item.project, now)
  {
    hide LedgerSound, Plan, Legal, IsIdentifier, SafeText, Evolves;
    var who := Identifier(actor).value;
    var change := Plan(item, who, now, event).value;
    assert StateSafe(item.state) by { ItemIsSafe(t, item); }
    assert SafeText(who, 512) by { WhoIsSafe(actor); }
    PlanIsLegal(item, who, now, event);
    AdvanceKeepsLedgerSound(t, item, change);
    AdvanceMovesOn(t, item, change);
    PlanIsStamped(item, who, now, event);
  }

  lemma PlanIsStamped(item: Item, actor: Text, at: nat, event: Event)
    requires Plan(item, actor, at, event).Ok?
    ensures Plan(item, actor, at, event).value.at == at
  {
    hide NextState, EventEntries;
  }

  lemma AdvanceMovesOn(t: Tables, item: Item, change: Change)
    requires LedgerSound(t) && item.id in t.items && t.items[item.id] == item && Legal(item, change)
    ensures Evolves(t, AdvanceRow(t, item, change), item.project, change.at)
  {
    hide Evolves, Legal, AdvanceRow;
    AdvanceEvolves(t, item, change);
  }

  lemma ItemIsSafe(t: Tables, item: Item)
    requires LedgerSound(t) && item.id in t.items && t.items[item.id] == item
    ensures StateSafe(item.state) && IsIdentifier(item.id)
  {
  }

  lemma WhoIsSafe(actor: Text)
    requires Identifier(actor).Ok?
    ensures SafeText(Identifier(actor).value, 512)
  {
  }

  lemma CompletionKindsAreShort(requestId: Text)
    ensures ShortKinds(Complete(CompletionEvidence(requestId)))
  {
  }

  lemma ClosingKindsAreShort(r: Request)
    requires r.status.Withdrawn? || r.status.Failed?
    ensures ShortKinds(ClosingEvent(r))
  {
  }

  lemma AfterClaimedKeepsSound(t: Tables, item: Item, r: Request)
    requires LedgerSound(t) && SeatRows(t) && item.id in t.items && t.items[item.id] == item
    requires r.status.Claimed? && AfterClaimed(t, item, r).Ok?
    ensures LedgerSound(AfterClaimed(t, item, r).value)
    ensures Evolves(t, AfterClaimed(t, item, r).value, item.project, r.updatedAt)
  {
    hide LedgerSound, StepItem, SafeText, Evolves, RuntimeIdentity.SameRuntimeSession, StateSafe, Legal;
    var agentId, leaseId := r.status.agentId, r.status.leaseId;
    EvolvesIsReflexive(t, item.project, r.updatedAt);
    ItemIsSafe(t, item);
    if item.state.Assigned? && item.state.agentId == agentId && item.state.leaseId == leaseId {
    } else if item.state.Held() && RuntimeIdentity.SameRuntimeSession(item.state.agentId, agentId)
              && item.state.leaseId != leaseId {
      var change := RebindChange(item, agentId, leaseId, r.updatedAt);
      RebindIsLegal(item, agentId, leaseId, r.updatedAt);
      AdvanceKeepsLedgerSound(t, item, change);
      AdvanceMovesOn(t, item, change);
    } else if item.state.Ready? {
      StepItemKeepsSound(t, item, ACTOR, r.updatedAt, Assign(agentId, leaseId));
    }
  }

  lemma AfterCompletedKeepsSound(t: Tables, item: Item, r: Request)
    requires LedgerSound(t) && item.id in t.items && t.items[item.id] == item
    requires AfterCompleted(t, item, r).Ok?
    ensures LedgerSound(AfterCompleted(t, item, r).value)
    ensures Evolves(t, AfterCompleted(t, item, r).value, item.project, r.updatedAt)
  {
    hide LedgerSound, Evolves, StepItem, StateSafe, Legal, CompletionEvidence, ShortKinds;
    var t1, item1 := t, item;
    EvolvesIsReflexive(t, item.project, r.updatedAt);
    if item.state.Assigned? {
      assert ShortKinds(Start(r.id)) by { StartHasShortKinds(r.id); }
      StepItemKeepsSound(t, item, ACTOR, r.updatedAt, Start(r.id));
      t1, item1 := StepItem(t, item, ACTOR, r.updatedAt, Start(r.id)).value.0,
                   StepItem(t, item, ACTOR, r.updatedAt, Start(r.id)).value.1;
    }
    if item1.state.Terminal? {
      ItemIsSafe(t1, item1);
      AppendIsLegal(item1, r.id, r.updatedAt);
      var added := Unlisted(CompletionEvidence(r.id), item1.state.evidence);
      AdvanceKeepsLedgerSound(t1, item1, AppendChange(item1, added, r.updatedAt));
      AdvanceMovesOn(t1, item1, AppendChange(item1, added, r.updatedAt));
      if added != [] {
        EvolvesIsTransitive(
          t, t1, AdvanceRow(t1, item1, AppendChange(item1, added, r.updatedAt)), item.project, r.updatedAt);
      }
    } else {
      CompletionKindsAreShort(r.id);
      StepItemKeepsSound(t1, item1, ACTOR, r.updatedAt, Complete(CompletionEvidence(r.id)));
      EvolvesIsTransitive(t, t1, AfterCompleted(t, item, r).value, item.project, r.updatedAt);
    }
  }

  lemma StartHasShortKinds(ref: Text)
    ensures ShortKinds(Start(ref))
  {
  }

  /** Whatever follows a request's status change keeps the ledger sound and moves only its project's ledger on. */
  lemma AfterRequestKeepsSound(t: Tables, r: Request)
    requires LedgerSound(t) && SeatRows(t) && AfterRequest(t, r).Ok?
    ensures LedgerSound(AfterRequest(t, r).value)
    ensures Evolves(t, AfterRequest(t, r).value, r.project, r.updatedAt)
  {
    hide LedgerSound, SeatRows, Evolves, AfterClaimed, AfterCompleted, StepItem, ClosingEvent, ShortKinds;
    EvolvesIsReflexive(t, r.project, r.updatedAt);
    if (RegistryRequest, r.id) in t.sources && InProject(t, r.project, t.sources[(RegistryRequest, r.id)].itemId) {
      var item := t.items[t.sources[(RegistryRequest, r.id)].itemId];
      assert t.items[item.id] == item by { RowsNameThemselves(t, t.sources[(RegistryRequest, r.id)].itemId); }
      match r.status {
        case Queued =>
        case Claimed(_, _) => AfterClaimedKeepsSound(t, item, r);
        case Fulfilled(_, _, _) => AfterCompletedKeepsSound(t, item, r);
        case _ =>
          if !item.state.Terminal? {
            ClosingKindsAreShort(r);
            StepItemKeepsSound(t, item, ACTOR, r.updatedAt, ClosingEvent(r));
          }
      }
    }
  }

  lemma RowsNameThemselves(t: Tables, id: Text)
    requires LedgerSound(t) && id in t.items
    ensures t.items[id].id == id
  {
  }

  lemma IngestStepKeepsSound(t: Tables, project: Text, sha: Text -> Digest, st: Backlog, input: IngestInput)
    requires LedgerSound(t) && Represents(t, project, st) && input.project == project
    requires Ingest(sha, st, input).Ok? && IngestStep(t, st, Ingest(sha, st, input).value).Ok?
    ensures LedgerSound(IngestStep(t, st, Ingest(sha, st, input).value).value)
    ensures var r := Ingest(sha, st, input).value; Represents(IngestStep(t, st, r).value, project, r.state)
    ensures Evolves(t, IngestStep(t, st, Ingest(sha, st, input).value).value, project, input.observedAt)
  {
    hide LedgerSound, Represents, Ingest, Ingestible, RequirementsOf, Evolves;
    var r := Ingest(sha, st, input).value;
    EvolvesIsReflexive(t, project, input.observedAt);
    IngestShape(sha, st, input);
    if |r.state.sources| != |st.sources| {
      IngestIsIngestible(t, project, sha, st, input);
      IngestKeepsLedgerSound(t, r.item, NewSource(st, r), NewRequirements(st, r));
      IngestRefines(t, project, sha, st, input);
      IngestMovesOn(t, project, sha, st, input);
    }
  }

  lemma IngestMovesOn(t: Tables, project: Text, sha: Text -> Digest, st: Backlog, input: IngestInput)
    requires LedgerSound(t) && Represents(t, project, st) && input.project == project
    requires Ingest(sha, st, input).Ok? && Fits(t, st, Ingest(sha, st, input).value)
    requires FindSource(st.sources, input.kind, SourceIdOf(input)).None?
    ensures var r := Ingest(sha, st, input).value;
            Evolves(t, IngestRow(t, r.item, NewSource(st, r), NewRequirements(st, r)), project, input.observedAt)
  {
    hide Ingest, Ingestible, RequirementsOf, Evolves, IngestRow, ItemRows, SourceRows, RequirementRows, EvidenceRows,
         TransitionRows, FinalEvidence, Paths, Starts, OneOpenPerDigest, References, SourcesMatch, RequirementsMatch,
         EvidenceMatch, TransitionsMatch;
    var r := Ingest(sha, st, input).value;
    IngestShape(sha, st, input);
    IngestIsIngestible(t, project, sha, st, input);
    IngestItem(sha, st, input);
    IngestEvolves(t, r.item, NewSource(st, r), NewRequirements(st, r), input.observedAt);
  }
}
