/** What every reachable state of the tables keeps, and that each row delta keeps it. */
module Invariants {
  import opened Wrappers
  import opened Texts
  import opened Ledger
  import opened Tables

  // ----- an item's trail of transition records -----

  predicate Initial(kind: StateKind) {
    kind == KReady || kind == KUnreconciled
  }

  predicate Working(kind: StateKind) {
    kind == KImplementing || kind == KInReview || kind == KPublishing
  }

  /** The edges of the item life cycle. */
  predicate Allowed(event: EventKind, from: StateKind, to: StateKind) {
    match event
    case EAssign => from == KReady && to == KAssigned
    case EStart => from == KAssigned && to == KImplementing
    case EReview => from == KImplementing && to == KInReview
    case EPublish => from == KInReview && to == KPublishing
    case EBlock => from != KTerminal && to == KBlocked
    case EReady => (from == KBlocked || from == KUnreconciled) && to == KReady
    case EComplete => (Working(from) || from == KTerminal) && to == KTerminal
    case EReconcile => from != KTerminal && to == KTerminal
    case ECancel => from != KTerminal && to == KTerminal
    case ERebind => from == to && (Working(from) || from == KAssigned)
  }

  function Trail(records: seq<TransitionRecord>, itemId: Text): seq<TransitionRecord> {
    if records == [] then []
    else
      var last := records[|records| - 1];
      Trail(records[..|records| - 1], itemId) + if last.itemId == itemId then [last] else []
  }

  /** A connected path of allowed edges, at strictly increasing revisions up to a bound. */
  predicate IsPath(trail: seq<TransitionRecord>, from: StateKind, to: StateKind, bound: nat) {
    if trail == [] then from == to && 1 <= bound
    else
      var last := trail[|trail| - 1];
      && 2 <= last.revision <= bound
      && last.to == to
      && Allowed(last.event, last.from, last.to)
      && IsPath(trail[..|trail| - 1], from, last.from, last.revision - 1)
  }

  // ----- the invariant -----

  ghost predicate SeatRows(t: Tables) {
    && (forall seat :: seat in t.leases ==>
          && seat == (t.leases[seat].project, t.leases[seat].role)
          && SafeText(t.leases[seat].owner.id, 128))
    && (forall a, b :: a in t.leases && b in t.leases && t.leases[a].id == t.leases[b].id ==> a == b)
  }

  ghost predicate RequestRows(t: Tables) {
    forall id :: id in t.requests ==> t.requests[id].id == id
  }

  ghost predicate ItemRows(t: Tables) {
    forall id :: id in t.items ==> t.items[id].id == id && ItemSafe(t.items[id]) && ReasonTrimmed(t.items[id].state)
  }

  predicate ReasonTrimmed(state: ItemState) {
    state.Blocked? ==> Trimmed(state.reason)
  }

  ghost predicate SourceRows(t: Tables) {
    forall k :: k in t.sources ==>
      KeyOf(t.sources[k]) == k && t.sources[k].itemId in t.items && SourceSafe(t.sources[k])
  }

  predicate NumberedRequirement(r: Requirement) {
    exists n: nat :: n < MAX_REQUIREMENTS && r.id == RequirementId(r.sourceKind, r.sourceId, n)
  }

  ghost predicate RequirementRows(t: Tables) {
    forall k :: k in t.requirements ==>
      var r := t.requirements[k];
      && r.id == k && NumberedRequirement(r) && RequirementSafe(r)
      && (r.sourceKind, r.sourceId) in t.sources && t.sources[(r.sourceKind, r.sourceId)].itemId == r.itemId
  }

  ghost predicate Numbered(r: EvidenceRecord, bound: nat) {
    exists revision: nat, n: nat :: revision <= bound && r.id == EvidenceId(r.itemId, revision, r.phase, n)
  }

  ghost predicate EvidenceRows(t: Tables) {
    forall k :: k in t.evidence ==>
      var r := t.evidence[k];
      r.id == k && RecordSafe(r) && r.itemId in t.items && Numbered(r, t.items[r.itemId].revision)
  }

  ghost predicate TransitionRows(t: Tables) {
    forall i :: 0 <= i < |t.transitions| ==> t.transitions[i].itemId in t.items && TransitionSafe(t.transitions[i])
  }

  ghost function FinalIds(t: Tables, itemId: Text): set<Text> {
    set k | k in t.evidence && t.evidence[k].itemId == itemId && t.evidence[k].phase.Final?
  }

  ghost predicate Witnessed(t: Tables, itemId: Text, e: Evidence) {
    exists k :: k in FinalIds(t, itemId) && t.evidence[k].kind == e.kind && t.evidence[k].ref == e.ref
  }

  /** Terminal evidence: as many rows as the state lists and each listed one present; none otherwise. */
  ghost predicate FinalEvidence(t: Tables) {
    forall id :: id in t.items ==> FinalEvidenceOf(t, id)
  }

  ghost predicate HasPath(t: Tables, id: Text)
    requires id in t.items
  {
    exists from :: Initial(from)
        && IsPath(Trail(t.transitions, id), from, t.items[id].state.Kind(), t.items[id].revision)
  }

  ghost predicate Paths(t: Tables) {
    forall id :: id in t.items ==> HasPath(t, id)
  }

  /** Every recorded start has its implementation evidence. */
  ghost predicate Starts(t: Tables) {
    forall i :: 0 <= i < |t.transitions| && t.transitions[i].event.EStart? ==>
      EvidenceId(t.transitions[i].itemId, t.transitions[i].revision, Implementation, 0) in t.evidence
  }

  ghost predicate OneOpenPerDigest(t: Tables) {
    forall a, b :: a in t.items && b in t.items && t.items[a].Open() && t.items[b].Open()
      && t.items[a].project == t.items[b].project && t.items[a].dedupeDigest == t.items[b].dedupeDigest
      ==> a == b
  }

  /** The reference an item in work shows for a phase it has reached. */
  function RefOf(state: ItemState, phase: Phase): Option<Text> {
    match phase
    case Implementation =>
      if state.Implementing? || state.InReview? || state.Publishing? then Some(state.implementationRef) else None
    case Review => if state.InReview? || state.Publishing? then Some(state.reviewRef) else None
    case Publication => if state.Publishing? then Some(state.publicationRef) else None
    case Final => None
  }

  ghost predicate Backed(t: Tables, id: Text, phase: Phase, ref: Text) {
    exists k :: k in t.evidence && t.evidence[k].itemId == id && t.evidence[k].phase == phase
        && t.evidence[k].ref == ref
  }

  ghost predicate ReferenceOf(t: Tables, id: Text, phase: Phase)
    requires id in t.items
  {
    RefOf(t.items[id].state, phase).Some? ==> Backed(t, id, phase, RefOf(t.items[id].state, phase).value)
  }

  /** Every reference an item in work shows is stored as evidence of its phase. */
  ghost predicate References(t: Tables) {
    forall id, phase :: id in t.items ==> ReferenceOf(t, id, phase)
  }

  ghost predicate LedgerSound(t: Tables) {
    && ItemRows(t) && SourceRows(t) && RequirementRows(t) && EvidenceRows(t) && TransitionRows(t)
    && FinalEvidence(t) && Paths(t) && Starts(t) && OneOpenPerDigest(t) && References(t)
  }

  ghost predicate Sound(t: Tables) {
    SeatRows(t) && RequestRows(t) && LedgerSound(t)
  }

  lemma EmptyIsSound()
    ensures Sound(EMPTY)
  {
  }

  // ----- a step of one item -----

  /** A reference is the one the item had, or the one entry recorded for its phase. */
  predicate KeepsReference(item: Item, change: Change, phase: Phase) {
    RefOf(change.next, phase).Some? ==>
      || RefOf(item.state, phase) == RefOf(change.next, phase)
      || (change.phase == phase && |change.entries| == 1 && change.entries[0].ref == RefOf(change.next, phase).value)
  }

  /** What the program guarantees about every step it persists. */
  predicate Legal(item: Item, change: Change) {
    && Allowed(change.event, item.state.Kind(), change.next.Kind())
    && StateSafe(change.next) && ReasonTrimmed(change.next)
    && SafeText(change.actor, 512)
    && (forall i :: 0 <= i < |change.entries| ==> EvidenceSafe(change.entries[i]))
    && (if change.next.Terminal? then
          && change.phase.Final?
          && change.next.evidence == (if item.state.Terminal? then item.state.evidence else []) + change.entries
          && (item.state.Terminal? ==> change.next.outcome == item.state.outcome)
        else change.phase.Final? ==> change.entries == [])
    && (change.event.EStart? ==> change.phase.Implementation? && |change.entries| == 1)
    && (forall phase :: KeepsReference(item, change, phase))
  }

  lemma RecordsAreDistinct(item: Item, change: Change)
    ensures DistinctKeys(EvidenceKey, EvidenceRecords(item.id, item.revision + 1, change))
  {
    var records := EvidenceRecords(item.id, item.revision + 1, change);
    forall i, j | 0 <= i < j < |records|
      ensures EvidenceKey(records[i]) != EvidenceKey(records[j])
    {
      if records[i].id == records[j].id {
        EvidenceIdInjective(item.id, item.revision + 1, change.phase, i, item.id, item.revision + 1, change.phase, j);
      }
    }
  }

  /** Evidence recorded at a new revision collides with nothing recorded before. */
  lemma RecordsAreFresh(t: Tables, item: Item, change: Change)
    requires EvidenceRows(t) && item.id in t.items && t.items[item.id] == item
    ensures forall k :: k in t.evidence ==> !HasKey(EvidenceKey, EvidenceRecords(item.id, item.revision + 1, change), k)
  {
    var records := EvidenceRecords(item.id, item.revision + 1, change);
    forall k | k in t.evidence
      ensures !HasKey(EvidenceKey, records, k)
    {
      if HasKey(EvidenceKey, records, k) {
        var i :| 0 <= i < |records| && EvidenceKey(records[i]) == k;
        var r := t.evidence[k];
        var revision: nat, n: nat :|
          revision <= t.items[r.itemId].revision && r.id == EvidenceId(r.itemId, revision, r.phase, n);
        EvidenceIdInjective(item.id, item.revision + 1, change.phase, i, r.itemId, revision, r.phase, n);
      }
    }
  }

  /** The inserted rows: the old ones as they were and the new ones under their identifiers. */
  lemma AdvancedEvidence(t: Tables, item: Item, change: Change)
    requires EvidenceRows(t) && item.id in t.items && t.items[item.id] == item
    ensures var t2, records := AdvanceRow(t, item, change), EvidenceRecords(item.id, item.revision + 1, change);
            && (forall k :: k in t2.evidence <==> k in t.evidence || HasKey(EvidenceKey, records, k))
            && (forall k :: k in t.evidence ==> t2.evidence[k] == t.evidence[k])
            && (forall i :: 0 <= i < |records| ==>
                  records[i].id in t2.evidence && t2.evidence[records[i].id] == records[i]
                  && records[i].id !in t.evidence)
  {
    hide EvidenceRows, EvidenceRecords, InsertRows;
    var records := EvidenceRecords(item.id, item.revision + 1, change);
    RecordsAreDistinct(item, change);
    RecordsAreFresh(t, item, change);
    InsertedRows(t.evidence, EvidenceKey, records);
    forall i | 0 <= i < |records|
      ensures HasKey(EvidenceKey, records, records[i].id)
    {
      assert EvidenceKey(records[i]) == records[i].id;
    }
  }

  lemma AdvanceKeepsRows(t: Tables, item: Item, change: Change)
    requires ItemRows(t) && SourceRows(t) && RequirementRows(t) && TransitionRows(t)
    requires item.id in t.items && t.items[item.id] == item && Legal(item, change)
    ensures var t2 := AdvanceRow(t, item, change);
            ItemRows(t2) && SourceRows(t2) && RequirementRows(t2) && TransitionRows(t2)
  {
    hide NumberedRequirement, SafeText, StateSafe, Allowed, IsIdentifier, ReasonTrimmed, RequirementSafe, SourceSafe;
  }

  lemma AdvanceKeepsEvidenceRows(t: Tables, item: Item, change: Change)
    requires EvidenceRows(t) && item.id in t.items && t.items[item.id] == item && Legal(item, change)
    ensures EvidenceRows(AdvanceRow(t, item, change))
  {
    hide EvidenceId, SafeText, StateSafe, Allowed;
    var t2, records := AdvanceRow(t, item, change), EvidenceRecords(item.id, item.revision + 1, change);
    AdvancedEvidence(t, item, change);
    forall k | k in t2.evidence
      ensures var r := t2.evidence[k];
              r.id == k && RecordSafe(r) && r.itemId in t2.items && Numbered(r, t2.items[r.itemId].revision)
    {
      if k in t.evidence {
        var r := t.evidence[k];
        var revision: nat, n: nat :|
          revision <= t.items[r.itemId].revision && r.id == EvidenceId(r.itemId, revision, r.phase, n);
        assert revision <= t2.items[r.itemId].revision;
      } else {
        var i :| 0 <= i < |records| && EvidenceKey(records[i]) == k;
        assert EvidenceSafe(change.entries[i]);
        assert records[i].id == EvidenceId(item.id, item.revision + 1, change.phase, i);
      }
    }
  }

  ghost function NewIds(records: seq<EvidenceRecord>): set<Text> {
    set i | 0 <= i < |records| :: records[i].id
  }

  lemma {:induction false} NewIdsCount(records: seq<EvidenceRecord>)
    requires DistinctKeys(EvidenceKey, records)
    ensures |NewIds(records)| == |records|
  {
    if records != [] {
      var front, last := records[..|records| - 1], records[|records| - 1];
      assert forall i :: 0 <= i < |front| ==> records[i] == front[i];
      NewIdsCount(front);
      forall i | 0 <= i < |front|
        ensures front[i].id != last.id
      {
        assert EvidenceKey(records[i]) != EvidenceKey(records[|records| - 1]);
      }
      assert records[|records| - 1].id in NewIds(records);
      assert NewIds(records) == NewIds(front) + {last.id};
    }
  }

  lemma AdvancedFinalIds(t: Tables, item: Item, change: Change, id: Text)
    requires EvidenceRows(t) && item.id in t.items && t.items[item.id] == item
    ensures var t2, records := AdvanceRow(t, item, change), EvidenceRecords(item.id, item.revision + 1, change);
            && FinalIds(t2, id)
               == FinalIds(t, id) + (if id == item.id && change.phase.Final? then NewIds(records) else {})
            && FinalIds(t, id) !! NewIds(records)
  {
    hide EvidenceId, Numbered, RecordSafe, InsertRows;
    var t2, records := AdvanceRow(t, item, change), EvidenceRecords(item.id, item.revision + 1, change);
    AdvancedEvidence(t, item, change);
    forall k
      ensures k in FinalIds(t2, id) <==>
              k in FinalIds(t, id) || (id == item.id && change.phase.Final? && k in NewIds(records))
    {
      if HasKey(EvidenceKey, records, k) {
        var i :| 0 <= i < |records| && EvidenceKey(records[i]) == k;
        assert records[i].id in NewIds(records);
      }
    }
  }

  ghost predicate FinalEvidenceOf(t: Tables, id: Text)
    requires id in t.items
  {
    if t.items[id].state.Terminal? then
      && |FinalIds(t, id)| == |t.items[id].state.evidence|
      && forall i :: 0 <= i < |t.items[id].state.evidence| ==> Witnessed(t, id, t.items[id].state.evidence[i])
    else FinalIds(t, id) == {}
  }

  lemma AdvanceKeepsOthersEvidence(t: Tables, item: Item, change: Change, id: Text)
    requires EvidenceRows(t) && item.id in t.items && t.items[item.id] == item
    requires id in t.items && FinalEvidenceOf(t, id) && id != item.id
    ensures FinalEvidenceOf(AdvanceRow(t, item, change), id)
  {
    hide EvidenceId, EvidenceRows;
    AdvancedFinalIds(t, item, change, id);
    if t.items[id].state.Terminal? {
      forall i | 0 <= i < |t.items[id].state.evidence|
        ensures Witnessed(AdvanceRow(t, item, change), id, t.items[id].state.evidence[i])
      {
        WitnessSurvives(t, item, change, id, t.items[id].state.evidence[i]);
      }
    }
  }

  lemma OnlyTerminalStaysTerminal(item: Item, change: Change)
    requires Legal(item, change) && item.state.Terminal?
    ensures change.next.Terminal?
  {
  }

  lemma NewRecordWitnesses(t: Tables, item: Item, change: Change, i: nat)
    requires EvidenceRows(t) && item.id in t.items && t.items[item.id] == item
    requires change.phase.Final? && i < |change.entries|
    ensures Witnessed(AdvanceRow(t, item, change), item.id, change.entries[i])
  {
    hide EvidenceId, EvidenceRows;
    var t2, records := AdvanceRow(t, item, change), EvidenceRecords(item.id, item.revision + 1, change);
    AdvancedEvidence(t, item, change);
    var r := records[i];
    assert r.id in FinalIds(t2, item.id) && t2.evidence[r.id] == r;
  }

  lemma FinalCountGrows(t: Tables, item: Item, change: Change)
    requires EvidenceRows(t) && item.id in t.items && t.items[item.id] == item
    ensures |FinalIds(AdvanceRow(t, item, change), item.id)|
            == |FinalIds(t, item.id)| + if change.phase.Final? then |change.entries| else 0
  {
    hide EvidenceRows, FinalIds;
    var records := EvidenceRecords(item.id, item.revision + 1, change);
    AdvancedFinalIds(t, item, change, item.id);
    RecordsAreDistinct(item, change);
    NewIdsCount(records);
  }

  lemma AdvanceKeepsOwnEvidence(t: Tables, item: Item, change: Change)
    requires EvidenceRows(t) && item.id in t.items && t.items[item.id] == item && Legal(item, change)
    requires FinalEvidenceOf(t, item.id)
    ensures FinalEvidenceOf(AdvanceRow(t, item, change), item.id)
  {
    hide EvidenceRows, SafeText, StateSafe, FinalIds, Witnessed, InsertRows, EvidenceRecords, Allowed;
    FinalCountGrows(t, item, change);
    if change.next.Terminal? {
      var before := if item.state.Terminal? then item.state.evidence else [];
      assert change.next.evidence == before + change.entries;
      forall i | 0 <= i < |change.next.evidence|
        ensures Witnessed(AdvanceRow(t, item, change), item.id, change.next.evidence[i])
      {
        if i < |before| {
          WitnessSurvives(t, item, change, item.id, before[i]);
        } else {
          NewRecordWitnesses(t, item, change, i - |before|);
        }
      }
    } else {
      if item.state.Terminal? { OnlyTerminalStaysTerminal(item, change); }
    }
  }

  lemma AdvanceKeepsFinalEvidence(t: Tables, item: Item, change: Change)
    requires EvidenceRows(t) && FinalEvidence(t)
    requires item.id in t.items && t.items[item.id] == item && Legal(item, change)
    ensures FinalEvidence(AdvanceRow(t, item, change))
  {
    hide EvidenceRows, Legal, FinalEvidenceOf;
    forall id | id in t.items
      ensures FinalEvidenceOf(AdvanceRow(t, item, change), id)
    {
      if id == item.id { AdvanceKeepsOwnEvidence(t, item, change); }
      else { AdvanceKeepsOthersEvidence(t, item, change, id); }
    }
  }

  lemma WitnessSurvives(t: Tables, item: Item, change: Change, id: Text, e: Evidence)
    requires EvidenceRows(t) && item.id in t.items && t.items[item.id] == item
    requires Witnessed(t, id, e)
    ensures Witnessed(AdvanceRow(t, item, change), id, e)
  {
    AdvancedEvidence(t, item, change);
    AdvancedFinalIds(t, item, change, id);
    var k :| k in FinalIds(t, id) && t.evidence[k].kind == e.kind && t.evidence[k].ref == e.ref;
    assert k in FinalIds(AdvanceRow(t, item, change), id);
  }

  lemma {:induction false} PathBoundGrows(
      trail: seq<TransitionRecord>, from: StateKind, to: StateKind, bound: nat, larger: nat)
    requires IsPath(trail, from, to, bound) && bound <= larger
    ensures IsPath(trail, from, to, larger)
  {
  }

  lemma AdvanceKeepsPath(t: Tables, item: Item, change: Change, id: Text)
    requires item.id in t.items && t.items[item.id] == item && Legal(item, change)
    requires id in t.items && HasPath(t, id)
    ensures HasPath(AdvanceRow(t, item, change), id)
  {
    hide SafeText, StateSafe, EvidenceRecords, InsertRows;
    var t2, x := AdvanceRow(t, item, change), Recorded(item, change);
    assert t2.transitions[..|t2.transitions| - 1] == t.transitions;
    var from :| Initial(from)
      && IsPath(Trail(t.transitions, id), from, t.items[id].state.Kind(), t.items[id].revision);
    var trail := Trail(t.transitions, id);
    assert Trail(t2.transitions, id) == if id == item.id then trail + [x] else trail;
    if id == item.id {
      PathBoundIsPositive(trail, from, item.state.Kind(), item.revision);
      assert (trail + [x])[..|trail + [x]| - 1] == trail;
      assert IsPath(trail + [x], from, change.next.Kind(), item.revision + 1);
    }
    assert IsPath(Trail(t2.transitions, id), from, t2.items[id].state.Kind(), t2.items[id].revision);
  }

  lemma PathBoundIsPositive(trail: seq<TransitionRecord>, from: StateKind, to: StateKind, bound: nat)
    requires IsPath(trail, from, to, bound)
    ensures 1 <= bound
  {
  }

  lemma AdvanceKeepsStarts(t: Tables, item: Item, change: Change)
    requires EvidenceRows(t) && Starts(t) && item.id in t.items && t.items[item.id] == item && Legal(item, change)
    ensures Starts(AdvanceRow(t, item, change))
  {
    hide EvidenceId, EvidenceRows, SafeText, StateSafe, Allowed;
    AdvancedEvidence(t, item, change);
    var t2, records := AdvanceRow(t, item, change), EvidenceRecords(item.id, item.revision + 1, change);
    if change.event.EStart? {
      assert records[0].id == EvidenceId(item.id, item.revision + 1, Implementation, 0);
    }
    forall i | 0 <= i < |t2.transitions| && t2.transitions[i].event.EStart?
      ensures EvidenceId(t2.transitions[i].itemId, t2.transitions[i].revision, Implementation, 0) in t2.evidence
    {
      if i < |t.transitions| { assert t2.transitions[i] == t.transitions[i]; }
    }
  }

  lemma AdvanceKeepsDigests(t: Tables, item: Item, change: Change)
    requires OneOpenPerDigest(t) && item.id in t.items && t.items[item.id] == item && Legal(item, change)
    ensures OneOpenPerDigest(AdvanceRow(t, item, change))
  {
    hide SafeText, StateSafe, EvidenceRecords, InsertRows;
  }

  lemma BackedSurvives(t: Tables, item: Item, change: Change, id: Text, phase: Phase, ref: Text)
    requires EvidenceRows(t) && item.id in t.items && t.items[item.id] == item && Backed(t, id, phase, ref)
    ensures Backed(AdvanceRow(t, item, change), id, phase, ref)
  {
    hide EvidenceRows, EvidenceRecords, InsertRows;
    AdvancedEvidence(t, item, change);
    var k :| k in t.evidence && t.evidence[k].itemId == id && t.evidence[k].phase == phase && t.evidence[k].ref == ref;
  }

  lemma EntryIsBacked(t: Tables, item: Item, change: Change)
    requires EvidenceRows(t) && item.id in t.items && t.items[item.id] == item && |change.entries| == 1
    ensures Backed(AdvanceRow(t, item, change), item.id, change.phase, change.entries[0].ref)
  {
    hide EvidenceRows, EvidenceId, InsertRows;
    var r := EvidenceRecords(item.id, item.revision + 1, change)[0];
    AdvancedEvidence(t, item, change);
    assert r.id in AdvanceRow(t, item, change).evidence;
  }

  lemma AdvanceKeepsReferences(t: Tables, item: Item, change: Change)
    requires EvidenceRows(t) && References(t) && item.id in t.items && t.items[item.id] == item && Legal(item, change)
    ensures References(AdvanceRow(t, item, change))
  {
    hide EvidenceRows, EvidenceRecords, InsertRows, SafeText, StateSafe, Allowed, Backed, RefOf;
    var t2 := AdvanceRow(t, item, change);
    forall id, phase | id in t2.items
      ensures ReferenceOf(t2, id, phase)
    {
      assert ReferenceOf(t, id, phase) && KeepsReference(item, change, phase);
      if RefOf(t.items[id].state, phase).Some? {
        BackedSurvives(t, item, change, id, phase, RefOf(t.items[id].state, phase).value);
      }
      if id == item.id && |change.entries| == 1 { EntryIsBacked(t, item, change); }
    }
  }

  /** Every legal step of an item keeps the whole ledger sound. */
  lemma AdvanceKeepsLedgerSound(t: Tables, item: Item, change: Change)
    requires LedgerSound(t) && item.id in t.items && t.items[item.id] == item && Legal(item, change)
    ensures LedgerSound(AdvanceRow(t, item, change))
  {
    hide ItemRows, SourceRows, RequirementRows, EvidenceRows, TransitionRows, FinalEvidence, Paths, Starts,
         OneOpenPerDigest, References, AdvanceRow, Legal;
    AdvanceKeepsRows(t, item, change);
    AdvanceKeepsEvidenceRows(t, item, change);
    AdvanceKeepsFinalEvidence(t, item, change);
    AdvanceKeepsPaths(t, item, change);
    AdvanceKeepsStarts(t, item, change);
    AdvanceKeepsDigests(t, item, change);
    AdvanceKeepsReferences(t, item, change);
  }

  lemma AdvanceKeepsPaths(t: Tables, item: Item, change: Change)
    requires Paths(t) && item.id in t.items && t.items[item.id] == item && Legal(item, change)
    ensures Paths(AdvanceRow(t, item, change))
  {
    hide HasPath, Legal;
    forall id | id in t.items
      ensures HasPath(AdvanceRow(t, item, change), id)
    {
      AdvanceKeepsPath(t, item, change, id);
    }
  }

  // ----- ingestion of a new source -----

  predicate OpenTwin(t: Tables, item: Item, id: Text) {
    && id in t.items && t.items[id].Open()
    && t.items[id].project == item.project && t.items[id].dedupeDigest == item.dedupeDigest
  }

  /** The item row an ingestion writes: a new open item without an open twin, or the known item, touched. */
  ghost predicate NewOrTouched(t: Tables, item: Item) {
    if item.id in t.items then
      var known := t.items[item.id];
      item == known.(priority := item.priority, revision := known.revision + 1, updatedAt := item.updatedAt)
    else
      && IsIdentifier(item.id) && item.revision == 1 && Initial(item.state.Kind())
      && forall id :: !OpenTwin(t, item, id)
  }

  predicate RequirementsOf(source: Source, records: seq<Requirement>) {
    && |records| <= MAX_REQUIREMENTS
    && forall i :: 0 <= i < |records| ==>
         && records[i].id == RequirementId(source.kind, source.id, i)
         && records[i].itemId == source.itemId
         && records[i].sourceKind == source.kind && records[i].sourceId == source.id
         && RequirementSafe(records[i])
  }

  ghost predicate Ingestible(t: Tables, item: Item, source: Source, records: seq<Requirement>) {
    && NewOrTouched(t, item)
    && KeyOf(source) !in t.sources && source.itemId == item.id && SourceSafe(source)
    && RequirementsOf(source, records)
  }

  /** The requirement rows of a new source collide with nothing. */
  lemma RequirementsAreFresh(t: Tables, item: Item, source: Source, records: seq<Requirement>)
    requires RequirementRows(t) && Ingestible(t, item, source, records)
    ensures DistinctKeys(RequirementKey, records)
    ensures forall k :: k in t.requirements ==> !HasKey(RequirementKey, records, k)
  {
    forall i, j | 0 <= i < j < |records|
      ensures RequirementKey(records[i]) != RequirementKey(records[j])
    {
      if records[i].id == records[j].id {
        RequirementIdInjective(source.kind, source.id, i, source.kind, source.id, j);
      }
    }
    forall k | k in t.requirements
      ensures !HasKey(RequirementKey, records, k)
    {
      if HasKey(RequirementKey, records, k) {
        var i :| 0 <= i < |records| && RequirementKey(records[i]) == k;
        var r := t.requirements[k];
        var n: nat :| n < MAX_REQUIREMENTS && r.id == RequirementId(r.sourceKind, r.sourceId, n);
        RequirementIdInjective(source.kind, source.id, i, r.sourceKind, r.sourceId, n);
      }
    }
  }

  lemma IngestedRequirements(t: Tables, item: Item, source: Source, records: seq<Requirement>)
    requires RequirementRows(t) && Ingestible(t, item, source, records)
    ensures var t2 := IngestRow(t, item, source, records);
            && (forall k :: k in t2.requirements <==> k in t.requirements || HasKey(RequirementKey, records, k))
            && (forall k :: k in t.requirements ==> t2.requirements[k] == t.requirements[k])
            && (forall i :: 0 <= i < |records| ==>
                  records[i].id in t2.requirements && t2.requirements[records[i].id] == records[i]
                  && records[i].id !in t.requirements)
  {
    hide RequirementRows, Ingestible, RequirementsOf;
    RequirementsAreFresh(t, item, source, records);
    InsertedRows(t.requirements, RequirementKey, records);
    forall i | 0 <= i < |records|
      ensures HasKey(RequirementKey, records, records[i].id)
    {
      assert RequirementKey(records[i]) == records[i].id;
    }
  }

  lemma IngestKeepsRows(t: Tables, item: Item, source: Source, records: seq<Requirement>)
    requires ItemRows(t) && SourceRows(t) && TransitionRows(t) && RequirementRows(t)
    requires Ingestible(t, item, source, records)
    ensures var t2 := IngestRow(t, item, source, records);
            ItemRows(t2) && SourceRows(t2) && TransitionRows(t2)
  {
    hide RequirementRows, RequirementsOf, OpenTwin, InsertRows, SafeText, IsIdentifier, SourceSafe;
  }

  lemma IngestKeepsRequirementRows(t: Tables, item: Item, source: Source, records: seq<Requirement>)
    requires RequirementRows(t) && Ingestible(t, item, source, records)
    ensures RequirementRows(IngestRow(t, item, source, records))
  {
    hide RequirementId, SafeText, IsIdentifier, SourceSafe, NewOrTouched;
    var t2 := IngestRow(t, item, source, records);
    IngestedRequirements(t, item, source, records);
    forall k | k in t2.requirements
      ensures var r := t2.requirements[k];
        && r.id == k && NumberedRequirement(r) && RequirementSafe(r)
        && (r.sourceKind, r.sourceId) in t2.sources && t2.sources[(r.sourceKind, r.sourceId)].itemId == r.itemId
    {
      if k !in t.requirements {
        var i :| 0 <= i < |records| && RequirementKey(records[i]) == k;
        assert records[i].id == RequirementId(source.kind, source.id, i);
      }
    }
  }

  lemma IngestKeepsHistories(t: Tables, item: Item, source: Source, records: seq<Requirement>)
    requires ItemRows(t) && EvidenceRows(t) && FinalEvidence(t) && Paths(t) && Starts(t) && TransitionRows(t)
    requires Ingestible(t, item, source, records)
    ensures var t2 := IngestRow(t, item, source, records);
            EvidenceRows(t2) && FinalEvidence(t2) && Paths(t2) && Starts(t2)
  {
    hide EvidenceRows, FinalEvidence, Paths, Starts, TransitionRows, ItemRows, Ingestible;
    IngestKeepsEvidenceRows(t, item, source, records);
    IngestKeepsFinalEvidence(t, item, source, records);
    IngestKeepsPaths(t, item, source, records);
    assert Starts(IngestRow(t, item, source, records)) by { StartsFrame(t, IngestRow(t, item, source, records)); }
  }

  lemma StartsFrame(t: Tables, t2: Tables)
    requires Starts(t) && t2.transitions == t.transitions && t.evidence.Keys <= t2.evidence.Keys
    ensures Starts(t2)
  {
    hide EvidenceId;
  }

  lemma IngestKeepsEvidenceRows(t: Tables, item: Item, source: Source, records: seq<Requirement>)
    requires EvidenceRows(t) && Ingestible(t, item, source, records)
    ensures EvidenceRows(IngestRow(t, item, source, records))
  {
    hide EvidenceId, SafeText, RequirementsOf, SourceSafe, InsertRows, OpenTwin;
    var t2 := IngestRow(t, item, source, records);
    forall k | k in t2.evidence
      ensures Numbered(t2.evidence[k], t2.items[t2.evidence[k].itemId].revision)
    {
      var r := t.evidence[k];
      var revision: nat, n: nat :|
        revision <= t.items[r.itemId].revision && r.id == EvidenceId(r.itemId, revision, r.phase, n);
      assert revision <= t2.items[r.itemId].revision;
    }
  }

  lemma IngestKeepsFinalEvidence(t: Tables, item: Item, source: Source, records: seq<Requirement>)
    requires EvidenceRows(t) && FinalEvidence(t) && Ingestible(t, item, source, records)
    ensures FinalEvidence(IngestRow(t, item, source, records))
  {
    hide SafeText, RequirementsOf, SourceSafe, InsertRows, OpenTwin, Numbered;
    var t2 := IngestRow(t, item, source, records);
    forall id | id in t2.items
      ensures FinalEvidenceOf(t2, id)
    {
      assert FinalIds(t2, id) == FinalIds(t, id);
      if id in t.items {
        assert FinalEvidenceOf(t, id) && t2.items[id].state == t.items[id].state;
        forall i | t.items[id].state.Terminal? && 0 <= i < |t.items[id].state.evidence|
          ensures Witnessed(t2, id, t.items[id].state.evidence[i])
        {
          assert Witnessed(t, id, t.items[id].state.evidence[i]);
        }
      }
    }
  }

  lemma {:induction false} NoTrail(records: seq<TransitionRecord>, itemId: Text)
    requires forall i :: 0 <= i < |records| ==> records[i].itemId != itemId
    ensures Trail(records, itemId) == []
  {
    if records != [] { NoTrail(records[..|records| - 1], itemId); }
  }

  lemma IngestKeepsPaths(t: Tables, item: Item, source: Source, records: seq<Requirement>)
    requires ItemRows(t) && TransitionRows(t) && Paths(t) && Ingestible(t, item, source, records)
    ensures Paths(IngestRow(t, item, source, records))
  {
    hide SafeText, RequirementsOf, SourceSafe, InsertRows, OpenTwin, ItemSafe;
    var t2 := IngestRow(t, item, source, records);
    forall id | id in t2.items
      ensures HasPath(t2, id)
    {
      if id in t.items {
        assert HasPath(t, id);
        var from :| Initial(from)
          && IsPath(Trail(t.transitions, id), from, t.items[id].state.Kind(), t.items[id].revision);
        PathBoundGrows(
          Trail(t.transitions, id), from, t.items[id].state.Kind(), t.items[id].revision, t2.items[id].revision);
      } else {
        NoTrail(t.transitions, id);
        assert IsPath(Trail(t2.transitions, id), item.state.Kind(), item.state.Kind(), 1);
      }
    }
  }

  lemma IngestKeepsDigests(t: Tables, item: Item, source: Source, records: seq<Requirement>)
    requires ItemRows(t) && OneOpenPerDigest(t) && Ingestible(t, item, source, records)
    ensures OneOpenPerDigest(IngestRow(t, item, source, records))
  {
    hide SafeText, RequirementsOf, SourceSafe, InsertRows, ItemSafe;
    var t2 := IngestRow(t, item, source, records);
    forall a, b | a in t2.items && b in t2.items && t2.items[a].Open() && t2.items[b].Open()
      && t2.items[a].project == t2.items[b].project && t2.items[a].dedupeDigest == t2.items[b].dedupeDigest
      ensures a == b
    {
      if item.id !in t.items {
        assert !OpenTwin(t, item, a) && !OpenTwin(t, item, b);
      }
    }
  }

  lemma IngestKeepsReferences(t: Tables, item: Item, source: Source, records: seq<Requirement>)
    requires ItemRows(t) && References(t) && Ingestible(t, item, source, records)
    ensures References(IngestRow(t, item, source, records))
  {
    hide SafeText, RequirementsOf, SourceSafe, InsertRows, OpenTwin, ItemSafe, IsIdentifier;
    var t2 := IngestRow(t, item, source, records);
    forall id, phase | id in t2.items
      ensures ReferenceOf(t2, id, phase)
    {
      if id in t.items { assert ReferenceOf(t, id, phase); }
    }
  }

  /** Ingesting a new source keeps the whole ledger sound. */
  lemma IngestKeepsLedgerSound(t: Tables, item: Item, source: Source, records: seq<Requirement>)
    requires LedgerSound(t) && Ingestible(t, item, source, records)
    ensures LedgerSound(IngestRow(t, item, source, records))
  {
    hide ItemRows, SourceRows, RequirementRows, EvidenceRows, TransitionRows, FinalEvidence, Paths, Starts,
         OneOpenPerDigest, References, IngestRow, Ingestible;
    IngestKeepsRows(t, item, source, records);
    IngestKeepsRequirementRows(t, item, source, records);
    IngestKeepsHistories(t, item, source, records);
    IngestKeepsDigests(t, item, source, records);
    IngestKeepsReferences(t, item, source, records);
  }
}
