/** Reconciling a decoded snapshot a second time changes nothing exactly when its groups agree. */
module ReconcileAgain {
  import opened Wrappers
  import opened Texts
  import opened Ledger
  import opened Tables
  import opened Invariants
  import opened Refinement
  import opened Registry
  import opened Soundness
  import opened Reconcile

  /** A decoded snapshot: every group's records agree on the status, carry the group's prefix and share no source with
      another group. A canonical item has one record; a branch todo may have several pages. */
  predicate Decoded(feed: Feed) {
    && (forall i :: 0 <= i < |feed.groups| ==> DecodedGroup(feed.groups[i]))
    && (forall i, j :: 0 <= i < j < |feed.groups| ==> Apart(feed.groups[i], feed.groups[j]))
  }

  predicate DecodedGroup(group: Group) {
    && group.records != []
    && (forall a :: 0 <= a < |group.records| ==>
          && IsIdentifier(group.records[a].sourceId) && StartsWith(group.records[a].sourceId, group.prefix)
          && group.records[a].status == group.records[0].status)
  }

  predicate Apart(g: Group, h: Group) {
    forall a, b :: 0 <= a < |g.records| && 0 <= b < |h.records| ==> g.records[a].sourceId != h.records[b].sourceId
  }

  function RecordKey(feed: Feed, record: FeedRecord): SourceKey { (feed.kind, record.sourceId) }

  /** The record's source is stored, with an item of the project. */
  predicate RecordStored(t: Tables, feed: Feed, record: FeedRecord) {
    RecordKey(feed, record) in t.sources && InProject(t, feed.project, t.sources[RecordKey(feed, record)].itemId)
  }

  function RecordItem(t: Tables, feed: Feed, record: FeedRecord): Item
    requires RecordStored(t, feed, record)
  {
    t.items[t.sources[RecordKey(feed, record)].itemId]
  }

  /** Every source of the group is stored. */
  predicate Stored(t: Tables, feed: Feed, group: Group) {
    AllStored(t, feed, group.records)
  }

  predicate AllStored(t: Tables, feed: Feed, records: seq<FeedRecord>) {
    forall a :: 0 <= a < |records| ==> RecordStored(t, feed, records[a])
  }

  /** The item a stored group is settled on: its last record's. */
  function StoredItem(t: Tables, feed: Feed, group: Group): Item
    requires group.records != [] && Stored(t, feed, group)
  {
    RecordItem(t, feed, Last(group))
  }

  function Last(group: Group): FeedRecord
    requires group.records != []
  {
    group.records[|group.records| - 1]
  }

  ghost predicate PrefixTaken(t: Tables, feed: Feed, group: Group) {
    exists k :: k in t.sources && k.0 == feed.kind && StartsWith(k.1, group.prefix)
      && InProject(t, feed.project, t.sources[k].itemId)
  }

  /** What a caller can check on the stored state: no group left out has its prefix taken by another group's
      sources, no open item's block reason needs trimming, and groups that share an open item ask for the same. */
  ghost predicate Agreeing(t: Tables, feed: Feed)
    requires Decoded(feed)
  {
    assert forall i :: 0 <= i < |feed.groups| ==> DecodedGroup(feed.groups[i]);
    && (forall i :: 0 <= i < |feed.groups| && !Stored(t, feed, feed.groups[i]) ==>
            !PrefixTaken(t, feed, feed.groups[i]))
    && (forall i :: 0 <= i < |feed.groups| && Stored(t, feed, feed.groups[i])
          && StoredItem(t, feed, feed.groups[i]).Open() && feed.groups[i].records[0].status.FeedBlocked?
          ==> Trimmed(feed.groups[i].records[0].reason))
    && (forall i, j :: 0 <= i < |feed.groups| && 0 <= j < |feed.groups|
          && Stored(t, feed, feed.groups[i]) && Stored(t, feed, feed.groups[j])
          && StoredItem(t, feed, feed.groups[i]) == StoredItem(t, feed, feed.groups[j])
          && StoredItem(t, feed, feed.groups[i]).Open()
          ==> SameDemand(feed.groups[i].records[0], feed.groups[j].records[0]))
  }

  predicate SameDemand(a: FeedRecord, b: FeedRecord) {
    && (a.status == b.status || (a.status.FeedOpen? && b.status.FeedOpen?))
    && (a.status.FeedBlocked? ==> a.reason == b.reason)
  }

  // ----- one record -----

  /** The record passes ingestion and its content is the stored source's. */
  predicate Accepted(sha: Text -> Digest, feed: Feed, record: FeedRecord, source: Source) {
    && Timestamp(feed.observedAt).Ok?
    && record.requirements != [] && |record.requirements| <= MAX_REQUIREMENTS
    && NormalizedRequirements(record.requirements).Ok?
    && source.contentDigest == sha(Join(NormalizedRequirements(record.requirements).value, [SEPARATOR]))
  }

  /** An open item is where the record's status wants it. */
  predicate Consistent(state: ItemState, record: FeedRecord) {
    match record.status
    case FeedOpen(_) => !state.Blocked? && !state.Unreconciled?
    case FeedBlocked => record.reason != [] && state == Blocked(Trim(record.reason))
    case _ => false
  }

  function Size(st: Backlog): nat { |st.sources| + |st.transitions| }

  lemma IngestIsAccepted(
      sha: Text -> Digest, uuid: Text -> Uuid, st: Backlog, feed: Feed, key: Text, item: Option<Item>,
      record: FeedRecord)
    requires IsIdentifier(record.sourceId)
    requires Ingest(sha, st, RecordInput(feed, uuid, key, item, record)).Ok?
    ensures var r := Ingest(sha, st, RecordInput(feed, uuid, key, item, record)).value;
            var known := FindSource(st.sources, feed.kind, record.sourceId);
            if known.Some? then Accepted(sha, feed, record, known.value) && r.state == st
                && r.item.id == known.value.itemId
            else |r.state.sources| == |st.sources| + 1 && r.state.transitions == st.transitions
                 && Accepted(sha, feed, record, r.state.sources[|st.sources|])
                 && KeyOf(r.state.sources[|st.sources|]) == (feed.kind, record.sourceId)
  {
    hide RequirementId, DedupeDigest, FindJoined, Join, Collapse;
    IdentifierIsTrimmed(record.sourceId);
  }

  lemma AcceptedIsIngested(
      sha: Text -> Digest, uuid: Text -> Uuid, st: Backlog, feed: Feed, key: Text, item: Option<Item>,
      record: FeedRecord)
    requires IsIdentifier(record.sourceId) && (item.None? ==> Identifier(key).Ok?)
             && (item.Some? ==> IsIdentifier(item.value.id))
    requires FindSource(st.sources, feed.kind, record.sourceId).Some?
    requires Accepted(sha, feed, record, FindSource(st.sources, feed.kind, record.sourceId).value)
    requires FindItem(st.items, FindSource(st.sources, feed.kind, record.sourceId).value.itemId).Some?
    requires FindItem(st.items, FindSource(st.sources, feed.kind, record.sourceId).value.itemId).value.project
             == feed.project
    ensures Ingest(sha, st, RecordInput(feed, uuid, key, item, record)) ==
            var itemId := FindSource(st.sources, feed.kind, record.sourceId).value.itemId;
            Ok(Ingested(st, FindItem(st.items, itemId).value, false))
  {
    hide RequirementId, DedupeDigest, FindJoined, Join, Collapse;
    IdentifierIsTrimmed(record.sourceId);
    UuidIsIdentifier(uuid(record.sourceId));
    if item.Some? { IdentifierIsTrimmed(item.value.id); }
  }

  lemma HeldSource(w: Work, feed: Feed, record: FeedRecord)
    requires InStep(w, feed.project)
    ensures var found := FindSource(w.held.sources, feed.kind, record.sourceId);
            && (found.Some? <==> RecordStored(w.tables, feed, record))
            && (found.Some? ==> found.value == w.tables.sources[RecordKey(feed, record)])
            && (found.Some? ==> FindItem(w.held.items, found.value.itemId) == Some(RecordItem(w.tables, feed, record)))
  {
    hide RequirementsMatch, EvidenceMatch, TransitionsMatch, RequirementRows, EvidenceRows, TransitionRows,
         FinalEvidence, Paths, Starts, OneOpenPerDigest, References, SourceSafe, ItemSafe, ReasonTrimmed;
    var found := FindSource(w.held.sources, feed.kind, record.sourceId);
    if found.Some? {
      var i :| 0 <= i < |w.held.sources| && w.held.sources[i] == found.value;
      HeldItem(w, feed.project, found.value.itemId);
    }
    assert RecordStored(w.tables, feed, record) ==> w.tables.sources[RecordKey(feed, record)] in w.held.sources;
  }

  lemma HeldItem(w: Work, project: Text, id: Text)
    requires ItemRows(w.tables) && ItemsMatch(w.tables, project, w.held.items) && InProject(w.tables, project, id)
    ensures FindItem(w.held.items, id) == Some(w.tables.items[id])
  {
    assert w.tables.items[id] in w.held.items;
  }

  lemma HeldPrefix(w: Work, feed: Feed, group: Group)
    requires InStep(w, feed.project)
    ensures FindByPrefix(w.held.sources, feed.kind, group.prefix).Some? <==> PrefixTaken(w.tables, feed, group)
    ensures var found := FindByPrefix(w.held.sources, feed.kind, group.prefix);
            found.None? || (FindItem(w.held.items, found.value.itemId).Some?
                            && IsIdentifier(FindItem(w.held.items, found.value.itemId).value.id))
  {
    hide RequirementsMatch, EvidenceMatch, TransitionsMatch, RequirementRows, EvidenceRows, TransitionRows,
         FinalEvidence, Paths, Starts, OneOpenPerDigest, References, SourceSafe, ReasonTrimmed, StartsWith;
    var found := FindByPrefix(w.held.sources, feed.kind, group.prefix);
    if found.Some? {
      var i :| 0 <= i < |w.held.sources| && w.held.sources[i] == found.value;
      assert KeyOf(found.value) in w.tables.sources;
      HeldItem(w, feed.project, found.value.itemId);
    }
    if PrefixTaken(w.tables, feed, group) {
      var k :| k in w.tables.sources && k.0 == feed.kind && StartsWith(k.1, group.prefix)
        && InProject(w.tables, feed.project, w.tables.sources[k].itemId);
      assert w.tables.sources[k] in w.held.sources;
    }
  }

  predicate StoredAccepted(sha: Text -> Digest, t: Tables, feed: Feed, record: FeedRecord) {
    RecordStored(t, feed, record) && Accepted(sha, feed, record, t.sources[RecordKey(feed, record)])
  }

  /** What ingesting one record leaves behind. */
  lemma RecordOutcome(
    sha: Text -> Digest, uuid: Text -> Uuid, w: Work, feed: Feed, key: Text, item: Option<Item>, record: FeedRecord)
    requires InStep(w, feed.project) && IsIdentifier(record.sourceId)
    requires IngestRecord(sha, uuid, w, feed, key, item, record).Ok?
    ensures var (w2, item2) := IngestRecord(sha, uuid, w, feed, key, item, record).value;
            && InStep(w2, feed.project) && StoredAccepted(sha, w2.tables, feed, record)
            && RecordItem(w2.tables, feed, record) == item2
            && (if RecordStored(w.tables, feed, record) then w2 == w else Size(w2.held) > Size(w.held))
  {
    hide Ingest, RequirementsOf, InStep, Accepted, IsIdentifier, Size;
    RecordKeepsInStep(sha, uuid, w, feed, key, item, record);
    IngestIsAccepted(sha, uuid, w.held, feed, key, item, record);
    HeldSource(w, feed, record);
    var (w2, item2) := IngestRecord(sha, uuid, w, feed, key, item, record).value;
    if RecordStored(w.tables, feed, record) {
      assert w2 == w;
      assert w.tables.items[item2.id] == item2;
    } else {
      NewSourceIsStored(sha, uuid, w, feed, key, item, record);
    }
  }

  lemma NewSourceIsStored(
    sha: Text -> Digest, uuid: Text -> Uuid, w: Work, feed: Feed, key: Text, item: Option<Item>, record: FeedRecord)
    requires InStep(w, feed.project) && IsIdentifier(record.sourceId)
    requires IngestRecord(sha, uuid, w, feed, key, item, record).Ok?
    requires !RecordStored(w.tables, feed, record)
    ensures var (w2, item2) := IngestRecord(sha, uuid, w, feed, key, item, record).value;
            && StoredAccepted(sha, w2.tables, feed, record) && RecordItem(w2.tables, feed, record) == item2
            && Size(w2.held) > Size(w.held)
  {
    hide Ingest, RequirementsOf, LedgerSound, SourcesMatch, RequirementsMatch, EvidenceMatch, TransitionsMatch,
         Accepted, IsIdentifier;
    var input := RecordInput(feed, uuid, key, item, record);
    HeldSource(w, feed, record);
    IdentifierIsTrimmed(record.sourceId);
    IngestIsAccepted(sha, uuid, w.held, feed, key, item, record);
    IngestShape(sha, w.held, input);
    RecordKeepsInStep(sha, uuid, w, feed, key, item, record);
    var (w2, item2) := IngestRecord(sha, uuid, w, feed, key, item, record).value;
    var r := Ingest(sha, w.held, input).value;
    assert w2.tables == IngestRow(w.tables, r.item, NewSource(w.held, r), NewRequirements(w.held, r));
    HeldItemInProject(w2, feed.project, item2);
  }

  lemma HeldItemInProject(w: Work, project: Text, item: Item)
    requires InStep(w, project) && item in w.held.items
    ensures InProject(w.tables, project, item.id)
  {
  }

  /** The item a group's records start from: the one an existing source of the group names. */
  ghost function KnownItem(w: Work, feed: Feed, group: Group): Option<Item> {
    var existing := FindByPrefix(w.held.sources, feed.kind, group.prefix);
    if existing.Some? then FindItem(w.held.items, existing.value.itemId) else None
  }

  predicate LeftOut(w: Work, feed: Feed, group: Group)
    requires group.records != []
  {
    group.records[0].status.Closed() && FindByPrefix(w.held.sources, feed.kind, group.prefix).None?
  }

  /** A group that is not left out: its records are ingested, then the last one's item moved if needed. */
  ghost function GroupWork(
      sha: Text -> Digest, uuid: Text -> Uuid, w: Work, feed: Feed, group: Group)
      : Result<Work, RegistryError>
    requires group.records != []
  {
    var (w2, item) :- IngestRecords(sha, uuid, w, feed, group.key, KnownItem(w, feed, group), group.records);
    if item.None? || item.value.state.Terminal? then Ok(w2)
    else
      var event :- GroupEvent(feed, group, item.value.state);
      if event.None? then Ok(w2) else MoveItem(w2, feed, item.value, event.value)
  }

  lemma DecodedGroupWork(sha: Text -> Digest, uuid: Text -> Uuid, w: Work, feed: Feed, group: Group)
    requires DecodedGroup(group)
    ensures ReconcileGroup(sha, uuid, w, feed, group)
            == if LeftOut(w, feed, group) then Ok(w) else GroupWork(sha, uuid, w, feed, group)
  {
    hide IngestRecords, GroupEvent, MoveItem, IsIdentifier, StartsWith;
  }

  // ----- the records of a group -----

  /** One of these records names the source. */
  ghost predicate Names(feed: Feed, records: seq<FeedRecord>, k: SourceKey) {
    exists a :: 0 <= a < |records| && k == RecordKey(feed, records[a])
  }

  /** Sources stay where they are and only named ones are added; no stored item changes its project or state, nor does
      its time go back. */
  ghost predicate OnlyAdds(t: Tables, t2: Tables, feed: Feed, records: seq<FeedRecord>) {
    && (forall k :: k in t.sources ==> k in t2.sources && t2.sources[k] == t.sources[k])
    && (forall k :: k in t2.sources && !Names(feed, records, k) ==> k in t.sources)
    && (forall id :: id in t.items ==>
          id in t2.items && t2.items[id].project == t.items[id].project && t2.items[id].state == t.items[id].state
          && t2.items[id].updatedAt >= t.items[id].updatedAt)
  }

  lemma RecordOnlyAdds(
    sha: Text -> Digest, uuid: Text -> Uuid, w: Work, feed: Feed, key: Text, item: Option<Item>, record: FeedRecord)
    requires InStep(w, feed.project) && IsIdentifier(record.sourceId)
    requires IngestRecord(sha, uuid, w, feed, key, item, record).Ok?
    ensures OnlyAdds(w.tables, IngestRecord(sha, uuid, w, feed, key, item, record).value.0.tables, feed, [record])
  {
    hide Ingest, RequirementsOf, InStep, IsIdentifier, OnlyAdds;
    var input := RecordInput(feed, uuid, key, item, record);
    IdentifierIsTrimmed(record.sourceId);
    IngestShape(sha, w.held, input);
    var r := Ingest(sha, w.held, input).value;
    if FindSource(w.held.sources, feed.kind, record.sourceId).Some? {
      NothingIsAdded(w.tables, feed, [record]);
    } else {
      IngestItem(sha, w.held, input);
      if !r.created {
        var known :| known in w.held.items && r.state.items == Replace(w.held.items, r.item) && known.id == r.item.id
          && 0 <= input.observedAt && r.item == Joined(known, input.priority, input.observedAt);
        HeldItemHasItsRow(w, feed.project, known);
      }
      RowOnlyAdds(w.tables, r.item, NewSource(w.held, r), NewRequirements(w.held, r), feed, record);
    }
  }

  lemma NothingIsAdded(t: Tables, feed: Feed, records: seq<FeedRecord>)
    ensures OnlyAdds(t, t, feed, records)
  {
  }

  lemma RowOnlyAdds(
      t: Tables, item: Item, source: Source, requirements: seq<Requirement>, feed: Feed, record: FeedRecord)
    requires KeyOf(source) !in t.sources && KeyOf(source) == RecordKey(feed, record)
    requires item.id in t.items ==>
               item.project == t.items[item.id].project && item.state == t.items[item.id].state
               && item.updatedAt >= t.items[item.id].updatedAt
    ensures OnlyAdds(t, IngestRow(t, item, source, requirements), feed, [record])
  {
    hide InsertRows;
    assert RecordKey(feed, [record][0]) == KeyOf(source);
  }

  lemma AddsCompose(a: Tables, b: Tables, c: Tables, feed: Feed, records: seq<FeedRecord>)
    requires records != [] && OnlyAdds(a, b, feed, [records[0]]) && OnlyAdds(b, c, feed, records[1..])
    ensures OnlyAdds(a, c, feed, records)
  {
    forall k | k in c.sources && k !in a.sources
      ensures Names(feed, records, k)
    {
      if k in b.sources {
        assert k == RecordKey(feed, records[0]);
      } else {
        var i :| 0 <= i < |records[1..]| && k == RecordKey(feed, records[1..][i]);
        assert k == RecordKey(feed, records[i + 1]);
      }
    }
  }

  lemma AddingKeepsStored(
      sha: Text -> Digest, t: Tables, t2: Tables, feed: Feed, records: seq<FeedRecord>, record: FeedRecord)
    requires OnlyAdds(t, t2, feed, records)
    ensures RecordStored(t, feed, record) ==> RecordStored(t2, feed, record)
    ensures StoredAccepted(sha, t, feed, record) ==> StoredAccepted(sha, t2, feed, record)
  {
    hide Accepted;
  }

  predicate AllAccepted(sha: Text -> Digest, t: Tables, feed: Feed, records: seq<FeedRecord>) {
    forall a :: 0 <= a < |records| ==> StoredAccepted(sha, t, feed, records[a])
  }

  predicate AllIdentifiers(records: seq<FeedRecord>) {
    forall a :: 0 <= a < |records| ==> IsIdentifier(records[a].sourceId)
  }

  /** What ingesting a group's records leaves behind: all of them stored, and the last one's item in hand. */
  lemma {:induction false} RecordsOutcome(
    sha: Text -> Digest, uuid: Text -> Uuid, w: Work, feed: Feed, key: Text, item: Option<Item>,
    records: seq<FeedRecord>)
    requires InStep(w, feed.project) && records != [] && AllIdentifiers(records)
    requires IngestRecords(sha, uuid, w, feed, key, item, records).Ok?
    ensures var (w2, item2) := IngestRecords(sha, uuid, w, feed, key, item, records).value;
            && InStep(w2, feed.project) && OnlyAdds(w.tables, w2.tables, feed, records)
            && AllAccepted(sha, w2.tables, feed, records)
            && item2 == Some(RecordItem(w2.tables, feed, records[|records| - 1])) && item2.value in w2.held.items
            && (if AllStored(w.tables, feed, records) then w2 == w else Size(w2.held) > Size(w.held))
    decreases |records|
  {
    hide InStep, IngestRecord, OnlyAdds, IsIdentifier, Size, StoredAccepted;
    var record, rest := records[0], records[1..];
    RecordOutcome(sha, uuid, w, feed, key, item, record);
    RecordKeepsInStep(sha, uuid, w, feed, key, item, record);
    RecordOnlyAdds(sha, uuid, w, feed, key, item, record);
    var (w1, item1) := IngestRecord(sha, uuid, w, feed, key, item, record).value;
    if rest == [] {
      assert records == [record];
    } else {
      RecordsOutcome(sha, uuid, w1, feed, key, Some(item1), rest);
      var w2 := IngestRecords(sha, uuid, w1, feed, key, Some(item1), rest).value.0;
      AddsCompose(w.tables, w1.tables, w2.tables, feed, records);
      AddingKeepsStored(sha, w1.tables, w2.tables, feed, rest, record);
      RestAccepted(sha, w2.tables, feed, records);
      StoredTogether(w.tables, feed, records);
    }
  }

  lemma RestAccepted(sha: Text -> Digest, t: Tables, feed: Feed, records: seq<FeedRecord>)
    requires records != []
    ensures AllAccepted(sha, t, feed, records)
            <==> StoredAccepted(sha, t, feed, records[0]) && AllAccepted(sha, t, feed, records[1..])
  {
    hide StoredAccepted;
    assert forall a :: 0 < a < |records| ==> records[a] == records[1..][a - 1];
  }

  lemma StoredTogether(t: Tables, feed: Feed, records: seq<FeedRecord>)
    requires records != []
    ensures AllStored(t, feed, records) <==> RecordStored(t, feed, records[0]) && AllStored(t, feed, records[1..])
  {
    hide RecordStored;
    assert forall a :: 0 < a < |records| ==> records[a] == records[1..][a - 1];
  }

  // ----- one group -----

  lemma StoredItemIsNamed(w: Work, feed: Feed, group: Group)
    requires InStep(w, feed.project) && group.records != [] && Stored(w.tables, feed, group)
    ensures StoredItem(w.tables, feed, group).id == w.tables.sources[RecordKey(feed, Last(group))].itemId
  {
    assert RecordStored(w.tables, feed, Last(group));
  }

  lemma EventSettles(feed: Feed, group: Group, state: ItemState, event: Event)
    requires group.records != [] && GroupEvent(feed, group, state) == Ok(Some(event)) && NextState(state, event).Ok?
    ensures NextState(state, event).value.Terminal? || Consistent(NextState(state, event).value, group.records[0])
  {
    hide ValidatedEvidence;
  }

  lemma MovedItem(w: Work, feed: Feed, group: Group, item: Item, event: Event)
    requires InStep(w, feed.project) && ShortStatus(feed) && group.records != []
    requires Stored(w.tables, feed, group) && StoredItem(w.tables, feed, group) == item && item in w.held.items
    requires item.Open()
    requires GroupEvent(feed, group, item.state) == Ok(Some(event)) && MoveItem(w, feed, item, event).Ok?
    requires NextState(item.state, event).Ok?
    ensures var w2 := MoveItem(w, feed, item, event).value;
            && InStep(w2, feed.project) && w2.tables.sources == w.tables.sources
            && Stored(w2.tables, feed, group) && Size(w2.held) > Size(w.held)
            && (StoredItem(w2.tables, feed, group).Open() ==>
                  Consistent(StoredItem(w2.tables, feed, group).state, group.records[0]))
  {
    hide InStep, Identifier, Timestamp, InsertRows, EvidenceRecords, NextState, EventEntries, Consistent, GroupEvent;
    assert RecordStored(w.tables, feed, Last(group));
    HeldItemHasItsRow(w, feed.project, item);
    StoredItemIsNamed(w, feed, group);
    EventSettles(feed, group, item.state, event);
    GroupEventHasShortKinds(feed, group, item.state);
    MoveKeepsInStep(w, feed, item, event);
  }

  /** What one group leaves behind: nothing if it is left out; else all its sources are stored with its content, and
      its item is closed or where the group wants it. */
  lemma GroupOutcome(sha: Text -> Digest, uuid: Text -> Uuid, w: Work, feed: Feed, group: Group)
    requires InStep(w, feed.project) && ShortStatus(feed) && DecodedGroup(group)
    requires ReconcileGroup(sha, uuid, w, feed, group).Ok?
    ensures var w2 := ReconcileGroup(sha, uuid, w, feed, group).value;
            && InStep(w2, feed.project)
            && (if LeftOut(w, feed, group) then w2 == w else
                  && Stored(w2.tables, feed, group)
                  && AllAccepted(sha, w2.tables, feed, group.records)
                  && (StoredItem(w2.tables, feed, group).Open() ==>
                        Consistent(StoredItem(w2.tables, feed, group).state, group.records[0])))
            && (w2 == w || Size(w2.held) > Size(w.held))
  {
    hide InStep, IngestRecords, MoveItem, IsIdentifier, LeftOut, Size, FindByPrefix, KnownItem, OnlyAdds,
         StoredAccepted, RecordStored;
    DecodedGroupWork(sha, uuid, w, feed, group);
    if !LeftOut(w, feed, group) {
      RecordsOutcome(sha, uuid, w, feed, group.key, KnownItem(w, feed, group), group.records);
      var (w2, item) := IngestRecords(sha, uuid, w, feed, group.key, KnownItem(w, feed, group), group.records).value;
      AcceptedAreStored(sha, w2.tables, feed, group.records);
      if !item.value.state.Terminal? { SettledOutcome(sha, w2, feed, group, item.value); }
    }
  }

  /** An open item is moved to where the group wants it, or is there already. */
  lemma SettledOutcome(sha: Text -> Digest, w: Work, feed: Feed, group: Group, item: Item)
    requires InStep(w, feed.project) && ShortStatus(feed) && group.records != [] && Stored(w.tables, feed, group)
    requires AllAccepted(sha, w.tables, feed, group.records)
    requires StoredItem(w.tables, feed, group) == item && item in w.held.items && item.Open()
    requires GroupEvent(feed, group, item.state).Ok?
    ensures var event := GroupEvent(feed, group, item.state).value;
            if event.None? then Consistent(item.state, group.records[0])
            else MoveItem(w, feed, item, event.value).Ok? ==>
                   var w2 := MoveItem(w, feed, item, event.value).value;
                   && InStep(w2, feed.project) && Stored(w2.tables, feed, group)
                   && AllAccepted(sha, w2.tables, feed, group.records) && Size(w2.held) > Size(w.held)
                   && (StoredItem(w2.tables, feed, group).Open() ==>
                         Consistent(StoredItem(w2.tables, feed, group).state, group.records[0]))
  {
    hide InStep, MoveItem, Size, AllAccepted, Stored, StoredItem;
    var event := GroupEvent(feed, group, item.state).value;
    HeldItemHasItsRow(w, feed.project, item);
    if event.Some? {
      if MoveItem(w, feed, item, event.value).Ok? {
        MoveIsPlanned(w, feed, item, event.value);
        MovedItem(w, feed, group, item, event.value);
        MoveKeepsAccepted(sha, w, feed, item, event.value, group.records);
      }
    } else if group.records[0].status.FeedBlocked? {
      HeldReasonIsTrimmed(w, feed.project, item);
      TrimIsExact(group.records[0].reason);
    }
  }

  lemma AcceptedAreStored(sha: Text -> Digest, t: Tables, feed: Feed, records: seq<FeedRecord>)
    requires AllAccepted(sha, t, feed, records)
    ensures AllStored(t, feed, records)
  {
    hide Accepted, RecordStored;
  }

  lemma MoveKeepsAccepted(sha: Text -> Digest, w: Work, feed: Feed, item: Item, event: Event, records: seq<FeedRecord>)
    requires AllAccepted(sha, w.tables, feed, records) && MoveItem(w, feed, item, event).Ok?
    requires item.id in w.tables.items && w.tables.items[item.id] == item
    ensures AllAccepted(sha, MoveItem(w, feed, item, event).value.tables, feed, records)
  {
    hide Accepted, Identifier, Timestamp, InsertRows, EvidenceRecords, Plan;
  }

  lemma MoveIsPlanned(w: Work, feed: Feed, item: Item, event: Event)
    requires MoveItem(w, feed, item, event).Ok?
    ensures NextState(item.state, event).Ok?
  {
  }

  lemma HeldReasonIsTrimmed(w: Work, project: Text, item: Item)
    requires InStep(w, project) && item.id in w.tables.items && w.tables.items[item.id] == item
    ensures ReasonTrimmed(item.state)
  {
  }

  // ----- what a group leaves alone -----

  /** Other groups' sources stay where they are; no item's state but the one this group settles changes, nor does its
      time go back, and closed items stay closed. */
  ghost predicate LeavesOthers(t: Tables, t2: Tables, feed: Feed, records: seq<FeedRecord>, itemId: Text) {
    && (forall k :: k in t.sources ==> k in t2.sources && t2.sources[k] == t.sources[k])
    && (forall k :: k in t2.sources && !Names(feed, records, k) ==> k in t.sources)
    && (forall id :: id in t.items ==> id in t2.items && t2.items[id].project == t.items[id].project)
    && (forall id :: id in t.items && id != itemId ==>
          t2.items[id].state == t.items[id].state && t2.items[id].updatedAt >= t.items[id].updatedAt)
    && (itemId in t.items && t2.items[itemId].Open() ==> t.items[itemId].Open())
  }

  lemma AddingLeavesOthers(t: Tables, t2: Tables, feed: Feed, records: seq<FeedRecord>, itemId: Text)
    requires OnlyAdds(t, t2, feed, records)
    ensures LeavesOthers(t, t2, feed, records, itemId)
  {
  }

  lemma MoveLeavesOthers(t: Tables, w: Work, feed: Feed, item: Item, event: Event, records: seq<FeedRecord>)
    requires OnlyAdds(t, w.tables, feed, records)
    requires item.id in w.tables.items && w.tables.items[item.id] == item && item.Open()
    requires MoveItem(w, feed, item, event).Ok?
    ensures LeavesOthers(t, MoveItem(w, feed, item, event).value.tables, feed, records, item.id)
  {
    hide NextState, Identifier, Timestamp, EventEntries, InsertRows, EvidenceRecords, Names;
  }

  lemma GroupLeavesOthers(sha: Text -> Digest, uuid: Text -> Uuid, w: Work, feed: Feed, group: Group)
    requires InStep(w, feed.project) && ShortStatus(feed) && DecodedGroup(group)
    requires ReconcileGroup(sha, uuid, w, feed, group).Ok? && !LeftOut(w, feed, group)
    ensures var w2 := ReconcileGroup(sha, uuid, w, feed, group).value;
            RecordKey(feed, Last(group)) in w2.tables.sources
            && LeavesOthers(w.tables, w2.tables, feed, group.records,
                w2.tables.sources[RecordKey(feed, Last(group))].itemId)
  {
    hide InStep, IngestRecords, IsIdentifier, LeftOut, FindByPrefix, KnownItem, LeavesOthers, GroupEvent, Size,
         OnlyAdds, StoredAccepted;
    DecodedGroupWork(sha, uuid, w, feed, group);
    RecordsOutcome(sha, uuid, w, feed, group.key, KnownItem(w, feed, group), group.records);
    var (w2, item) := IngestRecords(sha, uuid, w, feed, group.key, KnownItem(w, feed, group), group.records).value;
    AcceptedAreStored(sha, w2.tables, feed, group.records);
    StoredItemIsNamed(w2, feed, group);
    AddingLeavesOthers(w.tables, w2.tables, feed, group.records, item.value.id);
    if !item.value.state.Terminal? {
      var event := GroupEvent(feed, group, item.value.state).value;
      if event.Some? {
        HeldItemHasItsRow(w2, feed.project, item.value);
        MoveLeavesOthers(w.tables, w2, feed, item.value, event.value, group.records);
      }
    }
  }

  // ----- after the first run -----

  function ItemIdOf(t: Tables, feed: Feed, group: Group): Text
    requires group.records != [] && Stored(t, feed, group)
  {
    assert RecordStored(t, feed, Last(group));
    t.sources[RecordKey(feed, Last(group))].itemId
  }

  /** Group j stands behind group i's item: the item is where group j wants it. */
  predicate Settler(t: Tables, feed: Feed, i: nat, j: nat)
    requires Decoded(feed) && i < |feed.groups| && j < |feed.groups|
  {
    assert DecodedGroup(feed.groups[i]) && DecodedGroup(feed.groups[j]);
    && Stored(t, feed, feed.groups[i]) && Stored(t, feed, feed.groups[j])
    && ItemIdOf(t, feed, feed.groups[i]) == ItemIdOf(t, feed, feed.groups[j])
    && Consistent(StoredItem(t, feed, feed.groups[j]).state, feed.groups[j].records[0])
  }

  ghost predicate HasSettler(t: Tables, feed: Feed, i: nat, n: nat)
    requires Decoded(feed) && i < n <= |feed.groups|
  {
    exists j :: 0 <= j < n && Settler(t, feed, i, j)
  }

  ghost predicate GroupDone(sha: Text -> Digest, t: Tables, feed: Feed, i: nat, n: nat)
    requires Decoded(feed) && i < n <= |feed.groups|
  {
    var group := feed.groups[i];
    assert DecodedGroup(group);
    if Stored(t, feed, group) then
      && AllAccepted(sha, t, feed, group.records)
      && (StoredItem(t, feed, group).Open() ==> HasSettler(t, feed, i, n))
    else group.records[0].status.Closed()
  }

  lemma OthersAreKept(
    sha: Text -> Digest, t: Tables, t2: Tables, feed: Feed, g: Group, h: Group, itemId: Text)
    requires LeavesOthers(t, t2, feed, g.records, itemId) && h.records != [] && (Apart(g, h) || Apart(h, g))
    requires forall k :: k in t.sources ==> t.sources[k].itemId in t.items
    ensures Stored(t, feed, h) <==> Stored(t2, feed, h)
    ensures AllAccepted(sha, t, feed, h.records) ==> AllAccepted(sha, t2, feed, h.records)
    ensures Stored(t, feed, h) ==> ItemIdOf(t, feed, h) == ItemIdOf(t2, feed, h)
    ensures Stored(t, feed, h) && ItemIdOf(t, feed, h) != itemId ==>
              StoredItem(t, feed, h).state == StoredItem(t2, feed, h).state
    ensures Stored(t, feed, h) && StoredItem(t2, feed, h).Open() ==> StoredItem(t, feed, h).Open()
  {
    hide Accepted;
    forall a | 0 <= a < |h.records|
      ensures !Names(feed, g.records, RecordKey(feed, h.records[a]))
    {
    }
    if Stored(t2, feed, h) {
      forall a | 0 <= a < |h.records|
        ensures RecordStored(t, feed, h.records[a])
      {
        assert RecordStored(t2, feed, h.records[a]);
      }
    }
    assert Stored(t, feed, h) ==> RecordStored(t, feed, Last(h));
  }

  lemma EarlierGroupStaysDone(
    sha: Text -> Digest, uuid: Text -> Uuid, w: Work, feed: Feed, i: nat, n: nat)
    requires InStep(w, feed.project) && ShortStatus(feed) && Decoded(feed) && i < n < |feed.groups|
    requires ReconcileGroup(sha, uuid, w, feed, feed.groups[n]).Ok? && !LeftOut(w, feed, feed.groups[n])
    requires GroupDone(sha, w.tables, feed, i, n)
    ensures GroupDone(sha, ReconcileGroup(sha, uuid, w, feed, feed.groups[n]).value.tables, feed, i, n + 1)
  {
    hide InStep, ReconcileGroup, LeftOut, Consistent, DecodedGroup, Apart, AllAccepted, Stored, StoredItem,
         LeavesOthers;
    var g, h := feed.groups[n], feed.groups[i];
    assert DecodedGroup(g) && DecodedGroup(h) && Apart(h, g);
    assert g.records != [] && h.records != [] by { GroupHasRecords(g); GroupHasRecords(h); }
    var t, t2 := w.tables, ReconcileGroup(sha, uuid, w, feed, g).value.tables;
    GroupOutcome(sha, uuid, w, feed, g);
    GroupLeavesOthers(sha, uuid, w, feed, g);
    SourcesNameItems(w, feed.project);
    var itemId := ItemIdOf(t2, feed, g);
    OthersAreKept(sha, t, t2, feed, g, h, itemId);
    if Stored(t2, feed, h) && StoredItem(t2, feed, h).Open() {
      if ItemIdOf(t2, feed, h) == itemId {
        SameItem(t2, feed, h, g);
        assert Settler(t2, feed, i, n);
      } else {
        assert HasSettler(t, feed, i, n);
        var j :| 0 <= j < n && Settler(t, feed, i, j);
        assert DecodedGroup(feed.groups[j]) && Apart(feed.groups[j], g);
        GroupHasRecords(feed.groups[j]);
        OthersAreKept(sha, t, t2, feed, g, feed.groups[j], itemId);
        assert Settler(t2, feed, i, j);
      }
    }
  }

  lemma GroupHasRecords(group: Group)
    requires DecodedGroup(group)
    ensures group.records != []
  {
  }

  lemma SameItem(t: Tables, feed: Feed, g: Group, h: Group)
    requires g.records != [] && h.records != [] && Stored(t, feed, g) && Stored(t, feed, h)
    requires ItemIdOf(t, feed, g) == ItemIdOf(t, feed, h)
    ensures StoredItem(t, feed, g) == StoredItem(t, feed, h)
  {
  }

  lemma SourcesNameItems(w: Work, project: Text)
    requires InStep(w, project)
    ensures forall k :: k in w.tables.sources ==> w.tables.sources[k].itemId in w.tables.items
  {
  }

  lemma StoredTakesPrefix(t: Tables, feed: Feed, group: Group)
    requires DecodedGroup(group) && Stored(t, feed, group)
    ensures PrefixTaken(t, feed, group)
  {
    hide IsIdentifier, StartsWith;
    assert RecordStored(t, feed, group.records[0]);
    assert RecordKey(feed, group.records[0]) in t.sources;
  }

  lemma LastGroupIsDone(sha: Text -> Digest, uuid: Text -> Uuid, w: Work, feed: Feed, n: nat)
    requires InStep(w, feed.project) && ShortStatus(feed) && Decoded(feed) && n < |feed.groups|
    requires ReconcileGroup(sha, uuid, w, feed, feed.groups[n]).Ok?
    ensures GroupDone(sha, ReconcileGroup(sha, uuid, w, feed, feed.groups[n]).value.tables, feed, n, n + 1)
  {
    hide InStep, ReconcileGroup, Consistent, DecodedGroup, AllAccepted, Stored, StoredItem, PrefixTaken;
    var g := feed.groups[n];
    assert DecodedGroup(g);
    GroupHasRecords(g);
    var t2 := ReconcileGroup(sha, uuid, w, feed, g).value.tables;
    GroupOutcome(sha, uuid, w, feed, g);
    if LeftOut(w, feed, g) {
      HeldPrefix(w, feed, g);
      if Stored(w.tables, feed, g) { StoredTakesPrefix(w.tables, feed, g); }
    } else if StoredItem(t2, feed, g).Open() {
      assert Settler(t2, feed, n, n);
    }
  }

  /** After a run every stored group's item is closed or where some group of that item wants it; any other group was
      closed from the start. */
  lemma {:induction false} GroupsAreDone(sha: Text -> Digest, uuid: Text -> Uuid, w: Work, feed: Feed, n: nat)
    requires InStep(w, feed.project) && ShortStatus(feed) && Decoded(feed) && n <= |feed.groups|
    requires ReconcileGroups(sha, uuid, w, feed, feed.groups[..n]).Ok?
    ensures var w2 := ReconcileGroups(sha, uuid, w, feed, feed.groups[..n]).value;
            forall i :: 0 <= i < n ==> GroupDone(sha, w2.tables, feed, i, n)
  {
    hide InStep, ReconcileGroup, Decoded, LeftOut, GroupDone;
    if n > 0 {
      var front := feed.groups[..n][..n - 1];
      assert front == feed.groups[..n - 1];
      GroupsAreDone(sha, uuid, w, feed, n - 1);
      GroupsKeepInStep(sha, uuid, w, feed, front);
      var w1 := ReconcileGroups(sha, uuid, w, feed, front).value;
      assert feed.groups[..n][n - 1] == feed.groups[n - 1];
      var done := ReconcileGroup(sha, uuid, w1, feed, feed.groups[n - 1]).value.tables;
      forall i | 0 <= i < n
        ensures GroupDone(sha, done, feed, i, n)
      {
        StepKeepsDone(sha, uuid, w1, feed, i, n - 1);
      }
    }
  }

  lemma StepKeepsDone(sha: Text -> Digest, uuid: Text -> Uuid, w: Work, feed: Feed, i: nat, n: nat)
    requires InStep(w, feed.project) && ShortStatus(feed) && Decoded(feed) && i <= n < |feed.groups|
    requires ReconcileGroup(sha, uuid, w, feed, feed.groups[n]).Ok?
    requires i < n ==> GroupDone(sha, w.tables, feed, i, n)
    ensures GroupDone(sha, ReconcileGroup(sha, uuid, w, feed, feed.groups[n]).value.tables, feed, i, n + 1)
  {
    hide InStep, GroupDone, ReconcileGroup, DecodedGroup, Apart;
    assert DecodedGroup(feed.groups[n]);
    GroupHasRecords(feed.groups[n]);
    if i == n {
      LastGroupIsDone(sha, uuid, w, feed, n);
    } else if LeftOut(w, feed, feed.groups[n]) {
      DecodedGroupWork(sha, uuid, w, feed, feed.groups[n]);
      MoreMaySettle(sha, w.tables, feed, i, n);
    } else {
      EarlierGroupStaysDone(sha, uuid, w, feed, i, n);
    }
  }

  lemma MoreMaySettle(sha: Text -> Digest, t: Tables, feed: Feed, i: nat, n: nat)
    requires Decoded(feed) && i < n < |feed.groups| && GroupDone(sha, t, feed, i, n)
    ensures GroupDone(sha, t, feed, i, n + 1)
  {
    hide AllAccepted, Settler, Stored, Apart, StoredItem;
    var group := feed.groups[i];
    assert DecodedGroup(group);
    if Stored(t, feed, group) && StoredItem(t, feed, group).Open() {
      assert HasSettler(t, feed, i, n);
      var j :| 0 <= j < n && Settler(t, feed, i, j);
    }
  }

  // ----- the second run -----

  /** The group's second turn does nothing: it is left out again, or its stored item already agrees with it. */
  ghost predicate Quiet(sha: Text -> Digest, t: Tables, feed: Feed, group: Group)
    requires group.records != []
  {
    if Stored(t, feed, group) then
      && AllAccepted(sha, t, feed, group.records)
      && (StoredItem(t, feed, group).Open() ==>
            GroupEvent(feed, group, StoredItem(t, feed, group).state) == Ok(None))
    else group.records[0].status.Closed() && !PrefixTaken(t, feed, group)
  }

  lemma AcceptedAgain(
    sha: Text -> Digest, uuid: Text -> Uuid, w: Work, feed: Feed, key: Text, item: Option<Item>, record: FeedRecord)
    requires InStep(w, feed.project) && IsIdentifier(record.sourceId) && StoredAccepted(sha, w.tables, feed, record)
    requires item.Some? && IsIdentifier(item.value.id)
    ensures IngestRecord(sha, uuid, w, feed, key, item, record) == Ok((w, RecordItem(w.tables, feed, record)))
    ensures IsIdentifier(RecordItem(w.tables, feed, record).id)
  {
    hide LedgerSound, Represents, Ingest, Accepted, IsIdentifier;
    HeldSource(w, feed, record);
    AcceptedIsIngested(sha, uuid, w.held, feed, key, item, record);
    HeldItemIsIdentifier(w, feed, record);
  }

  lemma HeldItemIsIdentifier(w: Work, feed: Feed, record: FeedRecord)
    requires InStep(w, feed.project) && RecordStored(w.tables, feed, record)
    ensures IsIdentifier(RecordItem(w.tables, feed, record).id)
    ensures RecordItem(w.tables, feed, record).project == feed.project
  {
    hide IsIdentifier;
  }

  /** Records stored with this content are ingested again without a trace. */
  lemma {:induction false} RecordsAgain(
    sha: Text -> Digest, uuid: Text -> Uuid, w: Work, feed: Feed, key: Text, item: Option<Item>,
    records: seq<FeedRecord>)
    requires InStep(w, feed.project) && records != [] && AllIdentifiers(records)
    requires AllAccepted(sha, w.tables, feed, records)
    requires item.Some? && IsIdentifier(item.value.id)
    ensures StoredAccepted(sha, w.tables, feed, records[|records| - 1])
    ensures IngestRecords(sha, uuid, w, feed, key, item, records)
            == Ok((w, Some(RecordItem(w.tables, feed, records[|records| - 1]))))
    decreases |records|
  {
    hide InStep, IngestRecord, IsIdentifier, Accepted;
    assert StoredAccepted(sha, w.tables, feed, records[0]);
    AcceptedAgain(sha, uuid, w, feed, key, item, records[0]);
    if |records| > 1 {
      RestAccepted(sha, w.tables, feed, records);
      RecordsAgain(sha, uuid, w, feed, key, Some(RecordItem(w.tables, feed, records[0])), records[1..]);
    } else {
      assert records[1..] == [];
    }
  }

  /** A quiet group is reconciled again without a trace, whatever order the rows are read in. */
  lemma QuietGroupAgain(sha: Text -> Digest, uuid: Text -> Uuid, w: Work, feed: Feed, group: Group)
    requires InStep(w, feed.project) && DecodedGroup(group) && Quiet(sha, w.tables, feed, group)
    ensures ReconcileGroup(sha, uuid, w, feed, group) == Ok(w)
  {
    hide InStep, IngestRecords, ReconcileGroup, GroupEvent, MoveItem, IsIdentifier, StartsWith, AllAccepted, Stored,
         PrefixTaken, FindByPrefix, FindItem;
    DecodedGroupWork(sha, uuid, w, feed, group);
    HeldPrefix(w, feed, group);
    if Stored(w.tables, feed, group) {
      StoredTakesPrefix(w.tables, feed, group);
      RecordsAgain(sha, uuid, w, feed, group.key, KnownItem(w, feed, group), group.records);
    }
  }

  /** Conversely, a group that leaves no trace is quiet. */
  lemma TracelessGroupIsQuiet(sha: Text -> Digest, uuid: Text -> Uuid, w: Work, feed: Feed, group: Group)
    requires InStep(w, feed.project) && ShortStatus(feed) && DecodedGroup(group)
    requires ReconcileGroup(sha, uuid, w, feed, group) == Ok(w)
    ensures Quiet(sha, w.tables, feed, group)
  {
    hide InStep, IngestRecords, MoveItem, GroupEvent, IsIdentifier, Consistent, Size, StartsWith, AllAccepted,
         PrefixTaken, OnlyAdds, RecordStored;
    DecodedGroupWork(sha, uuid, w, feed, group);
    HeldPrefix(w, feed, group);
    if LeftOut(w, feed, group) {
      if Stored(w.tables, feed, group) { StoredTakesPrefix(w.tables, feed, group); }
    } else {
      RecordsOutcome(sha, uuid, w, feed, group.key, KnownItem(w, feed, group), group.records);
      var (w2, item) := IngestRecords(sha, uuid, w, feed, group.key, KnownItem(w, feed, group), group.records).value;
      AcceptedAreStored(sha, w2.tables, feed, group.records);
      if !item.value.state.Terminal? {
        var event := GroupEvent(feed, group, item.value.state).value;
        if event.Some? {
          MoveIsPlanned(w2, feed, item.value, event.value);
          MovedItem(w2, feed, group, item.value, event.value);
        }
      }
    }
  }

  lemma {:induction false} QuietGroupsAgain(sha: Text -> Digest, uuid: Text -> Uuid, w: Work, feed: Feed, n: nat)
    requires InStep(w, feed.project) && Decoded(feed) && n <= |feed.groups|
    requires AllQuiet(sha, w.tables, feed, |feed.groups|)
    ensures ReconcileGroups(sha, uuid, w, feed, feed.groups[..n]) == Ok(w)
  {
    hide InStep, ReconcileGroup, Quiet, DecodedGroup, Apart;
    if n > 0 {
      assert feed.groups[..n][..n - 1] == feed.groups[..n - 1];
      assert feed.groups[..n][n - 1] == feed.groups[n - 1];
      QuietGroupsAgain(sha, uuid, w, feed, n - 1);
      assert DecodedGroup(feed.groups[n - 1]);
      GroupHasRecords(feed.groups[n - 1]);
      QuietGroupAgain(sha, uuid, w, feed, feed.groups[n - 1]);
    }
  }

  ghost predicate AllQuiet(sha: Text -> Digest, t: Tables, feed: Feed, n: nat)
    requires Decoded(feed) && n <= |feed.groups|
  {
    assert forall i :: 0 <= i < |feed.groups| ==> DecodedGroup(feed.groups[i]);
    forall i :: 0 <= i < n ==> Quiet(sha, t, feed, feed.groups[i])
  }

  /** The held ledger only grows, so a run that ends where it began never left. */
  lemma {:induction false} GroupsGrow(sha: Text -> Digest, uuid: Text -> Uuid, w: Work, feed: Feed, n: nat)
    requires InStep(w, feed.project) && ShortStatus(feed) && Decoded(feed) && n <= |feed.groups|
    requires ReconcileGroups(sha, uuid, w, feed, feed.groups[..n]).Ok?
    ensures var w2 := ReconcileGroups(sha, uuid, w, feed, feed.groups[..n]).value;
            w2 == w || Size(w2.held) > Size(w.held)
  {
    hide InStep, ReconcileGroup, Size, DecodedGroup, Apart, Consistent, LeftOut, AllAccepted, Stored;
    if n > 0 {
      assert feed.groups[..n][..n - 1] == feed.groups[..n - 1];
      assert feed.groups[..n][n - 1] == feed.groups[n - 1];
      GroupsGrow(sha, uuid, w, feed, n - 1);
      GroupsKeepInStep(sha, uuid, w, feed, feed.groups[..n - 1]);
      assert DecodedGroup(feed.groups[n - 1]);
      GroupGrows(sha, uuid, ReconcileGroups(sha, uuid, w, feed, feed.groups[..n - 1]).value, feed, feed.groups[n - 1]);
    }
  }

  lemma GroupGrows(sha: Text -> Digest, uuid: Text -> Uuid, w: Work, feed: Feed, group: Group)
    requires InStep(w, feed.project) && ShortStatus(feed) && DecodedGroup(group)
    requires ReconcileGroup(sha, uuid, w, feed, group).Ok?
    ensures var w2 := ReconcileGroup(sha, uuid, w, feed, group).value;
            InStep(w2, feed.project) && (w2 == w || Size(w2.held) > Size(w.held))
  {
    hide InStep, ReconcileGroup, Size, Consistent, LeftOut, AllAccepted, Stored, StoredItem;
    GroupOutcome(sha, uuid, w, feed, group);
  }

  lemma {:induction false} TracelessGroupsAreQuiet(sha: Text -> Digest, uuid: Text -> Uuid, w: Work, feed: Feed, n: nat)
    requires InStep(w, feed.project) && ShortStatus(feed) && Decoded(feed) && n <= |feed.groups|
    requires ReconcileGroups(sha, uuid, w, feed, feed.groups[..n]) == Ok(w)
    ensures AllQuiet(sha, w.tables, feed, n)
  {
    hide InStep, ReconcileGroup, Size, DecodedGroup, Apart, Quiet;
    if n > 0 {
      assert feed.groups[..n][..n - 1] == feed.groups[..n - 1];
      assert feed.groups[..n][n - 1] == feed.groups[n - 1];
      GroupsGrow(sha, uuid, w, feed, n - 1);
      GroupsKeepInStep(sha, uuid, w, feed, feed.groups[..n - 1]);
      var w1 := ReconcileGroups(sha, uuid, w, feed, feed.groups[..n - 1]).value;
      assert DecodedGroup(feed.groups[n - 1]);
      GroupHasRecords(feed.groups[n - 1]);
      GroupGrows(sha, uuid, w1, feed, feed.groups[n - 1]);
      assert w1 == w;
      TracelessGroupsAreQuiet(sha, uuid, w, feed, n - 1);
      TracelessGroupIsQuiet(sha, uuid, w, feed, feed.groups[n - 1]);
    }
  }

  lemma DoneAndAgreeingIsQuiet(sha: Text -> Digest, t: Tables, feed: Feed, i: nat)
    requires Decoded(feed) && i < |feed.groups| && Agreeing(t, feed)
    requires GroupDone(sha, t, feed, i, |feed.groups|)
    ensures feed.groups[i].records != [] && Quiet(sha, t, feed, feed.groups[i])
  {
    hide AllAccepted, PrefixTaken, Stored, StoredItem, Apart, IsIdentifier, StartsWith, Trimmed;
    var group := feed.groups[i];
    assert DecodedGroup(group);
    if Stored(t, feed, group) && StoredItem(t, feed, group).Open() {
      assert HasSettler(t, feed, i, |feed.groups|);
      var j :| 0 <= j < |feed.groups| && Settler(t, feed, i, j);
      assert DecodedGroup(feed.groups[j]);
      SameItem(t, feed, group, feed.groups[j]);
      assert SameDemand(group.records[0], feed.groups[j].records[0]);
      TrimIsExact(group.records[0].reason);
    }
  }

  lemma QuietAgrees(sha: Text -> Digest, w: Work, feed: Feed)
    requires InStep(w, feed.project) && Decoded(feed) && AllQuiet(sha, w.tables, feed, |feed.groups|)
    ensures Agreeing(w.tables, feed)
  {
    hide AllAccepted, PrefixTaken, InStep, Stored, StoredItem, Apart, IsIdentifier, StartsWith;
    assert forall i :: 0 <= i < |feed.groups| ==> DecodedGroup(feed.groups[i]);
    forall i | 0 <= i < |feed.groups| && Stored(w.tables, feed, feed.groups[i])
      && StoredItem(w.tables, feed, feed.groups[i]).Open() && feed.groups[i].records[0].status.FeedBlocked?
      ensures Trimmed(feed.groups[i].records[0].reason)
    {
      assert Quiet(sha, w.tables, feed, feed.groups[i]);
      StoredReasonIsTrimmed(w, feed, feed.groups[i]);
    }
    forall i, j | 0 <= i < |feed.groups| && 0 <= j < |feed.groups|
      && Stored(w.tables, feed, feed.groups[i]) && Stored(w.tables, feed, feed.groups[j])
      && StoredItem(w.tables, feed, feed.groups[i]) == StoredItem(w.tables, feed, feed.groups[j])
      && StoredItem(w.tables, feed, feed.groups[i]).Open()
      ensures SameDemand(feed.groups[i].records[0], feed.groups[j].records[0])
    {
      assert Quiet(sha, w.tables, feed, feed.groups[i]) && Quiet(sha, w.tables, feed, feed.groups[j]);
    }
    forall i | 0 <= i < |feed.groups| && !Stored(w.tables, feed, feed.groups[i])
      ensures !PrefixTaken(w.tables, feed, feed.groups[i])
    {
      assert Quiet(sha, w.tables, feed, feed.groups[i]);
    }
  }

  lemma StoredReasonIsTrimmed(w: Work, feed: Feed, group: Group)
    requires InStep(w, feed.project) && group.records != [] && Stored(w.tables, feed, group)
    ensures ReasonTrimmed(StoredItem(w.tables, feed, group).state)
  {
    hide InStep;
    assert RecordStored(w.tables, feed, Last(group));
    StoredItemIsNamed(w, feed, group);
    HeldReasonIsTrimmed(w, feed.project, StoredItem(w.tables, feed, group));
  }

  /** Reconciling the same decoded snapshot again, read in any row order and with any fresh identifiers, changes
      nothing exactly when the project still loads and the groups agree on the stored state. */
  lemma SecondRunChangesNothingIff(
    sha: Text -> Digest, uuid: Text -> Uuid, uuid2: Text -> Uuid, before: Tables, st: Backlog, feed: Feed,
    reloaded: Backlog)
    requires LedgerSound(before) && Represents(before, feed.project, st) && ShortStatus(feed) && Decoded(feed)
    requires ReconcileStep(sha, uuid, before, st, feed).Ok?
    requires Represents(ReconcileStep(sha, uuid, before, st, feed).value.0, feed.project, reloaded)
    ensures var t := ReconcileStep(sha, uuid, before, st, feed).value.0;
            ReconcileStep(sha, uuid2, t, reloaded, feed) == Ok((t, reloaded))
            <==> Loadable(t, feed.project) && Agreeing(t, feed)
  {
    hide ReconcileGroup, AllQuiet, Represents, LedgerSound, Agreeing, GroupDone, DecodedGroup, Apart, Loadable;
    var n := |feed.groups|;
    var w := Work(before, st);
    assert feed.groups[..n] == feed.groups;
    GroupsKeepInStep(sha, uuid, w, feed, feed.groups);
    var t := ReconcileGroups(sha, uuid, w, feed, feed.groups).value.tables;
    var again := Work(t, reloaded);
    GroupsAreDone(sha, uuid, w, feed, n);
    if Agreeing(t, feed) {
      AgreeingIsQuiet(sha, t, feed);
      QuietGroupsAgain(sha, uuid2, again, feed, n);
    }
    if ReconcileGroups(sha, uuid2, again, feed, feed.groups) == Ok(again) {
      TracelessGroupsAreQuiet(sha, uuid2, again, feed, n);
      QuietAgrees(sha, again, feed);
    }
  }

  lemma AgreeingIsQuiet(sha: Text -> Digest, t: Tables, feed: Feed)
    requires Decoded(feed) && Agreeing(t, feed)
    requires forall i :: 0 <= i < |feed.groups| ==> GroupDone(sha, t, feed, i, |feed.groups|)
    ensures AllQuiet(sha, t, feed, |feed.groups|)
  {
    hide Decoded, Agreeing, GroupDone, Quiet;
    forall i | 0 <= i < |feed.groups|
      ensures feed.groups[i].records != [] && Quiet(sha, t, feed, feed.groups[i])
    {
      DoneAndAgreeingIsQuiet(sha, t, feed, i);
    }
  }
}
