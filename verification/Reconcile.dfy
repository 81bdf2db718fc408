/** Reconciling a snapshot of external work - a canonical backlog or a branch's todos - with the ledger,
    group by group, and what reconciling it again does (sqlite-store.ts). */
module Reconcile {
  import opened Wrappers
  import opened Texts
  import opened Ledger
  import opened Tables
  import opened Invariants
  import opened Evolution
  import opened Refinement
  import opened Registry
  import opened Soundness

  /** A status as the snapshot spells it: ready, pending, in_progress, in_review and deferred all ask for open work. */
  datatype FeedStatus = FeedOpen(spelling: Text) | FeedBlocked | FeedCompleted | FeedCancelled {
    predicate Closed() { FeedCompleted? || FeedCancelled? }
  }

  datatype FeedRecord = FeedRecord(
    sourceId: Text, requirements: seq<Text>, priority: Priority, status: FeedStatus, reason: Text)

  /** The records of one external item; its sources are recognised by a common prefix. */
  datatype Group = Group(prefix: Text, key: Text, ref: Text, records: seq<FeedRecord>)

  datatype Feed = Feed(
    project: Text, kind: SourceKind, actor: Text, statusKind: Text, observedAt: int, groups: seq<Group>)

  // ----- snapshots as feeds -----

  /** Records grouped by identifier, groups and records in order of first appearance. */
  function Regroup(records: seq<(Text, FeedRecord)>): (groups: seq<(Text, seq<FeedRecord>)>)
    ensures forall i :: 0 <= i < |groups| ==> groups[i].1 != []
  {
    if records == [] then []
    else AddTo(Regroup(records[..|records| - 1]), records[|records| - 1].0, records[|records| - 1].1)
  }

  function AddTo(groups: seq<(Text, seq<FeedRecord>)>, id: Text, record: FeedRecord)
    : (r: seq<(Text, seq<FeedRecord>)>)
    requires forall i :: 0 <= i < |groups| ==> groups[i].1 != []
    ensures forall i :: 0 <= i < |r| ==> r[i].1 != []
    ensures (forall i :: 0 <= i < |groups| ==> groups[i].0 != id) ==> r == groups + [(id, [record])]
  {
    if groups == [] then [(id, [record])]
    else if groups[0].0 == id then [(id, groups[0].1 + [record])] + groups[1..]
    else
      var rest := AddTo(groups[1..], id, record);
      assert (forall i :: 0 <= i < |groups| ==> groups[i].0 != id) ==>
          [groups[0]] + (groups[1..] + [(id, [record])]) == groups + [(id, [record])];
      [groups[0]] + rest
  }

  /** Distinct identifiers, as decoding requires, give one group per record, in order. */
  lemma {:induction false} RegroupDistinct(records: seq<(Text, FeedRecord)>)
    requires forall i, j :: 0 <= i < j < |records| ==> records[i].0 != records[j].0
    ensures |Regroup(records)| == |records|
    ensures forall i :: 0 <= i < |records| ==> Regroup(records)[i] == (records[i].0, [records[i].1])
  {
    hide AddTo;
    if records != [] {
      var front, last := records[..|records| - 1], records[|records| - 1];
      RegroupDistinct(front);
      assert forall i :: 0 <= i < |front| ==> Regroup(front)[i].0 == records[i].0;
      assert Regroup(records) == Regroup(front) + [(last.0, [last.1])];
    }
  }

  /** A canonical backlog snapshot: sources are scope:item:..., the key also names the source kind. */
  function CanonicalFeed(
    project: Text, kind: SourceKind, scopeId: Text, observedAt: int, records: seq<(Text, FeedRecord)>): Feed
  {
    CanonicalGroups(project, kind, scopeId, observedAt, Regroup(records))
  }

  function CanonicalGroups(
    project: Text, kind: SourceKind, scopeId: Text, observedAt: int, grouped: seq<(Text, seq<FeedRecord>)>): Feed
  {
    Feed(project, kind, KindName(kind) + Ascii("-adapter"), KindName(kind) + Ascii("-status"), observedAt,
         seq(|grouped|, i requires 0 <= i < |grouped| =>
           var ref := scopeId + [COLON] + grouped[i].0;
           Group(ref + [COLON], KindName(kind) + [COLON] + ref, ref, grouped[i].1)))
  }

  /** A branch-todo snapshot: sources are item:..., and the item identifier is the key. */
  function BranchTodoFeed(project: Text, observedAt: int, records: seq<(Text, FeedRecord)>): Feed {
    BranchTodoGroups(project, observedAt, Regroup(records))
  }

  function BranchTodoGroups(project: Text, observedAt: int, grouped: seq<(Text, seq<FeedRecord>)>): Feed {
    Feed(project, BranchTodo, Ascii("branch-todo-adapter"), Ascii("branch-todo-status"), observedAt,
         seq(|grouped|, i requires 0 <= i < |grouped| =>
           Group(grouped[i].0 + [COLON], grouped[i].0, grouped[i].0, AtNormalPriority(grouped[i].1))))
  }

  function AtNormalPriority(records: seq<FeedRecord>): seq<FeedRecord> {
    seq(|records|, i requires 0 <= i < |records| => records[i].(priority := Normal))
  }

  predicate ShortStatus(feed: Feed) { |feed.statusKind| <= 128 }

  lemma SnapshotsHaveShortStatus(
    project: Text, kind: SourceKind, scopeId: Text, observedAt: int, records: seq<(Text, FeedRecord)>)
    ensures ShortStatus(CanonicalFeed(project, kind, scopeId, observedAt, records))
    ensures ShortStatus(BranchTodoFeed(project, observedAt, records))
  {
    hide Regroup;
    KindShapeIsRight(kind);
  }

  /** Branch todos as their decoder admits them: distinct sources under their identifiers; the pages of one todo agree
      on its status and reason. */
  predicate DecodedTodos(records: seq<(Text, FeedRecord)>) {
    && (forall i :: 0 <= i < |records| ==>
          IsIdentifier(records[i].1.sourceId) && StartsWith(records[i].1.sourceId, records[i].0 + [COLON]))
    && (forall i, j :: 0 <= i < j < |records| ==> records[i].1.sourceId != records[j].1.sourceId)
    && (forall i, j :: 0 <= i < j < |records| && records[i].0 == records[j].0 ==>
          records[i].1.status == records[j].1.status && records[i].1.reason == records[j].1.reason)
  }

  /** A snapshot as the decoder admits it: distinct canonical ids, distinct sources under scope and id. */
  predicate DecodedSnapshot(scopeId: Text, records: seq<(Text, FeedRecord)>) {
    && (forall i :: 0 <= i < |records| ==>
          IsIdentifier(records[i].1.sourceId)
          && StartsWith(records[i].1.sourceId, scopeId + [COLON] + records[i].0 + [COLON]))
    && (forall i, j :: 0 <= i < j < |records| ==>
          records[i].0 != records[j].0 && records[i].1.sourceId != records[j].1.sourceId)
  }

  // ----- the reconcile loop -----

  function FindByPrefix(sources: seq<Source>, kind: SourceKind, prefix: Text): (r: Option<Source>)
    ensures r.Some? ==> r.value in sources && r.value.kind == kind && StartsWith(r.value.id, prefix)
    ensures r.None? ==> forall s :: s in sources ==> !(s.kind == kind && StartsWith(s.id, prefix))
  {
    if sources == [] then None
    else if sources[0].kind == kind && StartsWith(sources[0].id, prefix) then Some(sources[0])
    else FindByPrefix(sources[1..], kind, prefix)
  }

  datatype Work = Work(tables: Tables, held: Backlog)

  function RecordInput(feed: Feed, uuid: Text -> Uuid, key: Text, item: Option<Item>, record: FeedRecord): IngestInput {
    IngestInput(uuid(record.sourceId), feed.project, feed.kind, record.sourceId, feed.observedAt, record.priority,
                record.requirements, RoutingOnly,
                if item.Some? then ItemId(item.value.id) else CanonicalKey(key), StartReady)
  }

  ghost function IngestRecord(
    sha: Text -> Digest, uuid: Text -> Uuid, w: Work, feed: Feed, key: Text, item: Option<Item>, record: FeedRecord)
    : Result<(Work, Item), RegistryError>
  {
    var r :- Domain(Ingest(sha, w.held, RecordInput(feed, uuid, key, item, record)));
    var t :- IngestStep(w.tables, w.held, r);
    Ok((Work(t, r.state), r.item))
  }

  ghost function IngestRecords(
    sha: Text -> Digest, uuid: Text -> Uuid, w: Work, feed: Feed, key: Text, item: Option<Item>,
    records: seq<FeedRecord>)
    : Result<(Work, Option<Item>), RegistryError>
    decreases |records|
  {
    if records == [] then Ok((w, item)) else
      var (w2, item2) :- IngestRecord(sha, uuid, w, feed, key, item, records[0]);
      IngestRecords(sha, uuid, w2, feed, key, Some(item2), records[1..])
  }

  function Closing(feed: Feed, group: Group, outcome: Outcome): Event {
    Event.Reconcile(outcome, [Evidence(feed.statusKind, group.ref)])
  }

  /** The event that brings an open item to the group's status, if it is not there yet. */
  function GroupEvent(feed: Feed, group: Group, state: ItemState): Result<Option<Event>, RegistryError>
    requires group.records != []
  {
    match group.records[0].status
    case FeedCompleted => Ok(Some(Closing(feed, group, Outcome.Completed)))
    case FeedCancelled => Ok(Some(Closing(feed, group, Outcome.Cancelled)))
    case FeedBlocked =>
      if group.records[0].reason == [] then Err(Invalid)
      else Ok(if state == Blocked(group.records[0].reason) then None else Some(Block(group.records[0].reason)))
    case FeedOpen(_) => Ok(if state.Blocked? || state.Unreconciled? then Some(MakeReady) else None)
  }

  ghost function MoveItem(w: Work, feed: Feed, item: Item, event: Event): Result<Work, RegistryError> {
    var who :- Domain(Identifier(feed.actor));
    var at :- Domain(Timestamp(feed.observedAt));
    var change :- Domain(Plan(item, who, at, event));
    Ok(Work(AdvanceRow(w.tables, item, change), Advance(w.held, item, change)))
  }

  ghost function ReconcileGroup(sha: Text -> Digest, uuid: Text -> Uuid, w: Work, feed: Feed, group: Group)
    : Result<Work, RegistryError>
  {
    if group.records == [] || exists i :: 0 <= i < |group.records| && group.records[i].status != group.records[0].status
    then Err(Invalid)
    else
      var existing := FindByPrefix(w.held.sources, feed.kind, group.prefix);
      if group.records[0].status.Closed() && existing.None? then Ok(w)
      else
        var known := if existing.Some? then FindItem(w.held.items, existing.value.itemId) else None;
        var (w2, item) :- IngestRecords(sha, uuid, w, feed, group.key, known, group.records);
        if item.None? || item.value.state.Terminal? then Ok(w2)
        else
          var event :- GroupEvent(feed, group, item.value.state);
          if event.None? then Ok(w2) else MoveItem(w2, feed, item.value, event.value)
  }

  ghost function ReconcileGroups(sha: Text -> Digest, uuid: Text -> Uuid, w: Work, feed: Feed, groups: seq<Group>)
    : Result<Work, RegistryError>
    decreases |groups|
  {
    if groups == [] then Ok(w) else
      var w2 :- ReconcileGroups(sha, uuid, w, feed, groups[..|groups| - 1]);
      ReconcileGroup(sha, uuid, w2, feed, groups[|groups| - 1])
  }

  /** The whole reconciliation of a loaded project. */
  ghost function ReconcileStep(sha: Text -> Digest, uuid: Text -> Uuid, t: Tables, st: Backlog, feed: Feed)
    : Result<(Tables, Backlog), RegistryError>
  {
    if !Loadable(t, feed.project) then Err(Corrupt)
    else
      var w :- ReconcileGroups(sha, uuid, Work(t, st), feed, feed.groups);
      Ok((w.tables, w.held))
  }

  // ----- soundness: the tables stay sound and the held ledger is what the reader would load -----

  ghost predicate InStep(w: Work, project: Text) {
    LedgerSound(w.tables) && Represents(w.tables, project, w.held)
  }

  lemma RecordKeepsInStep(
    sha: Text -> Digest, uuid: Text -> Uuid, w: Work, feed: Feed, key: Text, item: Option<Item>, record: FeedRecord)
    requires InStep(w, feed.project) && IngestRecord(sha, uuid, w, feed, key, item, record).Ok?
    ensures var (w2, item2) := IngestRecord(sha, uuid, w, feed, key, item, record).value;
            InStep(w2, feed.project) && Evolves(w.tables, w2.tables, feed.project, feed.observedAt)
            && item2 in w2.held.items && item2.id in w2.tables.items && w2.tables.items[item2.id] == item2
  {
    hide LedgerSound, Evolves, Ingest, IngestStep, SourcesMatch, RequirementsMatch, EvidenceMatch, TransitionsMatch,
         RequirementsOf;
    var input := RecordInput(feed, uuid, key, item, record);
    var r := Ingest(sha, w.held, input).value;
    IngestStepKeepsSound(w.tables, feed.project, sha, w.held, input);
    IngestedItemIsHeld(sha, w.held, input);
  }

  lemma IngestedItemIsHeld(sha: Text -> Digest, st: Backlog, input: IngestInput)
    requires Ingest(sha, st, input).Ok?
    ensures Ingest(sha, st, input).value.item in Ingest(sha, st, input).value.state.items
  {
    hide Ingest, RequirementsOf;
    IngestShape(sha, st, input);
    var r := Ingest(sha, st, input).value;
    if FindSource(st.sources, input.kind, SourceIdOf(input)).None? {
      IngestItem(sha, st, input);
      if r.created {
        assert r.state.items[|st.items|] == r.item;
      } else {
        var known :| known in st.items && r.state.items == Replace(st.items, r.item) && known.id == r.item.id
          && 0 <= input.observedAt && r.item == Joined(known, input.priority, input.observedAt);
        var i :| 0 <= i < |st.items| && st.items[i] == known;
        assert r.state.items[i] == r.item;
      }
    }
  }

  lemma {:induction false} RecordsKeepInStep(
    sha: Text -> Digest, uuid: Text -> Uuid, w: Work, feed: Feed, key: Text, item: Option<Item>,
    records: seq<FeedRecord>)
    requires InStep(w, feed.project) && IngestRecords(sha, uuid, w, feed, key, item, records).Ok?
    requires item.Some? ==>
               item.value in w.held.items && item.value.id in w.tables.items
               && w.tables.items[item.value.id] == item.value
    ensures var (w2, item2) := IngestRecords(sha, uuid, w, feed, key, item, records).value;
            && InStep(w2, feed.project) && Evolves(w.tables, w2.tables, feed.project, feed.observedAt)
            && (item2.Some? ==>
                  item2.value in w2.held.items && item2.value.id in w2.tables.items
                  && w2.tables.items[item2.value.id] == item2.value)
    decreases |records|
  {
    hide InStep, IngestRecord, Evolves;
    EvolvesIsReflexive(w.tables, feed.project, feed.observedAt);
    if records != [] {
      RecordKeepsInStep(sha, uuid, w, feed, key, item, records[0]);
      var (w2, item2) := IngestRecord(sha, uuid, w, feed, key, item, records[0]).value;
      RecordsKeepInStep(sha, uuid, w2, feed, key, Some(item2), records[1..]);
      var (w3, item3) := IngestRecords(sha, uuid, w2, feed, key, Some(item2), records[1..]).value;
      EvolvesIsTransitive(w.tables, w2.tables, w3.tables, feed.project, feed.observedAt);
    }
  }

  lemma MoveKeepsInStep(w: Work, feed: Feed, item: Item, event: Event)
    requires InStep(w, feed.project) && item in w.held.items && item.id in w.tables.items
    requires w.tables.items[item.id] == item
    requires ShortKinds(event) && MoveItem(w, feed, item, event).Ok?
    ensures InStep(MoveItem(w, feed, item, event).value, feed.project)
    ensures Evolves(w.tables, MoveItem(w, feed, item, event).value.tables, feed.project, feed.observedAt)
  {
    hide LedgerSound, Evolves, Represents, Plan, Legal, StateSafe, SafeText, ShortKinds, IsIdentifier;
    var who, at := Identifier(feed.actor).value, Timestamp(feed.observedAt).value;
    var change := Plan(item, who, at, event).value;
    ItemIsSafe(w.tables, item);
    WhoIsSafe(feed.actor);
    PlanIsLegal(item, who, at, event);
    AdvanceKeepsLedgerSound(w.tables, item, change);
    AdvanceRefines(w.tables, feed.project, w.held, item, change);
    AdvanceMovesOn(w.tables, item, change);
    PlanIsStamped(item, who, at, event);
    HeldItemIsInProject(w, feed.project, item);
  }

  lemma HeldItemIsInProject(w: Work, project: Text, item: Item)
    requires InStep(w, project) && item in w.held.items
    ensures item.project == project
  {
  }

  lemma GroupEventHasShortKinds(feed: Feed, group: Group, state: ItemState)
    requires ShortStatus(feed) && group.records != [] && GroupEvent(feed, group, state).Ok?
    requires GroupEvent(feed, group, state).value.Some?
    ensures ShortKinds(GroupEvent(feed, group, state).value.value)
  {
  }

  lemma HeldItemHasItsRow(w: Work, project: Text, item: Item)
    requires InStep(w, project) && item in w.held.items
    ensures item.id in w.tables.items && w.tables.items[item.id] == item
  {
  }

  lemma GroupKeepsInStep(sha: Text -> Digest, uuid: Text -> Uuid, w: Work, feed: Feed, group: Group)
    requires InStep(w, feed.project) && ShortStatus(feed) && ReconcileGroup(sha, uuid, w, feed, group).Ok?
    ensures var w2 := ReconcileGroup(sha, uuid, w, feed, group).value;
            InStep(w2, feed.project) && Evolves(w.tables, w2.tables, feed.project, feed.observedAt)
  {
    hide InStep, Evolves, IngestRecords, MoveItem, GroupEvent, ShortKinds;
    EvolvesIsReflexive(w.tables, feed.project, feed.observedAt);
    var existing := FindByPrefix(w.held.sources, feed.kind, group.prefix);
    if !(group.records[0].status.Closed() && existing.None?) {
      var known := if existing.Some? then FindItem(w.held.items, existing.value.itemId) else None;
      if known.Some? { HeldItemHasItsRow(w, feed.project, known.value); }
      RecordsKeepInStep(sha, uuid, w, feed, group.key, known, group.records);
      var (w2, item) := IngestRecords(sha, uuid, w, feed, group.key, known, group.records).value;
      if item.Some? && !item.value.state.Terminal? {
        var event := GroupEvent(feed, group, item.value.state).value;
        if event.Some? {
          GroupEventHasShortKinds(feed, group, item.value.state);
          MoveKeepsInStep(w2, feed, item.value, event.value);
          var w3 := MoveItem(w2, feed, item.value, event.value).value;
          EvolvesIsTransitive(w.tables, w2.tables, w3.tables, feed.project, feed.observedAt);
        }
      }
    }
  }

  /** However many groups were reconciled, the tables are sound and the held ledger is the stored one. */
  lemma {:induction false} GroupsKeepInStep(
      sha: Text -> Digest, uuid: Text -> Uuid, w: Work, feed: Feed, groups: seq<Group>)
    requires InStep(w, feed.project) && ShortStatus(feed) && ReconcileGroups(sha, uuid, w, feed, groups).Ok?
    ensures var w2 := ReconcileGroups(sha, uuid, w, feed, groups).value;
            InStep(w2, feed.project) && Evolves(w.tables, w2.tables, feed.project, feed.observedAt)
    decreases |groups|
  {
    hide InStep, Evolves, ReconcileGroup;
    EvolvesIsReflexive(w.tables, feed.project, feed.observedAt);
    if groups != [] {
      GroupsKeepInStep(sha, uuid, w, feed, groups[..|groups| - 1]);
      var w1 := ReconcileGroups(sha, uuid, w, feed, groups[..|groups| - 1]).value;
      GroupKeepsInStep(sha, uuid, w1, feed, groups[|groups| - 1]);
      var w2 := ReconcileGroup(sha, uuid, w1, feed, groups[|groups| - 1]).value;
      EvolvesIsTransitive(w.tables, w1.tables, w2.tables, feed.project, feed.observedAt);
    }
  }
}
