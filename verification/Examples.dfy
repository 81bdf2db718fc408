/** Concrete snapshots whose second reconciliation changes the ledger. */
module Examples {
  import opened Wrappers
  import opened Texts
  import opened Ledger
  import opened Tables
  import opened Invariants
  import opened Evolution
  import opened Refinement
  import opened Registry
  import opened Soundness
  import opened Runs
  import opened Reconcile
  import opened ReconcileAgain
  import opened SnapshotTimes
  import opened Decoding

  const NOTHING := Backlog([], [], [], [], [])

  const UNTRIMMED := FeedRecord(Ascii("t:a"), [Ascii("do")], Normal, FeedBlocked, [32, 120])

  const PROJECT := Ascii("/p")

  const UNTRIMMED_FEED := Feed(PROJECT, BranchTodo, Ascii("branch-todo-adapter"), Ascii("branch-todo-status"), 1,
                               [Group(Ascii("t:"), Ascii("t"), Ascii("t"), [UNTRIMMED])])

  const UNTRIMMED_TODOS := [Todo(Ascii("t"), UNTRIMMED, None)]

  /** The decoder accepts the todos, and this is the feed they make. */
  lemma UntrimmedIsASnapshot()
    ensures AdmittedTodos(UNTRIMMED_TODOS)
    ensures BranchTodoFeed(PROJECT, 1, Records(UNTRIMMED_TODOS)) == UNTRIMMED_FEED
  {
    hide IsIdentifier, StartsWith, Ascii, BranchTodoFeed, CanonicalTodo;
    UntrimmedIsCanonical();
    UnpagedAreAdmitted(UNTRIMMED_TODOS);
    assert Records(UNTRIMMED_TODOS) == [(Ascii("t"), UNTRIMMED)];
    UntrimmedIsAFeed();
  }

  lemma UntrimmedIsCanonical()
    ensures CanonicalTodo(UNTRIMMED_TODOS[0])
  {
    hide IsIdentifier, StartsWith, SafeRequirement;
    ShortNames();
    ShortTexts();
    AsciiIsIdentifier("t");
    assert Ascii("t") + [COLON] == Ascii("t:");
  }

  lemma UntrimmedIsDecoded()
    ensures DecodedGroup(UNTRIMMED_FEED.groups[0])
  {
    ShortNames();
    hide IsIdentifier, StartsWith, Ascii;
  }

  lemma UntrimmedIsAFeed()
    ensures BranchTodoFeed(PROJECT, 1, [(Ascii("t"), UNTRIMMED)]) == UNTRIMMED_FEED
  {
    assert Ascii("t") + [COLON] == Ascii("t:");
    hide IsIdentifier, StartsWith, Ascii, Regroup;
    var records := [(Ascii("t"), UNTRIMMED)];
    RegroupDistinct(records);
    var feed := BranchTodoFeed(PROJECT, 1, records);
    assert AtNormalPriority([UNTRIMMED]) == [UNTRIMMED];
    assert feed.groups == UNTRIMMED_FEED.groups;
  }

  lemma ShortNames()
    ensures Identifier(Ascii("t")).Ok? && Identifier(Ascii("branch-todo-adapter")) == Ok(Ascii("branch-todo-adapter"))
    ensures IsIdentifier(Ascii("t:a")) && Identifier(Ascii("t:a")) == Ok(Ascii("t:a"))
    ensures StartsWith(Ascii("t:a"), Ascii("t:"))
  {
    AsciiIsIdentifier("t");
    AsciiIsIdentifier("branch-todo-adapter");
    var id := Ascii("t:a");
    assert id[0] == 116 && id[1] == 58 && id[2] == 97;
    IdentifierIsTrimmed(id);
    assert id[..2] == Ascii("t:");
  }

  lemma ShortTexts()
    ensures NormalizedRequirements([Ascii("do")]).Ok?
    ensures BoundedText([32, 120], MAX_REASON_UNITS, InvalidInput) == Ok([120])
    ensures SafeRequirement(Ascii("do")) && SafeRequirement([32, 120])
  {
    TrimIsExact(Ascii("do"));
    assert TrimStart([32, 120]) == TrimStart([120]) by { assert [32, 120][1..] == [120]; }
    TrimIsExact([120]);
    var requirements := [Ascii("do")];
    assert requirements[1..] == [];
    assert NormalizedRequirements(requirements[1..]).Ok?;
  }

  lemma FirstIngest(sha: Text -> Digest, uuid: Text -> Uuid)
    ensures var r := Ingest(sha, NOTHING, RecordInput(UNTRIMMED_FEED, uuid, Ascii("t"), None, UNTRIMMED));
            r.Ok? && r.value.created && r.value.item.state == Ready && |r.value.state.sources| == 1
  {
    hide RequirementId, Join, Collapse, Trim;
    ShortNames();
    ShortTexts();
    UuidIsIdentifier(uuid(UNTRIMMED.sourceId));
  }

  lemma FirstRecord(sha: Text -> Digest, uuid: Text -> Uuid)
    ensures var one := IngestRecord(sha, uuid, Work(EMPTY, NOTHING), UNTRIMMED_FEED, Ascii("t"), None, UNTRIMMED);
            one.Ok? && one.value.1.state == Ready
  {
    hide Ingest, IngestRow;
    FirstIngest(sha, uuid);
  }

  /** A group of one record that is not left out. */
  ghost function OneRecordWork(sha: Text -> Digest, uuid: Text -> Uuid, w: Work, feed: Feed, group: Group)
    : Result<Work, RegistryError>
    requires |group.records| == 1
  {
    var (w2, item) :- IngestRecord(sha, uuid, w, feed, group.key, KnownItem(w, feed, group), group.records[0]);
    if item.state.Terminal? then Ok(w2)
    else
      var event :- GroupEvent(feed, group, item.state);
      if event.None? then Ok(w2) else MoveItem(w2, feed, item, event.value)
  }

  lemma OneRecord(
    sha: Text -> Digest, uuid: Text -> Uuid, w: Work, feed: Feed, key: Text, item: Option<Item>,
    records: seq<FeedRecord>)
    requires |records| == 1
    ensures var one := IngestRecord(sha, uuid, w, feed, key, item, records[0]);
            IngestRecords(sha, uuid, w, feed, key, item, records) ==
            if one.Ok? then Ok((one.value.0, Some(one.value.1))) else Err(one.error)
  {
    hide IngestRecord;
    if IngestRecord(sha, uuid, w, feed, key, item, records[0]).Ok? {
      var (w2, item2) := IngestRecord(sha, uuid, w, feed, key, item, records[0]).value;
      assert records[1..] == [];
      assert IngestRecords(sha, uuid, w2, feed, key, Some(item2), records[1..]) == Ok((w2, Some(item2)));
    }
  }

  lemma OneRecordGroup(sha: Text -> Digest, uuid: Text -> Uuid, w: Work, feed: Feed, group: Group)
    requires |group.records| == 1
    ensures ReconcileGroup(sha, uuid, w, feed, group)
            == if LeftOut(w, feed, group) then Ok(w) else OneRecordWork(sha, uuid, w, feed, group)
  {
    hide IngestRecord, IngestRecords, GroupEvent, MoveItem;
    OneRecord(sha, uuid, w, feed, group.key, KnownItem(w, feed, group), group.records);
  }

  lemma NothingIsInStep(project: Text)
    ensures InStep(Work(EMPTY, NOTHING), project)
  {
    EmptyIsSound();
  }

  /** An open item that is not blocked for exactly the reason the record spells is blocked. */
  lemma ItemIsBlocked(sha: Text -> Digest, uuid: Text -> Uuid, w: Work, w2: Work, item: Item)
    requires var group := UNTRIMMED_FEED.groups[0];
             && !LeftOut(w, UNTRIMMED_FEED, group) && item.Open() && item.state != Blocked([32, 120])
             && IngestRecord(sha, uuid, w, UNTRIMMED_FEED, group.key, KnownItem(w, UNTRIMMED_FEED, group), UNTRIMMED)
                == Ok((w2, item))
    ensures var plan := Plan(item, Ascii("branch-todo-adapter"), 1, Block([32, 120]));
            && plan.Ok? && plan.value.next == Blocked([120])
            && ReconcileGroup(sha, uuid, w, UNTRIMMED_FEED, UNTRIMMED_FEED.groups[0])
               == Ok(Work(AdvanceRow(w2.tables, item, plan.value), Advance(w2.held, item, plan.value)))
  {
    hide IngestRecord, Identifier, NextState, EventEntries, AdvanceRow, Advance, Ascii, LeftOut, KnownItem,
         ReconcileGroup;
    var feed, group := UNTRIMMED_FEED, UNTRIMMED_FEED.groups[0];
    ShortNames();
    OneRecordGroup(sha, uuid, w, feed, group);
    BlockIsPlanned(item, 1);
  }

  /** The first run blocks the new item; its reason is stored trimmed. */
  lemma FirstRun(sha: Text -> Digest, uuid: Text -> Uuid)
    ensures var feed, group := UNTRIMMED_FEED, UNTRIMMED_FEED.groups[0];
            var one := ReconcileGroup(sha, uuid, Work(EMPTY, NOTHING), feed, group);
            one.Ok? && Stored(one.value.tables, feed, group) && StoredItem(one.value.tables, feed, group).Open()
  {
    hide IngestRecord, ReconcileGroup, Plan, AdvanceRow, Advance, IsIdentifier, InStep, Accepted, Size, Ascii,
         RecordStored, RecordItem;
    var feed, group, w := UNTRIMMED_FEED, UNTRIMMED_FEED.groups[0], Work(EMPTY, NOTHING);
    ShortNames();
    NothingIsInStep(feed.project);
    FirstRecord(sha, uuid);
    RecordOutcome(sha, uuid, w, feed, group.key, None, UNTRIMMED);
    var (w2, item) := IngestRecord(sha, uuid, w, feed, group.key, None, UNTRIMMED).value;
    ItemIsBlocked(sha, uuid, w, w2, item);
    StoredItemIsNamed(w2, feed, group);
    BlockedStaysOpen(w2, feed, group, item, Plan(item, Ascii("branch-todo-adapter"), 1, Block([32, 120])).value);
  }

  lemma BlockIsPlanned(item: Item, at: nat)
    requires item.Open()
    ensures var plan := Plan(item, Ascii("branch-todo-adapter"), at, Block([32, 120]));
            plan.Ok? && plan.value.next == Blocked([120])
  {
    ShortTexts();
  }

  lemma BlockedStaysOpen(w: Work, feed: Feed, group: Group, item: Item, change: Change)
    requires |group.records| == 1 && Stored(w.tables, feed, group) && StoredItem(w.tables, feed, group) == item
    requires RecordStored(w.tables, feed, Last(group))
    requires item.id == w.tables.sources[RecordKey(feed, Last(group))].itemId && change.next.Blocked?
    ensures var t2 := AdvanceRow(w.tables, item, change);
            Stored(t2, feed, group) && StoredItem(t2, feed, group).Open()
  {
    hide InsertRows, EvidenceRecords;
  }

  /** The group once more: its source is known, its item is blocked again. */
  lemma BlockedAgain(sha: Text -> Digest, uuid: Text -> Uuid, uuid2: Text -> Uuid)
    ensures var feed, group := UNTRIMMED_FEED, UNTRIMMED_FEED.groups[0];
            var one := ReconcileGroup(sha, uuid, Work(EMPTY, NOTHING), feed, group);
            one.Ok?
            && var two := ReconcileGroup(sha, uuid2, one.value, feed, group);
               two.Ok? && |two.value.held.transitions| == |one.value.held.transitions| + 1
  {
    hide IngestRecord, Ingest, IsIdentifier, InStep, Accepted, Size, Ascii, StartsWith, ReconcileGroup, PrefixTaken,
         MoveItem, GroupEvent, DecodedGroup, FindByPrefix;
    UntrimmedIsDecoded();
    var feed, group := UNTRIMMED_FEED, UNTRIMMED_FEED.groups[0];
    ShortNames();
    ShortTexts();
    NothingIsInStep(feed.project);
    FirstRun(sha, uuid);
    var w := ReconcileGroup(sha, uuid, Work(EMPTY, NOTHING), feed, group).value;
    GroupOutcome(sha, uuid, Work(EMPTY, NOTHING), feed, group);
    HeldPrefix(w, feed, group);
    HeldSource(w, feed, UNTRIMMED);
    StoredTakesPrefix(w.tables, feed, group);
    assert StoredAccepted(sha, w.tables, feed, group.records[0]);
    AcceptedIsIngested(sha, uuid2, w.held, feed, group.key, KnownItem(w, feed, group), group.records[0]);
    var item := StoredItem(w.tables, feed, group);
    SameAgain(sha, uuid2, w, feed, group, KnownItem(w, feed, group), item);
    assert item.state == Blocked([120]);
    OtherReason(item);
    ItemIsBlocked(sha, uuid2, w, w, item);
  }

  lemma OtherReason(item: Item)
    requires item.state == Blocked([120])
    ensures item.state != Blocked([32, 120])
  {
    assert item.state.reason[0] == 120;
  }

  lemma SameAgain(
      sha: Text -> Digest, uuid: Text -> Uuid, w: Work, feed: Feed, group: Group, known: Option<Item>, item: Item)
    requires |group.records| == 1
    requires Ingest(sha, w.held, RecordInput(feed, uuid, group.key, known, group.records[0]))
             == Ok(Ingested(w.held, item, false))
    ensures IngestRecord(sha, uuid, w, feed, group.key, known, group.records[0]) == Ok((w, item))
  {
    hide Ingest;
  }

  /** A block reason with a leading space is blocked again when the snapshot is reconciled again. */
  lemma UntrimmedReasonIsBlockedAgain(sha: Text -> Digest, uuid: Text -> Uuid, uuid2: Text -> Uuid)
    ensures AdmittedTodos(UNTRIMMED_TODOS)
    ensures var feed := BranchTodoFeed(PROJECT, 1, Records(UNTRIMMED_TODOS));
            var one := ReconcileStep(sha, uuid, EMPTY, NOTHING, feed);
            && one.Ok? && Represents(one.value.0, PROJECT, one.value.1)
            && var two := ReconcileStep(sha, uuid2, one.value.0, one.value.1, feed);
               two.Ok? && |two.value.1.transitions| == |one.value.1.transitions| + 1
  {
    hide ReconcileGroup, ReconcileGroups, IsIdentifier, StartsWith, Ascii, BranchTodoFeed, AdmittedTodos, Loadable,
         Represents, LedgerSound;
    UntrimmedIsASnapshot();
    BlockedAgain(sha, uuid, uuid2);
    OneGroup(sha, uuid, Work(EMPTY, NOTHING), UNTRIMMED_FEED);
    var one := ReconcileGroup(sha, uuid, Work(EMPTY, NOTHING), UNTRIMMED_FEED, UNTRIMMED_FEED.groups[0]).value;
    OneGroup(sha, uuid2, one, UNTRIMMED_FEED);
    UntrimmedIsShort();
    FirstRunLoads(sha, uuid, UNTRIMMED_FEED);
  }

  lemma UntrimmedIsShort()
    ensures ShortStatus(UNTRIMMED_FEED)
  {
  }

  /** From empty tables a snapshot's first run is done on a readable project and leaves one. */
  lemma FirstRunLoads(sha: Text -> Digest, uuid: Text -> Uuid, feed: Feed)
    requires ShortStatus(feed) && ReconcileGroups(sha, uuid, Work(EMPTY, NOTHING), feed, feed.groups).Ok?
    ensures Loadable(EMPTY, feed.project)
    ensures var w := ReconcileGroups(sha, uuid, Work(EMPTY, NOTHING), feed, feed.groups).value;
            Loadable(w.tables, feed.project) && Represents(w.tables, feed.project, w.held)
  {
    hide ReconcileGroups, LedgerSound, Represents, Evolves;
    NothingIsInStep(feed.project);
    GroupsKeepInStep(sha, uuid, Work(EMPTY, NOTHING), feed, feed.groups);
    var w := ReconcileGroups(sha, uuid, Work(EMPTY, NOTHING), feed, feed.groups).value;
    NewItemsAreInOrder(EMPTY, w.tables, feed.project, feed.observedAt);
  }

  lemma OneGroup(sha: Text -> Digest, uuid: Text -> Uuid, w: Work, feed: Feed)
    requires |feed.groups| == 1
    ensures ReconcileGroups(sha, uuid, w, feed, feed.groups) == ReconcileGroup(sha, uuid, w, feed, feed.groups[0])
  {
    hide ReconcileGroup;
    assert feed.groups[..0] == [];
    assert ReconcileGroups(sha, uuid, w, feed, []) == Ok(w);
  }

  // ----- one item's identifier is a prefix of another's -----

  const OUTER := FeedRecord(Ascii("a:1"), [Ascii("do")], Normal, FeedCompleted, [])
  const INNER := FeedRecord(Ascii("a:b:1"), [Ascii("do")], Normal, FeedOpen(Ascii("pending")), [])

  const CLASH_FEED := Feed(PROJECT, BranchTodo, Ascii("branch-todo-adapter"), Ascii("branch-todo-status"), 1,
                           [Group(Ascii("a:"), Ascii("a"), Ascii("a"), [OUTER]),
                            Group(Ascii("a:b:"), Ascii("a:b"), Ascii("a:b"), [INNER])])

  const CLASH_TODOS := [Todo(Ascii("a"), OUTER, None), Todo(Ascii("a:b"), INNER, None)]

  lemma ClashIsASnapshot()
    ensures AdmittedTodos(CLASH_TODOS)
    ensures BranchTodoFeed(PROJECT, 1, Records(CLASH_TODOS)) == CLASH_FEED
  {
    assert |Ascii("a")| != |Ascii("a:b")|;
    hide IsIdentifier, StartsWith, Ascii, BranchTodoFeed, CanonicalTodo;
    ClashNames();
    OuterIsCanonical();
    InnerIsCanonical();
    UnpagedAreAdmitted(CLASH_TODOS);
    assert Records(CLASH_TODOS) == [(Ascii("a"), OUTER), (Ascii("a:b"), INNER)];
    ClashIsAFeed();
  }

  lemma OuterIsCanonical()
    ensures CanonicalTodo(CLASH_TODOS[0])
  {
    hide IsIdentifier, StartsWith, SafeRequirement;
    ClashNames();
    ShortTexts();
    AsciiIsIdentifier("a");
    assert Ascii("a") + [COLON] == Ascii("a:");
  }

  lemma InnerIsCanonical()
    ensures CanonicalTodo(CLASH_TODOS[1])
  {
    hide IsIdentifier, StartsWith, SafeRequirement;
    ClashNames();
    ShortTexts();
    assert Ascii("a:b") + [COLON] == Ascii("a:b:");
  }

  lemma ClashIsAFeed()
    ensures BranchTodoFeed(PROJECT, 1, [(Ascii("a"), OUTER), (Ascii("a:b"), INNER)]) == CLASH_FEED
  {
    assert Ascii("a") + [COLON] == Ascii("a:") && Ascii("a:b") + [COLON] == Ascii("a:b:");
    assert |Ascii("a")| != |Ascii("a:b")|;
    hide IsIdentifier, StartsWith, Ascii, Regroup;
    var records := [(Ascii("a"), OUTER), (Ascii("a:b"), INNER)];
    RegroupDistinct(records);
    var feed := BranchTodoFeed(PROJECT, 1, records);
    assert AtNormalPriority([OUTER]) == [OUTER] && AtNormalPriority([INNER]) == [INNER];
    assert feed.groups == CLASH_FEED.groups;
  }

  lemma ClashNames()
    ensures IsIdentifier(OUTER.sourceId) && IsIdentifier(INNER.sourceId) && OUTER.sourceId != INNER.sourceId
    ensures StartsWith(OUTER.sourceId, Ascii("a:")) && StartsWith(INNER.sourceId, Ascii("a:b:"))
    ensures StartsWith(INNER.sourceId, Ascii("a:"))
    ensures Identifier(INNER.sourceId) == Ok(INNER.sourceId) && Identifier(Ascii("a:b")).Ok?
    ensures IsIdentifier(Ascii("a:b"))
  {
    var outer, inner, key := OUTER.sourceId, INNER.sourceId, Ascii("a:b");
    assert outer[0] == 97 && outer[1] == 58 && outer[2] == 49;
    assert inner[0] == 97 && inner[1] == 58 && inner[2] == 98 && inner[3] == 58 && inner[4] == 49;
    assert key[0] == 97 && key[1] == 58 && key[2] == 98;
    IdentifierIsTrimmed(inner);
    IdentifierIsTrimmed(key);
    assert outer[..2] == Ascii("a:") && inner[..2] == Ascii("a:") && inner[..4] == Ascii("a:b:");
  }

  /** The content of both records. */
  function ClashContent(sha: Text -> Digest): Digest {
    var texts := NormalizedRequirements([Ascii("do")]);
    sha(if texts.Ok? then Join(texts.value, [SEPARATOR]) else [])
  }

  /** What is held while only the inner item's record was taken in. */
  ghost predicate HoldsInner(sha: Text -> Digest, w: Work, item: Item) {
    && w.held.items == [item] && item.project == PROJECT && item.state == Ready && IsIdentifier(item.id)
    && |w.held.sources| == 1
    && KeyOf(w.held.sources[0]) == (BranchTodo, INNER.sourceId) && w.held.sources[0].itemId == item.id
    && w.held.sources[0].contentDigest == ClashContent(sha)
    && w.tables.sources.Keys == {(BranchTodo, INNER.sourceId)}
  }

  lemma InnerRecord(sha: Text -> Digest, uuid: Text -> Uuid)
    ensures var one := IngestRecord(sha, uuid, Work(EMPTY, NOTHING), CLASH_FEED, Ascii("a:b"), None, INNER);
            one.Ok? && HoldsInner(sha, one.value.0, one.value.1)
  {
    hide RequirementId, Join, Collapse, Trim, InsertRows;
    ClashNames();
    ShortTexts();
    UuidIsIdentifier(uuid(INNER.sourceId));
    var r := Ingest(sha, NOTHING, RecordInput(CLASH_FEED, uuid, Ascii("a:b"), None, INNER));
    assert r.Ok? && r.value.created && |r.value.state.sources| == 1;
  }

  /** The first run leaves the completed outer item out and takes the inner one in. */
  lemma FirstClashRun(sha: Text -> Digest, uuid: Text -> Uuid) returns (w: Work, item: Item)
    ensures ReconcileGroups(sha, uuid, Work(EMPTY, NOTHING), CLASH_FEED, CLASH_FEED.groups) == Ok(w)
    ensures HoldsInner(sha, w, item)
  {
    hide IngestRecord, IsIdentifier, StartsWith, HoldsInner;
    var feed, start := CLASH_FEED, Work(EMPTY, NOTHING);
    InnerRecord(sha, uuid);
    OneRecordGroup(sha, uuid, start, feed, feed.groups[0]);
    OneRecordGroup(sha, uuid, start, feed, feed.groups[1]);
    var (w1, item1) := IngestRecord(sha, uuid, start, feed, Ascii("a:b"), None, INNER).value;
    w, item := w1, item1;
    assert item.state == Ready by { InnerIsReady(sha, w, item); }
    assert ReconcileGroup(sha, uuid, start, feed, feed.groups[1]) == Ok(w);
    TwoGroups(sha, uuid, start, feed, start, w);
  }

  lemma InnerIsReady(sha: Text -> Digest, w: Work, item: Item)
    requires HoldsInner(sha, w, item)
    ensures w.held.items == [item] && item.state == Ready
  {
  }

  lemma TwoGroups(sha: Text -> Digest, uuid: Text -> Uuid, w: Work, feed: Feed, w1: Work, w2: Work)
    requires |feed.groups| == 2
    requires ReconcileGroup(sha, uuid, w, feed, feed.groups[0]) == Ok(w1)
    requires ReconcileGroup(sha, uuid, w1, feed, feed.groups[1]) == Ok(w2)
    ensures ReconcileGroups(sha, uuid, w, feed, feed.groups) == Ok(w2)
  {
    hide ReconcileGroup;
    assert feed.groups[..1] == [feed.groups[0]];
    assert feed.groups[..1][..0] == [];
    assert ReconcileGroups(sha, uuid, w, feed, []) == Ok(w);
    assert ReconcileGroups(sha, uuid, w, feed, feed.groups[..1]) == Ok(w1);
  }

  // The second run: the outer group finds the inner item's source under its prefix.

  lemma OuterKnowsInner(sha: Text -> Digest, w: Work, item: Item)
    requires HoldsInner(sha, w, item)
    ensures KnownItem(w, CLASH_FEED, CLASH_FEED.groups[0]) == Some(item)
    ensures !LeftOut(w, CLASH_FEED, CLASH_FEED.groups[0])
  {
    hide StartsWith, IsIdentifier;
    ClashNames();
  }

  lemma OuterIngest(sha: Text -> Digest, uuid: Text -> Uuid, w: Work, item: Item)
    requires HoldsInner(sha, w, item)
    ensures var r := Ingest(sha, w.held, RecordInput(CLASH_FEED, uuid, Ascii("a"), Some(item), OUTER));
            && r.Ok? && !r.value.created && r.value.item.id == item.id && r.value.item.state == Ready
            && r.value.item.project == PROJECT && |r.value.state.requirements| >= |w.held.requirements|
            && r.value.state.items == [r.value.item]
            && |r.value.state.sources| == 2 && r.value.state.sources[0] == w.held.sources[0]
            && KeyOf(r.value.state.sources[1]) == (BranchTodo, OUTER.sourceId)
  {
    hide RequirementId, Join, Collapse, Trim, StartsWith;
    ClashNames();
    ShortTexts();
    UuidIsIdentifier(uuid(OUTER.sourceId));
    IdentifierIsTrimmed(item.id);
    IdentifierIsTrimmed(OUTER.sourceId);
    assert w.held.sources[1..] == [];
  }

  lemma OuterRecord(sha: Text -> Digest, uuid: Text -> Uuid, w: Work, item: Item) returns (w2: Work, item2: Item)
    requires HoldsInner(sha, w, item)
    ensures IngestRecord(sha, uuid, w, CLASH_FEED, Ascii("a"), Some(item), OUTER) == Ok((w2, item2))
    ensures item2.id == item.id && item2.state == Ready && item2.project == PROJECT && w2.held.items == [item2]
    ensures |w2.held.sources| == 2 && w2.held.sources[0] == w.held.sources[0]
    ensures KeyOf(w2.held.sources[1]) == (BranchTodo, OUTER.sourceId)
  {
    hide Ingest, IngestRow, IsIdentifier, StartsWith;
    ClashNames();
    OuterIngest(sha, uuid, w, item);
    var (w1, item1) := IngestRecord(sha, uuid, w, CLASH_FEED, Ascii("a"), Some(item), OUTER).value;
    w2, item2 := w1, item1;
  }

  lemma ClosingIsPlanned(item: Item, at: nat)
    requires item.state == Ready
    ensures var closing := Closing(CLASH_FEED, CLASH_FEED.groups[0], Outcome.Completed);
            var plan := Plan(item, Ascii("branch-todo-adapter"), at, closing);
            plan.Ok? && plan.value.next.Terminal? && plan.value.next.outcome == Outcome.Completed
  {
    hide IsIdentifier, Trim, HasUnsafeControl;
    AsciiIsIdentifier("branch-todo-status");
    AsciiIsIdentifier("a");
    IdentifierIsTrimmed(Ascii("a"));
    var evidence := [Evidence(Ascii("branch-todo-status"), Ascii("a"))];
    assert evidence[1..] == [];
    assert EvidenceEntries(evidence).Ok?;
  }

  /** The outer group closes the inner item. */
  lemma OuterCloses(sha: Text -> Digest, uuid: Text -> Uuid, w: Work, item: Item) returns (w3: Work, closed: Item)
    requires HoldsInner(sha, w, item)
    ensures ReconcileGroup(sha, uuid, w, CLASH_FEED, CLASH_FEED.groups[0]) == Ok(w3)
    ensures closed.id == item.id && closed.state.Terminal? && closed.state.outcome == Outcome.Completed
    ensures w3.held.items == [closed] && closed.project == PROJECT
    ensures |w3.held.sources| == 2 && w3.held.sources[0] == w.held.sources[0]
  {
    hide IngestRecord, NextState, EventEntries, AdvanceRow, IsIdentifier, StartsWith, HoldsInner, LeftOut, KnownItem,
         Identifier;
    var feed, group := CLASH_FEED, CLASH_FEED.groups[0];
    ShortNames();
    OuterKnowsInner(sha, w, item);
    OneRecordGroup(sha, uuid, w, feed, group);
    var w2, item2 := OuterRecord(sha, uuid, w, item);
    ClosingIsPlanned(item2, 1);
    var change := Plan(item2, Ascii("branch-todo-adapter"), 1, Closing(feed, group, Outcome.Completed)).value;
    closed := Updated(item2, change);
    w3 := Work(AdvanceRow(w2.tables, item2, change), Advance(w2.held, item2, change));
    assert w3.held.items == [closed];
    assert MoveItem(w2, feed, item2, Closing(feed, group, Outcome.Completed)) == Ok(w3);
    assert OneRecordWork(sha, uuid, w, feed, group) == Ok(w3);
  }

  lemma InnerAgain(sha: Text -> Digest, uuid: Text -> Uuid, w: Work, item: Item, w3: Work, closed: Item)
    requires HoldsInner(sha, w, item)
    requires w3.held.items == [closed] && closed.id == item.id && closed.project == PROJECT && closed.state.Terminal?
    requires |w3.held.sources| == 2 && w3.held.sources[0] == w.held.sources[0]
    ensures ReconcileGroup(sha, uuid, w3, CLASH_FEED, CLASH_FEED.groups[1]) == Ok(w3)
  {
    hide Ingest, IngestRow, StartsWith, Join, Collapse, Trim;
    var feed, group := CLASH_FEED, CLASH_FEED.groups[1];
    ClashNames();
    ShortTexts();
    OneRecordGroup(sha, uuid, w3, feed, group);
    assert FindByPrefix(w3.held.sources, BranchTodo, group.prefix) == Some(w3.held.sources[0]);
    assert KnownItem(w3, feed, group) == Some(closed);
    assert FindSource(w3.held.sources, BranchTodo, INNER.sourceId) == Some(w3.held.sources[0]);
    AcceptedIsIngested(sha, uuid, w3.held, feed, group.key, KnownItem(w3, feed, group), INNER);
    SameAgain(sha, uuid, w3, feed, group, KnownItem(w3, feed, group), closed);
  }

  /** A completed item whose identifier is another's up to a colon: reconciling the snapshot again closes the other
      item, which the snapshot says is ready. */
  lemma PrefixClashClosesAnotherItem(sha: Text -> Digest, uuid: Text -> Uuid, uuid2: Text -> Uuid)
    ensures AdmittedTodos(CLASH_TODOS)
    ensures var feed := BranchTodoFeed(PROJECT, 1, Records(CLASH_TODOS));
            var one := ReconcileStep(sha, uuid, EMPTY, NOTHING, feed);
            && one.Ok? && Represents(one.value.0, PROJECT, one.value.1)
            && |one.value.1.items| == 1 && one.value.1.items[0].state == Ready
            && var two := ReconcileStep(sha, uuid2, one.value.0, one.value.1, feed);
               && two.Ok? && |two.value.1.items| == 1 && two.value.1.items[0].id == one.value.1.items[0].id
               && two.value.1.items[0].state.Terminal?
               && two.value.1.items[0].state.outcome == Outcome.Completed
  {
    hide ReconcileGroup, ReconcileGroups, IsIdentifier, StartsWith, BranchTodoFeed, AdmittedTodos, Loadable, Represents;
    ClashIsASnapshot();
    var w, item := FirstClashRun(sha, uuid);
    var w3, closed := OuterCloses(sha, uuid2, w, item);
    InnerAgain(sha, uuid2, w, item, w3, closed);
    TwoGroups(sha, uuid2, w, CLASH_FEED, w3, w3);
    ClashIsShort();
    FirstRunLoads(sha, uuid, CLASH_FEED);
    InnerIsReady(sha, w, item);
  }

  lemma ClashIsShort()
    ensures ShortStatus(CLASH_FEED)
  {
  }
}
