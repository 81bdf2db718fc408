/** In which state a reconciled snapshot leaves every item, and which items its records join (sqlite-store.ts). */
module Settling {
  import opened Wrappers
  import opened Texts
  import opened Ledger
  import opened Tables
  import opened Invariants
  import opened Evolution
  import opened Refinement
  import opened Registry
  import opened Soundness
  import opened Reconcile
  import opened ReconcileAgain
  import opened SnapshotTimes
  import opened Frames
  import opened Steps
  import opened Decoding
  import opened Joining
  import opened Dedupe

  // ----- what a group asks of an item -----

  /** The state a reported status asks of an item in some state: closed items stay as they are, closing ones list the
      report as their evidence, blocked ones carry its reason, and work that is wanted is no longer blocked. */
  function Asked(state: ItemState, status: FeedStatus, reason: Text, kind: Text, ref: Text): ItemState {
    if state.Terminal? then state
    else
      match status
      case FeedCompleted => Terminal(Outcome.Completed, [Evidence(Trim(kind), Trim(ref))])
      case FeedCancelled => Terminal(Outcome.Cancelled, [Evidence(Trim(kind), Trim(ref))])
      case FeedBlocked => Blocked(Trim(reason))
      case FeedOpen(_) => if state.Blocked? || state.Unreconciled? then Ready else state
  }

  function AskedBy(state: ItemState, feed: Feed, group: Group): ItemState
    requires group.records != []
  {
    Asked(state, group.records[0].status, group.records[0].reason, feed.statusKind, group.ref)
  }

  /** The state an item is found in; new items start ready. */
  function StateIn(t: Tables, id: Text): ItemState {
    if id in t.items then t.items[id].state else Ready
  }

  lemma EventAsks(feed: Feed, group: Group, state: ItemState)
    requires group.records != [] && !state.Terminal? && GroupEvent(feed, group, state).Ok?
    ensures match GroupEvent(feed, group, state).value
            case None => group.records[0].status.FeedBlocked? || state == AskedBy(state, feed, group)
            case Some(event) => NextState(state, event).Ok? ==>
                                  NextState(state, event).value == AskedBy(state, feed, group)
    ensures GroupEvent(feed, group, state).value == None && group.records[0].status.FeedBlocked? ==>
              state == Blocked(group.records[0].reason)
  {
    hide Trim, HasUnsafeControl, IsIdentifier;
    var event := GroupEvent(feed, group, state).value;
    if event.Some? && event.value.Reconcile? && NextState(state, event.value).Ok? {
      OneEntry(event.value.evidence[0]);
    }
  }

  lemma OneEntry(e: Evidence)
    requires ValidatedEvidence([e]).Ok?
    ensures ValidatedEvidence([e]).value == [Evidence(Trim(e.kind), Trim(e.ref))]
  {
    hide Trim, HasUnsafeControl, IsIdentifier;
    assert [e][1..] == [];
  }

  // ----- one record -----

  /** Items that were not there before are ready. */
  ghost predicate NewAreReady(t: Tables, t2: Tables) {
    forall id :: id in t2.items && id !in t.items ==> t2.items[id].state == Ready
  }

  lemma RecordStartsReady(
    sha: Text -> Digest, uuid: Text -> Uuid, w: Work, feed: Feed, key: Text, item: Option<Item>, record: FeedRecord)
    requires InStep(w, feed.project) && IngestRecord(sha, uuid, w, feed, key, item, record).Ok?
    ensures NewAreReady(w.tables, IngestRecord(sha, uuid, w, feed, key, item, record).value.0.tables)
  {
    hide Ingest, RequirementsOf, InStep, NormalizedRequirements, IsWorkOf, TakesIn, Trim, Fits;
    var input := RecordInput(feed, uuid, key, item, record);
    IngestShape(sha, w.held, input);
    var r := Ingest(sha, w.held, input).value;
    if FindSource(w.held.sources, input.kind, SourceIdOf(input)).None? {
      IngestedItem(sha, w.held, input);
      NewSourceRow(w.tables, w.held, r);
      if r.created {
        BegunIsReady(sha, r.item, input);
      } else {
        var known :| known in w.held.items && IsWorkOf(sha, w.held, input, known) && TakesIn(known, r.item, input);
        TakenItem(known, r.item, input);
        HeldItemHasItsRow(w, feed.project, known);
      }
    }
  }

  lemma BegunIsReady(sha: Text -> Digest, item: Item, input: IngestInput)
    requires NormalizedRequirements(input.requirements).Ok? && Begins(sha, item, input) && input.initial == StartReady
    ensures item.state == Ready
  {
    hide NormalizedRequirements, Trim;
  }

  lemma {:induction false} RecordsStartReady(
    sha: Text -> Digest, uuid: Text -> Uuid, w: Work, feed: Feed, key: Text, item: Option<Item>,
    records: seq<FeedRecord>)
    requires InStep(w, feed.project) && AllIdentifiers(records)
    requires IngestRecords(sha, uuid, w, feed, key, item, records).Ok?
    ensures NewAreReady(w.tables, IngestRecords(sha, uuid, w, feed, key, item, records).value.0.tables)
    ensures records != [] ==>
              OnlyAdds(w.tables, IngestRecords(sha, uuid, w, feed, key, item, records).value.0.tables, feed, records)
    decreases |records|
  {
    hide InStep, IngestRecord, OnlyAdds, IsIdentifier, Size, StoredAccepted;
    if records != [] {
      RecordsOutcome(sha, uuid, w, feed, key, item, records);
      RecordStartsReady(sha, uuid, w, feed, key, item, records[0]);
      RecordKeepsInStep(sha, uuid, w, feed, key, item, records[0]);
      var (w1, item1) := IngestRecord(sha, uuid, w, feed, key, item, records[0]).value;
      RecordsStartReady(sha, uuid, w1, feed, key, Some(item1), records[1..]);
      var w2 := IngestRecords(sha, uuid, w1, feed, key, Some(item1), records[1..]).value.0;
      if records[1..] != [] { ReadyStays(w.tables, w1.tables, w2.tables, feed, records[1..]); }
    }
  }

  lemma ReadyStays(t: Tables, t1: Tables, t2: Tables, feed: Feed, records: seq<FeedRecord>)
    requires NewAreReady(t, t1) && NewAreReady(t1, t2) && OnlyAdds(t1, t2, feed, records)
    ensures NewAreReady(t, t2)
  {
    hide Names;
  }

  // ----- one group -----

  /** The group moves the item its last record's source names, to the state it asks of it, and no other. */
  ghost predicate GroupMoves(t: Tables, t2: Tables, feed: Feed, group: Group)
    requires group.records != []
  {
    && ReconcileAgain.Stored(t2, feed, group) && ItemIdOf(t2, feed, group) in t2.items
    && forall id :: id in t2.items ==>
         t2.items[id].state ==
         if id == ItemIdOf(t2, feed, group) then AskedBy(StateIn(t, id), feed, group) else StateIn(t, id)
  }

  lemma AddedStates(t: Tables, t2: Tables, feed: Feed, records: seq<FeedRecord>)
    requires NewAreReady(t, t2) && OnlyAdds(t, t2, feed, records)
    ensures forall id :: id in t2.items ==> t2.items[id].state == StateIn(t, id)
  {
    hide Names;
  }

  lemma MoveAsks(w: Work, feed: Feed, group: Group, item: Item, event: Event)
    requires item.id in w.tables.items && w.tables.items[item.id] == item && item.Open() && group.records != []
    requires GroupEvent(feed, group, item.state) == Ok(Some(event)) && MoveItem(w, feed, item, event).Ok?
    ensures var t2 := MoveItem(w, feed, item, event).value.tables;
            && t2.sources == w.tables.sources && t2.items.Keys == w.tables.items.Keys
            && forall id :: id in t2.items ==>
                 t2.items[id].project == w.tables.items[id].project
                 && t2.items[id].state
                    == if id == item.id then AskedBy(item.state, feed, group) else w.tables.items[id].state
  {
    hide NextState, EventEntries, Identifier, Timestamp, InsertRows, EvidenceRecords, GroupEvent, AskedBy;
    EventAsks(feed, group, item.state);
  }

  lemma GroupSettles(sha: Text -> Digest, uuid: Text -> Uuid, w: Work, feed: Feed, group: Group)
    requires InStep(w, feed.project) && ShortStatus(feed) && DecodedGroup(group)
    requires ReconcileGroup(sha, uuid, w, feed, group).Ok? && !LeftOut(w, feed, group)
    ensures GroupMoves(w.tables, ReconcileGroup(sha, uuid, w, feed, group).value.tables, feed, group)
  {
    hide InStep, IngestRecords, MoveItem, IsIdentifier, StartsWith, LeftOut, Size, FindByPrefix, KnownItem, Consistent,
         GroupEvent, StoredAccepted, RecordStored, AskedBy, OnlyAdds, NewAreReady;
    GroupHasRecords(group);
    GroupIdentifiers(group);
    DecodedGroupWork(sha, uuid, w, feed, group);
    var known := KnownItem(w, feed, group);
    RecordsOutcome(sha, uuid, w, feed, group.key, known, group.records);
    RecordsStartReady(sha, uuid, w, feed, group.key, known, group.records);
    var (w1, item) := IngestRecords(sha, uuid, w, feed, group.key, known, group.records).value;
    AddedStates(w.tables, w1.tables, feed, group.records);
    AcceptedAreStored(sha, w1.tables, feed, group.records);
    StoredItemIsNamed(w1, feed, group);
    HeldItemHasItsRow(w1, feed.project, item.value);
    StoredItemIsThere(w1.tables, feed, group);
    if item.value.state.Terminal? {
      ClosedIsKept(item.value.state, feed, group);
    } else {
      var event := GroupEvent(feed, group, item.value.state).value;
      if event.Some? {
        MoveAsks(w1, feed, group, item.value, event.value);
        MovedIsStored(w1.tables, ReconcileGroup(sha, uuid, w, feed, group).value.tables, feed, group);
      } else {
        EventAsks(feed, group, item.value.state);
        if group.records[0].status.FeedBlocked? { BlockedAlready(w1, feed, group, item.value); }
      }
    }
  }

  lemma GroupIdentifiers(group: Group)
    requires DecodedGroup(group)
    ensures AllIdentifiers(group.records)
  {
  }

  lemma StoredItemIsThere(t: Tables, feed: Feed, group: Group)
    requires group.records != [] && ReconcileAgain.Stored(t, feed, group)
    ensures ItemIdOf(t, feed, group) in t.items
    ensures t.items[ItemIdOf(t, feed, group)] == StoredItem(t, feed, group)
  {
    assert RecordStored(t, feed, Last(group));
  }

  lemma ClosedIsKept(state: ItemState, feed: Feed, group: Group)
    requires state.Terminal? && group.records != []
    ensures AskedBy(state, feed, group) == state
  {
  }

  lemma MovedIsStored(t: Tables, t2: Tables, feed: Feed, group: Group)
    requires group.records != [] && ReconcileAgain.Stored(t, feed, group)
    requires t2.sources == t.sources && t2.items.Keys == t.items.Keys
    requires forall id :: id in t2.items ==> t2.items[id].project == t.items[id].project
    ensures ReconcileAgain.Stored(t2, feed, group) && ItemIdOf(t2, feed, group) == ItemIdOf(t, feed, group)
  {
    forall a | 0 <= a < |group.records|
      ensures RecordStored(t2, feed, group.records[a])
    {
      assert RecordStored(t, feed, group.records[a]);
    }
  }

  /** A held item blocked for the very reason is blocked for the trimmed one. */
  lemma BlockedAlready(w: Work, feed: Feed, group: Group, item: Item)
    requires InStep(w, feed.project) && item.id in w.tables.items && w.tables.items[item.id] == item
    requires group.records != [] && group.records[0].status.FeedBlocked?
    requires item.state == Blocked(group.records[0].reason)
    ensures AskedBy(item.state, feed, group) == item.state
  {
    hide InStep, Trim;
    HeldReasonIsTrimmed(w, feed.project, item);
    TrimIsExact(group.records[0].reason);
  }

  // ----- the whole snapshot -----

  /** The state the first groups, in order, ask of an item; a group asks it of the item its last source names. */
  ghost function AskedByAll(t2: Tables, feed: Feed, id: Text, found: ItemState, n: nat): ItemState
    requires Decoded(feed) && n <= |feed.groups|
  {
    if n == 0 then found
    else
      var before, group := AskedByAll(t2, feed, id, found, n - 1), feed.groups[n - 1];
      assert DecodedGroup(group);
      if ReconcileAgain.Stored(t2, feed, group) && ItemIdOf(t2, feed, group) == id then AskedBy(before, feed, group)
      else before
  }

  ghost predicate AllAsked(t: Tables, t2: Tables, feed: Feed, n: nat)
    requires Decoded(feed) && n <= |feed.groups|
  {
    forall id :: id in t2.items ==> t2.items[id].state == AskedByAll(t2, feed, id, StateIn(t, id), n)
  }

  /** Earlier groups ask the same after a later group. */
  lemma {:induction false} AskedTheSame(
    sha: Text -> Digest, t1: Tables, t2: Tables, feed: Feed, id: Text, found: ItemState, n: nat, g: nat, itemId: Text)
    requires Decoded(feed) && n <= g < |feed.groups|
    requires LeavesOthers(t1, t2, feed, feed.groups[g].records, itemId)
    requires forall k :: k in t1.sources ==> t1.sources[k].itemId in t1.items
    ensures AskedByAll(t1, feed, id, found, n) == AskedByAll(t2, feed, id, found, n)
  {
    hide LeavesOthers, DecodedGroup, Apart, ReconcileAgain.Stored, ItemIdOf, AllAccepted, StoredItem, AskedBy;
    if n > 0 {
      AskedTheSame(sha, t1, t2, feed, id, found, n - 1, g, itemId);
      assert DecodedGroup(feed.groups[n - 1]) && Apart(feed.groups[n - 1], feed.groups[g]);
      GroupHasRecords(feed.groups[n - 1]);
      OthersAreKept(sha, t1, t2, feed, feed.groups[g], feed.groups[n - 1], itemId);
    }
  }

  /** Nobody asks anything of an item that is not there. */
  lemma {:induction false} NothingAsked(t: Tables, feed: Feed, id: Text, found: ItemState, n: nat)
    requires Decoded(feed) && n <= |feed.groups| && id !in t.items
    ensures AskedByAll(t, feed, id, found, n) == found
  {
    hide DecodedGroup, Apart, ReconcileAgain.Stored, ItemIdOf, AskedBy;
    if n > 0 {
      NothingAsked(t, feed, id, found, n - 1);
      assert DecodedGroup(feed.groups[n - 1]);
      GroupHasRecords(feed.groups[n - 1]);
      if ReconcileAgain.Stored(t, feed, feed.groups[n - 1]) { StoredItemIsThere(t, feed, feed.groups[n - 1]); }
    }
  }

  lemma LeftOutAsksNothing(w: Work, t: Tables, feed: Feed, n: nat)
    requires InStep(w, feed.project) && Decoded(feed) && n < |feed.groups|
    requires feed.groups[n].records != [] && LeftOut(w, feed, feed.groups[n]) && AllAsked(t, w.tables, feed, n)
    ensures AllAsked(t, w.tables, feed, n + 1)
  {
    hide InStep, DecodedGroup, Apart, ReconcileAgain.Stored, PrefixTaken, AskedBy;
    var g := feed.groups[n];
    assert DecodedGroup(g);
    HeldPrefix(w, feed, g);
    if ReconcileAgain.Stored(w.tables, feed, g) { StoredTakesPrefix(w.tables, feed, g); }
  }

  lemma GroupAsks(sha: Text -> Digest, uuid: Text -> Uuid, t: Tables, w: Work, feed: Feed, n: nat)
    requires InStep(w, feed.project) && ShortStatus(feed) && Decoded(feed) && n < |feed.groups|
    requires ReconcileGroup(sha, uuid, w, feed, feed.groups[n]).Ok? && AllAsked(t, w.tables, feed, n)
    requires forall id :: id in t.items ==> id in w.tables.items
    ensures AllAsked(t, ReconcileGroup(sha, uuid, w, feed, feed.groups[n]).value.tables, feed, n + 1)
  {
    hide InStep, ReconcileGroup, LeftOut, DecodedGroup, Apart, ReconcileAgain.Stored, ItemIdOf, AskedBy, LeavesOthers;
    var g := feed.groups[n];
    assert DecodedGroup(g);
    GroupHasRecords(g);
    if LeftOut(w, feed, g) {
      DecodedGroupWork(sha, uuid, w, feed, g);
      LeftOutAsksNothing(w, t, feed, n);
    } else {
      var t2 := ReconcileGroup(sha, uuid, w, feed, g).value.tables;
      GroupSettles(sha, uuid, w, feed, g);
      SettlingLeavesOthers(sha, uuid, w, feed, g);
      SourcesNameItems(w, feed.project);
      forall id | id in t2.items
        ensures t2.items[id].state == AskedByAll(t2, feed, id, StateIn(t, id), n + 1)
      {
        AskedTheSame(sha, w.tables, t2, feed, id, StateIn(t, id), n, n, ItemIdOf(t2, feed, g));
        if id !in w.tables.items { NothingAsked(w.tables, feed, id, StateIn(t, id), n); }
      }
    }
  }

  lemma {:induction false} GroupsAsk(sha: Text -> Digest, uuid: Text -> Uuid, w: Work, feed: Feed, n: nat)
    requires InStep(w, feed.project) && ShortStatus(feed) && Decoded(feed) && n <= |feed.groups|
    requires ReconcileGroups(sha, uuid, w, feed, feed.groups[..n]).Ok?
    ensures AllAsked(w.tables, ReconcileGroups(sha, uuid, w, feed, feed.groups[..n]).value.tables, feed, n)
    ensures forall id :: id in w.tables.items ==>
              id in ReconcileGroups(sha, uuid, w, feed, feed.groups[..n]).value.tables.items
  {
    hide InStep, ReconcileGroup, DecodedGroup, Apart, AllAsked, Evolves;
    if n == 0 {
      NobodyAsked(w.tables, feed);
    } else {
      assert feed.groups[..n][..n - 1] == feed.groups[..n - 1];
      assert feed.groups[..n][n - 1] == feed.groups[n - 1];
      GroupsAsk(sha, uuid, w, feed, n - 1);
      GroupsKeepInStep(sha, uuid, w, feed, feed.groups[..n - 1]);
      var w1 := ReconcileGroups(sha, uuid, w, feed, feed.groups[..n - 1]).value;
      GroupAsks(sha, uuid, w.tables, w1, feed, n - 1);
      GroupKeepsInStep(sha, uuid, w1, feed, feed.groups[n - 1]);
      ItemsStay(w1.tables, ReconcileGroup(sha, uuid, w1, feed, feed.groups[n - 1]).value.tables, feed);
    }
  }

  lemma ItemsStay(t: Tables, t2: Tables, feed: Feed)
    requires Evolves(t, t2, feed.project, feed.observedAt)
    ensures forall id :: id in t.items ==> id in t2.items
  {
    hide Grown, Stamped, Dated;
  }

  lemma NobodyAsked(t: Tables, feed: Feed)
    requires Decoded(feed)
    ensures AllAsked(t, t, feed, 0)
  {
  }

  /** A reconciled snapshot leaves every item, of whatever project, in the state its groups ask of it one after the
      other, from the state it was found in - and every item none of its stored sources names as it was. */
  lemma SnapshotSettles(sha: Text -> Digest, uuid: Text -> Uuid, t: Tables, st: Backlog, feed: Feed)
    requires LedgerSound(t) && Represents(t, feed.project, st) && ShortStatus(feed) && Decoded(feed)
    requires ReconcileStep(sha, uuid, t, st, feed).Ok?
    ensures AllAsked(t, ReconcileStep(sha, uuid, t, st, feed).value.0, feed, |feed.groups|)
  {
    hide LedgerSound, Represents, ReconcileGroup, DecodedGroup, Apart, AllAsked, Evolves;
    assert feed.groups[..|feed.groups|] == feed.groups;
    GroupsAsk(sha, uuid, Work(t, st), feed, |feed.groups|);
  }

  // ----- one reported item of a snapshot -----

  /** No other group's last source names the item. */
  predicate OnlyAsker(t2: Tables, feed: Feed, id: Text, i: nat)
    requires Decoded(feed) && i < |feed.groups|
  {
    forall j :: 0 <= j < |feed.groups| && j != i ==> !AsksOf(t2, feed, id, j)
  }

  predicate AsksOf(t2: Tables, feed: Feed, id: Text, j: nat)
    requires Decoded(feed) && j < |feed.groups|
  {
    assert DecodedGroup(feed.groups[j]);
    ReconcileAgain.Stored(t2, feed, feed.groups[j]) && ItemIdOf(t2, feed, feed.groups[j]) == id
  }

  lemma {:induction false} AskedOnce(t2: Tables, feed: Feed, id: Text, found: ItemState, i: nat, n: nat)
    requires Decoded(feed) && i < |feed.groups| && n <= |feed.groups|
    requires OnlyAsker(t2, feed, id, i) && AsksOf(t2, feed, id, i) && feed.groups[i].records != []
    ensures AskedByAll(t2, feed, id, found, n) == if i < n then AskedBy(found, feed, feed.groups[i]) else found
  {
    hide DecodedGroup, Apart, ReconcileAgain.Stored, ItemIdOf, AskedBy;
    if n > 0 {
      AskedOnce(t2, feed, id, found, i, n - 1);
      assert n - 1 != i ==> !AsksOf(t2, feed, id, n - 1);
    }
  }

  /** A group is left out exactly when it reports closed work and no source of its project has its prefix. */
  lemma LeftOutIff(w: Work, feed: Feed, group: Group)
    requires InStep(w, feed.project) && group.records != []
    ensures LeftOut(w, feed, group) <==>
            (group.records[0].status == FeedCompleted || group.records[0].status == FeedCancelled)
            && !PrefixTaken(w.tables, feed, group)
  {
    hide InStep, FindByPrefix, PrefixTaken;
    HeldPrefix(w, feed, group);
  }

  // ----- which item a record's source names -----

  /** A reported record as the work it may be: of the item it is known to belong to, or of the one with its key. */
  function Reported(feed: Feed, uuid: Text -> Uuid, key: Text, itemId: Option<Text>, record: FeedRecord): IngestInput {
    IngestInput(uuid(record.sourceId), feed.project, feed.kind, record.sourceId, feed.observedAt, record.priority,
                record.requirements, RoutingOnly,
                if itemId.Some? then ItemId(itemId.value) else CanonicalKey(key), StartReady)
  }

  /** The stored source of a reported record. */
  ghost predicate SourceStored(sha: Text -> Digest, t: Tables, t2: Tables, input: IngestInput, item: Item)
    requires NormalizedRequirements(input.requirements).Ok?
  {
    var key := (input.kind, Trim(input.sourceId));
    && key in t2.sources && t2.sources == t.sources[key := t2.sources[key]]
    && SourceTells(sha, t2.sources[key], input) && t2.sources[key].itemId == item.id
    && t2.items == t.items[item.id := item]
  }

  /** What ingesting a record whose source is new does: the source names the item in hand, if there is one, and that
      item takes it in; otherwise an open item whose canonical key or requirements are the record's, or a new one. */
  ghost predicate RecordJoined(
    sha: Text -> Digest, w: Work, t2: Tables, input: IngestInput, item: Item)
  {
    && NormalizedRequirements(input.requirements).Ok?
    && SourceStored(sha, w.tables, t2, input, item)
    && if exists known :: known in w.held.items && IsWorkOf(sha, w.held, input, known) then
         exists known :: known in w.held.items && IsWorkOf(sha, w.held, input, known) && TakesIn(known, item, input)
           && item.id in w.tables.items && w.tables.items[item.id] == known
       else item.id !in w.tables.items && Begins(sha, item, input)
  }

  lemma RecordJoins(
    sha: Text -> Digest, uuid: Text -> Uuid, w: Work, feed: Feed, key: Text, item: Option<Item>, record: FeedRecord)
    requires InStep(w, feed.project) && IsIdentifier(record.sourceId) && !RecordStored(w.tables, feed, record)
    requires IngestRecord(sha, uuid, w, feed, key, item, record).Ok?
    ensures var (w2, item2) := IngestRecord(sha, uuid, w, feed, key, item, record).value;
            RecordJoined(sha, w, w2.tables,
                         Reported(feed, uuid, key, if item.Some? then Some(item.value.id) else None, record), item2)
  {
    hide Ingest, IngestStep, RequirementsOf, InStep, NormalizedRequirements, IsWorkOf, TakesIn, Begins, Trim,
         SourceTells, RequirementTells, Requirements;
    var input := Reported(feed, uuid, key, if item.Some? then Some(item.value.id) else None, record);
    assert input == RecordInput(feed, uuid, key, item, record);
    var r := Ingest(sha, w.held, input).value;
    IdentifierIsTrimmed(record.sourceId);
    HeldSource(w, feed, record);
    IngestedRequirementsTell(sha, w.held, input);
    IngestedItem(sha, w.held, input);
    NewSourceRow(w.tables, w.held, r);
    NewSourceKey(sha, NewSource(w.held, r), input);
    if !r.created {
      var known :| known in w.held.items && IsWorkOf(sha, w.held, input, known) && TakesIn(known, r.item, input);
      TakenItem(known, r.item, input);
      HeldItemHasItsRow(w, feed.project, known);
    }
  }

  // ----- who recorded the steps -----

  /** Every step recorded since is the actor's. */
  ghost predicate RecordedBy(t: Tables, t2: Tables, actor: Text) {
    && t.transitions <= t2.transitions
    && forall n :: |t.transitions| <= n < |t2.transitions| ==> t2.transitions[n].actor == actor
  }

  lemma {:induction false} RecordsRecordNothing(
    sha: Text -> Digest, uuid: Text -> Uuid, w: Work, feed: Feed, key: Text, item: Option<Item>,
    records: seq<FeedRecord>)
    requires IngestRecords(sha, uuid, w, feed, key, item, records).Ok?
    ensures IngestRecords(sha, uuid, w, feed, key, item, records).value.0.tables.transitions == w.tables.transitions
    decreases |records|
  {
    hide Ingest, Fits, InsertRows;
    if records != [] {
      var (w2, item2) := IngestRecord(sha, uuid, w, feed, key, item, records[0]).value;
      RecordsRecordNothing(sha, uuid, w2, feed, key, Some(item2), records[1..]);
    }
  }

  lemma GroupRecords(sha: Text -> Digest, uuid: Text -> Uuid, w: Work, feed: Feed, group: Group)
    requires ReconcileGroup(sha, uuid, w, feed, group).Ok?
    ensures RecordedBy(w.tables, ReconcileGroup(sha, uuid, w, feed, group).value.tables, Trim(feed.actor))
  {
    hide IngestRecords, GroupEvent, NextState, EventEntries, IsIdentifier, HasUnsafeControl, InsertRows, FindByPrefix,
         FindItem, Trim;
    var existing := FindByPrefix(w.held.sources, feed.kind, group.prefix);
    if !(group.records[0].status.Closed() && existing.None?) {
      var known := if existing.Some? then FindItem(w.held.items, existing.value.itemId) else None;
      RecordsRecordNothing(sha, uuid, w, feed, group.key, known, group.records);
    }
  }

  lemma {:induction false} GroupsRecord(
    sha: Text -> Digest, uuid: Text -> Uuid, w: Work, feed: Feed, groups: seq<Group>)
    requires ReconcileGroups(sha, uuid, w, feed, groups).Ok?
    ensures RecordedBy(w.tables, ReconcileGroups(sha, uuid, w, feed, groups).value.tables, Trim(feed.actor))
    decreases |groups|
  {
    hide ReconcileGroup, Trim;
    if groups != [] {
      GroupsRecord(sha, uuid, w, feed, groups[..|groups| - 1]);
      GroupRecords(sha, uuid, ReconcileGroups(sha, uuid, w, feed, groups[..|groups| - 1]).value, feed,
                   groups[|groups| - 1]);
    }
  }

  // ----- the calls -----

  lemma FeedIsDone(env: Env, t: Tables, op: Op, t2: Tables) returns (st: Backlog)
    requires Sound(t) && (op.OpCanonical? || op.OpBranch?) && Done(env, t, op, t2)
    ensures LedgerSound(t) && Represents(t, op.project, st)
    ensures ReconcileStep(env.sha, op.uuids, t, st, FeedOf(op)).Ok?
    ensures t2 == ReconcileStep(env.sha, op.uuids, t, st, FeedOf(op)).value.0
  {
    hide LedgerSound, SeatRows, RequestRows, Done, Represents, ReconcileStep, FeedOf;
    st := DoneIngest(env, t, op, t2);
  }

  /** The record's source is stored, with this item of the project. */
  predicate NamesItem(t: Tables, project: Text, kind: SourceKind, record: FeedRecord, id: Text) {
    (kind, record.sourceId) in t.sources && t.sources[(kind, record.sourceId)].itemId == id && InProject(t, project, id)
  }

  ghost predicate CanonicalIsSettled(t: Tables, t2: Tables, op: Op, i: nat, id: Text)
    requires op.OpCanonical? && i < |op.records|
  {
    var (name, record) := op.records[i];
    && id in t2.items
    && t2.items[id].state
       == Asked(StateIn(t, id), record.status, record.reason, KindName(op.kind) + Ascii("-status"),
                op.scopeId + [COLON] + name)
    && RecordedBy(t, t2, Trim(KindName(op.kind) + Ascii("-adapter")))
  }

  /** After a tracker or document snapshot, an item that one reported record alone names is in the state this record
      asks of it: closed with the report as evidence, blocked for its reason, or open and no longer blocked. */
  lemma CanonicalSettles(env: Env, t: Tables, op: Op, t2: Tables, i: nat, id: Text)
    requires Sound(t) && op.OpCanonical? && Done(env, t, op, t2) && DecodedSnapshot(op.scopeId, op.records)
    requires i < |op.records| && NamesItem(t2, op.project, op.kind, op.records[i].1, id)
    requires forall j :: 0 <= j < |op.records| && j != i ==> !NamesItem(t2, op.project, op.kind, op.records[j].1, id)
    ensures CanonicalIsSettled(t, t2, op, i, id)
  {
    hide Sound, Done, ReconcileStep, Decoded, DecodedSnapshot, Asked, AskedByAll, Represents, LedgerSound, Trim,
         RecordedBy;
    var st := FeedIsDone(env, t, op, t2);
    var feed := FeedOf(op);
    DecodedFeeds(op.project, op.kind, op.scopeId, op.observedAt, op.records);
    FeedsHaveShortStatus(op);
    SnapshotSettles(env.sha, op.uuids, t, st, feed);
    CanonicalGroupsAre(op);
    CanonicalAskers(t2, op, i, id);
    AskedOnce(t2, feed, id, StateIn(t, id), i, |feed.groups|);
    FeedRecords(env, t, op, t2, st);
  }

  lemma FeedRecords(env: Env, t: Tables, op: Op, t2: Tables, st: Backlog)
    requires (op.OpCanonical? || op.OpBranch?) && ReconcileStep(env.sha, op.uuids, t, st, FeedOf(op)).Ok?
    requires t2 == ReconcileStep(env.sha, op.uuids, t, st, FeedOf(op)).value.0
    ensures RecordedBy(t, t2, Trim(FeedOf(op).actor))
  {
    hide ReconcileGroups, FeedOf, Trim, Loadable, RecordedBy;
    GroupsRecord(env.sha, op.uuids, Work(t, st), FeedOf(op), FeedOf(op).groups);
  }

  lemma CanonicalGroupsAre(op: Op)
    requires op.OpCanonical? && DecodedSnapshot(op.scopeId, op.records)
    ensures var feed := FeedOf(op);
            && feed.project == op.project && feed.kind == op.kind && |feed.groups| == |op.records|
            && feed.statusKind == KindName(op.kind) + Ascii("-status")
            && feed.actor == KindName(op.kind) + Ascii("-adapter")
            && forall j :: 0 <= j < |op.records| ==>
                 feed.groups[j].records == [op.records[j].1]
                 && feed.groups[j].ref == op.scopeId + [COLON] + op.records[j].0
  {
    hide Regroup, KindName, Ascii;
    RegroupDistinct(op.records);
  }

  lemma CanonicalAskers(t2: Tables, op: Op, i: nat, id: Text)
    requires op.OpCanonical? && DecodedSnapshot(op.scopeId, op.records) && Decoded(FeedOf(op)) && i < |op.records|
    requires NamesItem(t2, op.project, op.kind, op.records[i].1, id)
    requires forall j :: 0 <= j < |op.records| && j != i ==> !NamesItem(t2, op.project, op.kind, op.records[j].1, id)
    ensures |FeedOf(op).groups| == |op.records|
    ensures AsksOf(t2, FeedOf(op), id, i) && OnlyAsker(t2, FeedOf(op), id, i)
  {
    hide FeedOf, Decoded, DecodedSnapshot;
    CanonicalGroupsAre(op);
    forall j | 0 <= j < |op.records|
      ensures AsksOf(t2, FeedOf(op), id, j) <==> NamesItem(t2, op.project, op.kind, op.records[j].1, id)
    {
      SingleAsker(t2, FeedOf(op), id, j, op.records[j].1);
    }
  }

  lemma SingleAsker(t2: Tables, feed: Feed, id: Text, j: nat, record: FeedRecord)
    requires Decoded(feed) && j < |feed.groups| && feed.groups[j].records == [record]
    ensures AsksOf(t2, feed, id, j) <==> NamesItem(t2, feed.project, feed.kind, record, id)
  {
    hide Decoded;
    var group := feed.groups[j];
    assert Last(group) == record;
    assert ReconcileAgain.Stored(t2, feed, group) <==> RecordStored(t2, feed, record) by {
      assert group.records[0] == record;
    }
  }

  /** After a branch snapshot, an item that the last pages of one todo alone name is in the state this todo asks. */
  lemma BranchSettles(env: Env, t: Tables, op: Op, t2: Tables, g: nat, id: Text)
    requires Sound(t) && op.OpBranch? && Done(env, t, op, t2) && DecodedTodos(op.records)
    requires g < |Regroup(op.records)| && NamesLast(t2, op, g, id)
    requires forall j :: 0 <= j < |Regroup(op.records)| && j != g ==> !NamesLast(t2, op, j, id)
    ensures TodoIsSettled(t, t2, op, g, id)
  {
    hide Sound, Done, ReconcileStep, Decoded, DecodedTodos, Asked, AskedByAll, Represents, LedgerSound, Trim, Regroup,
         RecordedBy, ShortStatus;
    var st := FeedIsDone(env, t, op, t2);
    var feed := FeedOf(op);
    DecodedFeeds(op.project, BranchTodo, [], op.observedAt, op.records);
    FeedsHaveShortStatus(op);
    SnapshotSettles(env.sha, op.uuids, t, st, feed);
    BranchGroupsAre(op);
    forall j | 0 <= j < |feed.groups|
      ensures AsksOf(t2, feed, id, j) <==> NamesLast(t2, op, j, id)
    {
      LastPageAsks(t2, op, j, id);
    }
    NamedIsStored(t2, op, g, id);
    AskedOnce(t2, feed, id, StateIn(t, id), g, |feed.groups|);
    FeedRecords(env, t, op, t2, st);
  }

  ghost predicate TodoIsSettled(t: Tables, t2: Tables, op: Op, g: nat, id: Text)
    requires op.OpBranch? && g < |Regroup(op.records)|
  {
    var (todo, pages) := Regroup(op.records)[g];
    && id in t2.items
    && t2.items[id].state
       == Asked(StateIn(t, id), pages[0].status, pages[0].reason, Ascii("branch-todo-status"), todo)
    && RecordedBy(t, t2, Trim(Ascii("branch-todo-adapter")))
  }

  /** All pages of the todo are stored, and the source of the last one names the item. */
  predicate NamesLast(t: Tables, op: Op, g: nat, id: Text)
    requires op.OpBranch? && g < |Regroup(op.records)|
  {
    var pages := Regroup(op.records)[g].1;
    && (forall a :: 0 <= a < |pages| ==>
          (BranchTodo, pages[a].sourceId) in t.sources
          && InProject(t, op.project, t.sources[(BranchTodo, pages[a].sourceId)].itemId))
    && t.sources[(BranchTodo, pages[|pages| - 1].sourceId)].itemId == id
  }

  lemma NamedIsStored(t: Tables, op: Op, g: nat, id: Text)
    requires op.OpBranch? && g < |Regroup(op.records)| && NamesLast(t, op, g, id)
    ensures id in t.items
  {
    hide Regroup;
  }

  lemma BranchGroupsAre(op: Op)
    requires op.OpBranch?
    ensures var feed := FeedOf(op);
            && feed.project == op.project && feed.kind == BranchTodo && |feed.groups| == |Regroup(op.records)|
            && feed.statusKind == Ascii("branch-todo-status") && feed.actor == Ascii("branch-todo-adapter")
            && forall j :: 0 <= j < |feed.groups| ==>
                 feed.groups[j].ref == Regroup(op.records)[j].0
                 && SamePages(feed.groups[j].records, Regroup(op.records)[j].1)
  {
    hide Regroup, Ascii;
  }

  /** The same sources, statuses and reasons. */
  predicate SamePages(a: seq<FeedRecord>, b: seq<FeedRecord>) {
    |a| == |b| && forall i :: 0 <= i < |a| ==>
                    a[i].sourceId == b[i].sourceId && a[i].status == b[i].status && a[i].reason == b[i].reason
  }

  lemma LastPageAsks(t2: Tables, op: Op, j: nat, id: Text)
    requires op.OpBranch? && Decoded(FeedOf(op)) && j < |FeedOf(op).groups|
    ensures j < |Regroup(op.records)|
    ensures AsksOf(t2, FeedOf(op), id, j) <==> NamesLast(t2, op, j, id)
  {
    hide Regroup, Decoded, FeedOf;
    BranchGroupsAre(op);
    PagesAsk(t2, FeedOf(op), id, j, Regroup(op.records)[j].1);
  }

  lemma PagesAsk(t2: Tables, feed: Feed, id: Text, j: nat, pages: seq<FeedRecord>)
    requires Decoded(feed) && j < |feed.groups| && SamePages(feed.groups[j].records, pages) && pages != []
    ensures AsksOf(t2, feed, id, j) <==>
            && (forall a :: 0 <= a < |pages| ==>
                  (feed.kind, pages[a].sourceId) in t2.sources
                  && InProject(t2, feed.project, t2.sources[(feed.kind, pages[a].sourceId)].itemId))
            && t2.sources[(feed.kind, pages[|pages| - 1].sourceId)].itemId == id
  {
    hide Decoded;
    var group := feed.groups[j];
    forall a | 0 <= a < |pages|
      ensures RecordStored(t2, feed, group.records[a]) <==>
                (feed.kind, pages[a].sourceId) in t2.sources
                && InProject(t2, feed.project, t2.sources[(feed.kind, pages[a].sourceId)].itemId)
    {
    }
  }

  // ----- the pages of one group share an item -----

  predicate DistinctSources(records: seq<FeedRecord>) {
    forall a, b :: 0 <= a < b < |records| ==> records[a].sourceId != records[b].sourceId
  }

  ghost predicate SharesItem(t: Tables, t2: Tables, feed: Feed, records: seq<FeedRecord>, a: nat, itemId: Option<Text>)
    requires a < |records|
  {
    !RecordStored(t, feed, records[a]) ==>
      && RecordKey(feed, records[a]) in t2.sources
      && (a == 0 && itemId.Some? ==> t2.sources[RecordKey(feed, records[a])].itemId == itemId.value)
      && (a > 0 ==> RecordKey(feed, records[a - 1]) in t2.sources
                    && t2.sources[RecordKey(feed, records[a])].itemId
                       == t2.sources[RecordKey(feed, records[a - 1])].itemId)
  }

  function IdOf(item: Option<Item>): Option<Text> {
    if item.Some? then Some(item.value.id) else None
  }

  lemma JoinedInHand(sha: Text -> Digest, w: Work, t2: Tables, feed: Feed, uuid: Text -> Uuid, key: Text,
                     itemId: Option<Text>, record: FeedRecord, item: Item)
    requires IsIdentifier(record.sourceId) && RecordJoined(sha, w, t2, Reported(feed, uuid, key, itemId, record), item)
    ensures RecordKey(feed, record) in t2.sources && t2.sources[RecordKey(feed, record)].itemId == item.id
    ensures itemId.Some? ==> item.id == Trim(itemId.value)
  {
    hide NormalizedRequirements, Requirements, Trim, SourceTells;
    IdentifierIsTrimmed(record.sourceId);
  }

  /** Of the records of a group, a new one joins the item of the one before it, and the first the item in hand. */
  lemma {:induction false} RecordsShareAnItem(
    sha: Text -> Digest, uuid: Text -> Uuid, w: Work, feed: Feed, key: Text, item: Option<Item>,
    records: seq<FeedRecord>)
    requires InStep(w, feed.project) && AllIdentifiers(records) && DistinctSources(records)
    requires item.Some? ==> IsIdentifier(item.value.id)
    requires IngestRecords(sha, uuid, w, feed, key, item, records).Ok?
    ensures forall a :: 0 <= a < |records| ==>
              SharesItem(w.tables, IngestRecords(sha, uuid, w, feed, key, item, records).value.0.tables, feed, records,
                         a, IdOf(item))
    decreases |records|
  {
    hide InStep, IngestRecord, IsIdentifier, StoredAccepted, RecordJoined, Size, SharesItem, OnlyAdds, RecordStored,
         NewAreReady;
    if records != [] {
      var record, rest := records[0], records[1..];
      var (w1, item1) := IngestRecord(sha, uuid, w, feed, key, item, record).value;
      RecordOutcome(sha, uuid, w, feed, key, item, record);
      RecordOnlyAdds(sha, uuid, w, feed, key, item, record);
      HeldIsIdentifier(sha, uuid, w, feed, key, item, record);
      RecordsShareAnItem(sha, uuid, w1, feed, key, Some(item1), rest);
      RecordsStartReady(sha, uuid, w1, feed, key, Some(item1), rest);
      var w2 := IngestRecords(sha, uuid, w1, feed, key, Some(item1), rest).value.0;
      FirstKey(sha, uuid, w, feed, key, item, record);
      SourcesStay(w1.tables, w2.tables, feed, rest);
      SourcesNameItems(w, feed.project);
      assert IdOf(Some(item1)) == Some(item1.id);
      SharesCompose(w.tables, w1.tables, w2.tables, feed, records, IdOf(item), item1.id);
    }
  }

  lemma SharesCompose(
    t: Tables, t1: Tables, t2: Tables, feed: Feed, records: seq<FeedRecord>, itemId: Option<Text>, first: Text)
    requires records != [] && DistinctSources(records) && OnlyAdds(t, t1, feed, [records[0]])
    requires forall k :: k in t.sources ==> t.sources[k].itemId in t.items
    requires forall k :: k in t1.sources ==> k in t2.sources && t2.sources[k] == t1.sources[k]
    requires RecordKey(feed, records[0]) in t1.sources && t1.sources[RecordKey(feed, records[0])].itemId == first
    requires !RecordStored(t, feed, records[0]) && itemId.Some? ==> first == itemId.value
    requires forall a :: 0 <= a < |records[1..]| ==> SharesItem(t1, t2, feed, records[1..], a, Some(first))
    ensures forall a :: 0 <= a < |records| ==> SharesItem(t, t2, feed, records, a, itemId)
  {
    hide RecordStored, OnlyAdds;
    forall a | 0 <= a < |records|
      ensures SharesItem(t, t2, feed, records, a, itemId)
    {
      if a > 0 {
        assert SharesItem(t1, t2, feed, records[1..], a - 1, Some(first));
        assert records[1..][a - 1] == records[a];
        if RecordStored(t1, feed, records[a]) { OneKeyAdded(t, t1, feed, records, a); }
      }
    }
  }

  lemma SourcesStay(t: Tables, t2: Tables, feed: Feed, records: seq<FeedRecord>)
    requires records == [] ==> t2 == t
    requires records != [] ==> OnlyAdds(t, t2, feed, records)
    ensures forall k :: k in t.sources ==> k in t2.sources && t2.sources[k] == t.sources[k]
  {
    hide Names;
  }

  /** The first record's source is stored with its item, which is the one in hand if the record was new. */
  lemma FirstKey(
    sha: Text -> Digest, uuid: Text -> Uuid, w: Work, feed: Feed, key: Text, item: Option<Item>, record: FeedRecord)
    requires InStep(w, feed.project) && IsIdentifier(record.sourceId) && (item.Some? ==> IsIdentifier(item.value.id))
    requires IngestRecord(sha, uuid, w, feed, key, item, record).Ok?
    ensures var (w1, item1) := IngestRecord(sha, uuid, w, feed, key, item, record).value;
            && RecordKey(feed, record) in w1.tables.sources
            && w1.tables.sources[RecordKey(feed, record)].itemId == item1.id
            && (!RecordStored(w.tables, feed, record) && item.Some? ==> item1.id == item.value.id)
  {
    hide InStep, IngestRecord, IsIdentifier, RecordJoined, Accepted, Size;
    RecordOutcome(sha, uuid, w, feed, key, item, record);
    var (w1, item1) := IngestRecord(sha, uuid, w, feed, key, item, record).value;
    NamedItem(w1, feed, record);
    if !RecordStored(w.tables, feed, record) {
      RecordJoins(sha, uuid, w, feed, key, item, record);
      JoinedInHand(sha, w, w1.tables, feed, uuid, key, IdOf(item), record, item1);
      if item.Some? { IdentifierIsTrimmed(item.value.id); }
    }
  }

  lemma NamedItem(w: Work, feed: Feed, record: FeedRecord)
    requires InStep(w, feed.project) && RecordStored(w.tables, feed, record)
    ensures RecordItem(w.tables, feed, record).id == w.tables.sources[RecordKey(feed, record)].itemId
  {
  }

  lemma HeldIsIdentifier(
    sha: Text -> Digest, uuid: Text -> Uuid, w: Work, feed: Feed, key: Text, item: Option<Item>, record: FeedRecord)
    requires InStep(w, feed.project) && IngestRecord(sha, uuid, w, feed, key, item, record).Ok?
    ensures IsIdentifier(IngestRecord(sha, uuid, w, feed, key, item, record).value.1.id)
  {
    hide LedgerSound, Represents, IngestRecord, Evolves;
    RecordKeepsInStep(sha, uuid, w, feed, key, item, record);
    var (w1, item1) := IngestRecord(sha, uuid, w, feed, key, item, record).value;
    ItemIsSafe(w1.tables, item1);
  }

  /** A later record that was new is new after the first. */
  lemma OneKeyAdded(t: Tables, t1: Tables, feed: Feed, records: seq<FeedRecord>, a: nat)
    requires records != [] && 0 < a < |records| && DistinctSources(records)
    requires OnlyAdds(t, t1, feed, [records[0]]) && RecordStored(t1, feed, records[a])
    requires forall k :: k in t.sources ==> t.sources[k].itemId in t.items
    ensures RecordStored(t, feed, records[a])
  {
    assert !Names(feed, [records[0]], RecordKey(feed, records[a]));
  }

  /** A stored source with the group's prefix names the item. */
  ghost predicate NamedByPrefix(t: Tables, feed: Feed, group: Group, id: Text) {
    exists k :: k in t.sources && k.0 == feed.kind && StartsWith(k.1, group.prefix) && t.sources[k].itemId == id
  }

  /** All new sources of a group name one item: the one an earlier source with the group's prefix names, if there is
      one, or else whichever the first of them joined; a known source in between hands its own item on. */
  lemma GroupSharesAnItem(sha: Text -> Digest, uuid: Text -> Uuid, w: Work, feed: Feed, group: Group)
    returns (known: Option<Text>)
    requires InStep(w, feed.project) && ShortStatus(feed) && DecodedGroup(group) && DistinctSources(group.records)
    requires ReconcileGroup(sha, uuid, w, feed, group).Ok? && !LeftOut(w, feed, group)
    ensures known.Some? <==> PrefixTaken(w.tables, feed, group)
    ensures known.Some? ==> NamedByPrefix(w.tables, feed, group, known.value)
    ensures forall a :: 0 <= a < |group.records| ==>
              SharesItem(w.tables, ReconcileGroup(sha, uuid, w, feed, group).value.tables, feed, group.records, a,
                         known)
  {
    hide InStep, IngestRecords, MoveItem, IsIdentifier, StartsWith, LeftOut, FindByPrefix, KnownItem, GroupEvent,
         RecordStored, PrefixTaken, SharesItem;
    GroupIdentifiers(group);
    DecodedGroupWork(sha, uuid, w, feed, group);
    var item := KnownItem(w, feed, group);
    known := IdOf(item);
    KnownByPrefix(w, feed, group);
    RecordsShareAnItem(sha, uuid, w, feed, group.key, item, group.records);
    var (w1, item1) := IngestRecords(sha, uuid, w, feed, group.key, item, group.records).value;
    var t2 := ReconcileGroup(sha, uuid, w, feed, group).value.tables;
    assert t2.sources == w1.tables.sources by { MovedSources(sha, uuid, w, feed, group); }
    forall a | 0 <= a < |group.records|
      ensures SharesItem(w.tables, t2, feed, group.records, a, known)
    {
      SharesFrame(w.tables, w1.tables, t2, feed, group.records, a, known);
    }
  }

  lemma SharesFrame(
    t: Tables, t1: Tables, t2: Tables, feed: Feed, records: seq<FeedRecord>, a: nat, itemId: Option<Text>)
    requires a < |records| && SharesItem(t, t1, feed, records, a, itemId) && t2.sources == t1.sources
    ensures SharesItem(t, t2, feed, records, a, itemId)
  {
    hide RecordStored;
  }

  lemma MovedSources(sha: Text -> Digest, uuid: Text -> Uuid, w: Work, feed: Feed, group: Group)
    requires group.records != [] && GroupWork(sha, uuid, w, feed, group).Ok?
    ensures GroupWork(sha, uuid, w, feed, group).value.tables.sources
            == IngestRecords(sha, uuid, w, feed, group.key, KnownItem(w, feed, group), group.records)
               .value.0.tables.sources
  {
    hide IngestRecords, GroupEvent, KnownItem, Identifier, Timestamp, Plan, InsertRows;
  }

  lemma KnownByPrefix(w: Work, feed: Feed, group: Group)
    requires InStep(w, feed.project)
    ensures KnownItem(w, feed, group).Some? <==> PrefixTaken(w.tables, feed, group)
    ensures KnownItem(w, feed, group).Some? ==>
              IsIdentifier(KnownItem(w, feed, group).value.id)
              && NamedByPrefix(w.tables, feed, group, KnownItem(w, feed, group).value.id)
  {
    hide LedgerSound, ItemsMatch, RequirementsMatch, EvidenceMatch, TransitionsMatch, StartsWith, PrefixTaken,
         IsIdentifier;
    HeldPrefix(w, feed, group);
    var found := FindByPrefix(w.held.sources, feed.kind, group.prefix);
    if found.Some? {
      var i :| 0 <= i < |w.held.sources| && w.held.sources[i] == found.value;
      assert KeyOf(found.value) in w.tables.sources;
    }
  }
}
