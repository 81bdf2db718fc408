/** When a project is readable after a snapshot was reconciled with it. */
module SnapshotTimes {
  import opened Wrappers
  import opened Texts
  import opened Ledger
  import opened Tables
  import opened Invariants
  import opened Evolution
  import opened Refinement
  import opened Registry
  import opened Soundness
  import opened Reconcile
  import opened ReconcileAgain

  /** The group has an event for an item in this state. */
  predicate Wants(feed: Feed, group: Group, state: ItemState)
    requires group.records != []
  {
    !state.Terminal? && GroupEvent(feed, group, state).Ok? && GroupEvent(feed, group, state).value.Some?
  }

  /** The i-th group's last source names the item, and the group has an event for the state the item was found in. */
  predicate Settles(t: Tables, t2: Tables, feed: Feed, i: nat, id: Text)
    requires Decoded(feed) && i < |feed.groups| && id in t.items
  {
    var group := feed.groups[i];
    assert DecodedGroup(group);
    Stored(t2, feed, group) && ItemIdOf(t2, feed, group) == id && Wants(feed, group, t.items[id].state)
  }

  ghost predicate Settled(t: Tables, t2: Tables, feed: Feed, id: Text, n: nat)
    requires Decoded(feed) && n <= |feed.groups| && id in t.items
  {
    exists i :: 0 <= i < n && Settles(t, t2, feed, i, id)
  }

  /** What one group does to the time of the item it settles. */
  lemma GroupWrites(sha: Text -> Digest, uuid: Text -> Uuid, w: Work, feed: Feed, group: Group)
    requires InStep(w, feed.project) && ShortStatus(feed) && DecodedGroup(group)
    requires ReconcileGroup(sha, uuid, w, feed, group).Ok? && !LeftOut(w, feed, group)
    ensures var t2 := ReconcileGroup(sha, uuid, w, feed, group).value.tables;
            && Stored(t2, feed, group)
            && var id := ItemIdOf(t2, feed, group);
               id in w.tables.items ==>
                 id in t2.items
                 && if Wants(feed, group, w.tables.items[id].state) then t2.items[id].updatedAt == feed.observedAt
                    else t2.items[id].state == w.tables.items[id].state
                         && t2.items[id].updatedAt >= w.tables.items[id].updatedAt
  {
    hide InStep, IngestRecords, MoveItem, IsIdentifier, StartsWith, LeftOut, Size, FindByPrefix, KnownItem, Consistent,
         GroupEvent, StoredAccepted, RecordStored;
    GroupOutcome(sha, uuid, w, feed, group);
    DecodedGroupWork(sha, uuid, w, feed, group);
    RecordsOutcome(sha, uuid, w, feed, group.key, KnownItem(w, feed, group), group.records);
    var (w1, item) := IngestRecords(sha, uuid, w, feed, group.key, KnownItem(w, feed, group), group.records).value;
    AcceptedAreStored(sha, w1.tables, feed, group.records);
    StoredItemIsNamed(w1, feed, group);
    if !item.value.state.Terminal? {
      var event := GroupEvent(feed, group, item.value.state).value;
      if event.Some? {
        HeldItemHasItsRow(w1, feed.project, item.value);
        MoveWrites(w1, feed, item.value, event.value);
      }
    }
  }

  lemma MoveWrites(w: Work, feed: Feed, item: Item, event: Event)
    requires item.id in w.tables.items && w.tables.items[item.id] == item && MoveItem(w, feed, item, event).Ok?
    ensures var t2 := MoveItem(w, feed, item, event).value.tables;
            t2.sources == w.tables.sources && item.id in t2.items && t2.items[item.id].updatedAt == feed.observedAt
  {
    hide NextState, EventEntries, Identifier, InsertRows, EvidenceRecords;
  }

  /** Where an item stands after some groups: as it was found, or stamped by the snapshot. */
  ghost predicate Tracked(t: Tables, t2: Tables, feed: Feed, id: Text, n: nat)
    requires Decoded(feed) && n <= |feed.groups| && id in t.items
  {
    && id in t2.items
    && if Settled(t, t2, feed, id, n) then t2.items[id].updatedAt == feed.observedAt
       else t2.items[id].state == t.items[id].state && t2.items[id].updatedAt >= t.items[id].updatedAt
  }

  lemma NoGroupTracks(t: Tables, feed: Feed, id: Text)
    requires Decoded(feed) && id in t.items
    ensures Tracked(t, t, feed, id, 0)
  {
  }

  lemma OneMoreSettles(t: Tables, t2: Tables, feed: Feed, id: Text, n: nat)
    requires Decoded(feed) && n < |feed.groups| && id in t.items
    ensures Settled(t, t2, feed, id, n + 1) <==> Settled(t, t2, feed, id, n) || Settles(t, t2, feed, n, id)
  {
    hide Settles;
  }

  lemma LeftOutTracks(w: Work, t: Tables, feed: Feed, id: Text, n: nat)
    requires InStep(w, feed.project) && Decoded(feed) && n < |feed.groups| && id in t.items
    requires feed.groups[n].records != [] && LeftOut(w, feed, feed.groups[n]) && Tracked(t, w.tables, feed, id, n)
    ensures Tracked(t, w.tables, feed, id, n + 1)
  {
    hide InStep, DecodedGroup, Apart, Stored, PrefixTaken, Wants;
    var g := feed.groups[n];
    assert DecodedGroup(g);
    OneMoreSettles(t, w.tables, feed, id, n);
    HeldPrefix(w, feed, g);
    if Stored(w.tables, feed, g) { StoredTakesPrefix(w.tables, feed, g); }
  }

  /** Earlier groups' sources name the same items after a later group. */
  lemma EarlierSettle(
    sha: Text -> Digest, t: Tables, t1: Tables, t2: Tables, feed: Feed, id: Text, n: nat, itemId: Text)
    requires Decoded(feed) && n < |feed.groups| && id in t.items
    requires LeavesOthers(t1, t2, feed, feed.groups[n].records, itemId)
    requires forall k :: k in t1.sources ==> t1.sources[k].itemId in t1.items
    ensures Settled(t, t1, feed, id, n) <==> Settled(t, t2, feed, id, n)
  {
    hide LeavesOthers, DecodedGroup, Apart, Stored, Wants, ItemIdOf, AllAccepted, StoredItem;
    forall i | 0 <= i < n
      ensures Settles(t, t1, feed, i, id) <==> Settles(t, t2, feed, i, id)
    {
      assert DecodedGroup(feed.groups[i]) && Apart(feed.groups[i], feed.groups[n]);
      GroupHasRecords(feed.groups[i]);
      OthersAreKept(sha, t1, t2, feed, feed.groups[n], feed.groups[i], itemId);
    }
  }

  lemma StampedTime(t: Tables, t2: Tables, project: Text, at: int, id: Text)
    requires Evolves(t, t2, project, at) && id in t.items
    ensures id in t2.items && t2.items[id].createdAt == t.items[id].createdAt
    ensures t2.items[id].updatedAt == at || t2.items[id].updatedAt == t.items[id].updatedAt
    ensures t2.items[id].project == t.items[id].project
  {
    hide Dated;
  }

  lemma GroupTracks(sha: Text -> Digest, uuid: Text -> Uuid, t: Tables, w: Work, feed: Feed, id: Text, n: nat)
    requires InStep(w, feed.project) && ShortStatus(feed) && Decoded(feed) && n < |feed.groups| && id in t.items
    requires ReconcileGroup(sha, uuid, w, feed, feed.groups[n]).Ok? && Tracked(t, w.tables, feed, id, n)
    ensures Tracked(t, ReconcileGroup(sha, uuid, w, feed, feed.groups[n]).value.tables, feed, id, n + 1)
  {
    hide InStep, ReconcileGroup, LeftOut, DecodedGroup, Apart, Wants, Evolves, Stored, ItemIdOf, Settled;
    var g := feed.groups[n];
    assert DecodedGroup(g);
    GroupHasRecords(g);
    if LeftOut(w, feed, g) {
      DecodedGroupWork(sha, uuid, w, feed, g);
      LeftOutTracks(w, t, feed, id, n);
    } else {
      var t2 := ReconcileGroup(sha, uuid, w, feed, g).value.tables;
      GroupWrites(sha, uuid, w, feed, g);
      var itemId := ItemIdOf(t2, feed, g);
      SettlingLeavesOthers(sha, uuid, w, feed, g);
      GroupKeepsInStep(sha, uuid, w, feed, g);
      SourcesNameItems(w, feed.project);
      EarlierSettle(sha, t, w.tables, t2, feed, id, n, itemId);
      StampedTime(w.tables, t2, feed.project, feed.observedAt, id);
      OneMoreSettles(t, t2, feed, id, n);
    }
  }

  lemma SettlingLeavesOthers(sha: Text -> Digest, uuid: Text -> Uuid, w: Work, feed: Feed, group: Group)
    requires InStep(w, feed.project) && ShortStatus(feed) && DecodedGroup(group)
    requires ReconcileGroup(sha, uuid, w, feed, group).Ok? && !LeftOut(w, feed, group)
    ensures var t2 := ReconcileGroup(sha, uuid, w, feed, group).value.tables;
            Stored(t2, feed, group)
            && LeavesOthers(w.tables, t2, feed, group.records, ItemIdOf(t2, feed, group))
  {
    hide InStep, ReconcileGroup, LeftOut, LeavesOthers, Stored, Consistent, AllAccepted, Size;
    GroupOutcome(sha, uuid, w, feed, group);
    GroupLeavesOthers(sha, uuid, w, feed, group);
  }

  lemma {:induction false} GroupsTrack(
    sha: Text -> Digest, uuid: Text -> Uuid, w: Work, feed: Feed, id: Text, n: nat)
    requires InStep(w, feed.project) && ShortStatus(feed) && Decoded(feed) && n <= |feed.groups|
    requires id in w.tables.items && ReconcileGroups(sha, uuid, w, feed, feed.groups[..n]).Ok?
    ensures Tracked(w.tables, ReconcileGroups(sha, uuid, w, feed, feed.groups[..n]).value.tables, feed, id, n)
  {
    hide InStep, ReconcileGroup, DecodedGroup, Apart, Tracked, Evolves;
    if n == 0 {
      NoGroupTracks(w.tables, feed, id);
    } else {
      assert feed.groups[..n][..n - 1] == feed.groups[..n - 1];
      assert feed.groups[..n][n - 1] == feed.groups[n - 1];
      GroupsTrack(sha, uuid, w, feed, id, n - 1);
      GroupsKeepInStep(sha, uuid, w, feed, feed.groups[..n - 1]);
      var w1 := ReconcileGroups(sha, uuid, w, feed, feed.groups[..n - 1]).value;
      GroupTracks(sha, uuid, w.tables, w1, feed, id, n - 1);
    }
  }

  /** A readable project is readable after a snapshot exactly when no group settles an item, in the state the snapshot
      found it in, that is younger than the snapshot. */
  lemma SnapshotLoadsIff(sha: Text -> Digest, uuid: Text -> Uuid, t: Tables, st: Backlog, feed: Feed)
    requires LedgerSound(t) && Represents(t, feed.project, st) && ShortStatus(feed) && Decoded(feed)
    requires ReconcileStep(sha, uuid, t, st, feed).Ok?
    ensures var t2 := ReconcileStep(sha, uuid, t, st, feed).value.0;
            Loadable(t2, feed.project) <==>
            forall id :: InProject(t, feed.project, id) && Settled(t, t2, feed, id, |feed.groups|) ==>
              t.items[id].createdAt <= feed.observedAt
  {
    hide LedgerSound, Represents, ReconcileGroup, DecodedGroup, Apart, Settled, Evolves;
    var w := Work(t, st);
    assert feed.groups[..|feed.groups|] == feed.groups;
    GroupsKeepInStep(sha, uuid, w, feed, feed.groups);
    var t2 := ReconcileGroups(sha, uuid, w, feed, feed.groups).value.tables;
    forall id | InProject(t, feed.project, id)
      ensures Tracked(t, t2, feed, id, |feed.groups|) && InProject(t2, feed.project, id)
      ensures t2.items[id].createdAt == t.items[id].createdAt
      ensures t2.items[id].updatedAt == feed.observedAt || t2.items[id].updatedAt == t.items[id].updatedAt
    {
      GroupsTrack(sha, uuid, w, feed, id, |feed.groups|);
      StampedTime(t, t2, feed.project, feed.observedAt, id);
    }
    NewItemsAreInOrder(t, t2, feed.project, feed.observedAt);
  }

  lemma NewItemsAreInOrder(t: Tables, t2: Tables, project: Text, at: int)
    requires Evolves(t, t2, project, at)
    ensures forall id :: id in t2.items && t2.items[id].project == project ==>
              InProject(t, project, id) || (id !in t.items && t2.items[id].createdAt == t2.items[id].updatedAt)
  {
    hide Dated;
  }
}
