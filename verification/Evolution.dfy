/** How the ledger rows may change: rows are only added, items only move forward, closed items stay closed. */
module Evolution {
  import opened Wrappers
  import opened Texts
  import opened Ledger
  import opened Tables
  import opened Invariants

  /** One item later on: the same work, never reopened, its closing evidence only extended. */
  predicate Grown(a: Item, b: Item) {
    b == a ||
    (&& b.id == a.id && b.project == a.project && b.dedupeDigest == a.dedupeDigest && b.createdAt == a.createdAt
     && b.revision > a.revision
     && (a.priority.Urgent? ==> b.priority.Urgent?)
     && (a.state.Terminal? ==>
           b.state.Terminal? && b.state.outcome == a.state.outcome && a.state.evidence <= b.state.evidence))
  }

  /** The ledger rows later on: nothing recorded is lost or rewritten. */
  ghost predicate Follows(t: Tables, t2: Tables) {
    && (forall id :: id in t.items ==> id in t2.items && Grown(t.items[id], t2.items[id]))
    && (forall k :: k in t.sources ==> k in t2.sources && t2.sources[k] == t.sources[k])
    && (forall k :: k in t.requirements ==> k in t2.requirements && t2.requirements[k] == t.requirements[k])
    && (forall k :: k in t.evidence ==> k in t2.evidence && t2.evidence[k] == t.evidence[k])
    && t.transitions <= t2.transitions
  }

  /** Only one project's items changed, and every change carries the time of the step. */
  ghost predicate Stamped(t: Tables, t2: Tables, project: Text, at: int) {
    && (forall id :: id in t.items && id in t2.items && t2.items[id] != t.items[id] ==>
          t.items[id].project == project
          && (t2.items[id].updatedAt == at || t2.items[id].updatedAt == t.items[id].updatedAt))
    && (forall id :: id in t2.items && id !in t.items ==>
          t2.items[id].project == project && t2.items[id].createdAt == t2.items[id].updatedAt == at)
  }

  /** A step was recorded for the item. */
  ghost predicate Touched(t: Tables, t2: Tables, id: Text) {
    exists n :: |t.transitions| <= n < |t2.transitions| && t2.transitions[n].itemId == id
  }

  /** Every recorded step carries the time of the step, as its item does afterwards; without one, no item's time
      goes back. */
  ghost predicate Dated(t: Tables, t2: Tables, project: Text, at: int) {
    && (forall n :: |t.transitions| <= n < |t2.transitions| ==>
          var r := t2.transitions[n];
          r.at == at && InProject(t2, project, r.itemId) && t2.items[r.itemId].updatedAt == at)
    && (forall id :: id in t.items && id in t2.items && t2.items[id].updatedAt < t.items[id].updatedAt ==>
          Touched(t, t2, id))
  }

  /** A step of one project's ledger. */
  ghost predicate Evolves(t: Tables, t2: Tables, project: Text, at: int) {
    && Follows(t, t2) && Stamped(t, t2, project, at) && Dated(t, t2, project, at)
    && t2.leases == t.leases && t2.requests == t.requests
  }

  lemma FollowsIsReflexive(t: Tables)
    ensures Follows(t, t)
  {
  }

  lemma FollowsIsTransitive(a: Tables, b: Tables, c: Tables)
    requires Follows(a, b) && Follows(b, c)
    ensures Follows(a, c)
  {
  }

  lemma EvolvesIsReflexive(t: Tables, project: Text, at: int)
    ensures Evolves(t, t, project, at)
  {
  }

  lemma EvolvesIsTransitive(a: Tables, b: Tables, c: Tables, project: Text, at: int)
    requires Evolves(a, b, project, at) && Evolves(b, c, project, at)
    ensures Evolves(a, c, project, at)
  {
    FollowsIsTransitive(a, b, c);
    DatedIsTransitive(a, b, c, project, at);
  }

  lemma DatedIsTransitive(a: Tables, b: Tables, c: Tables, project: Text, at: int)
    requires Follows(a, b) && Dated(a, b, project, at)
    requires Follows(b, c) && Stamped(b, c, project, at) && Dated(b, c, project, at)
    ensures Dated(a, c, project, at)
  {
    forall n | |a.transitions| <= n < |c.transitions|
      ensures c.transitions[n].at == at && InProject(c, project, c.transitions[n].itemId)
      ensures c.items[c.transitions[n].itemId].updatedAt == at
    {
      if n < |b.transitions| { assert c.transitions[n] == b.transitions[n]; }
    }
    forall id | id in a.items && id in c.items && c.items[id].updatedAt < a.items[id].updatedAt
      ensures Touched(a, c, id)
    {
      if b.items[id].updatedAt < a.items[id].updatedAt {
        var n :| |a.transitions| <= n < |b.transitions| && b.transitions[n].itemId == id;
        assert c.transitions[n].itemId == id;
      } else {
        var n :| |b.transitions| <= n < |c.transitions| && c.transitions[n].itemId == id;
      }
    }
  }

  /** A legal step of one item moves the ledger forward. */
  lemma AdvanceEvolves(t: Tables, item: Item, change: Change)
    requires EvidenceRows(t) && item.id in t.items && t.items[item.id] == item && Legal(item, change)
    ensures Evolves(t, AdvanceRow(t, item, change), item.project, change.at)
  {
    hide EvidenceRows, SafeText, StateSafe, EvidenceSafe, ReasonTrimmed, EvidenceRecords;
    AdvancedEvidence(t, item, change);
    var t2 := AdvanceRow(t, item, change);
    assert t2.transitions[|t.transitions|].itemId == item.id;
  }

  /** The item an ingestion writes is the known one, touched now or left at its time, or one created now. */
  predicate WrittenInTime(t: Tables, item: Item, at: int) {
    if item.id in t.items then
      && (t.items[item.id].priority.Urgent? ==> item.priority.Urgent?)
      && (item.updatedAt == at || item.updatedAt == t.items[item.id].updatedAt)
      && item.updatedAt >= t.items[item.id].updatedAt
    else item.createdAt == item.updatedAt == at
  }

  lemma IngestFollows(t: Tables, item: Item, source: Source, records: seq<Requirement>, at: int)
    requires RequirementRows(t) && Ingestible(t, item, source, records) && WrittenInTime(t, item, at)
    ensures Follows(t, IngestRow(t, item, source, records))
  {
    hide RequirementRows, RequirementsOf, OpenTwin, SafeText, IsIdentifier, InsertRows, HasKey;
    IngestedRequirements(t, item, source, records);
  }

  /** So does ingesting a new source, if the item it writes is the known one touched or a new one. */
  lemma IngestEvolves(t: Tables, item: Item, source: Source, records: seq<Requirement>, at: int)
    requires RequirementRows(t) && Ingestible(t, item, source, records) && WrittenInTime(t, item, at)
    ensures Evolves(t, IngestRow(t, item, source, records), item.project, at)
  {
    hide RequirementRows, RequirementsOf, OpenTwin, SafeText, IsIdentifier, InsertRows, Follows;
    IngestFollows(t, item, source, records, at);
  }
}
