/** The writers' row deltas and the in-memory ledger stay one: after every delta, the reader would load
    exactly the state the program already holds (sqlite-store.ts). */
module Refinement {
  import opened Wrappers
  import opened Texts
  import opened Ledger
  import opened Tables
  import opened Invariants

  // ----- deltas refine ledger steps -----

  lemma ReplacedKeepsIds(items: seq<Item>, updated: Item)
    ensures forall i :: 0 <= i < |items| ==> Replace(items, updated)[i].id == items[i].id
  {
  }

  /** Replacing one held item and its row alike. */
  lemma ReplacedItemsMatch(t: Tables, t2: Tables, project: Text, items: seq<Item>, m: nat, updated: Item)
    requires ItemsMatch(t, project, items) && m < |items| && items[m].id == updated.id && updated.project == project
    requires t2.items == t.items[updated.id := updated]
    requires forall id :: id in t.items ==> t.items[id].id == id
    ensures ItemsMatch(t2, project, Replace(items, updated))
  {
    var items2 := Replace(items, updated);
    ReplacedKeepsIds(items, updated);
    assert items2[m] == updated;
    forall i | 0 <= i < |items2|
      ensures InProject(t2, project, items2[i].id) && t2.items[items2[i].id] == items2[i]
    {
      assert InProject(t, project, items[i].id) && t.items[items[i].id] == items[i];
    }
    forall id | InProject(t2, project, id)
      ensures t2.items[id] in items2
    {
      if id == updated.id {
        assert items2[m] in items2;
      } else {
        assert InProject(t, project, id);
        var i :| 0 <= i < |items| && items[i] == t.items[id];
        assert items2[i] == items[i] && items2[i] in items2;
      }
    }
  }

  lemma AdvanceItemsMatch(t: Tables, project: Text, st: Backlog, item: Item, change: Change)
    requires ItemRows(t) && ItemsMatch(t, project, st.items) && item in st.items
    ensures ItemsMatch(AdvanceRow(t, item, change), project, Advance(st, item, change).items)
  {
    hide ItemSafe, ReasonTrimmed, EvidenceRecords, InsertRows, Replace;
    var m :| 0 <= m < |st.items| && st.items[m] == item;
    assert InProject(t, project, item.id);
    ReplacedItemsMatch(t, AdvanceRow(t, item, change), project, st.items, m, Updated(item, change));
  }

  lemma AdvanceEvidenceMatch(t: Tables, project: Text, st: Backlog, item: Item, change: Change)
    requires EvidenceRows(t) && ItemsMatch(t, project, st.items) && item in st.items
    requires EvidenceMatch(t, project, st.evidence)
    ensures EvidenceMatch(AdvanceRow(t, item, change), project, Advance(st, item, change).evidence)
  {
    hide EvidenceRows, EvidenceRecords, InsertRows, DistinctKeys;
    var t2, records := AdvanceRow(t, item, change), EvidenceRecords(item.id, item.revision + 1, change);
    AdvancedEvidence(t, item, change);
    RecordsAreDistinct(item, change);
    ProjectsKept(t, project, st, item, change);
    forall i | 0 <= i < |records|
      ensures records[i].itemId == item.id
    {
      RecordsNameTheirItem(item, change, i);
    }
    assert InProject(t, project, item.id);
    hide AdvanceRow, ItemsMatch, InProject;
    EvidenceIsAppended(t, t2, project, st.evidence, records);
  }

  lemma EvidenceIsAppended(
    t: Tables, t2: Tables, project: Text, before: seq<EvidenceRecord>, records: seq<EvidenceRecord>)
    requires EvidenceMatch(t, project, before) && DistinctKeys(EvidenceKey, records)
    requires forall p, id :: InProject(t2, p, id) <==> InProject(t, p, id)
    requires forall k :: k in t2.evidence <==> k in t.evidence || HasKey(EvidenceKey, records, k)
    requires forall k :: k in t.evidence ==> t2.evidence[k] == t.evidence[k]
    requires forall i :: 0 <= i < |records| ==>
               records[i].id in t2.evidence && t2.evidence[records[i].id] == records[i] && records[i].id !in t.evidence
               && InProject(t, project, records[i].itemId)
    ensures EvidenceMatch(t2, project, before + records)
  {
    hide InProject, DistinctKeys;
    var all := before + records;
    forall k | k in t2.evidence && InProject(t2, project, t2.evidence[k].itemId)
      ensures t2.evidence[k] in all
    {
      if k !in t.evidence {
        var i :| 0 <= i < |records| && EvidenceKey(records[i]) == k;
        assert records[i] in records;
      }
    }
    AppendedStayDistinct(before, records);
  }

  lemma AppendedStayDistinct(before: seq<EvidenceRecord>, records: seq<EvidenceRecord>)
    requires forall i, j :: 0 <= i < j < |before| ==> before[i].id != before[j].id
    requires DistinctKeys(EvidenceKey, records)
    requires forall i, j :: 0 <= i < |before| && 0 <= j < |records| ==> before[i].id != records[j].id
    ensures var all := before + records;
            forall i, j :: 0 <= i < j < |all| ==> all[i].id != all[j].id
  {
    var all := before + records;
    forall i, j | 0 <= i < j < |all|
      ensures all[i].id != all[j].id
    {
      if i >= |before| {
        assert EvidenceKey(records[i - |before|]) != EvidenceKey(records[j - |before|]);
      }
    }
  }

  lemma RecordsNameTheirItem(item: Item, change: Change, i: nat)
    requires i < |change.entries|
    ensures EvidenceRecords(item.id, item.revision + 1, change)[i].itemId == item.id
  {
  }

  lemma {:induction false} TrailHolds(records: seq<TransitionRecord>, itemId: Text, i: nat)
    requires i < |records| && records[i].itemId == itemId
    ensures records[i] in Trail(records, itemId)
  {
    var last := records[|records| - 1];
    if i < |records| - 1 {
      TrailHolds(records[..|records| - 1], itemId, i);
    } else {
      assert Trail(records, itemId)[|Trail(records, itemId)| - 1] == last;
    }
  }

  lemma {:induction false} PathIsBounded(trail: seq<TransitionRecord>, from: StateKind, to: StateKind, bound: nat)
    requires IsPath(trail, from, to, bound)
    ensures forall i :: 0 <= i < |trail| ==> 2 <= trail[i].revision <= bound
  {
    if trail != [] {
      PathIsBounded(trail[..|trail| - 1], from, trail[|trail| - 1].from, trail[|trail| - 1].revision - 1);
    }
  }

  /** No recorded step is at a later revision than its item. */
  lemma StepsAreBounded(t: Tables)
    requires TransitionRows(t) && Paths(t)
    ensures forall i :: 0 <= i < |t.transitions| ==>
              t.transitions[i].revision <= t.items[t.transitions[i].itemId].revision
  {
    forall i | 0 <= i < |t.transitions|
      ensures t.transitions[i].revision <= t.items[t.transitions[i].itemId].revision
    {
      var id := t.transitions[i].itemId;
      assert HasPath(t, id);
      var from :| Initial(from)
        && IsPath(Trail(t.transitions, id), from, t.items[id].state.Kind(), t.items[id].revision);
      PathIsBounded(Trail(t.transitions, id), from, t.items[id].state.Kind(), t.items[id].revision);
      TrailHolds(t.transitions, id, i);
    }
  }

  lemma AdvanceTransitionsMatch(t: Tables, project: Text, st: Backlog, item: Item, change: Change)
    requires TransitionRows(t) && Paths(t) && ItemsMatch(t, project, st.items) && item in st.items
    requires TransitionsMatch(t, project, st.transitions)
    ensures TransitionsMatch(AdvanceRow(t, item, change), project, Advance(st, item, change).transitions)
  {
    hide SafeText, Paths, InsertRows, EvidenceRecords;
    var t2, x := AdvanceRow(t, item, change), Recorded(item, change);
    var transitions2 := st.transitions + [x];
    assert t2.transitions[|t.transitions|] == x;
    forall i | 0 <= i < |t2.transitions| && InProject(t2, project, t2.transitions[i].itemId)
      ensures t2.transitions[i] in transitions2
    {
      if i < |t.transitions| {
        assert InProject(t, project, t.transitions[i].itemId);
      } else {
        assert transitions2[|st.transitions|] == x;
      }
    }
    assert forall i :: 0 <= i < |st.transitions| ==> !SameStep(st.transitions[i], x) by {
      StepIsNew(t, project, st, item, change);
    }
  }

  lemma StepIsNew(t: Tables, project: Text, st: Backlog, item: Item, change: Change)
    requires TransitionRows(t) && Paths(t) && ItemsMatch(t, project, st.items) && item in st.items
    requires TransitionsMatch(t, project, st.transitions)
    ensures forall i :: 0 <= i < |st.transitions| ==> !SameStep(st.transitions[i], Recorded(item, change))
  {
    hide TransitionSafe, Paths;
    StepsAreBounded(t);
    forall i | 0 <= i < |st.transitions|
      ensures !SameStep(st.transitions[i], Recorded(item, change))
    {
      assert st.transitions[i] in t.transitions;
      var k :| 0 <= k < |t.transitions| && t.transitions[k] == st.transitions[i];
    }
  }

  /** Persisting one step writes exactly the difference: the reader then loads the advanced ledger. */
  lemma AdvanceRefines(t: Tables, project: Text, st: Backlog, item: Item, change: Change)
    requires LedgerSound(t) && Represents(t, project, st) && item in st.items
    ensures Represents(AdvanceRow(t, item, change), project, Advance(st, item, change))
  {
    hide ItemRows, SourceRows, RequirementRows, EvidenceRows, TransitionRows, FinalEvidence, Paths, Starts,
         OneOpenPerDigest, References, ItemsMatch, SourcesMatch, RequirementsMatch, EvidenceMatch, TransitionsMatch,
         AdvanceRow;
    AdvanceItemsMatch(t, project, st, item, change);
    AdvanceEvidenceMatch(t, project, st, item, change);
    AdvanceTransitionsMatch(t, project, st, item, change);
    AdvanceLeavesTheRest(t, project, st, item, change);
  }

  lemma AdvanceLeavesTheRest(t: Tables, project: Text, st: Backlog, item: Item, change: Change)
    requires ItemsMatch(t, project, st.items) && item in st.items
    requires SourcesMatch(t, project, st.sources) && RequirementsMatch(t, project, st.requirements)
    ensures var t2 := AdvanceRow(t, item, change);
            SourcesMatch(t2, project, st.sources) && RequirementsMatch(t2, project, st.requirements)
  {
    hide InsertRows, EvidenceRecords, Recorded;
    ProjectsKept(t, project, st, item, change);
  }

  lemma ProjectsKept(t: Tables, project: Text, st: Backlog, item: Item, change: Change)
    requires ItemsMatch(t, project, st.items) && item in st.items
    ensures forall p, id :: InProject(AdvanceRow(t, item, change), p, id) <==> InProject(t, p, id)
  {
  }

  // ----- ingestion refines the ledger's ingestion -----

  function SourceIdOf(input: IngestInput): Text { Trim(input.sourceId) }

  /** The shape of an ingestion: the known source again, or one source with its requirements and one item row. */
  lemma IngestShape(sha: Text -> Digest, st: Backlog, input: IngestInput)
    requires Ingest(sha, st, input).Ok?
    ensures var r := Ingest(sha, st, input).value;
            if FindSource(st.sources, input.kind, SourceIdOf(input)).Some? then
              && r.state == st && !r.created && r.item in st.items && r.item.project == input.project
              && r.item.id == FindSource(st.sources, input.kind, SourceIdOf(input)).value.itemId
            else
              && |r.state.sources| == |st.sources| + 1 && r.state.sources[..|st.sources|] == st.sources
              && |r.state.requirements| >= |st.requirements|
              && r.state.requirements[..|st.requirements|] == st.requirements
              && r.state.evidence == st.evidence && r.state.transitions == st.transitions
              && var source, records := r.state.sources[|st.sources|], r.state.requirements[|st.requirements|..];
                 && KeyOf(source) == (input.kind, SourceIdOf(input)) && source.itemId == r.item.id
                 && IsIdentifier(source.id) && (source.authority.RoutingOnly? || SafeText(source.authority.ref, 1_024))
                 && RequirementsOf(source, records)
  {
    hide RequirementId, DedupeDigest, FindJoined, Join, Collapse;
    var r := Ingest(sha, st, input).value;
    if FindSource(st.sources, input.kind, SourceIdOf(input)).None? {
      var texts := NormalizedRequirements(input.requirements).value;
      var records := RequirementRecords(sha, texts, r.item.id, input.kind, SourceIdOf(input));
      assert r.state.requirements == st.requirements + records;
      assert r.state.requirements[|st.requirements|..] == records;
    }
  }

  /** The item an ingestion of a new source writes: a touched item of the ledger, or a new one no open item matches. */
  lemma IngestItem(sha: Text -> Digest, st: Backlog, input: IngestInput)
    requires Ingest(sha, st, input).Ok? && FindSource(st.sources, input.kind, SourceIdOf(input)).None?
    ensures var r := Ingest(sha, st, input).value;
            if r.created then
              && r.state.items == st.items + [r.item]
              && IsIdentifier(r.item.id) && r.item.id == Trim(input.newItemId) && r.item.project == input.project
              && r.item.revision == 1 && Initial(r.item.state.Kind())
              && r.item.createdAt == r.item.updatedAt == input.observedAt
              && forall other :: other in st.items && other.project == input.project && other.Open()
                   ==> other.dedupeDigest != r.item.dedupeDigest
            else exists known: Item ::
              && known in st.items && r.state.items == Replace(st.items, r.item) && known.id == r.item.id
              && 0 <= input.observedAt && r.item == Joined(known, input.priority, input.observedAt)
  {
    hide RequirementId, NormalizedRequirements, Join, RequirementRecords;
  }

  /** The ingestion the store persists: its item row, its source and its requirement rows. */
  function NewSource(st: Backlog, r: Ingested): Source
    requires |r.state.sources| > |st.sources|
  {
    r.state.sources[|st.sources|]
  }

  function NewRequirements(st: Backlog, r: Ingested): seq<Requirement>
    requires |r.state.requirements| >= |st.requirements|
  {
    r.state.requirements[|st.requirements|..]
  }

  /** The ingestion wrote a new source, and its rows have room: no primary key is taken. */
  ghost predicate Fits(t: Tables, st: Backlog, r: Ingested) {
    && |r.state.sources| > |st.sources| && |r.state.requirements| >= |st.requirements|
    && KeyOf(NewSource(st, r)) !in t.sources
    && (r.created ==> r.item.id !in t.items)
  }

  lemma IngestIsIngestible(t: Tables, project: Text, sha: Text -> Digest, st: Backlog, input: IngestInput)
    requires LedgerSound(t) && Represents(t, project, st) && input.project == project
    requires Ingest(sha, st, input).Ok? && Fits(t, st, Ingest(sha, st, input).value)
    ensures var r := Ingest(sha, st, input).value;
            Ingestible(t, r.item, NewSource(st, r), NewRequirements(st, r))
  {
    hide Ingest, SafeText, RequirementsMatch, EvidenceMatch, TransitionsMatch, SourcesMatch, RequirementRows,
         EvidenceRows, TransitionRows, FinalEvidence, Paths, Starts, OneOpenPerDigest, References, RequirementsOf;
    var r := Ingest(sha, st, input).value;
    IngestShape(sha, st, input);
    IngestItem(sha, st, input);
    if r.created {
      forall id
        ensures !OpenTwin(t, r.item, id)
      {
        assert OpenTwin(t, r.item, id) ==> InProject(t, project, id);
      }
    } else {
      var known :| known in st.items && known.id == r.item.id && r.state.items == Replace(st.items, r.item)
        && 0 <= input.observedAt && r.item == Joined(known, input.priority, input.observedAt);
      assert t.items[known.id] == known;
    }
  }

  lemma IngestItemsMatch(t: Tables, project: Text, st: Backlog, r: Ingested, source: Source, records: seq<Requirement>)
    requires ItemRows(t) && ItemsMatch(t, project, st.items) && r.item.project == project
    requires if r.created then r.item.id !in t.items && r.state.items == st.items + [r.item]
             else r.state.items == Replace(st.items, r.item)
                  && exists known :: known in st.items && known.id == r.item.id
    ensures ItemsMatch(IngestRow(t, r.item, source, records), project, r.state.items)
  {
    hide ItemSafe, ReasonTrimmed, InsertRows, Replace;
    var t2 := IngestRow(t, r.item, source, records);
    if r.created {
      AddedItemMatches(t, t2, project, st.items, r.item);
    } else {
      var m :| 0 <= m < |st.items| && st.items[m].id == r.item.id;
      ReplacedItemsMatch(t, t2, project, st.items, m, r.item);
    }
  }

  lemma AddedItemMatches(t: Tables, t2: Tables, project: Text, items: seq<Item>, added: Item)
    requires ItemsMatch(t, project, items) && added.id !in t.items && added.project == project
    requires t2.items == t.items[added.id := added]
    ensures ItemsMatch(t2, project, items + [added])
  {
    var items2 := items + [added];
    forall i | 0 <= i < |items2|
      ensures InProject(t2, project, items2[i].id) && t2.items[items2[i].id] == items2[i]
    {
      if i < |items| { assert InProject(t, project, items[i].id) && t.items[items[i].id] == items[i]; }
    }
    forall id | InProject(t2, project, id)
      ensures t2.items[id] in items2
    {
      if id == added.id {
        assert items2[|items|] == added;
      } else {
        assert InProject(t, project, id);
        assert t.items[id] in items;
      }
    }
  }

  lemma IngestKeepsProjects(t: Tables, item: Item, source: Source, records: seq<Requirement>)
    requires item.id in t.items ==> t.items[item.id].project == item.project
    ensures forall p, id :: InProject(IngestRow(t, item, source, records), p, id)
              <==> InProject(t, p, id) || (id == item.id && p == item.project)
  {
  }

  lemma IngestSourcesMatch(t: Tables, project: Text, st: Backlog, item: Item, source: Source, records: seq<Requirement>)
    requires SourceRows(t) && SourcesMatch(t, project, st.sources) && item.project == project
    requires item.id in t.items ==> t.items[item.id].project == item.project
    requires Ingestible(t, item, source, records)
    ensures SourcesMatch(IngestRow(t, item, source, records), project, st.sources + [source])
  {
    hide InsertRows, SourceSafe, NewOrTouched, RequirementsOf;
    var t2, sources2 := IngestRow(t, item, source, records), st.sources + [source];
    IngestKeepsProjects(t, item, source, records);
    forall k | k in t2.sources && InProject(t2, project, t2.sources[k].itemId)
      ensures t2.sources[k] in sources2
    {
      if k == KeyOf(source) {
        assert sources2[|st.sources|] == source;
      } else {
        assert InProject(t, project, t.sources[k].itemId);
      }
    }
  }

  lemma IngestRequirementsMatch(
      t: Tables, project: Text, st: Backlog, item: Item, source: Source, records: seq<Requirement>)
    requires SourceRows(t) && RequirementRows(t) && RequirementsMatch(t, project, st.requirements)
    requires item.project == project
    requires item.id in t.items ==> t.items[item.id].project == item.project
    requires Ingestible(t, item, source, records)
    ensures RequirementsMatch(IngestRow(t, item, source, records), project, st.requirements + records)
  {
    hide SourceSafe, NewOrTouched, RequirementId, NumberedRequirement, InsertRows, SafeText;
    IngestKeepsProjects(t, item, source, records);
    IngestedRequirements(t, item, source, records);
    RequirementsAreFresh(t, item, source, records);
    RequirementsStayDistinct(st.requirements, records);
    AllRequirementsAreHeld(t, project, st, item, source, records);
  }

  lemma AllRequirementsAreHeld(
      t: Tables, project: Text, st: Backlog, item: Item, source: Source, records: seq<Requirement>)
    requires SourceRows(t) && RequirementRows(t) && RequirementsMatch(t, project, st.requirements)
    requires item.project == project
    requires item.id in t.items ==> t.items[item.id].project == item.project
    requires Ingestible(t, item, source, records)
    ensures var t2, all := IngestRow(t, item, source, records), st.requirements + records;
            forall k :: k in t2.requirements && InProject(t2, project, t2.requirements[k].itemId) ==>
              t2.requirements[k] in all
  {
    hide SourceRows, RequirementRows, Ingestible, IngestRow, InProject;
    var t2, all := IngestRow(t, item, source, records), st.requirements + records;
    IngestedRequirements(t, item, source, records);
    forall k | k in t2.requirements && InProject(t2, project, t2.requirements[k].itemId)
      ensures t2.requirements[k] in all
    {
      if k !in t.requirements {
        var i :| 0 <= i < |records| && RequirementKey(records[i]) == k;
        assert records[i] in records;
      } else {
        assert InProject(t, project, t.requirements[k].itemId)
            by { ItemIsNotNew(t, item, source, records, project, k); }
      }
    }
  }

  lemma ItemIsNotNew(
    t: Tables, item: Item, source: Source, records: seq<Requirement>, project: Text, k: Text)
    requires SourceRows(t) && RequirementRows(t) && k in t.requirements
    requires item.id in t.items ==> t.items[item.id].project == item.project
    requires InProject(IngestRow(t, item, source, records), project, t.requirements[k].itemId)
    ensures InProject(t, project, t.requirements[k].itemId)
  {
    hide InsertRows, NumberedRequirement, SourceSafe;
  }

  lemma RequirementsStayDistinct(before: seq<Requirement>, records: seq<Requirement>)
    requires forall i, j :: 0 <= i < j < |before| ==> before[i].id != before[j].id
    requires DistinctKeys(RequirementKey, records)
    requires forall i, j :: 0 <= i < |before| && 0 <= j < |records| ==> before[i].id != records[j].id
    ensures var all := before + records;
            forall i, j :: 0 <= i < j < |all| ==> all[i].id != all[j].id
  {
    var all := before + records;
    forall i, j | 0 <= i < j < |all|
      ensures all[i].id != all[j].id
    {
      if i >= |before| {
        assert RequirementKey(records[i - |before|]) != RequirementKey(records[j - |before|]);
      }
    }
  }

  lemma IngestLeavesTheRest(
      t: Tables, project: Text, st: Backlog, item: Item, source: Source, records: seq<Requirement>)
    requires EvidenceRows(t) && TransitionRows(t)
    requires EvidenceMatch(t, project, st.evidence) && TransitionsMatch(t, project, st.transitions)
    requires item.id in t.items ==> t.items[item.id].project == item.project
    ensures var t2 := IngestRow(t, item, source, records);
            EvidenceMatch(t2, project, st.evidence) && TransitionsMatch(t2, project, st.transitions)
  {
    hide InsertRows, SafeText, Numbered;
    IngestKeepsProjects(t, item, source, records);
  }

  /** A new source and its requirements are appended; the rest of the ledger is as it was. */
  lemma IngestAppends(sha: Text -> Digest, st: Backlog, input: IngestInput)
    requires Ingest(sha, st, input).Ok? && |Ingest(sha, st, input).value.state.sources| > |st.sources|
    ensures var r := Ingest(sha, st, input).value;
            && |r.state.requirements| >= |st.requirements|
            && r.state.sources == st.sources + [NewSource(st, r)]
            && r.state.requirements == st.requirements + NewRequirements(st, r)
            && r.state.evidence == st.evidence && r.state.transitions == st.transitions
  {
    hide Ingest, RequirementsOf, IsIdentifier, SafeText;
    IngestShape(sha, st, input);
  }

  /** The item written belongs to the project; it is appended, or replaces the one it was. */
  lemma IngestedItems(t: Tables, project: Text, sha: Text -> Digest, st: Backlog, input: IngestInput)
    requires ItemRows(t) && ItemsMatch(t, project, st.items) && input.project == project
    requires Ingest(sha, st, input).Ok? && Fits(t, st, Ingest(sha, st, input).value)
    ensures var r := Ingest(sha, st, input).value;
            && r.item.project == project
            && (r.item.id in t.items ==> t.items[r.item.id].project == project)
            && if r.created then r.item.id !in t.items && r.state.items == st.items + [r.item]
               else r.state.items == Replace(st.items, r.item)
                    && exists known :: known in st.items && known.id == r.item.id
  {
    hide Ingest, RequirementsOf, IsIdentifier, SafeText, StateSafe, ReasonTrimmed, Replace;
    IngestShape(sha, st, input);
    IngestItem(sha, st, input);
    var r := Ingest(sha, st, input).value;
    if !r.created {
      var known :| known in st.items && r.state.items == Replace(st.items, r.item) && known.id == r.item.id
        && 0 <= input.observedAt && r.item == Joined(known, input.priority, input.observedAt);
      assert t.items[known.id] == known;
    }
  }

  /** Persisting an ingestion writes exactly the difference: the reader then loads the ingested ledger. */
  lemma IngestRefines(t: Tables, project: Text, sha: Text -> Digest, st: Backlog, input: IngestInput)
    requires LedgerSound(t) && Represents(t, project, st) && input.project == project
    requires Ingest(sha, st, input).Ok? && Fits(t, st, Ingest(sha, st, input).value)
    ensures var r := Ingest(sha, st, input).value;
            Represents(IngestRow(t, r.item, NewSource(st, r), NewRequirements(st, r)), project, r.state)
  {
    hide Ingest, ItemRows, SourceRows, RequirementRows, EvidenceRows, TransitionRows, FinalEvidence, Paths, Starts,
         OneOpenPerDigest, References, SourcesMatch, RequirementsMatch, EvidenceMatch, TransitionsMatch, IngestRow,
         Ingestible, RequirementsOf;
    hide NewOrTouched;
    var r := Ingest(sha, st, input).value;
    var source, records := NewSource(st, r), NewRequirements(st, r);
    IngestAppends(sha, st, input);
    IngestIsIngestible(t, project, sha, st, input);
    IngestedItems(t, project, sha, st, input);
    IngestItemsMatch(t, project, st, r, source, records);
    IngestSourcesMatch(t, project, st, r.item, source, records);
    IngestRequirementsMatch(t, project, st, r.item, source, records);
    IngestLeavesTheRest(t, project, st, r.item, source, records);
  }
}
