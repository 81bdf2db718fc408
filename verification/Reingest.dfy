/** Handing the ledger the same source again (backlog.ts). */
module Reingest {
  import opened Wrappers
  import opened Texts
  import opened Ledger
  import opened Tables
  import opened Invariants
  import opened Refinement

  lemma {:induction false} FindAppendedSource(sources: seq<Source>, source: Source)
    requires FindSource(sources, source.kind, source.id).None?
    ensures FindSource(sources + [source], source.kind, source.id) == Some(source)
  {
    var all := sources + [source];
    if sources != [] {
      assert all[1..] == sources[1..] + [source];
      FindAppendedSource(sources[1..], source);
    }
  }

  lemma {:induction false} FindAppendedItem(items: seq<Item>, item: Item)
    requires FindItem(items, item.id).None?
    ensures FindItem(items + [item], item.id) == Some(item)
  {
    var all := items + [item];
    if items != [] {
      assert all[1..] == items[1..] + [item];
      FindAppendedItem(items[1..], item);
    }
  }

  lemma {:induction false} FindReplacedItem(items: seq<Item>, item: Item)
    requires FindItem(items, item.id).Some?
    ensures FindItem(Replace(items, item), item.id) == Some(item)
  {
    if items[0].id != item.id {
      assert Replace(items, item)[1..] == Replace(items[1..], item);
      FindReplacedItem(items[1..], item);
    }
  }

  /** What the ledger compares when it meets a source again. */
  function ContentOf(sha: Text -> Digest, input: IngestInput): Option<Digest> {
    var texts := NormalizedRequirements(input.requirements);
    if texts.Ok? then Some(sha(Join(texts.value, [SEPARATOR]))) else None
  }

  lemma IngestedSource(sha: Text -> Digest, st: Backlog, input: IngestInput)
    requires Ingest(sha, st, input).Ok?
    ensures var known := FindSource(st.sources, input.kind, SourceIdOf(input));
            var r := Ingest(sha, st, input).value;
            if known.Some? then Some(known.value.contentDigest) == ContentOf(sha, input)
            else r.state.sources == st.sources + [r.state.sources[|st.sources|]]
                 && Some(r.state.sources[|st.sources|].contentDigest) == ContentOf(sha, input)
                 && r.state.sources[|st.sources|].itemId == r.item.id
  {
    hide RequirementId, DedupeDigest, FindJoined, Join, Collapse;
  }

  lemma IngestedIsFound(sha: Text -> Digest, st: Backlog, input: IngestInput)
    requires Ingest(sha, st, input).Ok?
    requires forall item :: item in st.items ==> item.id != Trim(input.newItemId)
    ensures var r := Ingest(sha, st, input).value;
            var known := FindSource(r.state.sources, input.kind, SourceIdOf(input));
            && known.Some? && known.value.itemId == r.item.id
            && Some(known.value.contentDigest) == ContentOf(sha, input)
            && FindItem(r.state.items, r.item.id) == Some(r.item) && r.item.project == input.project
  {
    hide Ingest, RequirementsOf, ContentOf;
    var r := Ingest(sha, st, input).value;
    IngestShape(sha, st, input);
    IngestedSource(sha, st, input);
    if FindSource(st.sources, input.kind, SourceIdOf(input)).None? {
      IngestItem(sha, st, input);
      FindAppendedSource(st.sources, r.state.sources[|st.sources|]);
      if r.created {
        FindAppendedItem(st.items, r.item);
      } else {
        var known :| known in st.items && r.state.items == Replace(st.items, r.item) && known.id == r.item.id
          && 0 <= input.observedAt && r.item == Joined(known, input.priority, input.observedAt);
        FindReplacedItem(st.items, r.item);
        TouchedProject(sha, st, input);
      }
    } else {
      KnownItemIsReturned(sha, st, input);
    }
  }

  lemma TouchedProject(sha: Text -> Digest, st: Backlog, input: IngestInput)
    requires Ingest(sha, st, input).Ok? && FindSource(st.sources, input.kind, SourceIdOf(input)).None?
    ensures Ingest(sha, st, input).value.item.project == input.project
  {
    hide RequirementId, NormalizedRequirements, Join, RequirementRecords;
  }

  lemma KnownItemIsReturned(sha: Text -> Digest, st: Backlog, input: IngestInput)
    requires Ingest(sha, st, input).Ok? && FindSource(st.sources, input.kind, SourceIdOf(input)).Some?
    ensures var r := Ingest(sha, st, input).value;
            FindItem(r.state.items, r.item.id) == Some(r.item)
  {
    hide RequirementId, NormalizedRequirements, Join, RequirementRecords, DedupeDigest, FindJoined;
  }

  /** Ingesting the same source again changes nothing and returns the same item. */
  lemma ReingestChangesNothing(sha: Text -> Digest, st: Backlog, input: IngestInput)
    requires Ingest(sha, st, input).Ok?
    requires forall item :: item in st.items ==> item.id != Trim(input.newItemId)
    ensures var r := Ingest(sha, st, input).value;
            Ingest(sha, r.state, input) == Ok(Ingested(r.state, r.item, false))
  {
    IngestedIsFound(sha, st, input);
    hide RequirementId, DedupeDigest, FindJoined, Join, Collapse, RequirementRecords;
  }
}
