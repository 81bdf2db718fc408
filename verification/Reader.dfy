/** Reading a project's ledger: from the keys of its rows to the ledger they represent. */
module Reader {
  import opened Wrappers
  import opened Texts
  import opened Ledger
  import opened Tables
  import opened Invariants
  import opened Refinement

  /** A list of distinct keys, in any order. */
  ghost predicate Lists<K(!new)>(s: seq<K>, keys: set<K>) {
    && (forall i :: 0 <= i < |s| ==> s[i] in keys)
    && (forall k :: k in keys ==> k in s)
    && (forall i, j :: 0 <= i < j < |s| ==> s[i] != s[j])
  }

  lemma {:induction false} ListKeys<K(!new)>(keys: set<K>) returns (s: seq<K>)
    ensures Lists(s, keys)
    decreases |keys|
  {
    s := [];
    if keys != {} {
      var k :| k in keys;
      var rest := ListKeys(keys - {k});
      s := rest + [k];
    }
  }

  method ListOf<K(==, !new)>(keys: set<K>) returns (s: seq<K>)
    ensures Lists(s, keys)
  {
    s := [];
    var left := keys;
    while left != {}
      invariant left <= keys && Lists(s, keys - left)
      decreases |left|
    {
      var k :| k in left;
      s := s + [k];
      left := left - {k};
    }
  }

  // ----- the keys of a project's rows -----

  function ItemKeys(t: Tables, project: Text): set<Text> {
    set id | id in t.items && t.items[id].project == project
  }

  function SourceKeys(t: Tables, project: Text): set<SourceKey> {
    set k | k in t.sources && InProject(t, project, t.sources[k].itemId)
  }

  function RequirementKeys(t: Tables, project: Text): set<Text> {
    set k | k in t.requirements && InProject(t, project, t.requirements[k].itemId)
  }

  function EvidenceKeys(t: Tables, project: Text): set<Text> {
    set k | k in t.evidence && InProject(t, project, t.evidence[k].itemId)
  }

  function ProjectSteps(t: Tables, project: Text, records: seq<TransitionRecord>): seq<TransitionRecord> {
    if records == [] then []
    else
      var last := records[|records| - 1];
      ProjectSteps(t, project, records[..|records| - 1]) + if InProject(t, project, last.itemId) then [last] else []
  }

  function Values<K, V>(rows: map<K, V>, keys: seq<K>): seq<V>
    requires forall k :: k in keys ==> k in rows
  {
    seq(|keys|, i requires 0 <= i < |keys| => rows[keys[i]])
  }

  // ----- recorded steps are distinct -----

  lemma {:induction false} RevisionsRise(
    records: seq<TransitionRecord>, id: Text, from: StateKind, to: StateKind, bound: nat, i: nat, j: nat)
    requires i < j < |records| && records[i].itemId == records[j].itemId == id
    requires IsPath(Trail(records, id), from, to, bound)
    ensures records[i].revision < records[j].revision
  {
    hide Allowed;
    var front, last := records[..|records| - 1], records[|records| - 1];
    assert front[i] == records[i] && (j < |front| ==> front[j] == records[j]);
    if last.itemId == id {
      LastOfTrail(records, from, to, bound);
      if j == |front| {
        PathIsBounded(Trail(front, id), from, last.from, last.revision - 1);
        TrailHolds(front, id, i);
      } else {
        RevisionsRise(front, id, from, last.from, last.revision - 1, i, j);
      }
    } else {
      assert Trail(records, id) == Trail(front, id);
      RevisionsRise(front, id, from, to, bound, i, j);
    }
  }

  lemma LastOfTrail(records: seq<TransitionRecord>, from: StateKind, to: StateKind, bound: nat)
    requires records != []
    requires IsPath(Trail(records, records[|records| - 1].itemId), from, to, bound)
    ensures var front, last := records[..|records| - 1], records[|records| - 1];
            2 <= last.revision && IsPath(Trail(front, last.itemId), from, last.from, last.revision - 1)
  {
    hide Allowed;
    var id := records[|records| - 1].itemId;
    assert Trail(records, id)[..|Trail(records, id)| - 1] == Trail(records[..|records| - 1], id);
  }

  lemma StepsAreDistinct(t: Tables)
    requires TransitionRows(t) && Paths(t)
    ensures forall i, j :: 0 <= i < j < |t.transitions| ==> !SameStep(t.transitions[i], t.transitions[j])
  {
    hide TransitionSafe;
    forall i, j | 0 <= i < j < |t.transitions| && t.transitions[i].itemId == t.transitions[j].itemId
      ensures t.transitions[i].revision < t.transitions[j].revision
    {
      var id := t.transitions[i].itemId;
      assert HasPath(t, id);
      var from :| Initial(from)
        && IsPath(Trail(t.transitions, id), from, t.items[id].state.Kind(), t.items[id].revision);
      RevisionsRise(t.transitions, id, from, t.items[id].state.Kind(), t.items[id].revision, i, j);
    }
  }

  lemma {:induction false} ProjectStepsMatch(t: Tables, project: Text, records: seq<TransitionRecord>)
    requires forall i, j :: 0 <= i < j < |records| ==> !SameStep(records[i], records[j])
    ensures var s := ProjectSteps(t, project, records);
            && (forall i :: 0 <= i < |s| ==> s[i] in records && InProject(t, project, s[i].itemId))
            && (forall i :: 0 <= i < |records| && InProject(t, project, records[i].itemId) ==> records[i] in s)
            && (forall i, j :: 0 <= i < j < |s| ==> !SameStep(s[i], s[j]))
  {
    hide InProject;
    if records != [] {
      var front, last := records[..|records| - 1], records[|records| - 1];
      assert forall i :: 0 <= i < |front| ==> records[i] == front[i];
      ProjectStepsMatch(t, project, front);
      var s := ProjectSteps(t, project, front);
      forall i | 0 <= i < |s|
        ensures !SameStep(s[i], last)
      {
        var j :| 0 <= j < |front| && front[j] == s[i];
        assert !SameStep(records[j], records[|records| - 1]);
      }
      assert (s + [last])[|s|] == last;
    }
  }

  // ----- the ledger the keys give -----

  function LedgerOf(
    t: Tables, project: Text, items: seq<Text>, sources: seq<SourceKey>, requirements: seq<Text>, evidence: seq<Text>)
    : Backlog
    requires forall k :: k in items ==> k in t.items
    requires forall k :: k in sources ==> k in t.sources
    requires forall k :: k in requirements ==> k in t.requirements
    requires forall k :: k in evidence ==> k in t.evidence
  {
    Backlog(Values(t.items, items), Values(t.sources, sources), Values(t.requirements, requirements),
            Values(t.evidence, evidence), ProjectSteps(t, project, t.transitions))
  }

  lemma ListedItemsMatch(t: Tables, project: Text, items: seq<Text>)
    requires ItemRows(t) && Lists(items, ItemKeys(t, project))
    ensures ItemsMatch(t, project, Values(t.items, items))
  {
    hide ItemSafe, ReasonTrimmed;
    var rows := Values(t.items, items);
    forall id | InProject(t, project, id)
      ensures t.items[id] in rows
    {
      assert id in items;
      var i :| 0 <= i < |items| && items[i] == id;
      assert rows[i] == t.items[id];
    }
  }

  lemma ListedSourcesMatch(t: Tables, project: Text, sources: seq<SourceKey>)
    requires SourceRows(t) && Lists(sources, SourceKeys(t, project))
    ensures SourcesMatch(t, project, Values(t.sources, sources))
  {
    hide SourceSafe, InProject;
    var rows := Values(t.sources, sources);
    forall k | k in t.sources && InProject(t, project, t.sources[k].itemId)
      ensures t.sources[k] in rows
    {
      assert k in sources;
      var i :| 0 <= i < |sources| && sources[i] == k;
      assert rows[i] == t.sources[k];
    }
  }

  lemma ListedRequirementsMatch(t: Tables, project: Text, requirements: seq<Text>)
    requires RequirementRows(t) && Lists(requirements, RequirementKeys(t, project))
    ensures RequirementsMatch(t, project, Values(t.requirements, requirements))
  {
    hide NumberedRequirement, RequirementSafe, InProject;
    var rows := Values(t.requirements, requirements);
    forall k | k in t.requirements && InProject(t, project, t.requirements[k].itemId)
      ensures t.requirements[k] in rows
    {
      assert k in requirements;
      var i :| 0 <= i < |requirements| && requirements[i] == k;
      assert rows[i] == t.requirements[k];
    }
  }

  lemma ListedEvidenceMatches(t: Tables, project: Text, evidence: seq<Text>)
    requires EvidenceRows(t) && Lists(evidence, EvidenceKeys(t, project))
    ensures EvidenceMatch(t, project, Values(t.evidence, evidence))
  {
    hide Numbered, RecordSafe, InProject;
    var rows := Values(t.evidence, evidence);
    forall k | k in t.evidence && InProject(t, project, t.evidence[k].itemId)
      ensures t.evidence[k] in rows
    {
      assert k in evidence;
      var i :| 0 <= i < |evidence| && evidence[i] == k;
      assert rows[i] == t.evidence[k];
    }
  }

  /** Whatever order the rows come in, they are read as a ledger that represents them. */
  lemma RowsAreRepresented(
    t: Tables, project: Text, items: seq<Text>, sources: seq<SourceKey>, requirements: seq<Text>, evidence: seq<Text>)
    requires LedgerSound(t)
    requires Lists(items, ItemKeys(t, project)) && Lists(sources, SourceKeys(t, project))
    requires Lists(requirements, RequirementKeys(t, project)) && Lists(evidence, EvidenceKeys(t, project))
    ensures Represents(t, project, LedgerOf(t, project, items, sources, requirements, evidence))
  {
    hide ItemRows, SourceRows, RequirementRows, EvidenceRows, TransitionRows, FinalEvidence, Paths, Starts,
         OneOpenPerDigest, References;
    ListedItemsMatch(t, project, items);
    ListedSourcesMatch(t, project, sources);
    ListedRequirementsMatch(t, project, requirements);
    ListedEvidenceMatches(t, project, evidence);
    StepsAreDistinct(t);
    ProjectStepsMatch(t, project, t.transitions);
    assert TransitionsMatch(t, project, ProjectSteps(t, project, t.transitions));
  }

  /** Every project of every sound state has a ledger. */
  lemma EveryProjectIsRepresented(t: Tables, project: Text) returns (st: Backlog)
    requires LedgerSound(t)
    ensures Represents(t, project, st)
  {
    hide LedgerSound, Represents;
    var items := ListKeys(ItemKeys(t, project));
    var sources := ListKeys(SourceKeys(t, project));
    var requirements := ListKeys(RequirementKeys(t, project));
    var evidence := ListKeys(EvidenceKeys(t, project));
    RowsAreRepresented(t, project, items, sources, requirements, evidence);
    st := LedgerOf(t, project, items, sources, requirements, evidence);
  }
}
