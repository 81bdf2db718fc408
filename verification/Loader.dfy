/** When the reader accepts a project's rows, and that reloading gives the same ledger (sqlite-store.ts). */
module Loader {
  import opened Wrappers
  import opened Texts
  import opened Ledger
  import opened Tables
  import opened Invariants

  // ----- reloading -----

  lemma {:induction false} DistinctMultiset<T>(s: seq<T>, x: T)
    requires forall i, j :: 0 <= i < j < |s| ==> s[i] != s[j]
    ensures multiset(s)[x] == if x in s then 1 else 0
  {
    if s != [] {
      var front, last := s[..|s| - 1], s[|s| - 1];
      assert s == front + [last];
      assert forall i :: 0 <= i < |front| ==> s[i] == front[i];
      DistinctMultiset(front, x);
      assert last !in front;
    }
  }

  lemma DistinctPermutation<T>(a: seq<T>, b: seq<T>)
    requires forall i, j :: 0 <= i < j < |a| ==> a[i] != a[j]
    requires forall i, j :: 0 <= i < j < |b| ==> b[i] != b[j]
    requires forall x :: x in a <==> x in b
    ensures multiset(a) == multiset(b)
  {
    forall x
      ensures multiset(a)[x] == multiset(b)[x]
    {
      DistinctMultiset(a, x);
      DistinctMultiset(b, x);
    }
  }

  /** Two ledgers hold the same records, in whatever order. */
  predicate SameLedger(a: Backlog, b: Backlog) {
    && multiset(a.items) == multiset(b.items)
    && multiset(a.sources) == multiset(b.sources)
    && multiset(a.requirements) == multiset(b.requirements)
    && multiset(a.evidence) == multiset(b.evidence)
    && multiset(a.transitions) == multiset(b.transitions)
  }

  /** The rows determine the ledger: whatever the program holds, reloading gives the same records. */
  lemma ReloadGivesTheSame(t: Tables, project: Text, held: Backlog, reloaded: Backlog)
    requires Represents(t, project, held) && Represents(t, project, reloaded)
    ensures SameLedger(held, reloaded)
  {
    ReloadItems(t, project, held.items, reloaded.items);
    ReloadSources(t, project, held.sources, reloaded.sources);
    ReloadRequirements(t, project, held.requirements, reloaded.requirements);
    ReloadEvidence(t, project, held.evidence, reloaded.evidence);
    ReloadTransitions(t, project, held.transitions, reloaded.transitions);
  }

  lemma ReloadItems(t: Tables, project: Text, a: seq<Item>, b: seq<Item>)
    requires ItemsMatch(t, project, a) && ItemsMatch(t, project, b)
    ensures multiset(a) == multiset(b)
  {
    assert forall x :: x in a <==> InProject(t, project, x.id) && t.items[x.id] == x && x in b;
    assert forall x :: x in b <==> InProject(t, project, x.id) && t.items[x.id] == x && x in a;
    DistinctPermutation(a, b);
  }

  lemma ReloadSources(t: Tables, project: Text, a: seq<Source>, b: seq<Source>)
    requires SourcesMatch(t, project, a) && SourcesMatch(t, project, b)
    ensures multiset(a) == multiset(b)
  {
    hide InProject;
    assert forall x :: x in a ==> KeyOf(x) in t.sources && t.sources[KeyOf(x)] == x && x in b;
    assert forall x :: x in b ==> KeyOf(x) in t.sources && t.sources[KeyOf(x)] == x && x in a;
    DistinctPermutation(a, b);
  }

  lemma ReloadRequirements(t: Tables, project: Text, a: seq<Requirement>, b: seq<Requirement>)
    requires RequirementsMatch(t, project, a) && RequirementsMatch(t, project, b)
    ensures multiset(a) == multiset(b)
  {
    hide InProject;
    assert forall x :: x in a ==> x.id in t.requirements && t.requirements[x.id] == x && x in b;
    assert forall x :: x in b ==> x.id in t.requirements && t.requirements[x.id] == x && x in a;
    DistinctPermutation(a, b);
  }

  lemma ReloadEvidence(t: Tables, project: Text, a: seq<EvidenceRecord>, b: seq<EvidenceRecord>)
    requires EvidenceMatch(t, project, a) && EvidenceMatch(t, project, b)
    ensures multiset(a) == multiset(b)
  {
    hide InProject;
    assert forall x :: x in a ==> x.id in t.evidence && t.evidence[x.id] == x && x in b;
    assert forall x :: x in b ==> x.id in t.evidence && t.evidence[x.id] == x && x in a;
    DistinctPermutation(a, b);
  }

  lemma ReloadTransitions(t: Tables, project: Text, a: seq<TransitionRecord>, b: seq<TransitionRecord>)
    requires TransitionsMatch(t, project, a) && TransitionsMatch(t, project, b)
    ensures multiset(a) == multiset(b)
  {
    hide InProject;
    forall x | x in a
      ensures x in b
    {
      var i :| 0 <= i < |t.transitions| && t.transitions[i] == x;
    }
    forall x | x in b
      ensures x in a
    {
      var i :| 0 <= i < |t.transitions| && t.transitions[i] == x;
    }
    assert forall i, j :: 0 <= i < j < |a| ==> !SameStep(a[i], a[j]);
    assert forall i, j :: 0 <= i < j < |b| ==> !SameStep(b[i], b[j]);
    DistinctPermutation(a, b);
  }

  // ----- the corruption checks -----

  ghost function FinalIdsOf(evidence: seq<EvidenceRecord>, itemId: Text): set<Text> {
    set i | 0 <= i < |evidence| && evidence[i].itemId == itemId && evidence[i].phase.Final? :: evidence[i].id
  }

  lemma FinalIdsStep(evidence: seq<EvidenceRecord>, itemId: Text)
    requires evidence != []
    ensures FinalIdsOf(evidence, itemId) == FinalIdsOf(evidence[1..], itemId)
              + if evidence[0].itemId == itemId && evidence[0].phase.Final? then {evidence[0].id} else {}
  {
    var tail := evidence[1..];
    assert forall i :: 0 < i < |evidence| ==> evidence[i] == tail[i - 1];
    forall k | k in FinalIdsOf(tail, itemId)
      ensures k in FinalIdsOf(evidence, itemId)
    {
      var i :| 0 <= i < |tail| && tail[i].itemId == itemId && tail[i].phase.Final? && tail[i].id == k;
      assert evidence[i + 1] == tail[i];
    }
  }

  lemma {:induction false} FinalRecordsCount(evidence: seq<EvidenceRecord>, itemId: Text)
    requires forall i, j :: 0 <= i < j < |evidence| ==> evidence[i].id != evidence[j].id
    ensures |FinalRecords(evidence, itemId)| == |FinalIdsOf(evidence, itemId)|
  {
    if evidence != [] {
      var tail := evidence[1..];
      assert forall i :: 0 <= i < |tail| ==> tail[i] == evidence[i + 1];
      FinalRecordsCount(tail, itemId);
      FinalIdsStep(evidence, itemId);
      assert evidence[0].id !in FinalIdsOf(tail, itemId);
    }
  }

  lemma {:induction false} FinalRecordsHold(evidence: seq<EvidenceRecord>, itemId: Text, i: nat)
    requires i < |evidence| && evidence[i].itemId == itemId && evidence[i].phase.Final?
    ensures evidence[i] in FinalRecords(evidence, itemId)
  {
    if i > 0 { FinalRecordsHold(evidence[1..], itemId, i - 1); }
  }

  lemma LoadedFinalIds(t: Tables, project: Text, st: Backlog, id: Text)
    requires EvidenceRows(t) && EvidenceMatch(t, project, st.evidence) && InProject(t, project, id)
    ensures FinalIdsOf(st.evidence, id) == FinalIds(t, id)
  {
    hide Numbered, RecordSafe;
    forall k | k in FinalIds(t, id)
      ensures k in FinalIdsOf(st.evidence, id)
    {
      var i :| 0 <= i < |st.evidence| && st.evidence[i] == t.evidence[k];
    }
  }

  lemma WitnessIsListed(t: Tables, project: Text, st: Backlog, itemId: Text, e: Evidence)
    requires EvidenceMatch(t, project, st.evidence) && InProject(t, project, itemId) && Witnessed(t, itemId, e)
    ensures Listed(FinalRecords(st.evidence, itemId), e)
  {
    var persisted := FinalRecords(st.evidence, itemId);
    var k :| k in FinalIds(t, itemId) && t.evidence[k].kind == e.kind && t.evidence[k].ref == e.ref;
    var i :| 0 <= i < |st.evidence| && st.evidence[i] == t.evidence[k];
    FinalRecordsHold(st.evidence, itemId, i);
    var j :| 0 <= j < |persisted| && persisted[j] == st.evidence[i];
  }

  lemma LoadedEvidenceReconciles(t: Tables, project: Text, st: Backlog, item: Item)
    requires EvidenceRows(t) && EvidenceMatch(t, project, st.evidence)
    requires InProject(t, project, item.id) && t.items[item.id] == item && FinalEvidenceOf(t, item.id)
    ensures EvidenceReconciles(item, st.evidence)
  {
    hide EvidenceRows, FinalRecords, FinalIds, Witnessed, Listed;
    if item.state.Terminal? {
      LoadedFinalIds(t, project, st, item.id);
      FinalRecordsCount(st.evidence, item.id);
      forall i | 0 <= i < |item.state.evidence|
        ensures Listed(FinalRecords(st.evidence, item.id), item.state.evidence[i])
      {
        WitnessIsListed(t, project, st, item.id, item.state.evidence[i]);
      }
    }
  }

  /** In a sound state the reader accepts a project exactly when no item was touched before its creation. */
  lemma LoaderAcceptsIff(t: Tables, project: Text, st: Backlog)
    requires LedgerSound(t) && Represents(t, project, st)
    ensures LoaderAccepts(st) <==> forall id :: InProject(t, project, id) ==>
            t.items[id].createdAt <= t.items[id].updatedAt
  {
    hide IsIdentifier, SafeText, StateSafe, Numbered, NumberedRequirement, HasPath, EvidenceReconciles, FinalEvidenceOf;
    forall i | 0 <= i < |st.items|
      ensures EvidenceReconciles(st.items[i], st.evidence)
    {
      LoadedEvidenceReconciles(t, project, st, st.items[i]);
    }
    if LoaderAccepts(st) {
      forall id | InProject(t, project, id)
        ensures t.items[id].createdAt <= t.items[id].updatedAt
      {
        var i :| 0 <= i < |st.items| && st.items[i] == t.items[id];
      }
    }
  }
}
