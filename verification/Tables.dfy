/** The registry's tables as rows keyed by primary key, the reader that loads one project's ledger
    from them, and the row deltas the writers apply (sqlite-store.ts). */
module Tables {
  import opened Wrappers
  import opened Texts
  import opened Ledger

  datatype LeaseMode = Task | Operational
  datatype LeaseStatus = Active | Paused | Suspended
  datatype Agent = Agent(id: Text, pid: nat)

  datatype Lease = Lease(
    id: Uuid, project: Text, role: Text, mode: LeaseMode, owner: Agent, policyDigest: Text,
    acquiredAt: nat, heartbeatAt: nat, expiresAt: nat, status: LeaseStatus)

  datatype Failure = FailedBlocked | FailedCancelled | FailedError | FailedTimedOut

  datatype RequestStatus =
    | Queued
    | Claimed(leaseId: Uuid, agentId: Text)
    | Fulfilled(leaseId: Uuid, agentId: Text, summary: Text)
    | Failed(leaseId: Uuid, agentId: Text, failure: Failure, diagnostic: Text)
    | Withdrawn
  {
    predicate Final() { Fulfilled? || Failed? || Withdrawn? }
  }

  datatype Receipt = Receipt(at: nat, agentId: Text, leaseId: Uuid)

  datatype Request = Request(
    id: Uuid, project: Text, role: Text, requesterId: Text,
    text: Text, priority: Priority, createdAt: nat, updatedAt: nat,
    acknowledgedAt: Option<nat>, receipt: Option<Receipt>, status: RequestStatus)

  type Seat = (Text, Text)              // project and role
  type SourceKey = (SourceKind, Text)

  datatype Tables = Tables(
    leases: map<Seat, Lease>,
    requests: map<Uuid, Request>,
    items: map<Text, Item>,
    sources: map<SourceKey, Source>,
    requirements: map<Text, Requirement>,
    evidence: map<Text, EvidenceRecord>,
    transitions: seq<TransitionRecord>)

  const EMPTY := Tables(map[], map[], map[], map[], map[], map[], [])

  predicate InProject(t: Tables, project: Text, itemId: Text) {
    itemId in t.items && t.items[itemId].project == project
  }

  function KeyOf(source: Source): SourceKey { (source.kind, source.id) }

  // ----- one project's rows as the ledger the program holds in memory, in any row order -----

  ghost predicate ItemsMatch(t: Tables, project: Text, items: seq<Item>) {
    && (forall i :: 0 <= i < |items| ==> InProject(t, project, items[i].id) && t.items[items[i].id] == items[i])
    && (forall id :: InProject(t, project, id) ==> t.items[id] in items)
    && (forall i, j :: 0 <= i < j < |items| ==> items[i].id != items[j].id)
  }

  ghost predicate SourcesMatch(t: Tables, project: Text, sources: seq<Source>) {
    && (forall i :: 0 <= i < |sources| ==>
          && KeyOf(sources[i]) in t.sources && t.sources[KeyOf(sources[i])] == sources[i]
          && InProject(t, project, sources[i].itemId))
    && (forall k :: k in t.sources && InProject(t, project, t.sources[k].itemId) ==> t.sources[k] in sources)
    && (forall i, j :: 0 <= i < j < |sources| ==> KeyOf(sources[i]) != KeyOf(sources[j]))
  }

  ghost predicate RequirementsMatch(t: Tables, project: Text, requirements: seq<Requirement>) {
    && (forall i :: 0 <= i < |requirements| ==>
          && requirements[i].id in t.requirements && t.requirements[requirements[i].id] == requirements[i]
          && InProject(t, project, requirements[i].itemId))
    && (forall k :: k in t.requirements && InProject(t, project, t.requirements[k].itemId) ==>
          t.requirements[k] in requirements)
    && (forall i, j :: 0 <= i < j < |requirements| ==> requirements[i].id != requirements[j].id)
  }

  ghost predicate EvidenceMatch(t: Tables, project: Text, evidence: seq<EvidenceRecord>) {
    && (forall i :: 0 <= i < |evidence| ==>
          && evidence[i].id in t.evidence && t.evidence[evidence[i].id] == evidence[i]
          && InProject(t, project, evidence[i].itemId))
    && (forall k :: k in t.evidence && InProject(t, project, t.evidence[k].itemId) ==> t.evidence[k] in evidence)
    && (forall i, j :: 0 <= i < j < |evidence| ==> evidence[i].id != evidence[j].id)
  }

  predicate SameStep(a: TransitionRecord, b: TransitionRecord) {
    a.itemId == b.itemId && a.revision == b.revision
  }

  ghost predicate TransitionsMatch(t: Tables, project: Text, transitions: seq<TransitionRecord>) {
    && (forall i :: 0 <= i < |transitions| ==>
          transitions[i] in t.transitions && InProject(t, project, transitions[i].itemId))
    && (forall i :: 0 <= i < |t.transitions| && InProject(t, project, t.transitions[i].itemId) ==>
          t.transitions[i] in transitions)
    && (forall i, j :: 0 <= i < j < |transitions| ==> !SameStep(transitions[i], transitions[j]))
  }

  /** The in-memory ledger holds exactly the project's rows. */
  ghost predicate Represents(t: Tables, project: Text, st: Backlog) {
    && ItemsMatch(t, project, st.items)
    && SourcesMatch(t, project, st.sources)
    && RequirementsMatch(t, project, st.requirements)
    && EvidenceMatch(t, project, st.evidence)
    && TransitionsMatch(t, project, st.transitions)
  }

  // ----- the row checks the reader makes -----

  predicate EvidenceSafe(e: Evidence) {
    SafeText(e.kind, 128) && SafeText(e.ref, 1_024)
  }

  predicate StateSafe(state: ItemState) {
    match state
    case Unreconciled => true
    case Ready => true
    case Assigned(a, l) => SafeText(a, 4_096) && SafeText(l, 4_096)
    case Implementing(a, l, i) => SafeText(a, 4_096) && SafeText(l, 4_096) && SafeText(i, 4_096)
    case InReview(a, l, i, r) =>
      SafeText(a, 4_096) && SafeText(l, 4_096) && SafeText(i, 4_096) && SafeText(r, 4_096)
    case Publishing(a, l, i, r, p) =>
      SafeText(a, 4_096) && SafeText(l, 4_096) && SafeText(i, 4_096) && SafeText(r, 4_096) && SafeText(p, 4_096)
    case Blocked(reason) => SafeText(reason, 4_096)
    case Terminal(_, evidence) =>
      evidence != [] && forall i :: 0 <= i < |evidence| ==> EvidenceSafe(evidence[i])
  }

  predicate ItemSafe(item: Item) {
    IsIdentifier(item.id) && item.revision >= 1 && StateSafe(item.state)
  }

  predicate SourceSafe(source: Source) {
    && IsIdentifier(source.id) && IsIdentifier(source.itemId)
    && (source.authority.RoutingOnly? || SafeText(source.authority.ref, 1_024))
  }

  predicate RequirementSafe(requirement: Requirement) {
    SafeText(requirement.text, 4_000)
  }

  predicate RecordSafe(record: EvidenceRecord) {
    SafeText(record.kind, 128) && SafeText(record.ref, 1_024)
  }

  predicate TransitionSafe(record: TransitionRecord) {
    record.revision >= 1 && SafeText(record.actor, 512)
  }

  function FinalRecords(evidence: seq<EvidenceRecord>, itemId: Text): seq<EvidenceRecord> {
    if evidence == [] then []
    else (if evidence[0].itemId == itemId && evidence[0].phase.Final? then [evidence[0]] else [])
         + FinalRecords(evidence[1..], itemId)
  }

  /** Terminal items: as many terminal evidence rows as the state lists, and every listed one among them. */
  predicate EvidenceReconciles(item: Item, evidence: seq<EvidenceRecord>) {
    !item.state.Terminal? ||
    var persisted := FinalRecords(evidence, item.id);
    && |persisted| == |item.state.evidence|
    && forall i :: 0 <= i < |item.state.evidence| ==> Listed(persisted, item.state.evidence[i])
  }

  predicate Listed(persisted: seq<EvidenceRecord>, e: Evidence) {
    exists j :: 0 <= j < |persisted| && persisted[j].kind == e.kind && persisted[j].ref == e.ref
  }

  /** The reader returns the project's ledger exactly when every row passes; otherwise it reports corruption. */
  predicate LoaderAccepts(st: Backlog) {
    && (forall i :: 0 <= i < |st.items| ==>
          ItemSafe(st.items[i]) && st.items[i].createdAt <= st.items[i].updatedAt)
    && (forall i :: 0 <= i < |st.sources| ==> SourceSafe(st.sources[i]))
    && (forall i :: 0 <= i < |st.requirements| ==> RequirementSafe(st.requirements[i]))
    && (forall i :: 0 <= i < |st.evidence| ==> RecordSafe(st.evidence[i]))
    && (forall i :: 0 <= i < |st.transitions| ==> TransitionSafe(st.transitions[i]))
    && (forall i :: 0 <= i < |st.items| ==> EvidenceReconciles(st.items[i], st.evidence))
  }

  // ----- row deltas -----

  function EvidenceKey(record: EvidenceRecord): Text { record.id }

  function RequirementKey(record: Requirement): Text { record.id }

  /** One INSERT per record, in order. */
  function InsertRows<T>(rows: map<Text, T>, key: T -> Text, records: seq<T>): map<Text, T> {
    if records == [] then rows
    else
      var last := records[|records| - 1];
      InsertRows(rows, key, records[..|records| - 1])[key(last) := last]
  }

  predicate HasKey<T>(key: T -> Text, records: seq<T>, k: Text) {
    exists i :: 0 <= i < |records| && key(records[i]) == k
  }

  predicate DistinctKeys<T>(key: T -> Text, records: seq<T>) {
    forall i, j :: 0 <= i < j < |records| ==> key(records[i]) != key(records[j])
  }

  lemma {:induction false} InsertedRows<T>(rows: map<Text, T>, key: T -> Text, records: seq<T>)
    requires DistinctKeys(key, records)
    ensures forall k :: k in InsertRows(rows, key, records) <==> k in rows || HasKey(key, records, k)
    ensures forall i :: 0 <= i < |records| ==> HasKey(key, records, key(records[i]))
    ensures forall i :: 0 <= i < |records| ==> InsertRows(rows, key, records)[key(records[i])] == records[i]
    ensures forall k :: k in rows && !HasKey(key, records, k) ==> InsertRows(rows, key, records)[k] == rows[k]
  {
    if records != [] {
      var front, last := records[..|records| - 1], records[|records| - 1];
      InsertedRows(rows, key, front);
      assert forall i :: 0 <= i < |front| ==> records[i] == front[i];
      forall k
        ensures HasKey(key, records, k) <==> HasKey(key, front, k) || k == key(last)
      {
        if HasKey(key, front, k) {
          var i :| 0 <= i < |front| && key(front[i]) == k;
          assert key(records[i]) == k;
        }
        assert key(records[|records| - 1]) == key(last);
      }
    }
  }

  /** The rows after one step of one item: one row updated, one transition and the evidence inserted. */
  function AdvanceRow(t: Tables, item: Item, change: Change): Tables {
    t.(items := t.items[item.id := Updated(item, change)],
       evidence := InsertRows(t.evidence, EvidenceKey, EvidenceRecords(item.id, item.revision + 1, change)),
       transitions := t.transitions + [Recorded(item, change)])
  }

  /** The rows after a new source was ingested. */
  function IngestRow(t: Tables, item: Item, source: Source, records: seq<Requirement>): Tables {
    t.(items := t.items[item.id := item],
       sources := t.sources[KeyOf(source) := source],
       requirements := InsertRows(t.requirements, RequirementKey, records))
  }
}
