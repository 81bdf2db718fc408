/** The backlog ledger: ingestion with deduplication, item transitions and their evidence (backlog.ts).
    The hash is a parameter; nothing here depends on which one it is. */
module Ledger {
  import opened Wrappers
  import opened Texts

  const MAX_REQUIREMENTS := 32
  const MAX_REQUIREMENT_UNITS := 4_000
  const MAX_EVIDENCE := 32
  const MAX_REF_UNITS := 1_024
  const MAX_REASON_UNITS := 2_000
  const MAX_SAFE_INTEGER := 9007199254740991

  datatype LedgerError =
    | InvalidInput | InvalidTransition | MissingEvidence | NotFound | SourceConflict | StaleRevision

  datatype SourceKind =
    | OwnerMessage | BridgeMessage | RegistryRequest | BranchTodo | TrackerItem | BacklogDocument

  datatype Priority = Normal | Urgent

  datatype Authority =
    | RoutingOnly
    | AuthenticatedOwner(ref: Text)
    | RepositoryPolicy(ref: Text)

  datatype Evidence = Evidence(kind: Text, ref: Text)

  datatype Outcome = Completed | Cancelled

  datatype ItemState =
    | Unreconciled
    | Ready
    | Assigned(agentId: Text, leaseId: Text)
    | Implementing(agentId: Text, leaseId: Text, implementationRef: Text)
    | InReview(agentId: Text, leaseId: Text, implementationRef: Text, reviewRef: Text)
    | Publishing(agentId: Text, leaseId: Text, implementationRef: Text, reviewRef: Text, publicationRef: Text)
    | Blocked(reason: Text)
    | Terminal(outcome: Outcome, evidence: seq<Evidence>)
  {
    predicate Held() { Assigned? || Implementing? || InReview? || Publishing? }

    function Kind(): StateKind {
      match this
      case Unreconciled => KUnreconciled
      case Ready => KReady
      case Assigned(_, _) => KAssigned
      case Implementing(_, _, _) => KImplementing
      case InReview(_, _, _, _) => KInReview
      case Publishing(_, _, _, _, _) => KPublishing
      case Blocked(_) => KBlocked
      case Terminal(_, _) => KTerminal
    }
  }

  datatype StateKind =
    | KUnreconciled | KReady | KAssigned | KImplementing | KInReview | KPublishing | KBlocked | KTerminal

  datatype Item = Item(
    id: Text, project: Text, priority: Priority, state: ItemState, dedupeDigest: Digest,
    revision: nat, createdAt: nat, updatedAt: nat)
  {
    predicate Open() { !state.Terminal? }
  }

  datatype Source = Source(
    kind: SourceKind, id: Text, itemId: Text, authority: Authority, observedAt: nat, contentDigest: Digest)

  datatype Requirement = Requirement(
    id: Text, itemId: Text, sourceKind: SourceKind, sourceId: Text, text: Text, digest: Digest)

  datatype Phase = Implementation | Review | Publication | Final

  datatype EvidenceRecord = EvidenceRecord(
    id: Text, itemId: Text, phase: Phase, kind: Text, ref: Text, at: nat)

  datatype EventKind =
    | EAssign | EStart | EReview | EPublish | EBlock | EReady | EComplete | EReconcile | ECancel | ERebind

  datatype TransitionRecord = TransitionRecord(
    itemId: Text, revision: nat, actor: Text, event: EventKind, from: StateKind, to: StateKind, at: nat)

  datatype Backlog = Backlog(
    items: seq<Item>, sources: seq<Source>, requirements: seq<Requirement>,
    evidence: seq<EvidenceRecord>, transitions: seq<TransitionRecord>)

  datatype Dedupe =
    | ExactContent(scope: Option<Text>)
    | SourceOnly(scope: Option<Text>)
    | CanonicalKey(key: Text)
    | ItemId(itemId: Text)

  datatype InitialState = StartReady | StartUnreconciled

  datatype IngestInput = IngestInput(
    newItemId: Text, project: Text, kind: SourceKind, sourceId: Text, observedAt: int, priority: Priority,
    requirements: seq<Text>, authority: Authority, dedupe: Dedupe, initial: InitialState)

  datatype Ingested = Ingested(state: Backlog, item: Item, created: bool)

  datatype Event =
    | Assign(agentId: Text, leaseId: Text)
    | Start(implementationRef: Text)
    | ReviewWork(reviewRef: Text)
    | Publish(publicationRef: Text)
    | Block(reason: Text)
    | MakeReady
    | Complete(evidence: seq<Evidence>)
    | Reconcile(outcome: Outcome, evidence: seq<Evidence>)
    | Cancel(evidence: seq<Evidence>)
  {
    function Kind(): EventKind {
      match this
      case Assign(_, _) => EAssign
      case Start(_) => EStart
      case ReviewWork(_) => EReview
      case Publish(_) => EPublish
      case Block(_) => EBlock
      case MakeReady => EReady
      case Complete(_) => EComplete
      case Reconcile(_, _) => EReconcile
      case Cancel(_) => ECancel
    }
  }

  // ----- names -----

  function KindName(kind: SourceKind): Text
  {
    match kind
    case OwnerMessage => Ascii("owner-message")
    case BridgeMessage => Ascii("bridge-message")
    case RegistryRequest => Ascii("registry-request")
    case BranchTodo => Ascii("branch-todo")
    case TrackerItem => Ascii("tracker-item")
    case BacklogDocument => Ascii("backlog-document")
  }

  function PhaseName(phase: Phase): Text
  {
    match phase
    case Implementation => Ascii("implementation")
    case Review => Ascii("review")
    case Publication => Ascii("publication")
    case Final => Ascii("terminal")
  }

  lemma KindNameHasNoColon(kind: SourceKind)
    ensures COLON !in KindName(kind)
  {
    match kind
    case OwnerMessage => AsciiHasNoColon("owner-message");
    case BridgeMessage => AsciiHasNoColon("bridge-message");
    case RegistryRequest => AsciiHasNoColon("registry-request");
    case BranchTodo => AsciiHasNoColon("branch-todo");
    case TrackerItem => AsciiHasNoColon("tracker-item");
    case BacklogDocument => AsciiHasNoColon("backlog-document");
  }

  lemma PhaseNameHasNoColon(phase: Phase)
    ensures COLON !in PhaseName(phase)
  {
    match phase
    case Implementation => AsciiHasNoColon("implementation");
    case Review => AsciiHasNoColon("review");
    case Publication => AsciiHasNoColon("publication");
    case Final => AsciiHasNoColon("terminal");
  }

  function PhaseLength(phase: Phase): nat {
    match phase
    case Implementation => 14
    case Review => 6
    case Publication => 11
    case Final => 8
  }

  function EvidenceId(itemId: Text, revision: nat, phase: Phase, index: nat): Text {
    itemId + [COLON] + Decimal(revision) + [COLON] + PhaseName(phase) + [COLON] + Decimal(index)
  }

  function RequirementId(kind: SourceKind, sourceId: Text, index: nat): Text {
    KindName(kind) + [COLON] + sourceId + [COLON] + Decimal(index)
  }

  lemma DecimalHasNoColon(n: nat)
    ensures COLON !in Decimal(n)
  {
    forall u | u in Decimal(n)
      ensures u != COLON
    {
      var i :| 0 <= i < |Decimal(n)| && Decimal(n)[i] == u;
      assert IsDigitUnit(u);
    }
  }

  /** Evidence identifiers never collide, whatever colons an item identifier holds. */
  lemma EvidenceIdInjective(a: Text, r: nat, p: Phase, i: nat, b: Text, s: nat, q: Phase, j: nat)
    requires EvidenceId(a, r, p, i) == EvidenceId(b, s, q, j)
    ensures a == b && r == s && p == q && i == j
  {
    DecimalHasNoColon(r); DecimalHasNoColon(s); DecimalHasNoColon(i); DecimalHasNoColon(j);
    PhaseNameHasNoColon(p); PhaseNameHasNoColon(q);
    LastColonSplit(a + [COLON] + Decimal(r) + [COLON] + PhaseName(p), Decimal(i),
                   b + [COLON] + Decimal(s) + [COLON] + PhaseName(q), Decimal(j));
    LastColonSplit(a + [COLON] + Decimal(r), PhaseName(p), b + [COLON] + Decimal(s), PhaseName(q));
    LastColonSplit(a, Decimal(r), b, Decimal(s));
    DecimalInjective(r, s);
    DecimalInjective(i, j);
    assert PhaseLength(p) == |PhaseName(p)| == |PhaseName(q)| == PhaseLength(q);
  }

  /** Length and first unit of a source kind's name. */
  function KindShape(kind: SourceKind): (nat, int) {
    match kind
    case OwnerMessage => (13, 111)
    case BridgeMessage => (14, 98)
    case RegistryRequest => (16, 114)
    case BranchTodo => (11, 98)
    case TrackerItem => (12, 116)
    case BacklogDocument => (16, 98)
  }

  lemma KindShapeIsRight(kind: SourceKind)
    ensures |KindName(kind)| == KindShape(kind).0 && KindName(kind)[0] == KindShape(kind).1
  {
    match kind
    case OwnerMessage => assert KindName(kind) == Ascii("owner-message");
    case BridgeMessage => assert KindName(kind) == Ascii("bridge-message");
    case RegistryRequest => assert KindName(kind) == Ascii("registry-request");
    case BranchTodo => assert KindName(kind) == Ascii("branch-todo");
    case TrackerItem => assert KindName(kind) == Ascii("tracker-item");
    case BacklogDocument => assert KindName(kind) == Ascii("backlog-document");
  }

  lemma KindNameInjective(k: SourceKind, l: SourceKind)
    requires KindName(k) == KindName(l)
    ensures k == l
  {
    KindShapeIsRight(k);
    KindShapeIsRight(l);
  }

  /** Requirement identifiers never collide, whatever colons a source identifier holds. */
  lemma RequirementIdInjective(k: SourceKind, a: Text, i: nat, l: SourceKind, b: Text, j: nat)
    requires RequirementId(k, a, i) == RequirementId(l, b, j)
    ensures k == l && a == b && i == j
  {
    DecimalHasNoColon(i); DecimalHasNoColon(j);
    KindNameHasNoColon(k); KindNameHasNoColon(l);
    LastColonSplit(KindName(k) + [COLON] + a, Decimal(i), KindName(l) + [COLON] + b, Decimal(j));
    FirstColonSplit(KindName(k), a, KindName(l), b);
    KindNameInjective(k, l);
    DecimalInjective(i, j);
  }

  // ----- validation -----

  function Identifier(value: Text): (r: Result<Text, LedgerError>)
    ensures r.Ok? ==> IsIdentifier(r.value) && SafeText(r.value, 256)
  {
    var text :- BoundedText(value, 256, InvalidInput);
    if IsIdentifier(text) then Ok(text) else Err(InvalidInput)
  }

  function Timestamp(value: int): Result<nat, LedgerError> {
    if 0 <= value <= MAX_SAFE_INTEGER then Ok(value) else Err(InvalidInput)
  }

  function NormalizedRequirements(values: seq<Text>): (r: Result<seq<Text>, LedgerError>)
    ensures r.Ok? ==> |r.value| == |values|
    ensures r.Ok? ==> forall i :: 0 <= i < |values| ==> SafeText(r.value[i], MAX_REQUIREMENT_UNITS)
  {
    if values == [] then Ok([]) else
      var text :- BoundedText(values[0], MAX_REQUIREMENT_UNITS, InvalidInput);
      var rest :- NormalizedRequirements(values[1..]);
      Ok([Collapse(text)] + rest)
  }

  function ValidatedAuthority(authority: Authority): (r: Result<Authority, LedgerError>)
    ensures r.Ok? && !r.value.RoutingOnly? ==> SafeText(r.value.ref, 256)
  {
    match authority
    case RoutingOnly => Ok(RoutingOnly)
    case AuthenticatedOwner(ref) => var text :- Identifier(ref); Ok(AuthenticatedOwner(text))
    case RepositoryPolicy(ref) => var text :- Identifier(ref); Ok(RepositoryPolicy(text))
  }

  function ValidatedDedupe(dedupe: Dedupe): Result<Dedupe, LedgerError> {
    match dedupe
    case ExactContent(None) => Ok(dedupe)
    case ExactContent(Some(scope)) => var text :- Identifier(scope); Ok(ExactContent(Some(text)))
    case SourceOnly(None) => Ok(dedupe)
    case SourceOnly(Some(scope)) => var text :- Identifier(scope); Ok(SourceOnly(Some(text)))
    case CanonicalKey(key) => var text :- Identifier(key); Ok(CanonicalKey(text))
    case ItemId(itemId) => var text :- Identifier(itemId); Ok(ItemId(text))
  }

  function EvidenceEntries(evidence: seq<Evidence>): (r: Result<seq<Evidence>, LedgerError>)
    ensures r.Ok? ==> |r.value| == |evidence|
    ensures r.Ok? ==> forall i :: 0 <= i < |r.value| ==>
                        && IsIdentifier(r.value[i].kind) && r.value[i].kind == Trim(evidence[i].kind)
                        && SafeText(r.value[i].ref, MAX_REF_UNITS)
  {
    if evidence == [] then Ok([]) else
      var kind :- Identifier(evidence[0].kind);
      var ref :- BoundedText(evidence[0].ref, MAX_REF_UNITS, InvalidInput);
      var rest :- EvidenceEntries(evidence[1..]);
      Ok([Evidence(kind, ref)] + rest)
  }

  function ValidatedEvidence(evidence: seq<Evidence>): (r: Result<seq<Evidence>, LedgerError>)
    ensures r.Ok? ==> 0 < |r.value| == |evidence| <= MAX_EVIDENCE
  {
    if evidence == [] then Err(MissingEvidence)
    else if |evidence| > MAX_EVIDENCE then Err(InvalidInput)
    else EvidenceEntries(evidence)
  }

  // ----- searches: the first element that matches -----

  function FindItem(items: seq<Item>, id: Text): (r: Option<Item>)
    ensures r.Some? ==> r.value in items && r.value.id == id
    ensures r.None? ==> forall item :: item in items ==> item.id != id
  {
    if items == [] then None
    else if items[0].id == id then Some(items[0])
    else FindItem(items[1..], id)
  }

  function FindSource(sources: seq<Source>, kind: SourceKind, id: Text): (r: Option<Source>)
    ensures r.Some? ==> r.value in sources && r.value.kind == kind && r.value.id == id
    ensures r.None? ==> forall source :: source in sources ==> !(source.kind == kind && source.id == id)
  {
    if sources == [] then None
    else if sources[0].kind == kind && sources[0].id == id then Some(sources[0])
    else FindSource(sources[1..], kind, id)
  }

  predicate HasContent(sources: seq<Source>, itemId: Text, content: Digest) {
    exists i :: 0 <= i < |sources| && sources[i].itemId == itemId && sources[i].contentDigest == content
  }

  /** Whether ingestion joins this item: open, in the project, and the same work by digest or content. */
  predicate Joins(st: Backlog, item: Item, project: Text, dedupe: Dedupe, digest: Digest, content: Digest) {
    && item.project == project
    && item.Open()
    && (item.dedupeDigest == digest || (dedupe.CanonicalKey? && HasContent(st.sources, item.id, content)))
  }

  function FindJoined(st: Backlog, items: seq<Item>, project: Text, dedupe: Dedupe, digest: Digest, content: Digest)
    : (r: Option<Item>)
    ensures r.Some? ==> r.value in items && Joins(st, r.value, project, dedupe, digest, content)
    ensures r.None? ==> forall item :: item in items ==> !Joins(st, item, project, dedupe, digest, content)
  {
    if items == [] then None
    else if Joins(st, items[0], project, dedupe, digest, content) then Some(items[0])
    else FindJoined(st, items[1..], project, dedupe, digest, content)
  }

  function Replace(items: seq<Item>, updated: Item): (r: seq<Item>)
    ensures |r| == |items|
    ensures forall i :: 0 <= i < |items| ==> r[i] == if items[i].id == updated.id then updated else items[i]
  {
    seq(|items|, i requires 0 <= i < |items| => if items[i].id == updated.id then updated else items[i])
  }

  // ----- ingestion -----

  function DedupeDigest(
    sha: Text -> Digest, st: Backlog, project: Text, dedupe: Dedupe, kind: SourceKind, sourceId: Text, content: Digest)
    : Result<Digest, LedgerError>
  {
    match dedupe
    case CanonicalKey(key) => Ok(sha(Ascii("canonical") + [SEPARATOR] + key))
    case ItemId(itemId) =>
      var existing := FindItem(st.items, itemId);
      if existing.Some? && existing.value.project == project then Ok(existing.value.dedupeDigest) else Err(NotFound)
    case ExactContent(scope) => Ok(sha((if scope.Some? then scope.value else []) + [SEPARATOR] + content))
    case SourceOnly(_) => Ok(sha(KindName(kind) + [COLON] + sourceId))
  }

  function RequirementRecords(
    sha: Text -> Digest, texts: seq<Text>, itemId: Text, kind: SourceKind, sourceId: Text): (r: seq<Requirement>)
    ensures |r| == |texts|
  {
    seq(|texts|, i requires 0 <= i < |texts| =>
      Requirement(RequirementId(kind, sourceId, i), itemId, kind, sourceId, texts[i], sha(texts[i])))
  }

  /** A known item takes the new source: urgency is sticky and time never runs backwards. */
  function Joined(item: Item, priority: Priority, observedAt: nat): Item {
    item.(
      priority := if item.priority.Urgent? || priority.Urgent? then Urgent else Normal,
      revision := item.revision + 1,
      updatedAt := if item.updatedAt >= observedAt then item.updatedAt else observedAt)
  }

  function Ingest(sha: Text -> Digest, st: Backlog, input: IngestInput): Result<Ingested, LedgerError> {
    var newItemId :- Identifier(input.newItemId);
    var sourceId :- Identifier(input.sourceId);
    var observedAt :- Timestamp(input.observedAt);
    var authority :- ValidatedAuthority(input.authority);
    var dedupe :- ValidatedDedupe(input.dedupe);
    if input.requirements == [] || |input.requirements| > MAX_REQUIREMENTS then Err(InvalidInput) else
      var texts :- NormalizedRequirements(input.requirements);
      var content := sha(Join(texts, [SEPARATOR]));
      var known := FindSource(st.sources, input.kind, sourceId);
      if known.Some? then
        var item := FindItem(st.items, known.value.itemId);
        if item.None? then Err(NotFound)
        else if item.value.project != input.project then Err(SourceConflict)
        else if known.value.contentDigest != content then Err(SourceConflict)
        else Ok(Ingested(st, item.value, false))
      else
        var digest :- DedupeDigest(sha, st, input.project, dedupe, input.kind, sourceId, content);
        var match_ :=
          if dedupe.ItemId? then FindItem(st.items, dedupe.itemId)
          else FindJoined(st, st.items, input.project, dedupe, digest, content);
        var item :=
          if match_.Some? then Joined(match_.value, input.priority, observedAt)
          else Item(newItemId, input.project, input.priority,
                    if input.initial.StartReady? then Ready else Unreconciled, digest, 1, observedAt, observedAt);
        var source := Source(input.kind, sourceId, item.id, authority, observedAt, content);
        Ok(Ingested(
             st.(items := if match_.None? then st.items + [item] else Replace(st.items, item),
                 sources := st.sources + [source],
                 requirements := st.requirements + RequirementRecords(sha, texts, item.id, input.kind, sourceId)),
             item,
             match_.None?))
  }

  // ----- transitions -----

  function NextState(current: ItemState, event: Event): Result<ItemState, LedgerError> {
    if current.Terminal? then Err(InvalidTransition) else
    match event
    case Assign(agentId, leaseId) =>
      if !current.Ready? then Err(InvalidTransition) else
        var agent :- Identifier(agentId);
        var lease :- Identifier(leaseId);
        Ok(Assigned(agent, lease))
    case Start(ref) =>
      if !current.Assigned? then Err(InvalidTransition) else
        var text :- BoundedText(ref, MAX_REF_UNITS, InvalidInput);
        Ok(Implementing(current.agentId, current.leaseId, text))
    case ReviewWork(ref) =>
      if !current.Implementing? then Err(InvalidTransition) else
        var text :- BoundedText(ref, MAX_REF_UNITS, InvalidInput);
        Ok(InReview(current.agentId, current.leaseId, current.implementationRef, text))
    case Publish(ref) =>
      if !current.InReview? then Err(InvalidTransition) else
        var text :- BoundedText(ref, MAX_REF_UNITS, InvalidInput);
        Ok(Publishing(current.agentId, current.leaseId, current.implementationRef, current.reviewRef, text))
    case Block(reason) =>
      var text :- BoundedText(reason, MAX_REASON_UNITS, InvalidInput);
      Ok(Blocked(text))
    case MakeReady =>
      if current.Blocked? || current.Unreconciled? then Ok(Ready) else Err(InvalidTransition)
    case Complete(evidence) =>
      if !(current.Implementing? || current.InReview? || current.Publishing?) then Err(InvalidTransition) else
        var entries :- ValidatedEvidence(evidence);
        Ok(Terminal(Completed, entries))
    case Reconcile(outcome, evidence) =>
      var entries :- ValidatedEvidence(evidence);
      Ok(Terminal(outcome, entries))
    case Cancel(evidence) =>
      var entries :- ValidatedEvidence(evidence);
      Ok(Terminal(Cancelled, entries))
  }

  function EventPhase(event: Event): Phase {
    match event
    case Start(_) => Implementation
    case ReviewWork(_) => Review
    case Publish(_) => Publication
    case _ => Final
  }

  function EventEntries(event: Event): Result<seq<Evidence>, LedgerError> {
    match event
    case Start(ref) =>
      var text :- BoundedText(ref, MAX_REF_UNITS, InvalidInput);
      Ok([Evidence(Ascii("implementation-reference"), text)])
    case ReviewWork(ref) =>
      var text :- BoundedText(ref, MAX_REF_UNITS, InvalidInput);
      Ok([Evidence(Ascii("review-reference"), text)])
    case Publish(ref) =>
      var text :- BoundedText(ref, MAX_REF_UNITS, InvalidInput);
      Ok([Evidence(Ascii("publication-reference"), text)])
    case Complete(evidence) => ValidatedEvidence(evidence)
    case Reconcile(_, evidence) => ValidatedEvidence(evidence)
    case Cancel(evidence) => ValidatedEvidence(evidence)
    case _ => Ok([])
  }

  /** One step of one item: the state it moves to and what the ledger records about the move. */
  datatype Change = Change(
    next: ItemState, actor: Text, event: EventKind, at: nat, phase: Phase, entries: seq<Evidence>)

  function Plan(item: Item, actor: Text, at: nat, event: Event): Result<Change, LedgerError> {
    var next :- NextState(item.state, event);
    var entries :- EventEntries(event);
    Ok(Change(next, actor, event.Kind(), at, EventPhase(event), entries))
  }

  function Updated(item: Item, change: Change): Item {
    item.(state := change.next, revision := item.revision + 1, updatedAt := change.at)
  }

  function EvidenceRecords(itemId: Text, revision: nat, change: Change): (r: seq<EvidenceRecord>)
    ensures |r| == |change.entries|
  {
    seq(|change.entries|, i requires 0 <= i < |change.entries| =>
      EvidenceRecord(EvidenceId(itemId, revision, change.phase, i), itemId, change.phase,
                     change.entries[i].kind, change.entries[i].ref, change.at))
  }

  function Recorded(item: Item, change: Change): TransitionRecord {
    TransitionRecord(item.id, item.revision + 1, change.actor, change.event,
                     item.state.Kind(), change.next.Kind(), change.at)
  }

  function Advance(st: Backlog, item: Item, change: Change): Backlog {
    st.(items := Replace(st.items, Updated(item, change)),
        evidence := st.evidence + EvidenceRecords(item.id, item.revision + 1, change),
        transitions := st.transitions + [Recorded(item, change)])
  }

  function Transition(st: Backlog, itemId: Text, expectedRevision: nat, actor: Text, now: int, event: Event)
    : Result<(Backlog, Item), LedgerError>
  {
    var id :- Identifier(itemId);
    var who :- Identifier(actor);
    var at :- Timestamp(now);
    var item := FindItem(st.items, id);
    if item.None? then Err(NotFound)
    else if item.value.revision != expectedRevision then Err(StaleRevision)
    else
      var change :- Plan(item.value, who, at, event);
      Ok((Advance(st, item.value, change), Updated(item.value, change)))
  }
}
