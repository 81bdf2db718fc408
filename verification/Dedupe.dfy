/** Which requests and messages share an item, on the stored rows and over whole runs (sqlite-store.ts). */
module Dedupe {
  import opened Wrappers
  import opened Texts
  import opened Ledger
  import opened Tables
  import opened Invariants
  import opened Evolution
  import opened Refinement
  import opened Registry
  import opened Soundness
  import opened Reconcile
  import opened Frames
  import opened Steps
  import opened Runs
  import opened Fencing
  import opened Links
  import opened Readability
  import opened Effects
  import opened Joining
  import Chunks
  import Enqueueing
  import RuntimeIdentity

  // ----- one ingestion of an exact-content source -----

  /** An open item of the project has the digest. */
  ghost predicate Known(t: Tables, project: Text, digest: Digest) {
    exists id :: InProject(t, project, id) && t.items[id].Open() && t.items[id].dedupeDigest == digest
  }

  /** The new source and its item: the open item of the project with the source's digest, or a new one if there is
      none. */
  ghost predicate TakenIn(sha: Text -> Digest, t: Tables, t2: Tables, input: IngestInput)
    requires NormalizedRequirements(input.requirements).Ok? && input.dedupe.ExactContent?
  {
    var key, digest := (input.kind, Trim(input.sourceId)), sha(ScopedContent(sha, input));
    && key !in t.sources && key in t2.sources && t2.sources == t.sources[key := t2.sources[key]]
    && SourceTells(sha, t2.sources[key], input)
    && var id := t2.sources[key].itemId;
    && InProject(t2, input.project, id) && t2.items == t.items[id := t2.items[id]]
    && t2.items[id].id == id && t2.items[id].dedupeDigest == digest
    && if Known(t, input.project, digest) then
         InProject(t, input.project, id) && t.items[id].Open() && t.items[id].dedupeDigest == digest
         && TakesIn(t.items[id], t2.items[id], input)
       else id !in t.items && Begins(sha, t2.items[id], input)
  }

  /** Its requirements are stored under it, in order, and nothing else of the ledger changed. */
  ghost predicate RequirementsStored(sha: Text -> Digest, t: Tables, t2: Tables, input: IngestInput) {
    var key := (input.kind, Trim(input.sourceId));
    && key in t2.sources
    && (forall i :: 0 <= i < |input.requirements| ==>
          var id := RequirementId(input.kind, Trim(input.sourceId), i);
          id !in t.requirements && id in t2.requirements
          && RequirementTells(sha, t2.requirements[id], input, t2.sources[key].itemId, i))
    && (forall k :: k in t.requirements ==> k in t2.requirements && t2.requirements[k] == t.requirements[k])
    && t2.evidence == t.evidence && t2.transitions == t.transitions
  }

  lemma IsSeparate(t: Tables, project: Text, st: Backlog)
    requires LedgerSound(t) && Represents(t, project, st)
    ensures Separate(st, project)
  {
    hide SourceRows, RequirementRows, EvidenceRows, TransitionRows, FinalEvidence, Paths, Starts, References,
         SourcesMatch, RequirementsMatch, EvidenceMatch, TransitionsMatch, ItemSafe, ReasonTrimmed;
  }

  lemma KnownIff(t: Tables, project: Text, st: Backlog, digest: Digest)
    requires Represents(t, project, st)
    ensures Known(t, project, digest) <==>
            exists item :: item in st.items && item.project == project && item.Open() && item.dedupeDigest == digest
  {
    hide SourcesMatch, RequirementsMatch, EvidenceMatch, TransitionsMatch;
    if id :| InProject(t, project, id) && t.items[id].Open() && t.items[id].dedupeDigest == digest {
      assert t.items[id] in st.items;
    }
    if item :| item in st.items && item.project == project && item.Open() && item.dedupeDigest == digest {
      assert InProject(t, project, item.id);
    }
  }

  lemma HeldIsStored(t: Tables, project: Text, st: Backlog, item: Item)
    requires Represents(t, project, st) && item in st.items
    ensures InProject(t, project, item.id) && t.items[item.id] == item
  {
    hide SourcesMatch, RequirementsMatch, EvidenceMatch, TransitionsMatch;
  }

  lemma NewSourceRow(t: Tables, st: Backlog, r: Ingested)
    requires IngestStep(t, st, r).Ok? && |r.state.sources| == |st.sources| + 1
    requires |r.state.requirements| >= |st.requirements| && NewSource(st, r).itemId == r.item.id
    ensures var t2, source := IngestStep(t, st, r).value, NewSource(st, r);
            && t2 == IngestRow(t, r.item, source, NewRequirements(st, r)) && Fits(t, st, r)
            && t2.sources == t.sources[KeyOf(source) := source] && t2.items == t.items[r.item.id := r.item]
            && KeyOf(source) !in t.sources && (r.created ==> r.item.id !in t.items)
  {
    hide InsertRows;
  }

  /** Ingesting a new exact-content source into the project's ledger takes it in. */
  lemma IngestionTakesIn(t: Tables, sha: Text -> Digest, st: Backlog, input: IngestInput)
    requires LedgerSound(t) && Represents(t, input.project, st) && input.dedupe.ExactContent?
    requires Ingest(sha, st, input).Ok? && IngestStep(t, st, Ingest(sha, st, input).value).Ok?
    requires FindSource(st.sources, input.kind, SourceIdOf(input)).None?
    ensures NormalizedRequirements(input.requirements).Ok?
    ensures TakenIn(sha, t, IngestStep(t, st, Ingest(sha, st, input).value).value, input)
  {
    hide LedgerSound, Represents, Ingest, IngestStep, NormalizedRequirements, ScopedContent, Trim, RequirementTells,
         SourceTells, TakesIn, Begins, Known, Requirements;
    var r := Ingest(sha, st, input).value;
    IngestedRequirementsTell(sha, st, input);
    IngestedItem(sha, st, input);
    NewSourceRow(t, st, r);
    NewSourceKey(sha, NewSource(st, r), input);
    KnownIff(t, input.project, st, sha(ScopedContent(sha, input)));
    if r.created {
      StartedItem(sha, r.item, input);
    } else {
      var known :| known in st.items && IsWorkOf(sha, st, input, known) && TakesIn(known, r.item, input);
      HeldIsStored(t, input.project, st, known);
      TakenItem(known, r.item, input);
    }
  }

  lemma NewSourceKey(sha: Text -> Digest, source: Source, input: IngestInput)
    requires NormalizedRequirements(input.requirements).Ok? && SourceTells(sha, source, input)
    ensures KeyOf(source) == (input.kind, Trim(input.sourceId))
  {
    hide NormalizedRequirements, Trim, Requirements;
  }

  lemma StartedItem(sha: Text -> Digest, item: Item, input: IngestInput)
    requires NormalizedRequirements(input.requirements).Ok? && input.dedupe.ExactContent?
    requires Begins(sha, item, input)
    ensures item.project == input.project && item.dedupeDigest == sha(ScopedContent(sha, input))
  {
    hide NormalizedRequirements, Trim, ScopedContent;
  }

  lemma TakenItem(known: Item, item: Item, input: IngestInput)
    requires TakesIn(known, item, input)
    ensures item.id == known.id && item.project == known.project && item.dedupeDigest == known.dedupeDigest
  {
  }

  lemma IngestionStoresRequirements(t: Tables, sha: Text -> Digest, st: Backlog, input: IngestInput)
    requires LedgerSound(t) && Represents(t, input.project, st)
    requires Ingest(sha, st, input).Ok? && IngestStep(t, st, Ingest(sha, st, input).value).Ok?
    requires FindSource(st.sources, input.kind, SourceIdOf(input)).None?
    ensures RequirementsStored(sha, t, IngestStep(t, st, Ingest(sha, st, input).value).value, input)
  {
    hide LedgerSound, Represents, Ingest, IngestStep, NormalizedRequirements, Trim, SourceTells, Ingestible,
         RequirementRows, WordsOf, Join, RequirementId, IngestRow, Fits;
    var r := Ingest(sha, st, input).value;
    IngestedRequirementsTell(sha, st, input);
    NewSourceRow(t, st, r);
    NewSourceKey(sha, NewSource(st, r), input);
    IngestIsIngestible(t, input.project, sha, st, input);
    assert RequirementRows(t) by { SoundRequirements(t); }
    IngestedRequirements(t, r.item, NewSource(st, r), NewRequirements(st, r));
    IngestLeaves(t, r.item, NewSource(st, r), NewRequirements(st, r));
    var t2, records := IngestStep(t, st, r).value, NewRequirements(st, r);
    forall i | 0 <= i < |input.requirements|
      ensures var id := RequirementId(input.kind, Trim(input.sourceId), i);
              id !in t.requirements && id in t2.requirements
              && RequirementTells(sha, t2.requirements[id], input, r.item.id, i)
    {
      assert RequirementTells(sha, records[i], input, r.item.id, i);
      assert records[i].id in t2.requirements && t2.requirements[records[i].id] == records[i];
    }
  }

  lemma IngestLeaves(t: Tables, item: Item, source: Source, records: seq<Requirement>)
    ensures var t2 := IngestRow(t, item, source, records);
            t2.evidence == t.evidence && t2.transitions == t.transitions && t2.leases == t.leases
            && t2.requests == t.requests
  {
    hide InsertRows;
  }

  lemma SoundRequirements(t: Tables)
    requires LedgerSound(t)
    ensures RequirementRows(t)
  {
    hide RequirementRows, ItemRows, SourceRows, EvidenceRows, TransitionRows, FinalEvidence, Paths, Starts,
         OneOpenPerDigest, References;
  }

  // ----- queueing a request -----

  /** A request as the work it asks for. */
  function WorkOf(r: Request, itemId: Uuid): IngestInput {
    IngestInput(itemId, r.project, RegistryRequest, r.id, r.createdAt, r.priority, Chunks.ChunksFrom(r.text, 0),
                RoutingOnly, ExactContent(Some(r.role)), StartReady)
  }

  lemma DoneIngest(env: Env, t: Tables, op: Op, t2: Tables) returns (st: Backlog)
    requires IngestsWork(op) && Done(env, t, op, t2)
    ensures Represents(t, ProjectOf(t, op), st) && NextIngest(env, t, st, op) == Ok(t2)
  {
    hide NextRequest, NextIngest, NextOther, Represents;
    st :| (IngestsWork(op) ==> Represents(t, ProjectOf(t, op), st)) && Next(env, t, st, op) == Ok(t2);
  }

  lemma EnqueuedRow(env: Env, t: Tables, st: Backlog, op: Op)
    requires op.OpEnqueue? && NextIngest(env, t, st, op).Ok?
    ensures op.now >= 0 && op.requestId !in t.requests
    ensures var request := Request(op.requestId, op.project, Trim(op.role), Trim(op.requesterId), Trim(op.text),
                                   op.priority, op.now, op.now, None, None, RequestStatus.Queued);
            var t1, input := WithRequest(t, request), WorkOf(request, op.itemId);
            && Ingest(env.sha, st, input).Ok? && IngestStep(t1, st, Ingest(env.sha, st, input).value).Ok?
            && NextIngest(env, t, st, op).value == IngestStep(t1, st, Ingest(env.sha, st, input).value).value
  {
    hide Ingest, IngestStep, Loadable, Trim, HasUnsafeControl, Chunks.ChunksFrom;
  }

  /** The request is stored as given, and its work taken in. */
  ghost predicate QueuedBy(env: Env, t: Tables, op: Op, t2: Tables)
    requires op.OpEnqueue?
  {
    && op.now >= 0 && op.requestId !in t.requests && t2.leases == t.leases
    && var request := Request(op.requestId, op.project, Trim(op.role), Trim(op.requesterId), Trim(op.text),
                              op.priority, op.now, op.now, None, None, RequestStatus.Queued);
    && t2.requests == t.requests[op.requestId := request]
    && var input := WorkOf(request, op.itemId);
       && input.requirements != [] && NormalizedRequirements(input.requirements).Ok?
       && TakenIn(env.sha, t, t2, input) && RequirementsStored(env.sha, t, t2, input)
  }

  /** Queueing stores the request as given and takes its work in: it joins the open item of the project with the same
      digest, or starts a new ready item. */
  lemma EnqueueingDoes(env: Env, t: Tables, op: Op, t2: Tables)
    requires Sound(t) && op.OpEnqueue? && Done(env, t, op, t2) && (RegistryRequest, op.requestId) !in t.sources
    ensures QueuedBy(env, t, op, t2)
  {
    hide Sound, Done, Represents, Ingest, IngestStep, LedgerSound, NextIngest, Trim, WorkOf, TakenIn,
         RequirementsStored, SourceIdOf;
    var st := DoneIngest(env, t, op, t2);
    EnqueuedRow(env, t, st, op);
    var request := Request(op.requestId, op.project, Trim(op.role), Trim(op.requesterId), Trim(op.text),
                           op.priority, op.now, op.now, None, None, RequestStatus.Queued);
    var t1, input := WithRequest(t, request), WorkOf(request, op.itemId);
    SoundLedger(t);
    LedgerRowsKept(t, request);
    LedgerFrame(t, t1);
    LedgerRepresented(t, t1, op.project, st);
    WorkFields(request, op.itemId);
    Enqueueing.SourceIsNew(t, op.project, st, op.requestId);
    AcceptedHasRequirements(env.sha, st, input);
    IngestionTakesIn(t1, env.sha, st, input);
    IngestionStoresRequirements(t1, env.sha, st, input);
    IngestedSides(t1, st, Ingest(env.sha, st, input).value);
    TakenInFrame(env.sha, t, t1, t2, input);
  }

  lemma WorkFields(r: Request, itemId: Uuid)
    ensures var input := WorkOf(r, itemId);
            input.project == r.project && input.dedupe.ExactContent? && input.kind == RegistryRequest
            && SourceIdOf(input) == r.id
  {
    UuidIsIdentifier(r.id);
  }

  lemma IngestedSides(t: Tables, st: Backlog, r: Ingested)
    requires IngestStep(t, st, r).Ok?
    ensures IngestStep(t, st, r).value.leases == t.leases && IngestStep(t, st, r).value.requests == t.requests
  {
    hide InsertRows, Fits;
  }

  lemma TakenInFrame(sha: Text -> Digest, t: Tables, t1: Tables, t2: Tables, input: IngestInput)
    requires SameLedgerRows(t, t1) && NormalizedRequirements(input.requirements).Ok? && input.dedupe.ExactContent?
    requires TakenIn(sha, t1, t2, input) && RequirementsStored(sha, t1, t2, input)
    ensures TakenIn(sha, t, t2, input) && RequirementsStored(sha, t, t2, input)
  {
    hide NormalizedRequirements, ScopedContent, Trim, SourceTells, TakesIn, Begins, RequirementTells, RequirementId;
    var digest := sha(ScopedContent(sha, input));
    assert Known(t, input.project, digest) <==> Known(t1, input.project, digest) by {
      assert forall id :: InProject(t, input.project, id) <==> InProject(t1, input.project, id);
    }
  }

  // ----- taking a message in -----

  /** A message as the work it may be. */
  function MessageWork(m: Message, itemId: Uuid): IngestInput {
    IngestInput(itemId, m.project, m.source, m.id, m.observedAt, Normal, m.requirements,
                if m.fromOwner then AuthenticatedOwner(m.id) else RoutingOnly, ExactContent(None), StartUnreconciled)
  }

  /** The message's work is taken in, unless the message is known. */
  ghost predicate ReceivedBy(env: Env, t: Tables, op: Op, t2: Tables)
    requires op.OpMessage?
  {
    && t2.leases == t.leases && t2.requests == t.requests
    && var input := MessageWork(op.message, op.itemId);
    && NormalizedRequirements(input.requirements).Ok?
    && (!Stored(t, input) ==> TakenIn(env.sha, t, t2, input) && RequirementsStored(env.sha, t, t2, input))
    && (Stored(t, input) ==> t2 == t)
  }

  /** Taking a new message in joins the open item of the project with the same digest, or starts an item that is not
      reconciled yet; a message that is known changes nothing. */
  lemma MessageDoes(env: Env, t: Tables, op: Op, t2: Tables)
    requires Sound(t) && op.OpMessage? && Done(env, t, op, t2)
    ensures ReceivedBy(env, t, op, t2)
  {
    hide Sound, Done, Represents, Ingest, LedgerSound, Trim, TakenIn, RequirementsStored, Loadable, Fits, IngestRow;
    var st := DoneIngest(env, t, op, t2);
    var input := MessageWork(op.message, op.itemId);
    SoundLedger(t);
    AcceptedHasRequirements(env.sha, st, input);
    FoundIffStored(t, st, input);
    IngestedSides(t, st, Ingest(env.sha, st, input).value);
    IngestShape(env.sha, st, input);
    if !Stored(t, input) {
      IngestionTakesIn(t, env.sha, st, input);
      IngestionStoresRequirements(t, env.sha, st, input);
    }
  }

  /** The source is stored with an item of the project. */
  ghost predicate Stored(t: Tables, input: IngestInput) {
    var key := (input.kind, Trim(input.sourceId));
    key in t.sources && InProject(t, input.project, t.sources[key].itemId)
  }

  lemma FoundIffStored(t: Tables, st: Backlog, input: IngestInput)
    requires LedgerSound(t) && Represents(t, input.project, st)
    ensures FindSource(st.sources, input.kind, SourceIdOf(input)).Some? <==> Stored(t, input)
  {
    hide Trim, ItemsMatch, RequirementsMatch, EvidenceMatch, TransitionsMatch, ItemRows, RequirementRows, EvidenceRows,
         TransitionRows, FinalEvidence, Paths, Invariants.Starts, OneOpenPerDigest, References, SourceSafe;
    var key := (input.kind, Trim(input.sourceId));
    var found := FindSource(st.sources, input.kind, SourceIdOf(input));
    if found.Some? {
      var i :| 0 <= i < |st.sources| && st.sources[i] == found.value;
    }
    if Stored(t, input) { assert t.sources[key] in st.sources; }
  }

  // ----- where the sources of a state come from -----

  /** Messages come from the owner or the bridge, and snapshots from a tracker or a document: no call but queueing
      stores a request's source. */
  predicate OwnKind(op: Op) {
    && (op.OpMessage? ==> op.message.source == OwnerMessage || op.message.source == BridgeMessage)
    && (op.OpCanonical? ==> op.kind == TrackerItem || op.kind == BacklogDocument)
  }

  ghost predicate OnlyNew(t: Tables, t2: Tables, kind: SourceKind) {
    forall k :: k in t2.sources ==> k in t.sources || k.0 == kind
  }

  lemma IngestedKind(sha: Text -> Digest, t: Tables, st: Backlog, input: IngestInput)
    requires Ingest(sha, st, input).Ok? && IngestStep(t, st, Ingest(sha, st, input).value).Ok?
    ensures OnlyNew(t, IngestStep(t, st, Ingest(sha, st, input).value).value, input.kind)
  {
    hide Ingest, RequirementsOf, InsertRows, IsIdentifier, SafeText;
    IngestShape(sha, st, input);
  }

  lemma {:induction false} RecordsKind(
    sha: Text -> Digest, uuid: Text -> Uuid, w: Work, feed: Feed, key: Text, item: Option<Item>,
    records: seq<FeedRecord>)
    requires IngestRecords(sha, uuid, w, feed, key, item, records).Ok?
    ensures OnlyNew(w.tables, IngestRecords(sha, uuid, w, feed, key, item, records).value.0.tables, feed.kind)
    decreases |records|
  {
    hide Ingest, IngestStep;
    if records != [] {
      IngestedKind(sha, w.tables, w.held, RecordInput(feed, uuid, key, item, records[0]));
      var (w2, item2) := IngestRecord(sha, uuid, w, feed, key, item, records[0]).value;
      RecordsKind(sha, uuid, w2, feed, key, Some(item2), records[1..]);
    }
  }

  lemma GroupKind(sha: Text -> Digest, uuid: Text -> Uuid, w: Work, feed: Feed, group: Group)
    requires ReconcileGroup(sha, uuid, w, feed, group).Ok?
    ensures OnlyNew(w.tables, ReconcileGroup(sha, uuid, w, feed, group).value.tables, feed.kind)
  {
    hide IngestRecords, GroupEvent, Plan, Identifier, InsertRows, FindByPrefix, FindItem;
    var existing := FindByPrefix(w.held.sources, feed.kind, group.prefix);
    if !(group.records[0].status.Closed() && existing.None?) {
      var known := if existing.Some? then FindItem(w.held.items, existing.value.itemId) else None;
      RecordsKind(sha, uuid, w, feed, group.key, known, group.records);
    }
  }

  lemma {:induction false} GroupsKind(
    sha: Text -> Digest, uuid: Text -> Uuid, w: Work, feed: Feed, groups: seq<Group>)
    requires ReconcileGroups(sha, uuid, w, feed, groups).Ok?
    ensures OnlyNew(w.tables, ReconcileGroups(sha, uuid, w, feed, groups).value.tables, feed.kind)
    decreases |groups|
  {
    hide ReconcileGroup;
    if groups != [] {
      GroupsKind(sha, uuid, w, feed, groups[..|groups| - 1]);
      GroupKind(sha, uuid, ReconcileGroups(sha, uuid, w, feed, groups[..|groups| - 1]).value, feed,
                groups[|groups| - 1]);
    }
  }

  lemma FeedKind(env: Env, t: Tables, op: Op, t2: Tables)
    requires (op.OpCanonical? || op.OpBranch?) && OwnKind(op) && Done(env, t, op, t2)
    ensures forall k :: k in t2.sources && k.0 == RegistryRequest ==> k in t.sources
  {
    hide Done, Represents, ReconcileGroups, Loadable, Regroup;
    var st := DoneIngest(env, t, op, t2);
    GroupsKind(env.sha, op.uuids, Work(t, st), FeedOf(op), FeedOf(op).groups);
  }

  lemma MessageKind(env: Env, t: Tables, op: Op, t2: Tables)
    requires op.OpMessage? && OwnKind(op) && Done(env, t, op, t2)
    ensures forall k :: k in t2.sources && k.0 == RegistryRequest ==> k in t.sources
  {
    hide Done, Represents, Ingest, IngestStep, Loadable;
    var st := DoneIngest(env, t, op, t2);
    IngestedKind(env.sha, t, st, MessageInput(op.message, op.itemId));
  }

  lemma RequestCallKeepsSources(env: Env, t: Tables, op: Op, t2: Tables)
    requires Sound(t) && WorksOnRequest(op) && Done(env, t, op, t2)
    ensures t2.sources == t.sources
  {
    hide Sound, Done, Tells, RuntimeIdentity.SameRuntimeSession, Trim, Ascii, HandedOver, NewStatus, Rewritten, ItemOf;
    if op.OpAdvance? { AdvancingDoes(env, t, op, t2); } else { CallFollows(env, t, op, t2); }
  }

  /** No successful call but queueing adds the source of a request. */
  lemma RequestSourcesAreQueued(env: Env, t: Tables, op: Op, t2: Tables)
    requires Sound(t) && Done(env, t, op, t2) && OwnKind(op) && !op.OpEnqueue?
    ensures forall k :: k in t2.sources && k.0 == RegistryRequest ==> k in t.sources
  {
    hide Sound, Done, OwnKind, ClearStep, SameLedgerRows;
    if op.OpMessage? { MessageKind(env, t, op, t2); }
    else if op.OpCanonical? || op.OpBranch? { FeedKind(env, t, op, t2); }
    else if WorksOnRequest(op) { RequestCallKeepsSources(env, t, op, t2); }
    else if op.OpClear? { ClearedSources(env, t, op, t2); }
    else { OtherKeepsSources(env, t, op, t2); }
  }

  lemma ClearedSources(env: Env, t: Tables, op: Op, t2: Tables)
    requires op.OpClear? && Done(env, t, op, t2)
    ensures forall k :: k in t2.sources ==> k in t.sources && t2.sources[k] == t.sources[k]
  {
    hide KeptTransitions, Represents;
  }

  lemma OtherKeepsSources(env: Env, t: Tables, op: Op, t2: Tables)
    requires Sound(t) && Done(env, t, op, t2) && !IngestsWork(op) && !WorksOnRequest(op) && !op.OpClear?
    ensures t2.sources == t.sources
  {
    hide Sound, Done, MovesOn;
    StepMovesOn(env, t, op, t2);
  }

  // ----- in every reachable state -----

  /** The item behind a stored request's source is the request's own: it lies in the request's project, and its digest
      is that of the request's role and text. */
  ghost predicate RequestTold(env: Env, t: Tables, id: Text)
    requires (RegistryRequest, id) in t.sources
  {
    && IsUuid(id) && id in t.requests && t.requests[id].id == id
    && InProject(t, t.requests[id].project, t.sources[(RegistryRequest, id)].itemId)
    && WorkTold(env, t.requests[id], t.items[t.sources[(RegistryRequest, id)].itemId])
  }

  ghost predicate WorkTold(env: Env, r: Request, item: Item) {
    var input := WorkOf(r, r.id);
    && input.requirements != [] && NormalizedRequirements(input.requirements).Ok?
    && item.dedupeDigest == env.sha(ScopedContent(env.sha, input))
  }

  ghost predicate RequestsTold(env: Env, t: Tables) {
    forall id :: (RegistryRequest, id) in t.sources ==> RequestTold(env, t, id)
  }

  lemma WorkStaysTold(env: Env, a: Request, b: Request, x: Item, y: Item)
    requires WorkTold(env, a, x) && SameRequest(a, b) && y.dedupeDigest == x.dedupeDigest
    ensures WorkTold(env, b, y)
  {
    hide NormalizedRequirements, ScopedContent, Chunks.ChunksFrom;
    assert WorkOf(a, a.id) == WorkOf(b, b.id);
  }

  lemma CallKeepsTold(env: Env, t: Tables, op: Op, t2: Tables, id: Text)
    requires Follows(t, t2) && (RegistryRequest, id) in t.sources && RequestTold(env, t, id)
    requires RequestMoves(t, op, t2, id)
    ensures (RegistryRequest, id) in t2.sources && RequestTold(env, t2, id)
  {
    hide WorkTold, StatusEdge;
    var itemId := t.sources[(RegistryRequest, id)].itemId;
    WorkStaysTold(env, t.requests[id], t2.requests[id], t.items[itemId], t2.items[itemId]);
  }

  lemma ClearKeepsTold(env: Env, t: Tables, op: Op, t2: Tables)
    requires op.OpClear? && NextOther(t, op) == Ok(t2) && RequestsTold(env, t)
    ensures RequestsTold(env, t2)
  {
    hide KeptTransitions, WorkTold;
    forall id | (RegistryRequest, id) in t2.sources
      ensures RequestTold(env, t2, id)
    {
      assert RequestTold(env, t, id);
    }
  }

  lemma EnqueuedIsTold(env: Env, t: Tables, op: Op, t2: Tables)
    requires Sound(t) && op.OpEnqueue? && Done(env, t, op, t2) && RequestsTold(env, t)
    ensures (RegistryRequest, op.requestId) !in t.sources && QueuedBy(env, t, op, t2)
    ensures RequestsTold(env, t2)
  {
    hide Sound, Done, Represents, NextIngest, WorkTold, QueuedBy;
    var st := DoneIngest(env, t, op, t2);
    EnqueuedRow(env, t, st, op);
    EnqueueingDoes(env, t, op, t2);
    assert Follows(t, t2) && forall id: Uuid :: RequestMoves(t, op, t2, id) by {
      MovedOn(env, t, op, t2);
    }
    forall id | (RegistryRequest, id) in t2.sources
      ensures RequestTold(env, t2, id)
    {
      if id == op.requestId {
        QueuedIsTold(env, t, op, t2);
      } else {
        QueuedSources(env, t, op, t2, id);
        CallKeepsTold(env, t, op, t2, id);
      }
    }
  }

  lemma MovedOn(env: Env, t: Tables, op: Op, t2: Tables)
    requires Sound(t) && Done(env, t, op, t2) && !op.OpClear?
    ensures Follows(t, t2)
    ensures forall id: Uuid :: RequestMoves(t, op, t2, id)
  {
    hide Sound, Done, Follows, Stamped, Dated, RequestMoves, Loadable;
    StepMovesOn(env, t, op, t2);
    forall id: Uuid
      ensures RequestMoves(t, op, t2, id)
    {
      StepMovesRequests(env, t, op, t2, id);
    }
  }

  lemma QueuedSources(env: Env, t: Tables, op: Op, t2: Tables, id: Text)
    requires op.OpEnqueue? && QueuedBy(env, t, op, t2) && id != op.requestId && (RegistryRequest, id) in t2.sources
    ensures (RegistryRequest, id) in t.sources
  {
    hide NormalizedRequirements, ScopedContent, Trim, SourceTells, TakesIn, Begins, RequirementsStored, Known;
    UuidIsIdentifier(op.requestId);
  }

  lemma QueuedIsTold(env: Env, t: Tables, op: Op, t2: Tables)
    requires op.OpEnqueue? && QueuedBy(env, t, op, t2)
    ensures (RegistryRequest, op.requestId) in t2.sources && RequestTold(env, t2, op.requestId)
    ensures ItemOf(t2, op.requestId).Some?
  {
    hide NormalizedRequirements, Trim, SourceTells, TakesIn, Begins, RequirementsStored, Known, ScopedContent,
         Chunks.ChunksFrom;
    UuidIsIdentifier(op.requestId);
    WorkIsNamedAnyhow(env.sha, t2.requests[op.requestId], op.itemId);
  }

  lemma WorkIsNamedAnyhow(sha: Text -> Digest, r: Request, itemId: Uuid)
    requires NormalizedRequirements(WorkOf(r, itemId).requirements).Ok?
    ensures WorkOf(r, r.id).requirements == WorkOf(r, itemId).requirements
    ensures ScopedContent(sha, WorkOf(r, r.id)) == ScopedContent(sha, WorkOf(r, itemId))
  {
    hide NormalizedRequirements, Trim, Chunks.ChunksFrom, Join;
  }

  lemma StepKeepsTold(env: Env, t: Tables, op: Op, t2: Tables)
    requires Sound(t) && Step(env, t, op, t2) && OwnKind(op) && RequestsTold(env, t)
    ensures RequestsTold(env, t2)
  {
    hide Sound, Done, OwnKind, NextOther, Follows, RequestMoves;
    if Done(env, t, op, t2) {
      if op.OpEnqueue? {
        EnqueuedIsTold(env, t, op, t2);
      } else if op.OpClear? {
        ClearIsNext(env, t, op, t2);
        ClearKeepsTold(env, t, op, t2);
      } else {
        MovedOn(env, t, op, t2);
        RequestSourcesAreQueued(env, t, op, t2);
        forall id | (RegistryRequest, id) in t2.sources
          ensures RequestTold(env, t2, id)
        {
          CallKeepsTold(env, t, op, t2, id);
        }
      }
    }
  }

  lemma ClearIsNext(env: Env, t: Tables, op: Op, t2: Tables)
    requires op.OpClear? && Done(env, t, op, t2)
    ensures NextOther(t, op) == Ok(t2)
  {
    hide NextRequest, NextIngest, NextOther, Represents;
  }

  predicate OwnKinds(ops: seq<Op>) {
    forall i :: 0 <= i < |ops| ==> OwnKind(ops[i])
  }

  /** In every reachable state the item behind a request has the digest of the request's role and text. */
  lemma {:induction false} EveryRequestIsTold(env: Env, states: seq<Tables>, ops: seq<Op>, i: nat)
    requires IsRun(env, states, ops) && OwnKinds(ops) && i < |states|
    ensures RequestsTold(env, states[i])
  {
    hide Sound, Step, OwnKind, RequestTold;
    if i > 0 {
      EveryRequestIsTold(env, states, ops, i - 1);
      EveryStateIsSound(env, states, ops, i - 1);
      StepKeepsTold(env, states[i - 1], ops[i - 1], states[i]);
    }
  }

  // ----- which requests share an item -----

  /** The same role, and texts that say the same word for word. */
  predicate SameRequestWork(a: Request, b: Request) {
    Trim(a.role) == Trim(b.role) && SameWords(Chunks.ChunksFrom(a.text, 0), Chunks.ChunksFrom(b.text, 0))
  }

  /** The hash tells apart what is digested of the two requests: their texts, and their roles with these. */
  predicate DigestsDiffer(env: Env, a: Request, b: Request) {
    var x, y := WorkOf(a, a.id), WorkOf(b, b.id);
    NormalizedRequirements(x.requirements).Ok? && NormalizedRequirements(y.requirements).Ok? &&
    Distinguishes(env.sha, x, y)
  }

  lemma SameItemIff(env: Env, t: Tables, op: Op, t2: Tables, other: Uuid)
    requires LedgerSound(t) && op.OpEnqueue? && QueuedBy(env, t, op, t2)
    requires other in t.requests && t.requests[other].project == op.project
    requires ItemOf(t, other).Some? && ItemOf(t, other).value.Open() && RequestTold(env, t, other)
    ensures ItemOf(t2, op.requestId).Some? && op.requestId in t2.requests
    ensures ItemOf(t2, op.requestId).value.id == ItemOf(t, other).value.id <==>
            env.sha(ScopedContent(env.sha, WorkOf(t2.requests[op.requestId], op.itemId)))
            == ItemOf(t, other).value.dedupeDigest
  {
    hide LedgerSound, NormalizedRequirements, ScopedContent, Trim, SourceTells, TakesIn, Begins, RequirementsStored,
         WorkTold;
    UuidIsIdentifier(op.requestId);
    QueuedIsTold(env, t, op, t2);
    ItemRow(t, other);
    var itemId := t.sources[(RegistryRequest, other)].itemId;
    var digest := env.sha(ScopedContent(env.sha, WorkOf(t2.requests[op.requestId], op.itemId)));
    if digest == t.items[itemId].dedupeDigest {
      assert Known(t, op.project, digest);
      OneOpenItem(t, itemId, t2.sources[(RegistryRequest, op.requestId)].itemId);
    }
  }

  lemma OneOpenItem(t: Tables, a: Text, b: Text)
    requires LedgerSound(t) && a in t.items && b in t.items && t.items[a].Open() && t.items[b].Open()
    requires t.items[a].project == t.items[b].project && t.items[a].dedupeDigest == t.items[b].dedupeDigest
    ensures a == b
  {
    hide ItemRows, SourceRows, RequirementRows, EvidenceRows, TransitionRows, FinalEvidence, Paths, Invariants.Starts,
         References;
  }

  /** A request joins the open item behind an earlier request of its project, if role and text are the same, word for
      word; if they are not, and the hash tells these texts apart, it gets another item. */
  lemma SameWorkSharesAnItem(env: Env, states: seq<Tables>, ops: seq<Op>, n: nat, other: Uuid)
    requires IsRun(env, states, ops) && OwnKinds(ops) && n < |ops|
    requires ops[n].OpEnqueue? && Done(env, states[n], ops[n], states[n + 1])
    requires other in states[n].requests && states[n].requests[other].project == ops[n].project
    requires ItemOf(states[n], other).Some? && ItemOf(states[n], other).value.Open()
    ensures Shares(env, states[n], ops[n], states[n + 1], other)
  {
    hide Sound, Step, Done, QueuedBy, RequestTold, SameRequestWork, DigestsDiffer;
    var t, op, t2 := states[n], ops[n], states[n + 1];
    EveryStateIsSound(env, states, ops, n);
    EveryRequestIsTold(env, states, ops, n);
    SoundLedger(t);
    EnqueuedIsTold(env, t, op, t2);
    assert RequestTold(env, t, other);
    SameItemIff(env, t, op, t2, other);
    QueuedIsTold(env, t, op, t2);
    DigestsAreWork(env, t, op, t2, other);
  }

  /** The queued request shares the item exactly when it is the same work - as far as the hash tells. */
  ghost predicate Shares(env: Env, t: Tables, op: Op, t2: Tables, other: Uuid)
    requires op.OpEnqueue? && other in t.requests && ItemOf(t, other).Some?
  {
    && op.requestId in t2.requests && ItemOf(t2, op.requestId).Some?
    && var a, b := t.requests[other], t2.requests[op.requestId];
    && (SameRequestWork(a, b) ==> ItemOf(t2, op.requestId).value.id == ItemOf(t, other).value.id)
    && (!SameRequestWork(a, b) && DigestsDiffer(env, a, b) ==>
          ItemOf(t2, op.requestId).value.id != ItemOf(t, other).value.id)
  }

  lemma DigestsAreWork(env: Env, t: Tables, op: Op, t2: Tables, other: Uuid)
    requires op.OpEnqueue? && QueuedBy(env, t, op, t2) && op.requestId in t2.requests
    requires other in t.requests && ItemOf(t, other).Some? && RequestTold(env, t, other)
    ensures var a, b := t.requests[other], t2.requests[op.requestId];
            var digest := env.sha(ScopedContent(env.sha, WorkOf(b, op.itemId)));
            && (SameRequestWork(a, b) ==> digest == ItemOf(t, other).value.dedupeDigest)
            && (DigestsDiffer(env, a, b) && digest == ItemOf(t, other).value.dedupeDigest ==> SameRequestWork(a, b))
  {
    hide NormalizedRequirements, ScopedContent, Trim, TakenIn, RequirementsStored, Chunks.ChunksFrom, Requirements;
    var a, b := t.requests[other], t2.requests[op.requestId];
    WorkIsNamedAnyhow(env.sha, b, op.itemId);
    SameDigestIff(env.sha, WorkOf(a, a.id), WorkOf(b, b.id));
  }

  /** The item is that of an earlier request for other work. */
  ghost predicate IsOtherWork(env: Env, t: Tables, id: Text, queued: Request) {
    exists other: Uuid :: other in t.requests && ItemOf(t, other).Some? && ItemOf(t, other).value.id == id
      && t.requests[other].project == queued.project
      && !SameRequestWork(t.requests[other], queued) && DigestsDiffer(env, t.requests[other], queued)
  }

  /** A request whose role and text no open item of its project has gets an item of its own: new, ready, with the
      request's priority and time. */
  lemma OtherWorkGetsAnItem(env: Env, states: seq<Tables>, ops: seq<Op>, n: nat)
    requires IsRun(env, states, ops) && OwnKinds(ops) && n < |ops|
    requires ops[n].OpEnqueue? && Done(env, states[n], ops[n], states[n + 1])
    requires ops[n].requestId in states[n + 1].requests
    requires forall id :: InProject(states[n], ops[n].project, id) && states[n].items[id].Open() ==>
               IsOtherWork(env, states[n], id, states[n + 1].requests[ops[n].requestId])
    ensures IsNewItem(states[n], ops[n], states[n + 1])
  {
    hide Sound, Step, Done, QueuedBy, RequestTold, SameRequestWork, DigestsDiffer;
    var t, op, t2 := states[n], ops[n], states[n + 1];
    EveryStateIsSound(env, states, ops, n);
    EveryRequestIsTold(env, states, ops, n);
    EnqueuedIsTold(env, t, op, t2);
    QueuedIsTold(env, t, op, t2);
    if id :| InProject(t, op.project, id) && t.items[id].Open() && ItemOf(t2, op.requestId).value.id == id {
      var other: Uuid :| other in t.requests && ItemOf(t, other).Some? && ItemOf(t, other).value.id == id
        && t.requests[other].project == t2.requests[op.requestId].project
        && !SameRequestWork(t.requests[other], t2.requests[op.requestId])
        && DigestsDiffer(env, t.requests[other], t2.requests[op.requestId]);
      SoundLedger(t);
      ItemRow(t, other);
      SameWorkSharesAnItem(env, states, ops, n, other);
    }
    NotJoinedIsNew(env, t, op, t2);
  }

  ghost predicate IsNewItem(t: Tables, op: Op, t2: Tables)
    requires op.OpEnqueue?
  {
    && op.itemId !in t.items && ItemOf(t2, op.requestId).Some?
    && var item := ItemOf(t2, op.requestId).value;
       && item.id == op.itemId && item.project == op.project && item.priority == op.priority && item.state == Ready
       && item.createdAt == item.updatedAt == op.now
  }

  lemma NotJoinedIsNew(env: Env, t: Tables, op: Op, t2: Tables)
    requires op.OpEnqueue? && QueuedBy(env, t, op, t2) && ItemOf(t2, op.requestId).Some?
    requires forall id :: InProject(t, op.project, id) && t.items[id].Open() ==>
               ItemOf(t2, op.requestId).value.id != id
    ensures IsNewItem(t, op, t2)
  {
    hide NormalizedRequirements, Trim, SourceTells, TakesIn, RequirementsStored, ScopedContent, Chunks.ChunksFrom;
    UuidIsIdentifier(op.requestId);
    UuidIsIdentifier(op.itemId);
  }
}
