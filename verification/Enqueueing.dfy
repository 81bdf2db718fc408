/** When a request can be queued: what its text is split into is never refused (sqlite-store.ts). */
module Enqueueing {
  import opened Wrappers
  import opened Texts
  import opened Ledger
  import opened Tables
  import opened Invariants
  import opened Refinement
  import opened Registry
  import opened Frames
  import opened Chunks
  import opened Decoding

  // ----- the chunks of a trimmed text -----

  lemma {:induction false} TrimStartKeeps(t: Text, i: nat)
    requires i < |t| && !IsSpace(t[i])
    ensures TrimStart(t) != []
  {
    if IsSpace(t[0]) { TrimStartKeeps(t[1..], i - 1); }
  }

  lemma {:induction false} TrimEndKeeps(t: Text)
    requires t != [] && !IsSpace(t[0])
    ensures TrimEnd(t) != []
  {
    if IsSpace(t[|t| - 1]) { TrimEndKeeps(t[..|t| - 1]); }
  }

  lemma NonSpaceIsNotBlank(t: Text, i: nat)
    requires i < |t| && !IsSpace(t[i])
    ensures !Blank(t)
  {
    TrimStartKeeps(t, i);
    TrimStartHead(t);
    TrimEndKeeps(TrimStart(t));
  }

  /** The chunk at an offset of a trimmed text of at most two full chunks: the first starts and the last ends with no
      space, and one between them starts with the surrogate the first was shortened for. */
  lemma ChunkIsNotBlank(text: Text, offset: nat)
    requires Trimmed(text) && offset < |text| <= 2 * CHUNK_UNITS
    requires offset == 0 || HighSurrogate(text[offset]) || ChunkEnd(text, offset) == |text|
    ensures !Blank(text[offset..ChunkEnd(text, offset)])
  {
    var chunk := text[offset..ChunkEnd(text, offset)];
    if ChunkEnd(text, offset) == |text| {
      NonSpaceIsNotBlank(chunk, |chunk| - 1);
    } else {
      NonSpaceIsNotBlank(chunk, 0);
    }
  }

  /** A trimmed text of at most 8,000 units has at most three chunks, none of them blank. */
  lemma TrimmedTextHasNoBlankChunk(text: Text)
    requires Trimmed(text) && 1 <= |text| <= 2 * CHUNK_UNITS
    ensures var chunks := ChunksFrom(text, 0);
            1 <= |chunks| <= 3 && forall i :: 0 <= i < |chunks| ==> !Blank(chunks[i])
  {
    hide Trimmed, Blank;
    var first := ChunkEnd(text, 0);
    ChunkIsNotBlank(text, 0);
    if first < |text| {
      var second := ChunkEnd(text, first);
      ChunkIsNotBlank(text, first);
      if second < |text| {
        ChunkIsNotBlank(text, second);
        assert ChunksFrom(text, ChunkEnd(text, second)) == [];
      }
      assert |ChunksFrom(text, first)| <= 2;
    }
  }

  /** What the store accepts as a request's text splits into requirements the ledger accepts, the same ones the
      canonical source would make of it. */
  lemma AcceptedTextPasses(env: Env, text: Text)
    requires PersistedText(env, text, MAX_REQUEST_TEXT).Ok?
    ensures var chunks := ChunksFrom(PersistedText(env, text, MAX_REQUEST_TEXT).value, 0);
            && 1 <= |chunks| <= 3 && NormalizedRequirements(chunks).Ok?
            && Remaining(PersistedText(env, text, MAX_REQUEST_TEXT).value, 0) == chunks
  {
    hide Trim, Blank, ChunksFrom, HasUnsafeControl, NormalizedRequirements;
    var body := PersistedText(env, text, MAX_REQUEST_TEXT).value;
    TrimIsExact(text);
    TrimmedTextHasNoBlankChunk(body);
    NonBlankIsAll(ChunksFrom(body, 0));
    ChunksPassIff(body);
  }

  // ----- queueing -----

  lemma RoleIsIdentifier(role: Text)
    requires RoleName(role).Ok?
    ensures Identifier(RoleName(role).value) == Ok(RoleName(role).value)
  {
    hide Trim, HasUnsafeControl;
    IdentifierIsTrimmed(RoleName(role).value);
  }

  /** The ledger accepts every request the store accepts, if its identifier is new. */
  lemma RequestIsIngested(env: Env, st: Backlog, request: Request, itemId: Uuid)
    requires TimeOk(request.createdAt)
    requires Identifier(request.role) == Ok(request.role)
    requires var chunks := ChunksFrom(request.text, 0); 1 <= |chunks| <= 3 && NormalizedRequirements(chunks).Ok?
    requires FindSource(st.sources, RegistryRequest, request.id).None?
    ensures Ingest(env.sha, st, RequestInput(request, itemId)).Ok?
  {
    hide Trim, IsIdentifier, IsUuid, HasUnsafeControl, ChunksFrom, NormalizedRequirements, RequirementId, Join;
    UuidIsIdentifier(request.id);
    UuidIsIdentifier(itemId);
  }

  /** Enqueueing with fresh identifiers fails only for the capacity, an invalid argument or a project that does not
      load: the ingestion of its own chunks is never refused. */
  lemma EnqueuedIff(
    env: Env, t: Tables, st: Backlog, newId: Uuid, itemId: Uuid, project: Text, role: Text, requesterId: Text,
    text: Text, priority: Priority, now: int)
    requires Sound(t) && Represents(t, project, st)
    requires newId !in t.requests && (RegistryRequest, newId) !in t.sources && itemId !in t.items
    ensures EnqueueStep(env, t, st, newId, itemId, project, role, requesterId, text, priority, now).Ok? <==>
            |t.requests| < MAX_REQUESTS && Loadable(t, project)
            && NewRequest(env, newId, project, role, requesterId, text, priority, now).Ok?
  {
    hide Sound, Represents, Loadable, Ingest, RoleName, PersistedText, BoundedText, Identifier, ChunksFrom,
         NormalizedRequirements;
    if Loadable(t, project) && NewRequest(env, newId, project, role, requesterId, text, priority, now).Ok? {
      var request := NewRequest(env, newId, project, role, requesterId, text, priority, now).value;
      AcceptedTextPasses(env, text);
      RoleIsIdentifier(role);
      SourceIsNew(t, project, st, newId);
      RequestIsIngested(env, st, request, itemId);
      IngestionFits(env, t, st, request, itemId);
    }
  }

  lemma SourceIsNew(t: Tables, project: Text, st: Backlog, id: Uuid)
    requires Represents(t, project, st) && (RegistryRequest, id) !in t.sources
    ensures FindSource(st.sources, RegistryRequest, id).None?
  {
  }

  lemma IngestionFits(env: Env, t: Tables, st: Backlog, request: Request, itemId: Uuid)
    requires Represents(t, request.project, st)
    requires (RegistryRequest, request.id) !in t.sources && itemId !in t.items
    requires FindSource(st.sources, RegistryRequest, request.id).None?
    requires Ingest(env.sha, st, RequestInput(request, itemId)).Ok?
    ensures Fits(WithRequest(t, request), st, Ingest(env.sha, st, RequestInput(request, itemId)).value)
  {
    hide Ingest, RequirementsOf, Represents, IsIdentifier, SafeText, IsUuid;
    UuidIsIdentifier(request.id);
    UuidIsIdentifier(itemId);
    IngestShape(env.sha, st, RequestInput(request, itemId));
    IngestItem(env.sha, st, RequestInput(request, itemId));
  }
}
