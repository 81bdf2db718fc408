/** Every stored request has its ledger item, in its own project, through every run. */
module Links {
  import opened Wrappers
  import opened Texts
  import opened Ledger
  import opened Tables
  import opened Invariants
  import opened Evolution
  import opened Refinement
  import opened Registry
  import opened Soundness
  import opened Frames
  import opened Steps
  import opened Runs
  import opened Fencing

  ghost predicate LinkedRequest(t: Tables, id: Uuid)
    requires id in t.requests
  {
    (RegistryRequest, id) in t.sources && InProject(t, t.requests[id].project, t.sources[(RegistryRequest, id)].itemId)
  }

  ghost predicate Linked(t: Tables) {
    forall id :: id in t.requests ==> LinkedRequest(t, id)
  }

  /** The source an ingestion was asked for is stored afterwards, with an item of the project. */
  lemma IngestedSourceIsStored(t: Tables, project: Text, sha: Text -> Digest, st: Backlog, input: IngestInput)
    requires LedgerSound(t) && Represents(t, project, st) && input.project == project
    requires Ingest(sha, st, input).Ok? && IngestStep(t, st, Ingest(sha, st, input).value).Ok?
    ensures var t2 := IngestStep(t, st, Ingest(sha, st, input).value).value;
            var key := (input.kind, SourceIdOf(input));
            key in t2.sources && InProject(t2, project, t2.sources[key].itemId)
  {
    hide LedgerSound, Ingest, IngestStep, Fits, RequirementsOf, ItemsMatch, RequirementsMatch, EvidenceMatch,
         TransitionsMatch, Evolves, IsIdentifier, SafeText;
    IngestStepKeepsSound(t, project, sha, st, input);
    IngestShape(sha, st, input);
    var r := Ingest(sha, st, input).value;
    var known := FindSource(st.sources, input.kind, SourceIdOf(input));
    var source := if known.Some? then known.value else r.state.sources[|st.sources|];
    assert source in r.state.sources && KeyOf(source) == (input.kind, SourceIdOf(input));
    var i :| 0 <= i < |r.state.sources| && r.state.sources[i] == source;
  }

  lemma EnqueuedIsLinked(env: Env, t: Tables, st: Backlog, op: Op)
    requires Sound(t) && op.OpEnqueue? && Represents(t, op.project, st) && NextIngest(env, t, st, op).Ok?
    ensures var t2 := NextIngest(env, t, st, op).value;
            op.requestId in t2.requests && LinkedRequest(t2, op.requestId)
  {
    hide LedgerSound, SeatRows, RequestRows, Represents, Ingest, IngestStep, Loadable, RoleName, BoundedText, Evolves;
    var request :=
      NewRequest(env, op.requestId, op.project, op.role, op.requesterId, op.text, op.priority, op.now).value;
    var t1 := WithRequest(t, request);
    LedgerFrame(t, t1);
    LedgerRepresented(t, t1, op.project, st);
    var input := RequestInput(request, op.itemId);
    UuidIsIdentifier(op.requestId);
    IngestStepKeepsSound(t1, op.project, env.sha, st, input);
    IngestedSourceIsStored(t1, op.project, env.sha, st, input);
    EvolvedSides(t1, NextIngest(env, t, st, op).value, op.project, op.now);
  }

  lemma OldRequestStaysLinked(t: Tables, op: Op, t2: Tables, id: Uuid)
    requires Follows(t, t2) && RequestMoves(t, op, t2, id) && id in t.requests && LinkedRequest(t, id)
    ensures id in t2.requests && LinkedRequest(t2, id)
  {
    hide StatusEdge;
  }

  lemma ClearStepKeepsLinked(t: Tables, keep: Text -> bool, now: int)
    requires Linked(t) && ClearStep(t, keep, now).Ok?
    ensures Linked(ClearStep(t, keep, now).value.0)
  {
    hide KeptTransitions;
    var t2 := ClearStep(t, keep, now).value.0;
    forall id | id in t2.requests
      ensures LinkedRequest(t2, id)
    {
      assert LinkedRequest(t, id);
    }
  }

  lemma ClearKeepsLinked(env: Env, t: Tables, op: Op, t2: Tables)
    requires op.OpClear? && Step(env, t, op, t2) && Linked(t)
    ensures Linked(t2)
  {
    hide Linked, ClearStep, Represents;
    if Done(env, t, op, t2) { ClearStepKeepsLinked(t, op.keep, op.now); }
  }

  lemma StepKeepsLinked(env: Env, t: Tables, op: Op, t2: Tables)
    requires Sound(t) && Step(env, t, op, t2) && Linked(t)
    ensures Linked(t2)
  {
    hide Sound, Step, Done, Represents, NextIngest, NextRequest, NextOther, Follows, Stamped, RequestMoves,
         LinkedRequest;
    if op.OpClear? {
      ClearKeepsLinked(env, t, op, t2);
    } else {
      StepMovesOn(env, t, op, t2);
      forall id | id in t2.requests
        ensures LinkedRequest(t2, id)
      {
        if id in t.requests {
          StepMovesRequests(env, t, op, t2, id);
          OldRequestStaysLinked(t, op, t2, id);
        } else {
          NewRequestIsLinked(env, t, op, t2, id);
        }
      }
    }
  }

  lemma NewRequestIsLinked(env: Env, t: Tables, op: Op, t2: Tables, id: Uuid)
    requires Sound(t) && Step(env, t, op, t2) && !op.OpClear? && id !in t.requests && id in t2.requests
    ensures LinkedRequest(t2, id)
  {
    hide Sound, Represents, NextIngest, NextRequest, NextOther, LinkedRequest;
    OnlyEnqueueAddsRequests(env, t, op, t2, id);
    var st :| Represents(t, ProjectOf(t, op), st) && Next(env, t, st, op) == Ok(t2);
    EnqueuedIsLinked(env, t, st, op);
  }

  /** In every reachable state every request has its source row and, behind it, an item of the request's project. */
  lemma {:induction false} EveryRequestIsLinked(env: Env, states: seq<Tables>, ops: seq<Op>, i: nat)
    requires IsRun(env, states, ops) && i < |states|
    ensures Linked(states[i])
  {
    hide Sound, Step, LinkedRequest;
    if i > 0 {
      EveryRequestIsLinked(env, states, ops, i - 1);
      EveryStateIsSound(env, states, ops, i - 1);
      StepKeepsLinked(env, states[i - 1], ops[i - 1], states[i]);
    }
  }
}
