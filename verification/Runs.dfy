/** Whole runs of the registry from empty tables: what every reachable state and every pair of states keeps. */
module Runs {
  import opened Wrappers
  import opened Texts
  import opened Ledger
  import opened Tables
  import opened Invariants
  import opened Evolution
  import opened Refinement
  import opened Loader
  import opened Registry
  import opened Soundness
  import opened Frames
  import opened Steps

  ghost predicate IsRun(env: Env, states: seq<Tables>, ops: seq<Op>) {
    && |states| == |ops| + 1
    && states[0] == EMPTY
    && forall i :: 0 <= i < |ops| ==> Step(env, states[i], ops[i], states[i + 1])
  }

  /** The clock never runs backwards. */
  predicate Clocked(ops: seq<Op>) {
    forall i, j :: 0 <= i < j < |ops| ==> TimeOf(ops[i]) <= TimeOf(ops[j])
  }

  predicate NoClear(ops: seq<Op>, from: nat, to: nat) {
    forall i :: from <= i < to && i < |ops| ==> !ops[i].OpClear?
  }

  lemma {:induction false} EveryStateIsSound(env: Env, states: seq<Tables>, ops: seq<Op>, i: nat)
    requires IsRun(env, states, ops) && i < |states|
    ensures Sound(states[i])
  {
    hide Sound, Step;
    if i == 0 {
      EmptyIsSound();
    } else {
      EveryStateIsSound(env, states, ops, i - 1);
      StepKeepsSound(env, states[i - 1], ops[i - 1], states[i]);
    }
  }

  /** Between any two states of a run without a clearing in between, the ledger was only extended: items keep
      their identity, closed items stay closed with the same outcome, sources keep naming the same item. */
  lemma {:induction false} LedgerOnlyGrows(env: Env, states: seq<Tables>, ops: seq<Op>, i: nat, j: nat)
    requires IsRun(env, states, ops) && i <= j < |states| && NoClear(ops, i, j)
    ensures Follows(states[i], states[j])
    decreases j - i
  {
    hide Sound, Step, Follows, Stamped;
    if i == j {
      FollowsIsReflexive(states[i]);
    } else {
      LedgerOnlyGrows(env, states, ops, i, j - 1);
      EveryStateIsSound(env, states, ops, j - 1);
      StepMovesOn(env, states[j - 1], ops[j - 1], states[j]);
      FollowsIsTransitive(states[i], states[j - 1], states[j]);
    }
  }

  // ----- when the reader accepts a reachable state -----

  /** A step was recorded for the item with a time before the item's creation. */
  ghost predicate StampedEarly(t: Tables, id: Text)
    requires id in t.items
  {
    exists n :: 0 <= n < |t.transitions| && t.transitions[n].itemId == id && t.transitions[n].at < t.items[id].createdAt
  }

  /** An item was last touched before its creation exactly when a step says so. */
  ghost predicate TimesTold(t: Tables) {
    forall id :: id in t.items ==> (t.items[id].updatedAt < t.items[id].createdAt <==> StampedEarly(t, id))
  }

  /** The project's steps recorded from one state to a later one - from empty tables: all of them - are not stamped
      before their items' creation. */
  ghost predicate RecordsInTime(t: Tables, t2: Tables, project: Text) {
    forall n :: |t.transitions| <= n < |t2.transitions| && InProject(t2, project, t2.transitions[n].itemId) ==>
      t2.items[t2.transitions[n].itemId].createdAt <= t2.transitions[n].at
  }

  lemma MovedLoadsIff(t: Tables, t2: Tables, project: Text, at: int, p: Text)
    requires MovesOn(t, t2, project, at) && Loadable(t, p)
    ensures Loadable(t2, p) <==> RecordsInTime(t, t2, p)
  {
    if RecordsInTime(t, t2, p) {
      forall id | id in t2.items && t2.items[id].project == p
        ensures t2.items[id].createdAt <= t2.items[id].updatedAt
      {
        if id in t.items && t2.items[id].updatedAt < t.items[id].updatedAt {
          var n :| |t.transitions| <= n < |t2.transitions| && t2.transitions[n].itemId == id;
          assert InProject(t2, p, t2.transitions[n].itemId);
        }
      }
    }
  }

  /** A call leaves a readable project readable exactly when no step it recorded there is stamped before its item's
      creation - whatever the operation: a claim, an advance, a completion, a failure, a cancellation, a snapshot. */
  lemma StepLoadsIff(env: Env, t: Tables, op: Op, t2: Tables, project: Text)
    requires Sound(t) && Step(env, t, op, t2) && !op.OpClear? && Loadable(t, project)
    ensures Loadable(t2, project) <==> RecordsInTime(t, t2, project)
  {
    hide Sound, Step, MovesOn, Loadable, RecordsInTime;
    StepMovesOn(env, t, op, t2);
    MovedLoadsIff(t, t2, ProjectOf(t, op), TimeOf(op), project);
  }

  lemma MovedTimesTold(t: Tables, t2: Tables, project: Text, at: int, id: Text)
    requires MovesOn(t, t2, project, at) && TransitionRows(t) && TimesTold(t) && id in t2.items
    ensures t2.items[id].updatedAt < t2.items[id].createdAt <==> StampedEarly(t2, id)
  {
    hide TransitionSafe;
    if id in t.items && StampedEarly(t, id) {
      var n :| 0 <= n < |t.transitions| && t.transitions[n].itemId == id && t.transitions[n].at < t.items[id].createdAt;
      assert t2.transitions[n] == t.transitions[n];
    }
    if StampedEarly(t2, id) {
      var n :| 0 <= n < |t2.transitions| && t2.transitions[n].itemId == id
        && t2.transitions[n].at < t2.items[id].createdAt;
      if n < |t.transitions| { assert t2.transitions[n] == t.transitions[n]; }
    }
    if t2.items[id].updatedAt < t2.items[id].createdAt && id in t.items && !StampedEarly(t, id) {
      assert t2.items[id].updatedAt < t.items[id].updatedAt;
      var n :| |t.transitions| <= n < |t2.transitions| && t2.transitions[n].itemId == id;
      assert t2.transitions[n].at == at;
    }
  }

  lemma {:induction false} KeptAreAll(t: Tables, keep: Text -> bool, records: seq<TransitionRecord>)
    ensures forall n :: 0 <= n < |records| && Kept(t, keep, records[n].itemId) ==>
              records[n] in KeptTransitions(t, keep, records)
  {
    if records != [] { KeptAreAll(t, keep, records[..|records| - 1]); }
  }

  lemma ClearedTimesTold(t: Tables, keep: Text -> bool, now: int)
    requires TimesTold(t) && ClearStep(t, keep, now).Ok?
    ensures TimesTold(ClearStep(t, keep, now).value.0)
  {
    hide KeptTransitions;
    var t2 := ClearStep(t, keep, now).value.0;
    assert t2.transitions == KeptTransitions(t, keep, t.transitions);
    KeptAreThere(t, keep, t.transitions);
    KeptAreAll(t, keep, t.transitions);
    forall id | id in t2.items
      ensures StampedEarly(t2, id) <==> StampedEarly(t, id)
    {
      if StampedEarly(t2, id) {
        var n :| 0 <= n < |t2.transitions| && t2.transitions[n].itemId == id
          && t2.transitions[n].at < t2.items[id].createdAt;
        var m :| 0 <= m < |t.transitions| && t.transitions[m] == t2.transitions[n];
      }
      if StampedEarly(t, id) {
        var n :| 0 <= n < |t.transitions| && t.transitions[n].itemId == id
            && t.transitions[n].at < t.items[id].createdAt;
        assert t.transitions[n] in t2.transitions;
        var m :| 0 <= m < |t2.transitions| && t2.transitions[m] == t.transitions[n];
      }
    }
  }

  lemma StepKeepsTimesTold(env: Env, t: Tables, op: Op, t2: Tables)
    requires Sound(t) && Step(env, t, op, t2) && TimesTold(t)
    ensures TimesTold(t2)
  {
    hide Sound, Represents, NextIngest, NextRequest, MovesOn, TimesTold, ClearStep, TransitionRows;
    if op.OpClear? {
      if Done(env, t, op, t2) { ClearedTimesTold(t, op.keep, op.now); }
    } else {
      StepMovesOn(env, t, op, t2);
      assert TransitionRows(t) by { SoundPaths(t); }
      assert TimesTold(t2) by {
        forall id | id in t2.items
          ensures t2.items[id].updatedAt < t2.items[id].createdAt <==> StampedEarly(t2, id)
        {
          MovedTimesTold(t, t2, ProjectOf(t, op), TimeOf(op), id);
        }
        ToldTimes(t2);
      }
    }
  }

  lemma ToldTimes(t: Tables)
    requires forall id :: id in t.items ==> (t.items[id].updatedAt < t.items[id].createdAt <==> StampedEarly(t, id))
    ensures TimesTold(t)
  {
  }

  lemma SoundPaths(t: Tables)
    requires Sound(t)
    ensures TransitionRows(t)
  {
    hide TransitionRows;
  }

  lemma {:induction false} EveryStateTellsTimes(env: Env, states: seq<Tables>, ops: seq<Op>, i: nat)
    requires IsRun(env, states, ops) && i < |states|
    ensures TimesTold(states[i])
  {
    hide Sound, Step;
    if i > 0 {
      EveryStateTellsTimes(env, states, ops, i - 1);
      EveryStateIsSound(env, states, ops, i - 1);
      StepKeepsTimesTold(env, states[i - 1], ops[i - 1], states[i]);
    }
  }

  /** Whatever the clock does, the reader accepts a project in a reachable state exactly when no recorded step of
      one of its items is stamped before that item's creation. */
  lemma EveryStateLoadsIff(env: Env, states: seq<Tables>, ops: seq<Op>, i: nat, project: Text, st: Backlog)
    requires IsRun(env, states, ops) && i < |states| && Represents(states[i], project, st)
    ensures LoaderAccepts(st) <==> RecordsInTime(EMPTY, states[i], project)
  {
    hide Sound, Step, Represents, LoaderAccepts, TimesTold, RecordsInTime;
    var t := states[i];
    EveryStateIsSound(env, states, ops, i);
    EveryStateTellsTimes(env, states, ops, i);
    assert LedgerSound(t) by { SoundLedger(t); }
    LoaderAcceptsIff(t, project, st);
    InTimeIff(t, project);
  }

  lemma InTimeIff(t: Tables, project: Text)
    requires TimesTold(t)
    ensures RecordsInTime(EMPTY, t, project) <==>
            forall id :: InProject(t, project, id) ==> t.items[id].createdAt <= t.items[id].updatedAt
  {
    if !RecordsInTime(EMPTY, t, project) {
      var n :| 0 <= n < |t.transitions| && InProject(t, project, t.transitions[n].itemId)
        && t.transitions[n].at < t.items[t.transitions[n].itemId].createdAt;
      assert StampedEarly(t, t.transitions[n].itemId);
    }
  }

  /** No operation on the ledger is stamped before the creation of an item of the project it works on. */
  ghost predicate Punctual(states: seq<Tables>, ops: seq<Op>)
    requires |states| == |ops| + 1
  {
    forall k :: 0 <= k < |ops| && (IngestsWork(ops[k]) || WorksOnRequest(ops[k])) ==>
      CreatedBefore(states[k], ProjectOf(states[k], ops[k]), TimeOf(ops[k]))
  }

  ghost predicate CreatedBefore(t: Tables, project: Text, now: int) {
    forall id :: InProject(t, project, id) ==> t.items[id].createdAt <= now
  }

  ghost predicate InOrder(t: Tables) {
    forall id :: id in t.items ==> t.items[id].createdAt <= t.items[id].updatedAt
  }

  lemma StepKeepsInOrder(env: Env, t: Tables, op: Op, t2: Tables)
    requires Sound(t) && Step(env, t, op, t2) && InOrder(t)
    requires IngestsWork(op) || WorksOnRequest(op) ==> CreatedBefore(t, ProjectOf(t, op), TimeOf(op))
    ensures InOrder(t2)
  {
    hide Sound, Represents, NextIngest, NextRequest, MovesOn, ClearStep, SameLedgerRows;
    if op.OpClear? {
      if Done(env, t, op, t2) { ClearWork(t, op); }
    } else {
      StepMovesOn(env, t, op, t2);
      if IngestsWork(op) || WorksOnRequest(op) {
        MovedInOrder(t, t2, ProjectOf(t, op), TimeOf(op));
      } else {
        SameItemsKept(t, t2);
      }
    }
  }

  lemma SameItemsKept(t: Tables, t2: Tables)
    requires SameLedgerRows(t, t2)
    ensures t2.items == t.items
  {
  }

  lemma MovedInOrder(t: Tables, t2: Tables, project: Text, at: int)
    requires MovesOn(t, t2, project, at) && InOrder(t) && CreatedBefore(t, project, at)
    ensures InOrder(t2)
  {
    hide Dated, Loadable;
  }

  lemma FollowedItems(t: Tables, t2: Tables)
    ensures Follows(t, t2) ==> forall id :: id in t.items ==> id in t2.items && Grown(t.items[id], t2.items[id])
  {
  }

  lemma {:induction false} EveryStateIsInOrder(env: Env, states: seq<Tables>, ops: seq<Op>, i: nat)
    requires IsRun(env, states, ops) && Punctual(states, ops) && i < |states|
    ensures InOrder(states[i])
  {
    hide Sound, Step;
    if i > 0 {
      EveryStateIsInOrder(env, states, ops, i - 1);
      EveryStateIsSound(env, states, ops, i - 1);
      StepKeepsInOrder(env, states[i - 1], ops[i - 1], states[i]);
    }
  }

  /** As long as no ledger operation is stamped before the creation of an item of its project, the reader accepts
      every project in every reachable state. */
  lemma EveryStateLoads(env: Env, states: seq<Tables>, ops: seq<Op>, i: nat, project: Text, st: Backlog)
    requires IsRun(env, states, ops) && Punctual(states, ops) && i < |states| && Represents(states[i], project, st)
    ensures LoaderAccepts(st)
  {
    hide Sound, Step, Represents, LoaderAccepts, Punctual;
    EveryStateIsSound(env, states, ops, i);
    EveryStateIsInOrder(env, states, ops, i);
    assert LedgerSound(states[i]) by { SoundLedger(states[i]); }
    LoaderAcceptsIff(states[i], project, st);
  }

  ghost predicate CreatedBy(t: Tables, now: int) {
    forall id :: id in t.items ==> t.items[id].createdAt <= now
  }

  lemma StepKeepsCreatedBy(env: Env, t: Tables, op: Op, t2: Tables, now: int)
    requires Sound(t) && Step(env, t, op, t2) && CreatedBy(t, now)
    ensures CreatedBy(t2, if now <= TimeOf(op) then TimeOf(op) else now)
  {
    hide Sound, Represents, Follows, Dated, NextIngest, NextRequest, Loadable, ClearStep;
    if op.OpClear? {
      if Done(env, t, op, t2) { ClearWork(t, op); }
    } else {
      StepMovesOn(env, t, op, t2);
      FollowedItems(t, t2);
    }
  }

  lemma {:induction false} EveryStateIsCreatedBy(env: Env, states: seq<Tables>, ops: seq<Op>, i: nat)
    requires IsRun(env, states, ops) && Clocked(ops) && i < |ops|
    ensures CreatedBy(states[i], TimeOf(ops[i]))
  {
    hide Sound, Step;
    if i > 0 {
      EveryStateIsCreatedBy(env, states, ops, i - 1);
      EveryStateIsSound(env, states, ops, i - 1);
      StepKeepsCreatedBy(env, states[i - 1], ops[i - 1], states[i], TimeOf(ops[i - 1]));
    }
  }

  /** A clock that never runs backwards is enough for that. */
  lemma ClockedIsPunctual(env: Env, states: seq<Tables>, ops: seq<Op>)
    requires IsRun(env, states, ops) && Clocked(ops)
    ensures Punctual(states, ops)
  {
    hide IsRun, Clocked;
    assert |states| == |ops| + 1 by { RunLength(env, states, ops); }
    forall k | 0 <= k < |ops|
      ensures CreatedBy(states[k], TimeOf(ops[k]))
    {
      EveryStateIsCreatedBy(env, states, ops, k);
    }
  }

  lemma RunLength(env: Env, states: seq<Tables>, ops: seq<Op>)
    requires IsRun(env, states, ops)
    ensures |states| == |ops| + 1
  {
  }

  lemma SoundLedger(t: Tables)
    requires Sound(t)
    ensures LedgerSound(t) && SeatRows(t)
  {
    hide LedgerSound, SeatRows;
  }

  // ----- a clock that runs backwards -----

  lemma AsciiIsIdentifier(s: string)
    requires 1 <= |s| <= 256
    requires forall i :: 0 <= i < |s| ==> 'a' <= s[i] <= 'z' || s[i] == '-'
    ensures IsIdentifier(Ascii(s)) && Identifier(Ascii(s)) == Ok(Ascii(s))
  {
    IdentifierIsTrimmed(Ascii(s));
  }

  lemma CancellationIsPlanned(state: ItemState, requestId: Uuid)
    requires !state.Terminal?
    ensures var e := Event.Cancel([Evidence(Ascii("registry-cancellation"), requestId)]);
            NextState(state, e).Ok? && EventEntries(e).Ok?
  {
    AsciiIsIdentifier("registry-cancellation");
    UuidIsIdentifier(requestId);
    var evidence := [Evidence(Ascii("registry-cancellation"), requestId)];
    assert evidence[1..] == [];
    assert EvidenceEntries(evidence).Ok?;
  }

  lemma AdvanceLoadsIff(t: Tables, item: Item, change: Change)
    requires item.id in t.items && t.items[item.id] == item && Loadable(t, item.project)
    ensures Loadable(AdvanceRow(t, item, change), item.project) <==> item.createdAt <= change.at
  {
    var t2 := AdvanceRow(t, item, change);
    assert t2.items[item.id].project == item.project;
  }

  /** An open request of a readable project can always be cancelled by its requester; afterwards the project loads
      exactly when its item was closed already or is not older than the cancellation says. */
  lemma CancelLoadsIff(t: Tables, requestId: Uuid, now: int)
    requires Sound(t) && requestId in t.requests && TimeOk(now)
    requires !t.requests[requestId].status.Final() && Loadable(t, t.requests[requestId].project)
    requires (RegistryRequest, requestId) in t.sources
    requires InProject(t, t.requests[requestId].project, t.sources[(RegistryRequest, requestId)].itemId)
    ensures var item := t.items[t.sources[(RegistryRequest, requestId)].itemId];
            var r := CancelStep(t, requestId, t.requests[requestId].requesterId, now);
            r.Ok? && (Loadable(r.value.0, t.requests[requestId].project) <==> !item.Open() || item.createdAt <= now)
  {
    hide NextState, EventEntries, LedgerSound, SeatRows, IsUuid, AdvanceRow, Identifier, Ascii;
    var item := t.items[t.sources[(RegistryRequest, requestId)].itemId];
    RowsNameThemselves(t, t.sources[(RegistryRequest, requestId)].itemId);
    var r := t.requests[requestId].(status := Withdrawn, updatedAt := now);
    var t1 := WithRequest(t, r);
    LedgerRowsKept(t, r);
    if item.Open() {
      AsciiIsIdentifier("agent-registry");
      CancellationIsPlanned(item.state, requestId);
      var change := Plan(item, ACTOR, now, ClosingEvent(r)).value;
      assert StepItem(t1, item, ACTOR, now, ClosingEvent(r)).value.0 == AdvanceRow(t1, item, change);
      AdvanceLoadsIff(t1, item, change);
    }
  }

  lemma StepKeepsLocked(env: Env, t: Tables, op: Op, t2: Tables, project: Text)
    requires Sound(t) && Step(env, t, op, t2) && !op.OpClear? && !Loadable(t, project)
    ensures !Loadable(t2, project)
  {
    hide Sound, Step, Follows;
    StepMovesOn(env, t, op, t2);
    FollowedItems(t, t2);
    var id :| id in t.items && t.items[id].project == project && t.items[id].createdAt > t.items[id].updatedAt;
    assert t2.items[id] == t.items[id];
  }

  /** A project that does not load never loads again, until it is cleared away. */
  lemma {:induction false} LockedStaysLocked(env: Env, states: seq<Tables>, ops: seq<Op>, i: nat, j: nat, project: Text)
    requires IsRun(env, states, ops) && i <= j < |states| && NoClear(ops, i, j) && !Loadable(states[i], project)
    ensures !Loadable(states[j], project)
    decreases j - i
  {
    hide Sound, Step, Loadable;
    if i < j {
      LockedStaysLocked(env, states, ops, i, j - 1, project);
      EveryStateIsSound(env, states, ops, j - 1);
      StepKeepsLocked(env, states[j - 1], ops[j - 1], states[j], project);
    }
  }

  // ----- what the recorded path of an item says -----

  predicate Happened(trail: seq<TransitionRecord>, i: int, event: EventKind, before: int) {
    0 <= i < before <= |trail| && trail[i].event == event
  }

  lemma {:induction false} AssignedWasAssigned(trail: seq<TransitionRecord>, from: StateKind, bound: nat)
    requires IsPath(trail, from, KAssigned, bound) && Initial(from)
    ensures exists a :: Happened(trail, a, EAssign, |trail|)
  {
    var last := trail[|trail| - 1];
    if last.event.EAssign? {
      assert Happened(trail, |trail| - 1, EAssign, |trail|);
    } else {
      AssignedWasAssigned(trail[..|trail| - 1], from, last.revision - 1);
      var a :| Happened(trail[..|trail| - 1], a, EAssign, |trail| - 1);
      assert Happened(trail, a, EAssign, |trail|);
    }
  }

  lemma {:induction false} WorkWasStarted(trail: seq<TransitionRecord>, from: StateKind, to: StateKind, bound: nat)
    requires IsPath(trail, from, to, bound) && Initial(from) && Working(to)
    ensures exists a, s :: Happened(trail, a, EAssign, s) && Happened(trail, s, EStart, |trail|)
  {
    var front, last := trail[..|trail| - 1], trail[|trail| - 1];
    if last.event.EStart? {
      AssignedWasAssigned(front, from, last.revision - 1);
      var a :| Happened(front, a, EAssign, |front|);
      assert Happened(trail, a, EAssign, |front|) && Happened(trail, |front|, EStart, |trail|);
    } else {
      WorkWasStarted(front, from, last.from, last.revision - 1);
      var a, s :| Happened(front, a, EAssign, s) && Happened(front, s, EStart, |front|);
      assert Happened(trail, a, EAssign, s) && Happened(trail, s, EStart, |trail|);
    }
  }

  lemma {:induction false} PathPrefix(trail: seq<TransitionRecord>, from: StateKind, to: StateKind, bound: nat, c: nat)
    requires IsPath(trail, from, to, bound) && c < |trail|
    ensures trail[c].revision >= 2 && IsPath(trail[..c], from, trail[c].from, trail[c].revision - 1)
  {
    var front, last := trail[..|trail| - 1], trail[|trail| - 1];
    if c < |front| {
      PathPrefix(front, from, last.from, last.revision - 1, c);
      assert front[..c] == trail[..c];
    } else {
      assert trail[..c] == front;
    }
  }

  lemma {:induction false} TrailIsHappened(records: seq<TransitionRecord>, itemId: Text, i: nat)
    requires i < |Trail(records, itemId)|
    ensures Trail(records, itemId)[i] in records && Trail(records, itemId)[i].itemId == itemId
  {
    var front := records[..|records| - 1];
    if i < |Trail(front, itemId)| { TrailIsHappened(front, itemId, i); }
  }

  /** An item completed out of work - not by appending to a closed one - was assigned, then started, before,
      and the reference it was started with is stored. */
  lemma CompletionWasEarned(t: Tables, id: Text, c: nat)
    requires Sound(t) && id in t.items && c < |Trail(t.transitions, id)|
    requires Trail(t.transitions, id)[c].event.EComplete? && Trail(t.transitions, id)[c].from != KTerminal
    ensures var trail := Trail(t.transitions, id);
            exists a, s ::
              Happened(trail, a, EAssign, s) && Happened(trail, s, EStart, c) && StartedWith(t, id, trail[s].revision)
  {
    hide Sound, HasPath, IsPath, StartedWith, Trail;
    var trail := Trail(t.transitions, id);
    assert HasPath(t, id) by { SoundHasPath(t, id); }
    CompletionFollowsWork(t, id, c);
    var a, s :| Happened(trail, a, EAssign, s) && Happened(trail, s, EStart, c);
    StartIsStored(t, id, s);
  }

  lemma SoundHasPath(t: Tables, id: Text)
    requires Sound(t) && id in t.items
    ensures HasPath(t, id) && EvidenceRows(t) && Starts(t)
  {
    hide HasPath, EvidenceRows, Starts, ItemRows, SourceRows, RequirementRows, TransitionRows, FinalEvidence,
         OneOpenPerDigest, References, SeatRows;
  }

  lemma CompletionFollowsWork(t: Tables, id: Text, c: nat)
    requires id in t.items && HasPath(t, id) && c < |Trail(t.transitions, id)|
    requires Trail(t.transitions, id)[c].event.EComplete? && Trail(t.transitions, id)[c].from != KTerminal
    ensures var trail := Trail(t.transitions, id);
            exists a, s :: Happened(trail, a, EAssign, s) && Happened(trail, s, EStart, c)
  {
    hide Trail, IsPath;
    var trail := Trail(t.transitions, id);
    var from :| Initial(from) && IsPath(trail, from, t.items[id].state.Kind(), t.items[id].revision);
    PathPrefix(trail, from, t.items[id].state.Kind(), t.items[id].revision, c);
    CompletesWork(trail, from, t.items[id].state.Kind(), t.items[id].revision, c);
    WorkWasStarted(trail[..c], from, trail[c].from, trail[c].revision - 1);
    var a, s :| Happened(trail[..c], a, EAssign, s) && Happened(trail[..c], s, EStart, c);
    assert Happened(trail, a, EAssign, s) && Happened(trail, s, EStart, c);
  }

  lemma StartIsStored(t: Tables, id: Text, s: nat)
    requires Sound(t) && id in t.items && s < |Trail(t.transitions, id)|
    requires Trail(t.transitions, id)[s].event.EStart?
    ensures StartedWith(t, id, Trail(t.transitions, id)[s].revision)
  {
    hide Sound, EvidenceRows, Trail, EvidenceId;
    SoundHasPath(t, id);
    TrailIsHappened(t.transitions, id, s);
    var i :| 0 <= i < |t.transitions| && t.transitions[i] == Trail(t.transitions, id)[s];
    StartEvidenceIsOwn(t, i);
  }

  /** The implementation evidence recorded at a revision of an item. */
  ghost predicate StartedWith(t: Tables, id: Text, revision: nat) {
    var key := EvidenceId(id, revision, Implementation, 0);
    key in t.evidence && t.evidence[key].itemId == id && t.evidence[key].phase.Implementation?
  }

  lemma {:induction false} CompletesWork(
      trail: seq<TransitionRecord>, from: StateKind, to: StateKind, bound: nat, c: nat)
    requires IsPath(trail, from, to, bound) && c < |trail|
    ensures Allowed(trail[c].event, trail[c].from, trail[c].to)
  {
    if c < |trail| - 1 {
      var last := trail[|trail| - 1];
      CompletesWork(trail[..|trail| - 1], from, last.from, last.revision - 1, c);
    }
  }
}
