/** The reload-continuation protocol over an append-only session log: what a reload delivers, how deliveries are
    recorded, and that neither human input nor a resume marker is answered twice (auto-reload/core.ts, index.ts). */
module Reload {
  import opened Wrappers

  datatype Entry =
    | HumanInput
    | FollowUp(requestedAt: nat)
    | Resume(requestedAt: nat, pending: bool)
    | OtherEntry

  type Log = seq<Entry>

  datatype Delivery = Display | DisplayAndConsumeResume | FollowUpDelivery | ResumeDelivery

  /** What else the decision looks at: the session's state as other entries record it. */
  datatype Context = Context(hasPendingMessages: bool, questionPending: bool, paused: bool, hasWork: bool)

  /** A recorded continuation: a follow-up, or a resume marker consumed. */
  predicate Delivered(e: Entry) { e.FollowUp? || (e.Resume? && !e.pending) }

  predicate Consumed(e: Entry) { e.Resume? && !e.pending }

  // ----- the two searches -----

  function LastDelivery(log: Log): int {
    if log == [] then -1
    else if Delivered(log[|log| - 1]) then |log| - 1
    else LastDelivery(log[..|log| - 1])
  }

  predicate HumanSince(log: Log, from: int) {
    exists h :: 0 <= h < |log| && from < h && log[h].HumanInput?
  }

  lemma {:induction false} LastDeliveryIs(log: Log)
    ensures -1 <= LastDelivery(log) < |log|
    ensures LastDelivery(log) >= 0 ==> Delivered(log[LastDelivery(log)])
    ensures forall i :: LastDelivery(log) < i < |log| ==> !Delivered(log[i])
  {
    if log != [] && !Delivered(log[|log| - 1]) {
      LastDeliveryIs(log[..|log| - 1]);
      assert forall i :: 0 <= i < |log| - 1 ==> log[i] == log[..|log| - 1][i];
    }
  }

  method HasHumanInputAfterLastContinuation(log: Log) returns (answered: bool)
    ensures answered <==> LastDelivery(log) < 0 || HumanSince(log, LastDelivery(log))
  {
    var deliveryIndex := -1;
    var index := |log|;
    assert log[..|log|] == log;
    while index > 0
      invariant 0 <= index <= |log| && deliveryIndex == -1
      invariant LastDelivery(log) == LastDelivery(log[..index])
    {
      index := index - 1;
      assert log[..index + 1][..index] == log[..index];
      if Delivered(log[index]) {
        deliveryIndex := index;
        break;
      }
    }
    if deliveryIndex < 0 { return true; }
    answered := exists h :: deliveryIndex < h < |log| && log[h].HumanInput?;
  }

  function LatestResume(log: Log): (r: Option<Entry>)
    ensures r.Some? ==> r.value.Resume? && r.value in log
  {
    if log == [] then None
    else if log[|log| - 1].Resume? then Some(log[|log| - 1])
    else LatestResume(log[..|log| - 1])
  }

  lemma {:induction false} LatestResumeIs(log: Log) returns (p: nat)
    requires LatestResume(log).Some?
    ensures p < |log| && log[p] == LatestResume(log).value && log[p].Resume?
    ensures forall i :: p < i < |log| ==> !log[i].Resume?
  {
    var front := log[..|log| - 1];
    if log[|log| - 1].Resume? {
      p := |log| - 1;
    } else {
      p := LatestResumeIs(front);
      assert forall i :: 0 <= i < |front| ==> log[i] == front[i];
    }
  }

  method LatestResumeMarker(log: Log) returns (marker: Option<Entry>)
    ensures marker == LatestResume(log)
  {
    var index := |log|;
    assert log[..|log|] == log;
    while index > 0
      invariant 0 <= index <= |log|
      invariant LatestResume(log) == LatestResume(log[..index])
    {
      index := index - 1;
      assert log[..index + 1][..index] == log[..index];
      if log[index].Resume? { return Some(log[index]); }
    }
    return None;
  }

  // ----- the decision -----

  predicate ResumePending(log: Log) { LatestResume(log).Some? && LatestResume(log).value.pending }

  predicate ShouldFollowUp(log: Log, c: Context) {
    !c.paused && !c.questionPending && (LastDelivery(log) < 0 || HumanSince(log, LastDelivery(log))) && c.hasWork
  }

  function ManagedDelivery(log: Log, c: Context): Delivery {
    if c.questionPending then if ResumePending(log) then DisplayAndConsumeResume else Display
    else if ResumePending(log) then ResumeDelivery
    else if c.hasPendingMessages then Display
    else if ShouldFollowUp(log, c) then FollowUpDelivery else Display
  }

  method ManagedReloadDelivery(log: Log, c: Context) returns (delivery: Delivery)
    ensures delivery == ManagedDelivery(log, c)
  {
    var marker := LatestResumeMarker(log);
    var pending := marker.Some? && marker.value.pending;
    if c.questionPending { return if pending then DisplayAndConsumeResume else Display; }
    if pending { return ResumeDelivery; }
    if c.hasPendingMessages { return Display; }
    if c.paused || c.questionPending { return Display; }
    var answered := HasHumanInputAfterLastContinuation(log);
    if !answered { return Display; }
    return if c.hasWork then FollowUpDelivery else Display;
  }

  /** The newest resume marker has not been consumed. */
  predicate MarkerWaits(log: Log) {
    exists p :: 0 <= p < |log| && log[p].Resume? && log[p].pending && forall i :: p < i < |log| ==> !log[i].Resume?
  }

  /** A human spoke after every continuation that was recorded: after each follow-up and each consumed marker. */
  predicate HumansAnswered(log: Log) {
    forall i :: 0 <= i < |log| && (log[i].FollowUp? || (log[i].Resume? && !log[i].pending)) ==>
      exists h :: i < h < |log| && log[h].HumanInput?
  }

  lemma WaitsIff(log: Log)
    ensures ResumePending(log) <==> MarkerWaits(log)
  {
    if LatestResume(log).Some? {
      var p := LatestResumeIs(log);
    } else {
      NoResume(log);
    }
  }

  lemma {:induction false} NoResume(log: Log)
    requires LatestResume(log).None?
    ensures forall i :: 0 <= i < |log| ==> !log[i].Resume?
  {
    if log != [] {
      NoResume(log[..|log| - 1]);
      assert forall i :: 0 <= i < |log| - 1 ==> log[i] == log[..|log| - 1][i];
    }
  }

  lemma AnsweredIff(log: Log)
    ensures LastDelivery(log) < 0 || HumanSince(log, LastDelivery(log)) <==> HumansAnswered(log)
  {
    LastDeliveryIs(log);
    var last := LastDelivery(log);
    if last >= 0 && HumanSince(log, last) {
      var h :| 0 <= h < |log| && last < h && log[h].HumanInput?;
      forall i | 0 <= i < |log| && (log[i].FollowUp? || (log[i].Resume? && !log[i].pending))
        ensures exists h :: i < h < |log| && log[h].HumanInput?
      {
        assert Delivered(log[i]);
        assert i < h < |log| && log[h].HumanInput?;
      }
    }
    if last >= 0 && HumansAnswered(log) {
      var h :| last < h < |log| && log[h].HumanInput?;
    }
  }

  /** What a reload delivers. A waiting marker resumes the session, or is consumed on display while a question is open.
      A follow-up goes out exactly when no question is open, no marker and no message waits, the session is not paused,
      there is work, and a human has spoken since the last continuation. Otherwise the reload is only displayed. */
  lemma DeliveryIff(log: Log, c: Context)
    ensures ManagedDelivery(log, c) == ResumeDelivery <==> MarkerWaits(log) && !c.questionPending
    ensures ManagedDelivery(log, c) == DisplayAndConsumeResume <==> MarkerWaits(log) && c.questionPending
    ensures ManagedDelivery(log, c) == FollowUpDelivery <==>
            && !c.questionPending && !MarkerWaits(log) && !c.hasPendingMessages && !c.paused && c.hasWork
            && HumansAnswered(log)
  {
    hide MarkerWaits, HumansAnswered;
    WaitsIff(log);
    AnsweredIff(log);
  }

  // ----- runs -----

  /** A decided continuation waits until the session is idle; entries may be appended meanwhile. */
  datatype Waiting = Waiting(delivery: Delivery, decidedAt: nat, requestedAt: nat)

  datatype State = State(log: Log, waiting: Option<Waiting>)

  function RequestedAt(log: Log, now: nat): nat {
    if LatestResume(log).Some? then LatestResume(log).value.requestedAt else now
  }

  /** What the record of a delivery says. */
  function Record(delivery: Delivery, requestedAt: nat): Entry {
    if delivery.FollowUpDelivery? then FollowUp(requestedAt) else Resume(requestedAt, false)
  }

  /** A reload decides; a consumed marker is recorded at once, a continuation waits. */
  function Decided(s: State, c: Context, now: nat): State {
    match ManagedDelivery(s.log, c)
    case Display => s.(waiting := None)
    case DisplayAndConsumeResume => State(s.log + [Resume(RequestedAt(s.log, now), false)], None)
    case delivery => s.(waiting := Some(Waiting(delivery, |s.log|, RequestedAt(s.log, now))))
  }

  datatype Event =
    | Append(entry: Entry)                // anything but the record of a delivery
    | Reloaded(context: Context, now: nat)
    | Deliver                             // the waiting continuation goes out and is recorded
    | Drop                                // or it never does

  predicate Possible(s: State, e: Event) {
    match e
    case Append(entry) => !Delivered(entry)
    case Deliver => s.waiting.Some?
    case _ => true
  }

  function Next(s: State, e: Event): State {
    match e
    case Append(entry) => s.(log := s.log + [entry])
    case Reloaded(c, now) => Decided(s, c, now)
    case Deliver =>
      if s.waiting.None? then s
      else State(s.log + [Record(s.waiting.value.delivery, s.waiting.value.requestedAt)], None)
    case Drop => s.(waiting := None)
  }

  function After(events: seq<Event>): State {
    if events == [] then State([], None) else Next(After(events[..|events| - 1]), events[|events| - 1])
  }

  predicate IsRun(events: seq<Event>) {
    events == [] || (IsRun(events[..|events| - 1]) && Possible(After(events[..|events| - 1]), events[|events| - 1]))
  }

  // ----- what every run keeps -----

  predicate HumanBetween(log: Log, i: int, j: int) {
    exists h :: i < h < j && 0 <= h < |log| && log[h].HumanInput?
  }

  /** Between any recorded delivery and a later follow-up a human spoke. */
  ghost predicate FollowUpsAnswerHumans(log: Log) {
    forall i, j :: 0 <= i < j < |log| && Delivered(log[i]) && log[j].FollowUp? ==> HumanBetween(log, i, j)
  }

  /** A consumed record answers one pending marker of its own, made after every earlier consumption. */
  predicate Consumes(log: Log, j: int, p: int) {
    && 0 <= p < j < |log| && log[p].Resume? && log[p].pending && log[j] == Resume(log[p].requestedAt, false)
    && forall i :: p < i < j ==> !Consumed(log[i])
  }

  ghost predicate MarkersConsumed(log: Log) {
    forall j :: 0 <= j < |log| && Consumed(log[j]) ==> exists p :: Consumes(log, j, p)
  }

  /** A waiting continuation is still due: nothing was delivered since it was decided. */
  ghost predicate StillDue(s: State) {
    s.waiting.Some? ==>
      var w := s.waiting.value;
      && w.decidedAt <= |s.log|
      && (forall i :: w.decidedAt <= i < |s.log| ==> !Delivered(s.log[i]))
      && (w.delivery.FollowUpDelivery? ==>
            forall i :: 0 <= i < w.decidedAt && Delivered(s.log[i]) ==> HumanBetween(s.log, i, w.decidedAt))
      && (w.delivery.ResumeDelivery? ==>
            exists p :: 0 <= p < w.decidedAt && s.log[p] == Resume(w.requestedAt, true)
              && forall i :: p < i < w.decidedAt ==> !Consumed(s.log[i]))
      && (w.delivery.FollowUpDelivery? || w.delivery.ResumeDelivery?)
  }

  ghost predicate Kept(s: State) {
    FollowUpsAnswerHumans(s.log) && MarkersConsumed(s.log) && StillDue(s)
  }

  lemma AppendKeepsHumans(log: Log, e: Entry)
    requires FollowUpsAnswerHumans(log)
    requires e.FollowUp? ==> forall i :: 0 <= i < |log| && Delivered(log[i]) ==> HumanBetween(log, i, |log|)
    ensures FollowUpsAnswerHumans(log + [e])
  {
    var log2 := log + [e];
    forall i, j | 0 <= i < j < |log2| && Delivered(log2[i]) && log2[j].FollowUp?
      ensures HumanBetween(log2, i, j)
    {
      assert HumanBetween(log, i, j);
      var h :| i < h < j && 0 <= h < |log| && log[h].HumanInput?;
      assert log2[h].HumanInput?;
    }
  }

  lemma AppendKeepsConsumed(log: Log, e: Entry)
    requires MarkersConsumed(log)
    requires Consumed(e) ==> exists p :: 0 <= p < |log| && log[p] == Resume(e.requestedAt, true)
                               && forall i :: p < i < |log| ==> !Consumed(log[i])
    ensures MarkersConsumed(log + [e])
  {
    var log2 := log + [e];
    forall j | 0 <= j < |log2| && Consumed(log2[j])
      ensures exists p :: Consumes(log2, j, p)
    {
      if j < |log| {
        assert Consumed(log[j]);
        var p :| Consumes(log, j, p);
        assert Consumes(log2, j, p);
      } else {
        var p :| 0 <= p < |log| && log[p] == Resume(e.requestedAt, true)
          && forall i :: p < i < |log| ==> !Consumed(log[i]);
        assert Consumes(log2, j, p);
      }
    }
  }

  lemma DueAfterAppend(s: State, e: Entry)
    requires StillDue(s) && !Delivered(e)
    ensures StillDue(s.(log := s.log + [e]))
  {
    if s.waiting.Some? {
      var w, log2 := s.waiting.value, s.log + [e];
      forall i | w.delivery.FollowUpDelivery? && 0 <= i < w.decidedAt && Delivered(log2[i])
        ensures HumanBetween(log2, i, w.decidedAt)
      {
        var h :| i < h < w.decidedAt && 0 <= h < |s.log| && s.log[h].HumanInput?;
        assert log2[h].HumanInput?;
      }
      if w.delivery.ResumeDelivery? {
        var p :| 0 <= p < w.decidedAt && s.log[p] == Resume(w.requestedAt, true)
          && forall i :: p < i < w.decidedAt ==> !Consumed(s.log[i]);
        assert log2[p] == s.log[p] && forall i :: p < i < w.decidedAt ==> log2[i] == s.log[i];
      }
    }
  }

  lemma PendingMarker(log: Log, now: nat) returns (p: nat)
    requires ResumePending(log)
    ensures p < |log| && log[p] == Resume(RequestedAt(log, now), true)
    ensures forall i :: p < i < |log| ==> !Consumed(log[i])
  {
    p := LatestResumeIs(log);
  }

  lemma DecisionIsDue(s: State, c: Context, now: nat)
    requires Kept(s)
    ensures Kept(Decided(s, c, now))
  {
    hide FollowUpsAnswerHumans, MarkersConsumed;
    var log := s.log;
    match ManagedDelivery(log, c) {
      case Display =>
      case DisplayAndConsumeResume =>
        var p := PendingMarker(log, now);
        AppendKeepsHumans(log, Resume(RequestedAt(log, now), false));
        AppendKeepsConsumed(log, Resume(RequestedAt(log, now), false));
      case ResumeDelivery =>
        var p := PendingMarker(log, now);
      case FollowUpDelivery =>
        LastDeliveryIs(log);
        forall i | 0 <= i < |log| && Delivered(log[i])
          ensures HumanBetween(log, i, |log|)
        {
          var h :| 0 <= h < |log| && LastDelivery(log) < h && log[h].HumanInput?;
        }
    }
  }

  lemma NextKeeps(s: State, e: Event)
    requires Kept(s) && Possible(s, e)
    ensures Kept(Next(s, e))
  {
    hide FollowUpsAnswerHumans, MarkersConsumed;
    match e
    case Append(entry) =>
      AppendKeepsHumans(s.log, entry);
      AppendKeepsConsumed(s.log, entry);
      DueAfterAppend(s, entry);
    case Reloaded(c, now) => DecisionIsDue(s, c, now);
    case Deliver => DeliveryKeeps(s);
    case Drop =>
  }

  lemma DeliveryKeeps(s: State)
    requires Kept(s) && s.waiting.Some?
    ensures Kept(Next(s, Deliver))
  {
    hide FollowUpsAnswerHumans, MarkersConsumed;
    var w := s.waiting.value;
    var e := Record(w.delivery, w.requestedAt);
    if w.delivery.FollowUpDelivery? {
      forall i | 0 <= i < |s.log| && Delivered(s.log[i])
        ensures HumanBetween(s.log, i, |s.log|)
      {
        assert HumanBetween(s.log, i, w.decidedAt);
      }
    } else {
      var p :| 0 <= p < w.decidedAt && s.log[p] == Resume(w.requestedAt, true)
        && forall i :: p < i < w.decidedAt ==> !Consumed(s.log[i]);
      assert forall i :: p < i < |s.log| ==> !Consumed(s.log[i]);
    }
    AppendKeepsHumans(s.log, e);
    AppendKeepsConsumed(s.log, e);
  }

  lemma {:induction false} EveryRunKeeps(events: seq<Event>)
    requires IsRun(events)
    ensures Kept(After(events))
  {
    hide Kept, Next, Possible;
    if events == [] {
      NothingYet();
    } else {
      EveryRunKeeps(events[..|events| - 1]);
      NextKeeps(After(events[..|events| - 1]), events[|events| - 1]);
    }
  }

  lemma NothingYet()
    ensures Kept(State([], None))
  {
  }

  /** However a session runs: a follow-up after an earlier continuation answers human input in between. */
  lemma FollowUpNeedsHumanInput(events: seq<Event>, i: nat, j: nat)
    requires IsRun(events)
    requires i < j < |After(events).log| && Delivered(After(events).log[i]) && After(events).log[j].FollowUp?
    ensures HumanBetween(After(events).log, i, j)
  {
    EveryRunKeeps(events);
  }

  /** However a session runs: two consumptions never answer the same pending marker. */
  lemma EachMarkerIsConsumedOnce(events: seq<Event>, j: nat, k: nat) returns (p: nat, q: nat)
    requires IsRun(events)
    requires j < k < |After(events).log| && Consumed(After(events).log[j]) && Consumed(After(events).log[k])
    ensures Consumes(After(events).log, j, p) && Consumes(After(events).log, k, q) && p < j < q < k
  {
    EveryRunKeeps(events);
    p :| Consumes(After(events).log, j, p);
    q :| Consumes(After(events).log, k, q);
  }
}
