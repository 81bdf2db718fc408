/** One workflow agent's attempts: retries with growing back-off inside one token grant, and at most one repair
    of its structured output (classified-workflows/core.ts). */
module Retries {
  import opened Wrappers

  const MIN_RESERVATION := 4_000
  const BACKOFF_BASE_MS := 500
  const BACKOFF_MAX_MS := 5_000

  datatype Status = Completed | Blocked | Failed | TimedOut

  /** What one run of the agent does: it returns, or it throws; either takes some time. */
  datatype Run =
    | Returned(status: Status, usage: int, budgetFailure: bool, elapsed: nat)
    | Thrown(timedOut: bool, elapsed: nat)
  {
    function Spent(): nat {
      if Returned? && usage > 0 then usage else 0
    }
  }

  datatype Result = Result(status: Status, exhausted: bool)

  /** A started attempt: the limit it was given and what it did. */
  datatype Attempt = Attempt(limit: nat, run: Run)

  function Power(n: nat): nat {
    if n == 0 then 1 else 2 * Power(n - 1)
  }

  function Backoff(attempt: nat): nat {
    if BACKOFF_BASE_MS * Power(attempt) <= BACKOFF_MAX_MS then BACKOFF_BASE_MS * Power(attempt) else BACKOFF_MAX_MS
  }

  function TotalBackoff(retries: nat): nat {
    if retries == 0 then 0 else TotalBackoff(retries - 1) + Backoff(retries - 1)
  }

  function RetryEnvelope(agentTimeout: nat, retries: nat): nat {
    agentTimeout * (retries + 1) + TotalBackoff(retries)
  }

  // ----- limits -----

  datatype Limits = Limits(
    maxAgents: int, concurrency: int, agentTimeoutMs: int, workflowTimeoutMs: int, tokenBudget: int, retries: int)

  predicate LimitsAreValid(l: Limits) {
    && l.maxAgents > 0 && l.concurrency > 0 && l.agentTimeoutMs > 0 && l.workflowTimeoutMs > 0 && l.tokenBudget > 0
    && l.retries >= 0
    && l.concurrency <= l.maxAgents
    && l.tokenBudget / l.maxAgents >= MIN_RESERVATION
    && l.workflowTimeoutMs >= RetryEnvelope(l.agentTimeoutMs, l.retries)
  }

  // ----- accounts of a list of attempts -----

  function Spent(attempts: seq<Attempt>): nat {
    if attempts == [] then 0 else Spent(attempts[..|attempts| - 1]) + attempts[|attempts| - 1].run.Spent()
  }

  function Elapsed(attempts: seq<Attempt>): nat {
    if attempts == [] then 0 else Elapsed(attempts[..|attempts| - 1]) + attempts[|attempts| - 1].run.elapsed
  }

  /** Every attempt is given exactly what the ones before it left of the grant, and never less than the minimum. */
  predicate LimitedBy(attempts: seq<Attempt>, grant: nat) {
    forall i :: 0 <= i < |attempts| ==>
      attempts[i].limit >= MIN_RESERVATION && attempts[i].limit + Spent(attempts[..i]) == grant
  }

  /** Every attempt but the last neither settled the call nor failed for want of budget. */
  predicate Retried(attempts: seq<Attempt>) {
    forall i :: 0 <= i < |attempts| - 1 ==> !Settles(attempts[i].run)
  }

  predicate AllUnsettled(attempts: seq<Attempt>) {
    forall i :: 0 <= i < |attempts| ==> !Settles(attempts[i].run)
  }

  /** The attempts are the first runs of the agent. */
  predicate RunsOf(attempts: seq<Attempt>, run: nat -> Run) {
    forall i :: 0 <= i < |attempts| ==> attempts[i].run == run(i)
  }

  predicate Settles(run: Run) {
    run.Returned? && (run.status.Completed? || run.status.Blocked? || run.budgetFailure)
  }

  function ResultOf(run: Run): Result {
    match run
    case Returned(status, _, _, _) => Result(status, false)
    case Thrown(timedOut, _) => Result(if timedOut then TimedOut else Failed, false)
  }

  /** How the loop ended: on a settling run, out of retries, or out of tokens. */
  predicate EndedWith(attempts: seq<Attempt>, grant: nat, retries: nat, result: Result) {
    if result.exhausted then
      result.status.Failed? && Spent(attempts) + MIN_RESERVATION > grant
      && (attempts == [] || !Settles(attempts[|attempts| - 1].run)) && |attempts| <= retries
    else
      attempts != [] && result == ResultOf(attempts[|attempts| - 1].run)
      && (Settles(attempts[|attempts| - 1].run) || |attempts| == retries + 1)
  }

  lemma OneMoreAttempt(attempts: seq<Attempt>, grant: nat, a: Attempt)
    requires LimitedBy(attempts, grant) && a.limit >= MIN_RESERVATION && a.limit + Spent(attempts) == grant
    ensures LimitedBy(attempts + [a], grant) && Spent(attempts + [a]) == Spent(attempts) + a.run.Spent()
  {
    var more := attempts + [a];
    assert more[..|attempts|] == attempts;
    assert forall i :: 0 <= i < |attempts| ==> more[..i] == attempts[..i];
  }

  lemma OneMoreRun(attempts: seq<Attempt>, run: nat -> Run, a: Attempt)
    requires RunsOf(attempts, run) && AllUnsettled(attempts) && a.run == run(|attempts|)
    ensures RunsOf(attempts + [a], run) && Retried(attempts + [a]) && Retried(attempts)
    ensures !Settles(a.run) ==> AllUnsettled(attempts + [a])
  {
  }

  /** The retry loop: attempt after attempt until one settles, the tokens or the retries run out. The waiting
      time is what the back-offs after unsettled attempts add up to. */
  method RunAttempts(retries: nat, grant: nat, run: nat -> Run)
    returns (attempts: seq<Attempt>, result: Result, usage: nat, waited: nat)
    ensures |attempts| <= retries + 1
    ensures RunsOf(attempts, run)
    ensures LimitedBy(attempts, grant) && Retried(attempts)
    ensures usage == Spent(attempts)
    ensures EndedWith(attempts, grant, retries, result)
    ensures EndedAsTold(attempts, grant, retries, result.status)
    ensures waited == TotalBackoff(if result.exhausted then |attempts| else |attempts| - 1)
    ensures FitsEnvelope(attempts, waited, retries)
  {
    hide LimitedBy, Spent, Settles, TotalBackoff, Backoff, Run.Spent, RunsOf, Retried, AllUnsettled, FitsEnvelope,
         EndedAsTold;
    attempts, result, usage, waited := [], Result(Failed, true), 0, 0;
    NoAttempts(grant, run);
    var attempt := 0;
    while attempt <= retries
      invariant attempt == |attempts| <= retries + 1
      invariant RunsOf(attempts, run) && AllUnsettled(attempts) && Retried(attempts)
      invariant attempts != [] ==> !Settles(attempts[|attempts| - 1].run)
      invariant LimitedBy(attempts, grant) && usage == Spent(attempts)
      invariant waited == TotalBackoff(if attempt <= retries then attempt else retries)
      invariant attempt == retries + 1 ==> result == ResultOf(attempts[|attempts| - 1].run)
    {
      var remaining := if grant > usage then grant - usage else 0;
      if remaining < MIN_RESERVATION {
        result := Result(Failed, true);
        break;
      }
      var done := run(attempt);
      OneMoreAttempt(attempts, grant, Attempt(remaining, done));
      OneMoreRun(attempts, run, Attempt(remaining, done));
      attempts := attempts + [Attempt(remaining, done)];
      result := ResultOf(done);
      usage := usage + done.Spent();
      if Settles(done) { break; }
      OneMoreBackoff(attempt);
      if attempt < retries { waited := waited + Backoff(attempt); }
      attempt := attempt + 1;
    }
    AttemptsFitTheEnvelope(attempts, retries, if result.exhausted then |attempts| else |attempts| - 1);
    StatusIsTold(attempts, grant, retries, result);
  }

  /** A run that is not tried again: it completed, reported that it is blocked, or ran out of its budget. */
  predicate Final(run: Run) {
    match run
    case Returned(Completed, _, _, _) => true
    case Returned(Blocked, _, _, _) => true
    case Returned(_, _, budgetFailure, _) => budgetFailure
    case Thrown(_, _) => false
  }

  /** The status the attempts end with: that of the last run, if it was final or nothing was left to retry with; a run
      that threw counts as failed unless its time was up; without another attempt for want of tokens, failed. */
  function StatusAtEnd(attempts: seq<Attempt>, retries: nat): Status {
    if attempts == [] then Failed
    else
      match attempts[|attempts| - 1].run
      case Returned(status, _, _, _) =>
        if Final(attempts[|attempts| - 1].run) || |attempts| == retries + 1 then status else Failed
      case Thrown(timedOut, _) => if timedOut && |attempts| == retries + 1 then TimedOut else Failed
  }

  /** Only runs that are not final are tried again, and only the end of the retries or of the tokens stops that. */
  predicate EndedAsTold(attempts: seq<Attempt>, grant: nat, retries: nat, status: Status) {
    && (forall i :: 0 <= i < |attempts| - 1 ==> !Final(attempts[i].run))
    && (attempts == [] ==> grant < 4_000)
    && (attempts != [] && !Final(attempts[|attempts| - 1].run) ==>
          |attempts| == retries + 1 || grant < Spent(attempts) + 4_000)
    && status == StatusAtEnd(attempts, retries)
  }

  lemma StatusIsTold(attempts: seq<Attempt>, grant: nat, retries: nat, result: Result)
    requires Retried(attempts) && EndedWith(attempts, grant, retries, result) && |attempts| <= retries + 1
    ensures EndedAsTold(attempts, grant, retries, result.status)
  {
  }

  /** The waits after the attempts: half a second, doubled each time up to five seconds. */
  lemma {:induction false} WaitsAreCapped(n: nat)
    ensures TotalBackoff(n) ==
            if n == 0 then 0 else if n == 1 then 500 else if n == 2 then 1_500 else if n == 3 then 3_500
            else 7_500 + (n - 4) * 5_000
  {
    if n >= 5 {
      WaitsAreCapped(n - 1);
      PowerIsLarge(n - 1);
    } else {
      assert Power(1) == 2 && Power(2) == 4 && Power(3) == 8;
      assert TotalBackoff(1) == 500 && TotalBackoff(2) == 1_500 && TotalBackoff(3) == 3_500;
    }
  }

  lemma {:induction false} PowerIsLarge(n: nat)
    requires n >= 4
    ensures Power(n) >= 16
  {
    if n > 4 {
      PowerIsLarge(n - 1);
    } else {
      assert Power(2) == 4 && Power(3) == 8;
    }
  }

  lemma NoAttempts(grant: nat, run: nat -> Run)
    ensures TotalBackoff(0) == 0 && LimitedBy([], grant) && Spent([]) == 0
    ensures RunsOf([], run) && Retried([]) && AllUnsettled([])
  {
  }

  lemma OneMoreBackoff(attempt: nat)
    ensures TotalBackoff(attempt + 1) == TotalBackoff(attempt) + Backoff(attempt)
  {
    hide Backoff;
  }

  lemma SpentIsCounted(run: Run)
    ensures run.Spent() == if run.Returned? && run.usage > 0 then run.usage else 0
  {
  }

  // ----- the time envelope and the token grant -----

  lemma {:induction false} BackoffGrows(m: nat, n: nat)
    requires m <= n
    ensures TotalBackoff(m) <= TotalBackoff(n)
  {
    if m < n { BackoffGrows(m, n - 1); }
  }

  /** Every attempt keeps its time limit. */
  predicate InTime(attempts: seq<Attempt>, timeout: nat) {
    forall i :: 0 <= i < |attempts| ==> attempts[i].run.elapsed <= timeout
  }

  lemma {:induction false} ElapsedIsBounded(attempts: seq<Attempt>, timeout: nat)
    requires InTime(attempts, timeout)
    ensures Elapsed(attempts) <= timeout * |attempts|
  {
    if attempts != [] {
      ElapsedIsBounded(attempts[..|attempts| - 1], timeout);
      assert timeout * |attempts| == timeout * (|attempts| - 1) + timeout;
    }
  }

  /** Whatever time limit every attempt keeps, attempts and waits together keep the retry envelope of that limit. */
  ghost predicate FitsEnvelope(attempts: seq<Attempt>, waited: nat, retries: nat) {
    forall timeout: nat :: InTime(attempts, timeout) ==> Elapsed(attempts) + waited <= RetryEnvelope(timeout, retries)
  }

  lemma AttemptsFitTheEnvelope(attempts: seq<Attempt>, retries: nat, backoffs: nat)
    requires |attempts| <= retries + 1 && backoffs <= retries
    ensures FitsEnvelope(attempts, TotalBackoff(backoffs), retries)
  {
    hide Backoff, TotalBackoff, Elapsed, InTime;
    forall timeout: nat | InTime(attempts, timeout)
      ensures Elapsed(attempts) + TotalBackoff(backoffs) <= RetryEnvelope(timeout, retries)
    {
      ElapsedIsBounded(attempts, timeout);
      BackoffGrows(backoffs, retries);
      Scaled(timeout, |attempts|, retries + 1);
    }
  }

  lemma {:induction false} ElapsedOfEqual(attempts: seq<Attempt>, elapsed: nat)
    requires forall i :: 0 <= i < |attempts| ==> attempts[i].run.elapsed == elapsed
    ensures Elapsed(attempts) == elapsed * |attempts|
  {
    if attempts != [] {
      ElapsedOfEqual(attempts[..|attempts| - 1], elapsed);
      assert elapsed * |attempts| == elapsed * (|attempts| - 1) + elapsed;
    }
  }

  /** And no smaller envelope would do: attempts that all use up their time and all fail need exactly this much. */
  lemma EnvelopeIsReached(timeout: nat, retries: nat) returns (attempts: seq<Attempt>)
    ensures |attempts| == retries + 1 && InTime(attempts, timeout)
    ensures forall i :: 0 <= i < |attempts| ==> !Final(attempts[i].run)
    ensures Elapsed(attempts) + TotalBackoff(retries) == RetryEnvelope(timeout, retries)
  {
    attempts := seq(retries + 1, _ => Attempt(MIN_RESERVATION, Thrown(true, timeout)));
    ElapsedOfEqual(attempts, timeout);
  }

  /** Under validated limits a call whose attempts keep their time limit keeps the workflow's. */
  lemma AttemptsFitTheWorkflow(attempts: seq<Attempt>, waited: nat, l: Limits)
    requires LimitsAreValid(l) && FitsEnvelope(attempts, waited, l.retries) && InTime(attempts, l.agentTimeoutMs)
    ensures Elapsed(attempts) + waited <= l.workflowTimeoutMs
  {
    hide InTime, Elapsed;
  }

  lemma Scaled(n: nat, a: nat, b: nat)
    requires a <= b
    ensures n * a <= n * b
  {
  }

  /** If every attempt keeps its token limit, all together keep the grant. */
  lemma AttemptsKeepTheGrant(attempts: seq<Attempt>, grant: nat)
    requires LimitedBy(attempts, grant)
    requires forall i :: 0 <= i < |attempts| ==> attempts[i].run.Spent() <= attempts[i].limit
    ensures Spent(attempts) <= grant
  {
    if attempts != [] {
      var n := |attempts| - 1;
      assert attempts[n].limit + Spent(attempts[..n]) == grant;
    }
  }

  // ----- structured output and its one repair -----

  datatype Outcome =
    | Plain(status: Status, usage: nat)          // the measured result as it is
    | Parsed                                     // structured output that validates
    | Rejected                                   // the call fails

  /** The whole call: attempts, then for structured output validation and at most one repair run with what is left. */
  method CallAgent(
    retries: nat, grant: nat, structured: bool, run: nat -> Run, valid: bool, repair: Run, repairValid: bool)
    returns (outcome: Outcome, attempts: seq<Attempt>, repaired: Option<Attempt>, usage: nat)
    ensures |attempts| <= retries + 1
    ensures RunsOf(attempts, run)
    ensures LimitedBy(attempts, grant) && Retried(attempts)
    ensures repaired.Some? ==>
              && structured && !valid && repaired.value.run == repair
              && LimitedBy(attempts + [repaired.value], grant)
    ensures usage == Spent(attempts + if repaired.Some? then [repaired.value] else [])
    ensures outcome.Parsed? <==>
              && structured && usage <= grant && attempts != []
              && attempts[|attempts| - 1].run.Returned? && attempts[|attempts| - 1].run.status.Completed?
              && (valid || (repaired.Some? && repair.Returned? && repair.status.Completed? && repairValid))
    ensures outcome.Plain? && outcome.status.Completed? ==> !structured && outcome.usage == usage <= grant
    ensures repaired.Some? <==>
              && structured && !valid && Spent(attempts) + 4_000 <= grant && StatusAtEnd(attempts, retries).Completed?
    ensures outcome.Plain? <==>
              !structured || (Spent(attempts) <= grant && StatusAtEnd(attempts, retries).Blocked?)
    ensures outcome.Plain? ==>
              && outcome.usage == usage
              && outcome.status == if usage > grant then Failed else StatusAtEnd(attempts, retries)
  {
    hide LimitedBy, Spent, Retried, RunsOf, Run.Spent, Final;
    var result, waited;
    attempts, result, usage, waited := RunAttempts(retries, grant, run);
    repaired := None;
    assert attempts + [] == attempts;
    var status := if usage > grant then Failed else result.status;
    if !structured { return Plain(status, usage), attempts, None, usage; }
    if status.Blocked? { return Plain(status, usage), attempts, None, usage; }
    if !status.Completed? { return Rejected, attempts, None, usage; }
    if valid { return Parsed, attempts, None, usage; }
    var remaining := if grant > usage then grant - usage else 0;
    if remaining < MIN_RESERVATION { return Rejected, attempts, None, usage; }
    repaired := Some(Attempt(remaining, repair));
    OneMoreAttempt(attempts, grant, repaired.value);
    SpentIsCounted(repair);
    if repair.Thrown? { return Rejected, attempts, repaired, usage; }
    usage := usage + if repair.usage > 0 then repair.usage else 0;
    if usage > grant { return Rejected, attempts, repaired, usage; }
    if !repair.status.Completed? { return Rejected, attempts, repaired, usage; }
    outcome := if repairValid then Parsed else Rejected;
  }
}
