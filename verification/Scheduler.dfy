/** The workflow token scheduler: reservations queue up, a flush grants them shares of the budget, and
    settlements return what was not used (classified-workflows/core.ts). Each method is one event-loop turn. */
module Scheduler {
  import opened Texts

  const MIN_RESERVATION := 4_000
  const MAX_PHASES := 16

  type AgentId = nat

  datatype Limits = Limits(maxAgents: nat, tokenBudget: nat) {
    /** What limit validation demands: a minimum reservation for every configured agent. */
    predicate Valid() { maxAgents > 0 && tokenBudget / maxAgents >= MIN_RESERVATION }

    function PerAgent(): nat
      requires maxAgents > 0
    {
      tokenBudget / maxAgents
    }
  }

  function Max(a: int, b: int): int { if a >= b then a else b }
  function Min(a: int, b: int): int { if a <= b then a else b }

  lemma MaxIsNotNegative(n: int)
    ensures Max(0, n) >= 0
  {
  }

  // ----- what one flush grants -----

  /** The limit offered to the first of some waiting reservations. */
  function Offer(l: Limits, used: nat, reserved: nat, phaseAgents: nat, waiting: nat): nat
    requires l.Valid() && waiting > 0
  {
    var available := Max(0, l.tokenBudget - used - reserved);
    var future := Max(0, l.maxAgents - phaseAgents) * MIN_RESERVATION;
    var share := Max(0, available - future) / waiting;
    Min(Max(l.PerAgent(), share), available)
  }

  /** The grants of one flush, in queue order, and whether the rest of the queue is refused. */
  function Flushed(l: Limits, used: nat, reserved: nat, phaseAgents: nat, waiting: nat): (r: (seq<nat>, bool))
    requires l.Valid()
    ensures |r.0| <= waiting
    decreases waiting
  {
    if waiting == 0 then ([], false) else
      var limit := Offer(l, used, reserved, phaseAgents, waiting);
      if limit < l.PerAgent() && reserved > 0 then ([], false)
      else if limit < MIN_RESERVATION then ([], true)
      else
        var (rest, refused) := Flushed(l, used, reserved + limit, phaseAgents, waiting - 1);
        ([limit] + rest, refused)
  }

  function Total(grants: seq<nat>): nat {
    if grants == [] then 0 else grants[0] + Total(grants[1..])
  }

  /** Grants are never below the minimum nor beyond the budget; the queue is refused only when nothing is
      reserved and less than a minimum is left; it stays waiting only behind outstanding grants. */
  lemma {:induction false} FlushIsSafe(l: Limits, used: nat, reserved: nat, phaseAgents: nat, waiting: nat)
    requires l.Valid()
    ensures var (grants, refused) := Flushed(l, used, reserved, phaseAgents, waiting);
            && |grants| <= waiting
            && (forall i :: 0 <= i < |grants| ==> grants[i] >= MIN_RESERVATION)
            && (grants != [] ==> used + reserved + Total(grants) <= l.tokenBudget)
            && (refused ==> grants == [] && reserved == 0 && waiting > 0 && l.tokenBudget - used < MIN_RESERVATION)
            && (!refused && |grants| < waiting ==> reserved + Total(grants) > 0)
    decreases waiting
  {
    if waiting > 0 {
      var limit := Offer(l, used, reserved, phaseAgents, waiting);
      if !(limit < l.PerAgent() && reserved > 0) && limit >= MIN_RESERVATION {
        FlushIsSafe(l, used, reserved + limit, phaseAgents, waiting - 1);
        var (rest, refused) := Flushed(l, used, reserved + limit, phaseAgents, waiting - 1);
        assert ([limit] + rest)[1..] == rest;
      }
    }
  }

  /** With nothing outstanding a flush always moves the queue: it grants the first or refuses them all. */
  lemma FlushMovesTheQueue(l: Limits, used: nat, phaseAgents: nat, waiting: nat)
    requires l.Valid() && waiting > 0
    ensures var (grants, refused) := Flushed(l, used, 0, phaseAgents, waiting);
            refused <==> l.tokenBudget - used < MIN_RESERVATION
    ensures var (grants, refused) := Flushed(l, used, 0, phaseAgents, waiting);
            !refused ==> grants != []
  {
    FlushIsSafe(l, used, 0, phaseAgents, waiting);
  }

  // ----- fairness of one wave -----

  /** Dividing what is left by who is left, over and over, shares a sum out within one token. */
  lemma ShareOfRest(q: nat, r: nat, e: nat)
    requires r > 0 && e <= r
    ensures (q * r + e) / r == if e == r then q + 1 else q
  {
    if e == r {
      assert q * r + e == (q + 1) * r;
      DivideExactly(q + 1, r, 0);
    } else {
      DivideExactly(q, r, e);
    }
  }

  lemma DivideExactly(q: nat, r: nat, e: nat)
    requires e < r
    ensures (q * r + e) / r == q
  {
    var x := q * r + e;
    var d := x / r;
    assert d * r <= x < d * r + r;
    assert d < q ==> (d + 1) * r <= q * r;
    assert d > q ==> (q + 1) * r <= d * r;
  }

  lemma SplitProduct(q: nat, r: nat)
    requires r > 0
    ensures q * r == q * (r - 1) + q && q * r >= q
  {
  }

  /** What is left to share out beyond a minimum for every agent that may still come. */
  function ToShare(l: Limits, used: nat, reserved: nat, phaseAgents: nat): int {
    l.tokenBudget - used - reserved - Max(0, l.maxAgents - phaseAgents) * MIN_RESERVATION
  }

  /** The share of the i-th of r agents when q for each and e spare tokens are left: the last ones get one more. */
  function ShareOf(q: nat, e: nat, r: nat, i: nat): nat {
    if i + e >= r then q + 1 else q
  }

  lemma OfferInWave(l: Limits, used: nat, reserved: nat, phaseAgents: nat, r: nat, q: nat, e: nat)
    requires l.Valid() && q >= l.PerAgent() && r > 0 && e <= r && ToShare(l, used, reserved, phaseAgents) == q * r + e
    ensures Offer(l, used, reserved, phaseAgents, r) == ShareOf(q, e, r, 0)
    ensures q >= MIN_RESERVATION
  {
    hide Limits.PerAgent;
    SplitProduct(q, r);
    ShareOfRest(q, r, e);
    assert l.PerAgent() >= MIN_RESERVATION by { PerAgentIsEnough(l); }
    var rest := q * r + e;
    ReserveIsNotNegative(l, phaseAgents);
    assert l.tokenBudget - used - reserved >= rest;
    assert rest / r <= rest;
  }

  lemma ReserveIsNotNegative(l: Limits, phaseAgents: nat)
    ensures Max(0, l.maxAgents - phaseAgents) * MIN_RESERVATION >= 0
  {
  }

  lemma PerAgentIsEnough(l: Limits)
    requires l.Valid()
    ensures l.PerAgent() >= MIN_RESERVATION
  {
  }

  /** r agents wait, and what is left is q for each and e spare tokens. */
  lemma {:induction false} WaveFrom(l: Limits, used: nat, reserved: nat, phaseAgents: nat, r: nat, q: nat, e: nat)
    requires l.Valid() && q >= l.PerAgent() && e <= r && ToShare(l, used, reserved, phaseAgents) == q * r + e
    ensures var (grants, refused) := Flushed(l, used, reserved, phaseAgents, r);
            && !refused && |grants| == r
            && Total(grants) == q * r + e
            && forall i :: 0 <= i < r ==> grants[i] == ShareOf(q, e, r, i)
    decreases r
  {
    hide Offer, Limits.PerAgent, Limits.Valid;
    if r > 0 {
      OfferInWave(l, used, reserved, phaseAgents, r, q, e);
      var limit := Offer(l, used, reserved, phaseAgents, r);
      var e2 := if e == r then e - 1 else e;
      SplitProduct(q, r);
      WaveFrom(l, used, reserved + limit, phaseAgents, r - 1, q, e2);
      var (rest, refused) := Flushed(l, used, reserved + limit, phaseAgents, r - 1);
      assert ([limit] + rest)[1..] == rest;
    }
  }

  /** Enough for everyone who waits: one flush grants them all what is left, in equal shares but for the odd tokens. */
  lemma WaveIsShared(l: Limits, used: nat, reserved: nat, phaseAgents: nat, k: nat)
    requires l.Valid() && k > 0 && ToShare(l, used, reserved, phaseAgents) >= k * l.PerAgent()
    ensures var (grants, refused) := Flushed(l, used, reserved, phaseAgents, k);
            var rest := ToShare(l, used, reserved, phaseAgents);
            && !refused && |grants| == k
            && Total(grants) == rest
            && rest / k >= l.PerAgent()
            && forall i :: 0 <= i < k ==> grants[i] == rest / k + if i >= k - rest % k then 1 else 0
  {
    hide Offer, Limits.PerAgent, Flushed, ToShare, Total;
    var rest := ToShare(l, used, reserved, phaseAgents);
    Quotients(rest, k, l.PerAgent());
    WaveFrom(l, used, reserved, phaseAgents, k, rest / k, rest % k);
  }

  lemma Quotients(x: int, k: nat, per: nat)
    requires k > 0 && x >= k * per
    ensures x / k >= per && x == (x / k) * k + x % k && 0 <= x % k < k
  {
    QuotientAtLeast(x, k, per);
  }

  // ----- too little for everyone -----

  lemma OfferWhenShort(l: Limits, used: nat, reserved: nat, phaseAgents: nat, r: nat)
    requires l.Valid() && r > 0 && ToShare(l, used, reserved, phaseAgents) < r * l.PerAgent()
    ensures Offer(l, used, reserved, phaseAgents, r) == Min(l.PerAgent(), Max(0, l.tokenBudget - used - reserved))
  {
    hide Limits.PerAgent;
    var rest := ToShare(l, used, reserved, phaseAgents);
    ReserveIsNotNegative(l, phaseAgents);
    QuotientBelow(Max(0, rest), r, l.PerAgent());
  }

  lemma QuotientBelow(x: nat, k: nat, per: nat)
    requires k > 0 && (x == 0 || x < k * per)
    ensures x == 0 ==> x / k == 0
    ensures x > 0 ==> x / k < per
  {
    var d := x / k;
    assert d >= per ==> d * k >= k * per;
  }

  /** Behind outstanding grants the floor is granted while that much is left, and then the queue waits. */
  lemma {:induction false} FloorsFrom(l: Limits, used: nat, reserved: nat, phaseAgents: nat, r: nat)
    requires l.Valid() && reserved > 0 && ToShare(l, used, reserved, phaseAgents) < r * l.PerAgent()
    ensures var (grants, refused) := Flushed(l, used, reserved, phaseAgents, r);
            !refused && OnlyFloors(l, Max(0, l.tokenBudget - used - reserved), r, grants)
    decreases r
  {
    hide Offer, Limits.PerAgent;
    PerAgentIsEnough(l);
    var left := Max(0, l.tokenBudget - used - reserved);
    var per := l.PerAgent();
    if r > 0 {
      OfferWhenShort(l, used, reserved, phaseAgents, r);
      if left >= per {
        SplitProduct(per, r);
        FloorsFrom(l, used, reserved + per, phaseAgents, r - 1);
        var (rest, refused) := Flushed(l, used, reserved + per, phaseAgents, r - 1);
        OneFloorMore(l, left, r, rest);
      } else {
        NoFloor(l, left, r);
      }
    } else {
      NobodyGetsNothing(l, left);
    }
  }

  /** As many grants as agents wait or floors are left, each of the floor. */
  ghost predicate OnlyFloors(l: Limits, left: nat, waiting: nat, grants: seq<nat>)
    requires l.Valid()
  {
    && |grants| == Min(waiting, left / l.PerAgent())
    && forall i :: 0 <= i < |grants| ==> grants[i] == l.PerAgent()
  }

  lemma OneFloorMore(l: Limits, left: nat, waiting: nat, grants: seq<nat>)
    requires l.Valid() && waiting > 0 && left >= l.PerAgent()
    requires OnlyFloors(l, left - l.PerAgent(), waiting - 1, grants)
    ensures OnlyFloors(l, left, waiting, [l.PerAgent()] + grants)
  {
    hide Limits.PerAgent;
    PerAgentIsEnough(l);
    OneMoreDivisor(left - l.PerAgent(), l.PerAgent());
  }

  lemma OneMoreDivisor(x: nat, per: nat)
    requires per > 0
    ensures (x + per) / per == x / per + 1
  {
    var d := x / per;
    assert x == d * per + x % per;
    assert x + per == (d + 1) * per + x % per;
    DivideExactly(d + 1, per, x % per);
  }

  lemma NoFloor(l: Limits, left: nat, waiting: nat)
    requires l.Valid() && left < l.PerAgent()
    ensures OnlyFloors(l, left, waiting, [])
  {
    hide Limits.PerAgent;
    DivideExactly(0, l.PerAgent(), left);
  }

  lemma NobodyGetsNothing(l: Limits, left: nat)
    requires l.Valid()
    ensures OnlyFloors(l, left, 0, [])
  {
    hide Limits.PerAgent;
    PerAgentIsEnough(l);
    assert left / l.PerAgent() >= 0;
  }

  /** Too little for everyone: floors while they last. With nothing outstanding and less than one floor left, the first
      gets all of that if it is a minimum, and otherwise everyone is refused. */
  lemma ShortageIsServed(l: Limits, used: nat, reserved: nat, phaseAgents: nat, k: nat)
    requires l.Valid() && k > 0 && ToShare(l, used, reserved, phaseAgents) < k * l.PerAgent()
    ensures var (grants, refused) := Flushed(l, used, reserved, phaseAgents, k);
            var left := Max(0, l.tokenBudget - used - reserved);
            && (reserved > 0 || left >= l.PerAgent() ==> !refused && OnlyFloors(l, left, k, grants))
            && (reserved == 0 && MIN_RESERVATION <= left < l.PerAgent() ==> !refused && grants == [left])
            && (reserved == 0 && left < MIN_RESERVATION ==> refused && grants == [])
  {
    hide Offer, Limits.PerAgent;
    PerAgentIsEnough(l);
    var left, per := Max(0, l.tokenBudget - used - reserved), l.PerAgent();
    OfferWhenShort(l, used, reserved, phaseAgents, k);
    if reserved > 0 {
      FloorsFrom(l, used, reserved, phaseAgents, k);
    } else if left >= MIN_RESERVATION {
      var limit := Min(per, left);
      SplitProduct(per, k);
      assert limit == per || ToShare(l, used, limit, phaseAgents) <= 0 by { ReserveIsNotNegative(l, phaseAgents); }
      if k == 1 && limit < per {
        assert Flushed(l, used, limit, phaseAgents, 0) == ([], false);
      } else if limit < per {
        assert (k - 1) * per > 0;
        FloorsFrom(l, used, limit, phaseAgents, k - 1);
        NoFloor(l, 0, k - 1);
      } else {
        FloorsFrom(l, used, limit, phaseAgents, k - 1);
        OneFloorMore(l, left, k, Flushed(l, used, limit, phaseAgents, k - 1).0);
      }
    }
  }

  lemma WaveShareIsLarge(l: Limits, k: nat)
    requires l.Valid() && 0 < k <= l.maxAgents
    ensures var rest := l.tokenBudget - (l.maxAgents - k) * MIN_RESERVATION;
            rest >= 0 && rest / k >= l.PerAgent()
  {
    var per := l.PerAgent();
    var rest := l.tokenBudget - (l.maxAgents - k) * MIN_RESERVATION;
    Scaled(l.maxAgents - k, MIN_RESERVATION, per);
    Distribute(per, l.maxAgents, k);
    QuotientAtLeast(rest, k, per);
  }

  lemma Scaled(n: nat, a: nat, b: nat)
    requires a <= b
    ensures n * a <= n * b
  {
  }

  lemma Distribute(per: nat, n: nat, k: nat)
    requires k <= n
    ensures per * n == per * k + (n - k) * per
  {
  }

  lemma QuotientAtLeast(x: int, k: nat, per: nat)
    requires k > 0 && x >= per * k
    ensures x >= 0 && x / k >= per
  {
    var d := x / k;
    assert d < per ==> (d + 1) * k <= per * k;
  }

  /** One flush of a whole first wave: everyone is granted, each at least the per-agent floor, any two within one
      token, and together exactly the budget less a minimum for every agent that may still come. */
  lemma WaveIsFair(l: Limits, k: nat)
    requires l.Valid() && k <= l.maxAgents
    ensures var (grants, refused) := Flushed(l, 0, 0, k, k);
            && !refused && |grants| == k
            && (forall i :: 0 <= i < k ==> grants[i] >= l.PerAgent())
            && (forall i, j :: 0 <= i < k && 0 <= j < k ==> grants[i] <= grants[j] + 1)
            && (k > 0 ==> Total(grants) == l.tokenBudget - (l.maxAgents - k) * MIN_RESERVATION)
  {
    hide Limits.PerAgent;
    if k > 0 {
      var rest := l.tokenBudget - (l.maxAgents - k) * MIN_RESERVATION;
      WaveShareIsLarge(l, k);
      var per := l.PerAgent();
      assert rest >= (rest / k) * k >= per * k;
      WaveIsShared(l, 0, 0, k, k);
    }
  }

  // ----- sums of outstanding grants -----

  ghost function Sum(m: map<AgentId, nat>): nat {
    if m == map[] then 0
    else
      var k :| k in m;
      m[k] + Sum(m - {k})
  }

  lemma {:induction false} SumWithout(m: map<AgentId, nat>, k: AgentId)
    requires k in m
    ensures Sum(m) == m[k] + Sum(m - {k})
    decreases |m|
  {
    var j :| j in m && Sum(m) == m[j] + Sum(m - {j});
    if j != k {
      SumWithout(m - {j}, k);
      SumWithout(m - {k}, j);
      assert m - {j} - {k} == m - {k} - {j};
    }
  }

  lemma SumWith(m: map<AgentId, nat>, k: AgentId, v: nat)
    requires k !in m
    ensures Sum(m[k := v]) == Sum(m) + v
  {
    assert m[k := v] - {k} == m;
    SumWithout(m[k := v], k);
  }

  // ----- the scheduler -----

  const MAX_TITLE_UNITS := 80

  datatype PhaseOutcome = PhaseStarted | BadTitle | AgentsStillActive | TooManyPhases

  predicate TitleOk(title: Text) { Trim(title) != [] && |title| <= MAX_TITLE_UNITS }

  /** What a flush works on. */
  datatype Queue = Queue(pending: seq<AgentId>, granted: map<AgentId, nat>, reserved: nat, refused: set<AgentId>)

  function Granted(q: Queue, limit: nat): Queue
    requires q.pending != []
  {
    Queue(q.pending[1..], q.granted[q.pending[0] := limit], q.reserved + limit, q.refused)
  }

  /** A queue after some grants to its head. */
  function AfterGrants(q: Queue, grants: seq<nat>): Queue
    requires |grants| <= |q.pending|
  {
    Queue(q.pending[|grants|..], Granting(q.granted, q.pending, grants), q.reserved + Total(grants), q.refused)
  }

  function RefusingAll(q: Queue): Queue {
    q.(pending := [], refused := q.refused + Members(q.pending))
  }

  /** What a flush does to a queue: the grants go to its head in order, the rest is refused as a whole or waits. */
  function Served(l: Limits, used: nat, phaseAgents: nat, q: Queue): Queue
    requires l.Valid()
  {
    var (grants, all) := Flushed(l, used, q.reserved, phaseAgents, |q.pending|);
    if all then RefusingAll(q) else AfterGrants(q, grants)
  }

  /** Every agent is in one place. */
  ghost predicate Apart(pending: seq<AgentId>, granted: set<AgentId>, refused: set<AgentId>, probing: set<AgentId>) {
    && (forall i, j :: 0 <= i < j < |pending| ==> pending[i] != pending[j])
    && (forall i :: 0 <= i < |pending| ==> pending[i] !in granted && pending[i] !in refused && pending[i] !in probing)
    && granted !! refused !! probing
  }

  /** Reserved is what the running agents hold, no less than a minimum each; the budget is exceeded by no more than
      settled agents exceeded their grants. */
  ghost predicate Accounts(budget: nat, granted: map<AgentId, nat>, used: nat, reserved: nat, overshoot: nat) {
    && reserved == Sum(granted)
    && (forall a :: a in granted ==> granted[a] >= MIN_RESERVATION)
    && used + reserved <= budget + overshoot
  }

  lemma SettlingKeepsAccounts(
    budget: nat, granted: map<AgentId, nat>, used: nat, reserved: nat, overshoot: nat, agent: AgentId, usage: nat)
    requires Accounts(budget, granted, used, reserved, overshoot) && agent in granted
    ensures granted[agent] <= reserved
    ensures Accounts(budget, granted - {agent}, used + usage, reserved - granted[agent],
                     overshoot + Max(0, usage - granted[agent]))
  {
    SumWithout(granted, agent);
  }

  class TokenScheduler {
    const limits: Limits
    var phaseAgentCount: nat
    var phaseCount: nat
    var inFlightAgentCalls: nat
    var usedTokens: nat
    var reservedTokens: nat
    var flushScheduled: bool
    var pending: seq<AgentId>
    var granted: map<AgentId, nat>       // the limit each running agent holds until it settles
    var refused: set<AgentId>            // rejected reservations whose agents have not returned yet
    var probing: set<AgentId>            // agents that passed the phase check and await the memory probe
    ghost var overshoot: nat             // by how much settled agents exceeded their grants, in total

    /** What every turn keeps. */
    ghost predicate Balanced()
      reads this
    {
      && limits.Valid() && Apart(pending, granted.Keys, refused, probing)
      && Accounts(limits.tokenBudget, granted, usedTokens, reservedTokens, overshoot)
      && inFlightAgentCalls == |pending| + |granted| + |refused| + |probing|
    }

    /** Between turns, moreover, whoever waits has a flush coming or an agent ahead whose return brings one. */
    ghost predicate Valid()
      reads this
    {
      Balanced() && (pending != [] ==> flushScheduled || granted != map[])
    }

    constructor (limits: Limits)
      requires limits.Valid()
      ensures Valid() && usedTokens == 0 && pending == [] && granted == map[] && this.limits == limits
    {
      this.limits := limits;
      phaseAgentCount, phaseCount, inFlightAgentCalls, usedTokens, reservedTokens := 0, 0, 0, 0, 0;
      flushScheduled, pending, granted, refused, probing := false, [], map[], {}, {};
      overshoot := 0;
    }

    /** An agent call passes the phase check and waits for the memory probe. */
    method Begin(agent: AgentId) returns (started: bool)
      requires Valid() && agent !in pending && agent !in granted && agent !in refused && agent !in probing
      modifies this`inFlightAgentCalls, this`probing
      ensures Valid()
      ensures started == (phaseAgentCount < limits.maxAgents)
      ensures probing == if started then old(probing) + {agent} else old(probing)
    {
      if phaseAgentCount >= limits.maxAgents { return false; }
      inFlightAgentCalls := inFlightAgentCalls + 1;
      probing := probing + {agent};
      return true;
    }

    /** The probe finds too little memory. */
    method ProbeFails(agent: AgentId)
      requires Valid() && agent in probing
      modifies this`inFlightAgentCalls, this`probing
      ensures Valid() && probing == old(probing) - {agent}
    {
      inFlightAgentCalls := inFlightAgentCalls - 1;
      probing := probing - {agent};
    }

    method ScheduleFlush()
      requires Balanced()
      modifies this`flushScheduled
      ensures Valid()
      ensures flushScheduled == (old(flushScheduled) || pending != [])
    {
      if flushScheduled || pending == [] { return; }
      flushScheduled := true;
    }

    /** The probe passes and the agent asks for tokens. */
    method Reserve(agent: AgentId)
      requires Valid() && agent in probing
      modifies this`phaseAgentCount, this`probing, this`pending, this`flushScheduled
      ensures Valid() && flushScheduled
      ensures pending == old(pending) + [agent] && probing == old(probing) - {agent}
      ensures phaseAgentCount == old(phaseAgentCount) + 1
    {
      hide Sum, Limits.Valid;
      phaseAgentCount := phaseAgentCount + 1;
      probing := probing - {agent};
      pending := pending + [agent];
      ScheduleFlush();
    }

    /** The scheduled flush: first come, first granted, until someone has to wait or everyone is refused. */
    method Flush()
      requires Valid() && flushScheduled
      modifies this`flushScheduled, this`pending, this`granted, this`reservedTokens, this`refused
      ensures Valid()
      ensures State() == Served(limits, usedTokens, phaseAgentCount, old(State()))
      ensures reservedTokens > old(reservedTokens) ==> usedTokens + reservedTokens <= limits.tokenBudget
      ensures SharedOut(limits, usedTokens, phaseAgentCount, old(State()), State())
    {
      hide Sum, Apart, Limits.Valid, SharedOut, Served, InLine;
      flushScheduled := false;
      ApartAreInLine(State(), probing);
      ServedKeepsBudget(limits, usedTokens, phaseAgentCount, State());
      FlushSharesOut(limits, usedTokens, phaseAgentCount, State());
      ServeQueue();
      SomeoneHolds();
    }

    function State(): Queue
      reads this
    {
      Queue(pending, granted, reservedTokens, refused)
    }

    /** The flush loop. */
    method ServeQueue()
      requires Counted()
      modifies this`pending, this`granted, this`reservedTokens, this`refused
      ensures Counted()
      ensures |pending| + |granted| + |refused| == |old(pending)| + |old(granted)| + |old(refused)|
      ensures State() == Served(limits, usedTokens, phaseAgentCount, old(State()))
    {
      hide Offer, Sum, Apart, Members, Served;
      while pending != []
        invariant Counted()
        invariant |pending| + |granted| + |refused| == |old(pending)| + |old(granted)| + |old(refused)|
        invariant Served(limits, usedTokens, phaseAgentCount, State())
                  == Served(limits, usedTokens, phaseAgentCount, old(State()))
        decreases |pending|
      {
        ServedFromHead(limits, usedTokens, phaseAgentCount, State());
        var limit := FirstOffer();
        if limit < limits.PerAgent() && reservedTokens > 0 { return; }
        if limit < MIN_RESERVATION {
          RefuseAll();
          return;
        }
        GrantFirst(limit);
      }
      ServedFromHead(limits, usedTokens, phaseAgentCount, State());
    }

    /** What the flush keeps between two grants. */
    ghost predicate Counted()
      reads this
    {
      && limits.Valid() && Apart(pending, granted.Keys, refused, probing) && reservedTokens == Sum(granted)
      && forall a :: a in granted ==> granted[a] >= MIN_RESERVATION
    }

    /** The limit the head of the queue would get. */
    method FirstOffer() returns (limit: nat)
      requires limits.Valid() && pending != []
      ensures limit == Offer(limits, usedTokens, reservedTokens, phaseAgentCount, |pending|)
      ensures limit <= Max(0, limits.tokenBudget - usedTokens - reservedTokens)
    {
      var available := Max(0, limits.tokenBudget - usedTokens - reservedTokens);
      var slots := Max(0, limits.maxAgents - phaseAgentCount);
      var future := slots * MIN_RESERVATION;
      var share := Max(0, available - future) / |pending|;
      limit := Min(Max(limits.PerAgent(), share), available);
    }

    lemma SomeoneHolds()
      requires Counted()
      ensures reservedTokens > 0 ==> granted != map[]
    {
    }

    method GrantFirst(limit: nat)
      requires Counted() && pending != [] && limit >= MIN_RESERVATION
      modifies this`granted, this`reservedTokens, this`pending
      ensures Counted()
      ensures granted == old(granted)[old(pending)[0] := limit] && |granted| == |old(granted)| + 1
      ensures reservedTokens == old(reservedTokens) + limit && pending == old(pending)[1..]
    {
      SumWith(granted, pending[0], limit);
      assert granted[pending[0] := limit].Keys == granted.Keys + {pending[0]};
      granted := granted[pending[0] := limit];
      reservedTokens := reservedTokens + limit;
      pending := pending[1..];
    }

    method RefuseAll()
      requires Counted()
      modifies this`refused, this`pending
      ensures Counted() && pending == []
      ensures refused == old(refused) + Members(old(pending)) && |refused| == |old(refused)| + |old(pending)|
    {
      RefusedCount(pending, refused);
      refused := refused + Members(pending);
      pending := [];
    }

    /** An agent whose reservation was refused returns. */
    method RefusedReturns(agent: AgentId)
      requires Valid() && agent in refused
      modifies this`refused, this`inFlightAgentCalls
      ensures Valid() && refused == old(refused) - {agent}
    {
      refused := refused - {agent};
      inFlightAgentCalls := inFlightAgentCalls - 1;
    }

    /** An agent returns: what it used is counted, its reservation freed, and the queue looked at again. */
    method Settle(agent: AgentId, usage: nat)
      requires Valid() && agent in granted
      modifies this`usedTokens, this`reservedTokens, this`inFlightAgentCalls, this`granted, this`flushScheduled,
               this`overshoot
      ensures Valid()
      ensures granted == old(granted) - {agent}
      ensures usedTokens == old(usedTokens) + usage && reservedTokens == old(reservedTokens) - old(granted)[agent]
      ensures overshoot == old(overshoot) + Max(0, usage - old(granted)[agent])
      ensures pending != [] ==> flushScheduled
    {
      hide Accounts, Limits.Valid, Apart, Max;
      var grant, rest := granted[agent], granted - {agent};
      SettledStaysApart(pending, granted, refused, probing, agent);
      SettlingKeepsAccounts(limits.tokenBudget, granted, usedTokens, reservedTokens, overshoot, agent, usage);
      ghost var excess := Max(0, usage - grant);
      MaxIsNotNegative(usage - grant);
      assert |rest| == |granted| - 1;
      overshoot := overshoot + excess;
      usedTokens := usedTokens + usage;
      reservedTokens := reservedTokens - grant;
      granted := rest;
      inFlightAgentCalls := inFlightAgentCalls - 1;
      ScheduleFlush();
    }

    /** A new phase needs a title and starts only when every agent call has returned: nothing waits, runs or is
        reserved. */
    method StartPhase(title: Text) returns (outcome: PhaseOutcome)
      requires Valid()
      modifies this`phaseCount, this`phaseAgentCount
      ensures Valid()
      ensures outcome.BadTitle? <==> !TitleOk(title)
      ensures outcome.PhaseStarted? <==>
                TitleOk(title) && old(phaseCount) < MAX_PHASES
                && pending == [] && granted == map[] && refused == {} && probing == {}
      ensures outcome.PhaseStarted? ==>
                reservedTokens == 0 && phaseCount == old(phaseCount) + 1 && phaseAgentCount == 0
      ensures !outcome.PhaseStarted? ==> phaseCount == old(phaseCount) && phaseAgentCount == old(phaseAgentCount)
    {
      if !TitleOk(title) { return BadTitle; }
      if inFlightAgentCalls > 0 { return AgentsStillActive; }
      assert |granted| == 0 && |refused| == 0 && |probing| == 0;
      if phaseCount >= MAX_PHASES { return TooManyPhases; }
      phaseCount := phaseCount + 1;
      phaseAgentCount := 0;
      return PhaseStarted;
    }
  }

  lemma GrantThenRest(q: Queue, limit: nat, rest: seq<nat>)
    requires |rest| < |q.pending|
    ensures AfterGrants(Granted(q, limit), rest) == AfterGrants(q, [limit] + rest)
  {
    GrantingFromHead(q.granted, q.pending, limit, rest);
    assert ([limit] + rest)[1..] == rest;
    assert q.pending[1..][|rest|..] == q.pending[|rest| + 1..];
  }

  /** A flush looks at the head of the queue, again and again: nobody waits, the head has to wait, everyone is refused,
      or the head is granted its offer. */
  lemma ServedFromHead(l: Limits, used: nat, phaseAgents: nat, q: Queue)
    requires l.Valid()
    ensures Served(l, used, phaseAgents, q) ==
            if q.pending == [] then q else
              var limit := Offer(l, used, q.reserved, phaseAgents, |q.pending|);
              if limit < l.PerAgent() && q.reserved > 0 then q
              else if limit < MIN_RESERVATION then RefusingAll(q)
              else Served(l, used, phaseAgents, Granted(q, limit))
  {
    hide Offer, Members, Limits.PerAgent, Granted, Granting, Total;
    NoGrants(q);
    if q.pending != [] {
      var limit := Offer(l, used, q.reserved, phaseAgents, |q.pending|);
      if !(limit < l.PerAgent() && q.reserved > 0) && limit >= MIN_RESERVATION {
        var next := Granted(q, limit);
        GrantedFields(q, limit);
        NotRefusedAfterGrant(l, used, next.reserved, phaseAgents, |next.pending|);
        GrantThenRest(q, limit, Flushed(l, used, next.reserved, phaseAgents, |next.pending|).0);
      }
    }
  }

  lemma NoGrants(q: Queue)
    ensures AfterGrants(q, []) == q
  {
  }

  lemma GrantedFields(q: Queue, limit: nat)
    requires q.pending != []
    ensures Granted(q, limit).reserved == q.reserved + limit && |Granted(q, limit).pending| == |q.pending| - 1
  {
  }

  /** A served queue spends within the budget, and whoever still waits waits behind a reservation. */
  lemma ServedKeepsBudget(l: Limits, used: nat, phaseAgents: nat, q: Queue)
    requires l.Valid()
    ensures var q2 := Served(l, used, phaseAgents, q);
            && q2.reserved >= q.reserved
            && (q2.reserved > q.reserved ==> used + q2.reserved <= l.tokenBudget)
            && (q2.pending != [] ==> q2.reserved > 0)
  {
    hide Flushed, Granting, Members;
    FlushIsSafe(l, used, q.reserved, phaseAgents, |q.pending|);
    NothingIsTotal();
  }

  lemma NothingIsTotal()
    ensures Total([]) == 0
  {
  }

  lemma NotRefusedAfterGrant(l: Limits, used: nat, reserved: nat, phaseAgents: nat, waiting: nat)
    requires l.Valid() && reserved > 0
    ensures !Flushed(l, used, reserved, phaseAgents, waiting).1
  {
    FlushIsSafe(l, used, reserved, phaseAgents, waiting);
  }

  lemma {:induction false} GrantingFromHead(granted: map<AgentId, nat>, queue: seq<AgentId>, limit: nat, rest: seq<nat>)
    requires |rest| < |queue|
    ensures Granting(granted[queue[0] := limit], queue[1..], rest) == Granting(granted, queue, [limit] + rest)
    decreases |rest|
  {
    var all := [limit] + rest;
    if rest == [] {
      assert all[..0] == [];
    } else {
      var n := |rest| - 1;
      GrantingFromHead(granted, queue, limit, rest[..n]);
      assert all[..n + 1] == [limit] + rest[..n];
    }
  }

  // ----- what a flush gives whom -----

  /** The first agents in line were granted something, nobody was refused and nobody else is affected. */
  ghost predicate FirstServed(before: Queue, after: Queue, n: nat) {
    && n <= |before.pending| && after.pending == before.pending[n..] && after.refused == before.refused
    && (forall i :: 0 <= i < n ==> before.pending[i] in after.granted)
    && (forall a :: a in after.granted ==> a in before.granted || a in before.pending[..n])
    && (forall a :: a in before.granted ==> a in after.granted && after.granted[a] == before.granted[a])
  }

  /** Everyone waiting was granted an equal share of the rest, the last in line one token more if it is odd. */
  ghost predicate SharedEqually(before: Queue, after: Queue, rest: int) {
    var k := |before.pending|;
    && FirstServed(before, after, k) && after.reserved == before.reserved + rest
    && forall i :: 0 <= i < k ==>
         after.granted[before.pending[i]] == rest / k + if i >= k - rest % k then 1 else 0
  }

  /** The first in line were granted the floor, as far as that goes. */
  ghost predicate FloorsServed(before: Queue, after: Queue, left: int, floor: nat)
    requires floor > 0
  {
    var n := Min(|before.pending|, left / floor);
    && n >= 0 && FirstServed(before, after, n) && after.reserved == before.reserved + n * floor
    && forall i :: 0 <= i < n ==> after.granted[before.pending[i]] == floor
  }

  /** Nobody waits any more: everyone who did was refused. */
  ghost predicate AllRefused(before: Queue, after: Queue) {
    && after.pending == [] && after.granted == before.granted && after.reserved == before.reserved
    && forall a :: a in after.refused <==> a in before.refused || a in before.pending
  }

  lemma {:induction false} GrantingGives(granted: map<AgentId, nat>, queue: seq<AgentId>, grants: seq<nat>)
    requires |grants| <= |queue|
    requires forall i, j :: 0 <= i < j < |queue| ==> queue[i] != queue[j]
    requires forall i :: 0 <= i < |queue| ==> queue[i] !in granted
    ensures var after := Granting(granted, queue, grants);
            && (forall i :: 0 <= i < |grants| ==> queue[i] in after && after[queue[i]] == grants[i])
            && (forall a :: a in after ==> a in granted || a in queue[..|grants|])
            && (forall a :: a in granted ==> a in after && after[a] == granted[a])
  {
    if grants != [] {
      var n := |grants| - 1;
      GrantingGives(granted, queue, grants[..n]);
      assert queue[..n + 1] == queue[..n] + [queue[n]];
    }
  }

  lemma GrantedAreServed(q: Queue, grants: seq<nat>)
    requires |grants| <= |q.pending| && InLine(q)
    ensures var after := AfterGrants(q, grants);
            && FirstServed(q, after, |grants|) && after.reserved == q.reserved + Total(grants)
            && forall i :: 0 <= i < |grants| ==> after.granted[q.pending[i]] == grants[i]
  {
    hide Granting, Total;
    GrantingGives(q.granted, q.pending, grants);
  }

  lemma {:induction false} TotalOfFloors(grants: seq<nat>, floor: nat)
    requires forall i :: 0 <= i < |grants| ==> grants[i] == floor
    ensures Total(grants) == |grants| * floor
  {
    if grants != [] {
      TotalOfFloors(grants[1..], floor);
      SplitProduct(floor, |grants|);
    }
  }

  /** A flush, told from the queue before it. If what is left beyond a minimum for every agent that may still come is
      a floor for each who waits, it is shared out equally; otherwise the first get floors while what is left at all
      lasts. With nothing outstanding and less than a floor left, the first gets what is left if that is a minimum, and
      everyone is refused if it is not. */
  ghost predicate SharedOut(l: Limits, used: nat, phaseAgents: nat, before: Queue, after: Queue)
    requires l.Valid()
  {
    var floor, left := l.tokenBudget / l.maxAgents, l.tokenBudget - used - before.reserved;
    var rest := left - Max(0, l.maxAgents - phaseAgents) * 4_000;
    if before.pending == [] then after == before
    else if rest >= |before.pending| * floor then SharedEqually(before, after, rest)
    else if before.reserved > 0 || left >= floor then FloorsServed(before, after, Max(0, left), floor)
    else if left >= 4_000 then
      && FirstServed(before, after, 1)
      && after.granted[before.pending[0]] == after.reserved == left
    else AllRefused(before, after)
  }

  /** Whoever waits waits once and holds nothing. */
  ghost predicate InLine(q: Queue) {
    && (forall i, j :: 0 <= i < j < |q.pending| ==> q.pending[i] != q.pending[j])
    && (forall i :: 0 <= i < |q.pending| ==> q.pending[i] !in q.granted)
  }

  lemma ApartAreInLine(q: Queue, probing: set<AgentId>)
    requires Apart(q.pending, q.granted.Keys, q.refused, probing)
    ensures InLine(q)
  {
  }

  lemma FlushSharesOut(l: Limits, used: nat, phaseAgents: nat, q: Queue)
    requires l.Valid() && InLine(q)
    ensures SharedOut(l, used, phaseAgents, q, Served(l, used, phaseAgents, q))
  {
    hide FirstServed, Flushed, Total, Granting;
    PerAgentIsEnough(l);
    var k, left := |q.pending|, l.tokenBudget - used - q.reserved;
    var (grants, refused) := Flushed(l, used, q.reserved, phaseAgents, k);
    if !refused { GrantedAreServed(q, grants); }
    if k == 0 {
      NoGrants(q);
    } else if ToShare(l, used, q.reserved, phaseAgents) >= k * l.PerAgent() {
      WaveIsShared(l, used, q.reserved, phaseAgents, k);
    } else {
      ShortageIsServed(l, used, q.reserved, phaseAgents, k);
      if q.reserved > 0 || left >= l.PerAgent() { TotalOfFloors(grants, l.PerAgent()); }
      if grants == [left] { TotalOfFloors(grants, left); }
    }
  }

  function Members(queue: seq<AgentId>): set<AgentId> {
    set i | 0 <= i < |queue| :: queue[i]
  }

  /** Grants handed to the head of a queue, in order. */
  function Granting(granted: map<AgentId, nat>, queue: seq<AgentId>, grants: seq<nat>): map<AgentId, nat>
    requires |grants| <= |queue|
  {
    if grants == [] then granted
    else
      var n := |grants| - 1;
      Granting(granted, queue, grants[..n])[queue[n] := grants[n]]
  }

  lemma SettledStaysApart(
    pending: seq<AgentId>, granted: map<AgentId, nat>, refused: set<AgentId>, probing: set<AgentId>, agent: AgentId)
    requires Apart(pending, granted.Keys, refused, probing) && agent in granted
    ensures Apart(pending, (granted - {agent}).Keys, refused, probing) && |granted - {agent}| == |granted| - 1
  {
    assert (granted - {agent}).Keys == granted.Keys - {agent};
  }

  lemma {:induction false} MembersCount(queue: seq<AgentId>)
    requires forall i, j :: 0 <= i < j < |queue| ==> queue[i] != queue[j]
    ensures |Members(queue)| == |queue|
  {
    if queue != [] {
      var front, last := queue[..|queue| - 1], queue[|queue| - 1];
      MembersCount(front);
      assert forall i :: 0 <= i < |front| ==> front[i] == queue[i];
      assert Members(queue) == Members(front) + {last};
      assert last !in Members(front);
    }
  }

  lemma RefusedCount(queue: seq<AgentId>, refused: set<AgentId>)
    requires forall i, j :: 0 <= i < j < |queue| ==> queue[i] != queue[j]
    requires forall i :: 0 <= i < |queue| ==> queue[i] !in refused
    ensures |refused + Members(queue)| == |refused| + |queue|
  {
    MembersCount(queue);
    assert refused !! Members(queue);
  }
}
