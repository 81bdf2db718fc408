/** Bringing a session's role lease in line with its policy: release and claim in two transactions (registry.ts). */
module Sessions {
  import opened Wrappers
  import opened Texts
  import opened Tables
  import opened Invariants
  import opened Registry
  import opened Store
  import S = Steps

  /** The seat is held by another agent, or by this one under the policy it asked for and not suspended. */
  predicate InLine(t: Tables, seat: Seat, agentId: Text, policy: Text, now: int) {
    && seat in t.leases && t.leases[seat].expiresAt > now
    && (t.leases[seat].owner.id == agentId ==>
          !t.leases[seat].status.Suspended?
          && (t.leases[seat].policyDigest == policy || t.leases[seat].policyDigest == Trim(policy)))
  }

  lemma ReleasedSeat(t: Tables, t2: Tables, seat: Seat, agentId: Text, now: int)
    requires SeatRows(t) && seat in t.leases && ReleaseStep(t, t.leases[seat].id, agentId, now).Ok?
    requires t2 == ReleaseStep(t, t.leases[seat].id, agentId, now).value.0
    ensures seat !in t2.leases
  {
    hide SafeText;
  }

  lemma ClaimedSeat(
    t: Tables, newId: Uuid, agent: Agent, project: Text, role: Text, mode: LeaseMode, policy: Text, now: int, ttl: int)
    requires ClaimStep(t, newId, agent, project, role, mode, policy, now, ttl).Ok?
    ensures RoleName(role).Ok?
    ensures var seat := (project, RoleName(role).value);
            var t2 := ClaimStep(t, newId, agent, project, role, mode, policy, now, ttl).value.0;
            && seat in t2.leases
            && (if seat in Prune(t.leases, now) then t2.leases[seat] == t.leases[seat] && t.leases[seat].expiresAt > now
                else t2.leases[seat].status.Active? && t2.leases[seat].policyDigest == Trim(policy)
                     && t2.leases[seat].expiresAt == now + ttl > now)
  {
    hide RoleName, HasLease, SafeText, HasUnsafeControl, Trim;
  }

  lemma DoneClaim(env: Env, t: Tables, op: S.Op, t2: Tables)
    requires op.OpClaim? && S.Done(env, t, op, t2)
    ensures var step := ClaimStep(t, op.newId, op.agent, op.project, op.role, op.mode, op.policy, op.now, op.ttl);
            step.Ok? && step.value.0 == t2
  {
    hide ClaimStep, Represents;
  }

  lemma DoneRelease(env: Env, t: Tables, op: S.Op, t2: Tables)
    requires op.OpRelease? && S.Done(env, t, op, t2)
    ensures ReleaseStep(t, op.leaseId, op.agentId, op.now).Ok?
            && ReleaseStep(t, op.leaseId, op.agentId, op.now).value.0 == t2
  {
    hide ReleaseStep, Represents;
  }

  /** One session asks for its role: a lease of its own that is suspended or under another policy is released first. */
  method ReconcileSessionLease(
    store: RegistryStore, newId: Uuid, agent: Agent, project: Text, role: Text, mode: LeaseMode, policy: Text,
    now: int, ttl: int)
    returns (r: Result<(), RegistryError>)
    requires store.Valid()
    modifies store
    ensures store.Valid()
    ensures r.Ok? && RoleName(role) == Ok(role) ==> InLine(store.Snapshot(), (project, role), agent.id, policy, now)
  {
    hide Sound, ClaimStep, ReleaseStep, RoleName, S.Done, Fails;
    if !TimeOk(now) { return Err(Invalid); }
    var seat := (project, role);
    SoundParts(store.Snapshot());
    if seat in store.leases && store.leases[seat].owner.id == agent.id && store.leases[seat].expiresAt > now {
      var existing := store.leases[seat];
      if existing.status.Suspended? || existing.policyDigest != policy {
        ghost var before := store.Snapshot();
        var release := S.OpRelease(existing.id, agent.id, now);
        var _ :- store.Transact(release);
        DoneRelease(store.env, before, release, store.Snapshot());
        ReleasedSeat(before, store.Snapshot(), seat, agent.id, now);
      }
    }
    ghost var between := store.Snapshot();
    var claim := S.OpClaim(newId, agent, project, role, mode, policy, now, ttl);
    var _ :- store.Transact(claim);
    DoneClaim(store.env, between, claim, store.Snapshot());
    ClaimedSeat(between, newId, agent, project, role, mode, policy, now, ttl);
    return Ok(());
  }
}
