/** What a holder can rely on and what others can count on, in clock readings:
    when a lease keeps its slot, and when the next acquisition takes it. */
module SlotReclaim {
  import opened Common
  import opened RunRecords
  import opened Leases
  import opened SlotManagers

  predicate Ended(r: RunRecord) {
    r.status in {Completed, Failed, Timeout, Cancelled}
  }

  /** No unfinished run can be relying on the lease: an unbound one is named by no
      unfinished run of a directory that was read completely and did not change; a
      bound one names a readable run that is exactly its owner's and has ended. */
  predicate NoRunRelies(key: SlotKey, lease: Lease, view: RunsView) {
    if lease.runId == "" then
      && !view.changed
      && forall id :: id in view.files ==>
           && view.files[id].Some? && view.files[id].value.runId == id
           && (SlotPath(key) in view.files[id].value.leaseSlots ==> Ended(view.files[id].value))
    else
      && '/' !in lease.runId && '\\' !in lease.runId
      && (forall i :: 0 < i < |lease.runId| ==> lease.runId[i] != '.' || lease.runId[i - 1] != '.')
      && lease.runId in view.files && view.files[lease.runId].Some?
      && var run := view.files[lease.runId].value;
         && run.runId == lease.runId && SlotPath(key) in run.leaseSlots
         && lease.owner == Some(run.worker) && run.workerToken != "" && Ended(run)
  }

  predicate OwnerAlive(lease: Lease, live: Liveness) {
    lease.owner.Some? && live.matches(lease.owner.value)
  }

  predicate OwnerDead(lease: Lease, live: Liveness) {
    lease.owner.Some? && live.dead(lease.owner.value)
  }

  lemma RelianceIsIdleness(key: SlotKey, lease: Lease, view: RunsView)
    ensures Idle(key, lease, view) <==> NoRunRelies(key, lease, view)
  {
    if lease.runId != "" {
      if HasDotDot(lease.runId) {
        var i :| 0 <= i < |lease.runId| - 1 && lease.runId[i] == '.' && lease.runId[i + 1] == '.';
        assert lease.runId[i + 1] == '.' && lease.runId[i + 1 - 1] == '.';
      }
    }
  }

  /** Exactly when an existing slot may be taken over: a slot without a lease from
      15 seconds on; a lease that no run relies on and whose owner is not alive, if
      the owner is dead or the last renewal is 180 seconds ago or unreadable. */
  lemma ReclaimedExactlyWhen(key: SlotKey, slot: Slot, env: Env)
    ensures slot.lease.None? ==> (Reclaimable(key, slot, env) <==> env.now - slot.touchedAt >= 15.0)
    ensures slot.lease.Some? ==>
      var lease := slot.lease.value;
      (Reclaimable(key, slot, env) <==>
        && !OwnerAlive(lease, env.live) && NoRunRelies(key, lease, env.view)
        && (OwnerDead(lease, env.live) || lease.renewedAt.None? || env.now - lease.renewedAt.value >= 180.0))
  {
    if slot.lease.Some? {
      RelianceIsIdleness(key, slot.lease.value, env.view);
    }
  }

  // ------------------------------------------------------- what keeps its slot

  /** A lease renewed less than 180 seconds ago whose owner is not known dead, a
      lease whose owner is alive, a lease that a run may rely on, and a slot still
      waiting for its lease after less than 15 seconds. */
  predicate Stays(key: SlotKey, slot: Slot, env: Env) {
    match slot.lease
    case None => env.now - slot.touchedAt < 15.0
    case Some(lease) =>
      || (lease.renewedAt.Some? && env.now - lease.renewedAt.value < 180.0 && !OwnerDead(lease, env.live))
      || OwnerAlive(lease, env.live)
      || !NoRunRelies(key, lease, env.view)
  }

  /** Whatever scope and slots an attempt tries, and whatever faults it meets, it
      leaves these alone. */
  lemma FreshSlotsStay(slots: Slots, scope: string, max: nat, env: Env, token: string, key: SlotKey)
    requires key in slots && Stays(key, slots[key], env)
    ensures var after := Attempted(slots, scope, 0, max, env, token).0; key in after && after[key] == slots[key]
  {
    ReclaimedExactlyWhen(key, slots[key], env);
    AttemptSparesProtected(slots, scope, 0, max, env, token, key);
  }

  // ----------------------------------------------------------- what loses its slot

  /** The lower slots of the scope stay with their holders. */
  ghost predicate LowerSlotsStay(slots: Slots, key: SlotKey, env: Env) {
    forall j :: 0 <= j < key.index ==> SlotKey(key.scope, j) in slots && Stays(SlotKey(key.scope, j), slots[SlotKey(key.scope, j)], env)
  }

  lemma {:induction false} LowestIsTaken(slots: Slots, key: SlotKey, i: nat, max: nat, env: Env, token: string)
    requires i <= key.index < max && env.faults(key) == NoFault && LowerSlotsStay(slots, key, env)
    requires key !in slots || Reclaimable(key, slots[key], env)
    ensures Attempted(slots, key.scope, i, max, env, token)
         == (slots[key := Slot(Some(Lease(Some(env.me), env.now, Some(env.now), token, "")), env.now)],
             Taken(SlotLease(key, token)))
    decreases key.index - i
  {
    if i < key.index {
      var lower := SlotKey(key.scope, i);
      ReclaimedExactlyWhen(lower, slots[lower], env);
      LowestIsTaken(slots, key, i + 1, max, env, token);
    }
  }

  /** A lease that no run relies on, and whose owner is neither alive nor dead, is
      taken from 180 seconds after its last renewal on; at any age if its owner is
      dead. The new lease is the taker's, unbound and stamped with its clock. */
  lemma StaleLeaseIsTaken(slots: Slots, key: SlotKey, max: nat, env: Env, token: string)
    requires key.index < max && env.faults(key) == NoFault && LowerSlotsStay(slots, key, env)
    requires key in slots && slots[key].lease.Some?
    requires var lease := slots[key].lease.value;
      && !OwnerAlive(lease, env.live) && NoRunRelies(key, lease, env.view)
      && (OwnerDead(lease, env.live) || (lease.renewedAt.Some? ==> env.now - lease.renewedAt.value >= 180.0))
    ensures Attempted(slots, key.scope, 0, max, env, token)
         == (slots[key := Slot(Some(Lease(Some(env.me), env.now, Some(env.now), token, "")), env.now)],
             Taken(SlotLease(key, token)))
  {
    ReclaimedExactlyWhen(key, slots[key], env);
    LowestIsTaken(slots, key, 0, max, env, token);
  }

  /** A slot that has waited 15 seconds for its lease, or is not there, is taken. */
  lemma EmptySlotIsTaken(slots: Slots, key: SlotKey, max: nat, env: Env, token: string)
    requires key.index < max && env.faults(key) == NoFault && LowerSlotsStay(slots, key, env)
    requires key in slots ==> slots[key].lease.None? && env.now - slots[key].touchedAt >= 15.0
    ensures Attempted(slots, key.scope, 0, max, env, token)
         == (slots[key := Slot(Some(Lease(Some(env.me), env.now, Some(env.now), token, "")), env.now)],
             Taken(SlotLease(key, token)))
  {
    if key in slots {
      ReclaimedExactlyWhen(key, slots[key], env);
    }
    LowestIsTaken(slots, key, 0, max, env, token);
  }

  /** A holder that stops renewing loses its slot: as soon as 180 seconds have gone
      by, an acquisition that finds the holder's slot the first stale one, and room
      in the global scope, gets that slot, and the old holder is displaced. */
  lemma SilentHolderLosesItsSlot(slots: Slots, holder: SlotLease, backend: string, maxPerBackend: nat, maxGlobal: nat,
      env: Env, tokens: (string, string), undo: ReleaseFault)
    requires holder.key.scope == BackendScope(backend) && holder.key.index < maxPerBackend && 0 < maxGlobal
    requires Holds(slots, holder.key, holder.ownerToken) && tokens.0 != holder.ownerToken
    requires var lease := slots[holder.key].lease.value;
      && !OwnerAlive(lease, env.live) && NoRunRelies(holder.key, lease, env.view)
      && lease.renewedAt.Some? && env.now - lease.renewedAt.value >= 180.0
    requires LowerSlotsStay(slots, holder.key, env)
    requires env.faults(holder.key) == NoFault && env.faults(SlotKey("global", 0)) == NoFault
    requires SlotKey("global", 0) !in slots
    ensures var (after, got) := Acquired(slots, backend, maxPerBackend, maxGlobal, env, tokens, undo);
      && got == Granted(SlotLease(holder.key, tokens.0), SlotLease(SlotKey("global", 0), tokens.1))
      && Holds(after, holder.key, tokens.0) && !Holds(after, holder.key, holder.ownerToken)
  {
    StaleLeaseIsTaken(slots, holder.key, maxPerBackend, env, tokens.0);
    var first := Attempted(slots, holder.key.scope, 0, maxPerBackend, env, tokens.0).0;
    EmptySlotIsTaken(first, SlotKey("global", 0), maxGlobal, env, tokens.1);
  }

  // ----------------------------------------------------------- when nothing is taken

  lemma {:induction false} FullScopeIsLeftAlone(slots: Slots, scope: string, i: nat, max: nat, env: Env, token: string)
    requires forall j :: i <= j < max ==> SlotKey(scope, j) in slots && Stays(SlotKey(scope, j), slots[SlotKey(scope, j)], env)
    ensures Attempted(slots, scope, i, max, env, token) == (slots, Full)
    decreases max - i
  {
    if i < max {
      ReclaimedExactlyWhen(SlotKey(scope, i), slots[SlotKey(scope, i)], env);
      FullScopeIsLeftAlone(slots, scope, i + 1, max, env, token);
    }
  }

  /** When all slots of the backend stay with their holders, that is what an
      acquisition says, and it changes nothing. */
  lemma FullBackendIsDenied(slots: Slots, backend: string, maxPerBackend: nat, maxGlobal: nat, env: Env,
      tokens: (string, string), undo: ReleaseFault)
    requires forall j :: 0 <= j < maxPerBackend ==>
      var key := SlotKey(BackendScope(backend), j); key in slots && Stays(key, slots[key], env)
    ensures Acquired(slots, backend, maxPerBackend, maxGlobal, env, tokens, undo) == (slots, Denied(NoBackendSlot))
  {
    FullScopeIsLeftAlone(slots, BackendScope(backend), 0, maxPerBackend, env, tokens.0);
  }

  /** When only the global slots do, the backend slot it took is gone again. */
  lemma FullGlobalIsDenied(slots: Slots, backend: string, index: nat, maxPerBackend: nat, maxGlobal: nat, env: Env,
      tokens: (string, string))
    requires var key := SlotKey(BackendScope(backend), index);
      key !in slots && index < maxPerBackend && env.faults(key) == NoFault && LowerSlotsStay(slots, key, env)
    requires forall j :: 0 <= j < maxGlobal ==>
      var key := SlotKey("global", j); key in slots && Stays(key, slots[key], env)
    ensures Acquired(slots, backend, maxPerBackend, maxGlobal, env, tokens, Tidy) == (slots, Denied(NoGlobalSlot))
  {
    var key := SlotKey(BackendScope(backend), index);
    EmptySlotIsTaken(slots, key, maxPerBackend, env, tokens.0);
    var first := Attempted(slots, key.scope, 0, maxPerBackend, env, tokens.0).0;
    FullScopeIsLeftAlone(first, "global", 0, maxGlobal, env, tokens.1);
    assert first - {key} == slots;
  }

  /** A lease file that cannot be written ends the acquisition there and then: no
      higher slot is tried, and what is said about the clean-up is what happened. */
  lemma FailedInstallationStops(slots: Slots, key: SlotKey, max: nat, env: Env, token: string)
    requires key.index < max && key !in slots && env.faults(key).InitFails? && LowerSlotsStay(slots, key, env)
    ensures var (after, attempt) := Attempted(slots, key.scope, 0, max, env, token);
      && attempt == Broken(env.faults(key).removed)
      && (if env.faults(key).removed then after == slots else key in after && after == slots[key := after[key]])
  {
    InstallationStops(slots, key, 0, max, env, token);
  }

  lemma {:induction false} InstallationStops(slots: Slots, key: SlotKey, i: nat, max: nat, env: Env, token: string)
    requires i <= key.index < max && key !in slots && env.faults(key).InitFails? && LowerSlotsStay(slots, key, env)
    ensures var (after, attempt) := Attempted(slots, key.scope, i, max, env, token);
      && attempt == Broken(env.faults(key).removed)
      && (if env.faults(key).removed then after == slots else key in after && after == slots[key := after[key]])
    decreases key.index - i
  {
    if i < key.index {
      var lower := SlotKey(key.scope, i);
      ReclaimedExactlyWhen(lower, slots[lower], env);
      InstallationStops(slots, key, i + 1, max, env, token);
    } else {
      assert slots - {key} == slots;
    }
  }

  /** Backends compete for slots under their names: a name without path separators
      has a scope of its own, and the empty name has that of `auto`. */
  lemma ScopesAreNames(backend: string)
    ensures backend != "" && '/' !in backend && '\\' !in backend ==> BackendScope(backend) == "backend-" + backend
    ensures BackendScope("") == "backend-auto"
  {
    if backend != "" && '/' !in backend && '\\' !in backend {
      var key := seq(|backend|, i requires 0 <= i < |backend| => ScopeChar(backend[i]));
      assert forall i :: 0 <= i < |backend| ==> backend[i] in backend;
      assert key == backend;
    }
  }

  // ------------------------------------------------------- a holder that renews

  /** In this history the holder renews so often that no attempt falls 180 seconds
      or more after its last renewal; it releases nothing, its process is never
      found dead, and nobody draws its token again. */
  ghost predicate RenewsInTime(actions: seq<Action>, holder: SlotLease, owner: Process, renewedAt: real)
    decreases |actions|
  {
    actions != [] ==>
      match actions[0]
      case TryScope(_, _, env, token) =>
        && env.now - renewedAt < 180.0 && !env.live.dead(owner) && token != holder.ownerToken
        && RenewsInTime(actions[1..], holder, owner, renewedAt)
      case Renew(lease, me, now) =>
        if lease == holder then me == owner && RenewsInTime(actions[1..], holder, owner, now)
        else RenewsInTime(actions[1..], holder, owner, renewedAt)
      case Release(lease, _, _) => lease != holder && RenewsInTime(actions[1..], holder, owner, renewedAt)
      case Bind(_, _) => RenewsInTime(actions[1..], holder, owner, renewedAt)
  }

  ghost predicate HeldSince(slots: Slots, holder: SlotLease, owner: Process, renewedAt: real) {
    && Holds(slots, holder.key, holder.ownerToken)
    && slots[holder.key].lease.value.owner == Some(owner) && slots[holder.key].lease.value.renewedAt == Some(renewedAt)
  }

  /** Such a holder keeps its slot through everything anyone does. */
  lemma {:induction false} RenewingHolderKeepsItsSlot(slots: Slots, actions: seq<Action>, holder: SlotLease, owner: Process,
      renewedAt: real)
    requires HeldSince(slots, holder, owner, renewedAt) && RenewsInTime(actions, holder, owner, renewedAt)
    ensures Holds(PerformedAll(slots, actions), holder.key, holder.ownerToken)
    decreases |actions|
  {
    if actions != [] {
      var next := Performed(slots, actions[0]);
      match actions[0] {
        case TryScope(scope, max, env, token) =>
          FreshSlotsStay(slots, scope, max, env, token, holder.key);
          RenewingHolderKeepsItsSlot(next, actions[1..], holder, owner, renewedAt);
        case Renew(lease, me, now) =>
          RenewingHolderKeepsItsSlot(next, actions[1..], holder, owner, if lease == holder then now else renewedAt);
        case Release(_, _, _) => RenewingHolderKeepsItsSlot(next, actions[1..], holder, owner, renewedAt);
        case Bind(_, _) => RenewingHolderKeepsItsSlot(next, actions[1..], holder, owner, renewedAt);
      }
    }
  }
}
