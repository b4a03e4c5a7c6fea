/** Slot leases: two fixed slot tables per dispatch (one per backend, one
    global), lease files fenced by an owner token, and the reclaim rule that
    consults run records before a stale slot may be taken over. */
module Leases {
  import opened Common
  import opened RunRecords

  const LEASE_TTL_MS := 180000.0
  const LEASE_INIT_GRACE_MS := 15000.0

  datatype SlotKey = SlotKey(scope: string, index: nat)

  /** A parsed lease file. Fields another program may have mangled are optional. */
  datatype Lease = Lease(owner: Option<Process>, acquiredAt: real, renewedAt: Option<real>,
                         ownerToken: string, runId: string)

  /** A slot directory; `lease` is `None` while it holds no readable lease file. */
  datatype Slot = Slot(lease: Option<Lease>, touchedAt: real)

  type Slots = map<SlotKey, Slot>

  /** What a holder keeps in memory. */
  datatype SlotLease = SlotLease(key: SlotKey, ownerToken: string)

  /** The path recorded in a run's `lease_slots`. */
  function SlotPath(key: SlotKey): (path: string) {
    key.scope + "/slot-" + Decimal(key.index)
  }

  /** The runs directory as one scan sees it: `None` is a file that cannot be
      read or parsed. `changed` says the directory moved during a full scan. */
  datatype RunsView = RunsView(files: map<string, Option<RunRecord>>, changed: bool)

  /** Process probes: `matches` proves a live owner, `dead` proves a dead one. */
  datatype Liveness = Liveness(matches: Process -> bool, dead: Process -> bool)

  datatype RunState = Active | TerminalRun | Unbound | Unknown

  predicate HasDotDot(s: string) {
    exists i :: 0 <= i < |s| - 1 && s[i] == '.' && s[i + 1] == '.'
  }

  predicate SafeRunId(id: string) {
    '/' !in id && '\\' !in id && !HasDotDot(id)
  }

  predicate OwnedExactly(run: RunRecord, lease: Lease) {
    lease.owner == Some(run.worker) && run.workerToken != ""
  }

  // ------------------------------------------------------- is a lease in use?

  /** Every run file was read, and no unfinished run names this slot. */
  predicate NoUnfinishedRunNames(key: SlotKey, view: RunsView) {
    forall id :: id in view.files ==>
      && view.files[id].Some? && view.files[id].value.runId == id
      && (SlotPath(key) in view.files[id].value.leaseSlots ==> view.files[id].value.status.Terminal())
  }

  /** The run a lease names is readable, is exactly its owner's, and has ended. */
  predicate NamedRunEnded(key: SlotKey, lease: Lease, view: RunsView) {
    && SafeRunId(lease.runId) && lease.runId in view.files && view.files[lease.runId].Some?
    && var run := view.files[lease.runId].value;
       run.runId == lease.runId && SlotPath(key) in run.leaseSlots && OwnedExactly(run, lease)
       && run.status.Terminal()
  }

  /** No unfinished run can still be relying on this lease. */
  predicate Idle(key: SlotKey, lease: Lease, view: RunsView) {
    if lease.runId == "" then NoUnfinishedRunNames(key, view) && !view.changed
    else NamedRunEnded(key, lease, view)
  }

  /** A bound lease whose run is readable and unfinished is never idle. */
  lemma UnfinishedRunKeepsLease(key: SlotKey, lease: Lease, view: RunsView, run: RunRecord)
    requires run.runId in view.files && view.files[run.runId] == Some(run) && !run.status.Terminal()
    requires lease.runId == run.runId != "" || (lease.runId == "" && SlotPath(key) in run.leaseSlots)
    ensures !Idle(key, lease, view)
  {
  }

  /** Scans the listed run files in order, as an unbound lease requires. */
  method LegacyRunState(key: SlotKey, lease: Lease, names: seq<string>, view: RunsView) returns (state: RunState)
    requires forall id :: id in names <==> id in view.files
    ensures state == Unbound <==> NoUnfinishedRunNames(key, view) && !view.changed
    ensures state != TerminalRun
    ensures state == Active ==> exists id :: && id in view.files && view.files[id].Some?
                                             && view.files[id].value.status == Running
                                             && OwnedExactly(view.files[id].value, lease)
  {
    for i := 0 to |names|
      invariant forall j :: 0 <= j < i ==>
        var file := view.files[names[j]];
        file.Some? && file.value.runId == names[j]
        && (SlotPath(key) in file.value.leaseSlots ==> file.value.status.Terminal())
    {
      assert names[i] in view.files;
      var file := view.files[names[i]];
      if file.None? || file.value.runId != names[i] {
        return Unknown;
      }
      var run := file.value;
      if SlotPath(key) !in run.leaseSlots {
        continue;
      }
      if run.status.Terminal() {
        continue;
      }
      if run.status == Running && OwnedExactly(run, lease) {
        return Active;
      }
      return Unknown;
    }
    if view.changed {
      return Unknown;
    }
    return Unbound;
  }

  method BoundRunState(key: SlotKey, lease: Lease, names: seq<string>, view: RunsView) returns (state: RunState)
    requires forall id :: id in names <==> id in view.files
    ensures state in {TerminalRun, Unbound} <==> Idle(key, lease, view)
  {
    if lease.runId == "" {
      state := LegacyRunState(key, lease, names, view);
      return;
    }
    if !SafeRunId(lease.runId) {
      return Unknown;
    }
    if lease.runId !in view.files || view.files[lease.runId].None? {
      return Unknown;
    }
    var run := view.files[lease.runId].value;
    if run.runId != lease.runId {
      return Unknown;
    }
    if SlotPath(key) !in run.leaseSlots || !OwnedExactly(run, lease) {
      return Unknown;
    }
    if run.status == Running {
      return Active;
    }
    if run.status.Terminal() {
      return TerminalRun;
    }
    return Unknown;
  }

  // ------------------------------------------------------------ reclaim, acquire

  /** What an attempt on one slot meets: nothing, an inaccessible directory, a
      reclaim that broke off, or a lease file that could not be written. */
  datatype Leftover = Untouched | Emptied | Vanished

  datatype Fault = NoFault | Inaccessible | ReclaimFails(left: Leftover) | InitFails(removed: bool, written: bool)

  datatype Env = Env(me: Process, now: real, view: RunsView, live: Liveness, faults: SlotKey -> Fault)

  predicate Young(since: real, now: real, limitMs: real) {
    (now - since) * 1000.0 < limitMs
  }

  /** A stale lease may be taken over: its owner is not known alive, no run
      relies on it, and the owner is dead or the lease has expired. A slot
      without a lease only has to outlive the initialisation grace. */
  predicate Reclaimable(key: SlotKey, slot: Slot, env: Env) {
    match slot.lease
    case None => !Young(slot.touchedAt, env.now, LEASE_INIT_GRACE_MS)
    case Some(lease) =>
      && !(lease.owner.Some? && env.live.matches(lease.owner.value))
      && Idle(key, lease, env.view)
      && ((lease.owner.Some? && env.live.dead(lease.owner.value))
          || lease.renewedAt.None?
          || !Young(lease.renewedAt.value, env.now, LEASE_TTL_MS))
  }

  predicate Usable(slots: Slots, key: SlotKey, env: Env) {
    key !in slots || Reclaimable(key, slots[key], env)
  }

  /** The attempt on this slot would install a lease. */
  predicate Servable(slots: Slots, key: SlotKey, env: Env) {
    Usable(slots, key, env)
    && (env.faults(key) == NoFault || (env.faults(key).ReclaimFails? && key !in slots))
  }

  function NewLease(env: Env, token: string): Lease {
    Lease(Some(env.me), env.now, Some(env.now), token, "")
  }

  function NewSlot(env: Env, token: string): Slot {
    Slot(Some(NewLease(env, token)), env.now)
  }

  function Left(slots: Slots, key: SlotKey, left: Leftover, now: real): Slots {
    match left
    case Untouched => slots
    case Emptied => slots[key := Slot(None, now)]
    case Vanished => slots - {key}
  }

  datatype Attempt = Taken(lease: SlotLease) | Full | Broken(clean: bool)

  /** One scope, tried from slot `i` upwards. */
  function Attempted(slots: Slots, scope: string, i: nat, max: nat, env: Env, token: string): (Slots, Attempt)
    decreases max - i
  {
    if i >= max then (slots, Full)
    else
      var key := SlotKey(scope, i);
      if Servable(slots, key, env) then (slots[key := NewSlot(env, token)], Taken(SlotLease(key, token)))
      else if !Usable(slots, key, env) then Attempted(slots, scope, i + 1, max, env, token)
      else match env.faults(key)
        case ReclaimFails(left) => Attempted(Left(slots, key, left, env.now), scope, i + 1, max, env, token)
        case InitFails(removed, written) =>
          (if removed then slots - {key}
           else slots[key := Slot(if written then Some(NewLease(env, token)) else None, env.now)], Broken(removed))
        case _ => Attempted(slots, scope, i + 1, max, env, token)
  }

  predicate Holds(slots: Slots, key: SlotKey, token: string) {
    key in slots && slots[key].lease.Some? && slots[key].lease.value.ownerToken == token
  }

  ghost predicate TokenNowhere(slots: Slots, token: string) {
    forall key :: key in slots ==> !Holds(slots, key, token)
  }

  ghost predicate InRange(key: SlotKey, scope: string, i: nat, max: nat) {
    key.scope == scope && i <= key.index < max
  }

  /** Leases this attempt may not take are exactly as they were. */
  ghost predicate OthersUntouched(before: Slots, after: Slots, scope: string, i: nat, max: nat, env: Env) {
    forall key :: key in before && !(InRange(key, scope, i, max) && Reclaimable(key, before[key], env)) ==>
      key in after && after[key] == before[key]
  }

  /** An attempt on a scope takes the lowest slot it can serve, installs its one
      fresh token there and nowhere else, leaves every lease it may not reclaim
      alone, and reports the scope full only when no slot could be served. */
  lemma {:induction false} AttemptTakesLowest(slots: Slots, scope: string, i: nat, max: nat, env: Env, token: string)
    requires TokenNowhere(slots, token)
    ensures var (after, attempt) := Attempted(slots, scope, i, max, env, token);
      && OthersUntouched(slots, after, scope, i, max, env)
      && (forall key :: key in after && !InRange(key, scope, i, max) ==> key in slots)
      && (attempt.Taken? ==>
            var key := attempt.lease.key;
            && attempt.lease.ownerToken == token
            && InRange(key, scope, i, max) && Servable(slots, key, env)
            && key in after && after[key] == NewSlot(env, token)
            && (forall other :: other in after && other != key ==> !Holds(after, other, token))
            && (forall j :: i <= j < key.index ==> !Servable(slots, SlotKey(scope, j), env)))
      && (attempt.Full? ==> forall j :: i <= j < max ==> !Servable(slots, SlotKey(scope, j), env))
      && (attempt == Full || attempt == Broken(true) ==> TokenNowhere(after, token))
      && (attempt.Broken? ==> exists j :: i <= j < max && env.faults(SlotKey(scope, j)).InitFails?)
    decreases max - i
  {
    if i < max {
      var key := SlotKey(scope, i);
      var fault := env.faults(key);
      if Servable(slots, key, env) {
      } else if Usable(slots, key, env) && fault.InitFails? {
      } else {
        var rest := if Usable(slots, key, env) && fault.ReclaimFails? then Left(slots, key, fault.left, env.now) else slots;
        AttemptTakesLowest(rest, scope, i + 1, max, env, token);
        assert forall j :: i + 1 <= j < max ==>
          Servable(rest, SlotKey(scope, j), env) == Servable(slots, SlotKey(scope, j), env);
        var (after, attempt) := Attempted(rest, scope, i + 1, max, env, token);
        forall k | k in slots && !(InRange(k, scope, i, max) && Reclaimable(k, slots[k], env))
          ensures k in after && after[k] == slots[k]
        {
          assert k in rest && rest[k] == slots[k];
        }
      }
    }
  }

  // -------------------------------------------------- a holder's own operations

  predicate BindAllowed(slots: Slots, lease: SlotLease, runId: string) {
    runId != "" && SafeRunId(runId) && Holds(slots, lease.key, lease.ownerToken)
  }

  function Bound(slots: Slots, lease: SlotLease, runId: string): Slots {
    if BindAllowed(slots, lease, runId)
    then slots[lease.key := slots[lease.key].(lease := Some(slots[lease.key].lease.value.(runId := runId)))]
    else slots
  }

  function Renewed(slots: Slots, lease: SlotLease, me: Process, now: real): Slots {
    if Holds(slots, lease.key, lease.ownerToken)
    then slots[lease.key := slots[lease.key].(
           lease := Some(slots[lease.key].lease.value.(owner := Some(me), renewedAt := Some(now))))]
    else slots
  }

  datatype ReleaseFault = Tidy | ExtraFiles | RemovalFails

  predicate ReleaseSucceeds(slots: Slots, lease: SlotLease, fault: ReleaseFault) {
    Holds(slots, lease.key, lease.ownerToken) && fault == Tidy
  }

  function Released(slots: Slots, lease: SlotLease, fault: ReleaseFault, now: real): Slots {
    if !Holds(slots, lease.key, lease.ownerToken) || fault == ExtraFiles then slots
    else if fault == RemovalFails then slots[lease.key := Slot(None, now)]
    else slots - {lease.key}
  }

  /** Everything any process can do to the tables. */
  datatype Action =
    | TryScope(scope: string, max: nat, env: Env, token: string)
    | Bind(lease: SlotLease, runId: string)
    | Renew(lease: SlotLease, me: Process, now: real)
    | Release(lease: SlotLease, fault: ReleaseFault, now: real)

  function Performed(slots: Slots, action: Action): Slots {
    match action
    case TryScope(scope, max, env, token) => Attempted(slots, scope, 0, max, env, token).0
    case Bind(lease, runId) => Bound(slots, lease, runId)
    case Renew(lease, me, now) => Renewed(slots, lease, me, now)
    case Release(lease, fault, now) => Released(slots, lease, fault, now)
  }

  function PerformedAll(slots: Slots, actions: seq<Action>): Slots
    decreases |actions|
  {
    if actions == [] then slots else PerformedAll(Performed(slots, actions[0]), actions[1..])
  }

  /** Owner tokens are random: no acquisition ever draws this one again. */
  ghost predicate NeverDrawn(actions: seq<Action>, token: string) {
    forall i :: 0 <= i < |actions| && actions[i].TryScope? ==> actions[i].token != token
  }

  lemma {:induction false} AttemptInstallsOnlyItsToken(
    slots: Slots, scope: string, i: nat, max: nat, env: Env, token: string, key: SlotKey, other: string)
    requires other != token && !Holds(slots, key, other)
    ensures !Holds(Attempted(slots, scope, i, max, env, token).0, key, other)
    decreases max - i
  {
    if i < max {
      var at := SlotKey(scope, i);
      if !Servable(slots, at, env) && Usable(slots, at, env) && env.faults(at).ReclaimFails? {
        AttemptInstallsOnlyItsToken(Left(slots, at, env.faults(at).left, env.now), scope, i + 1, max, env, token, key, other);
      } else {
        AttemptInstallsOnlyItsToken(slots, scope, i + 1, max, env, token, key, other);
      }
    }
  }

  /** Fencing: once a slot no longer carries a holder's token, then after
      anything any processes do, that holder's bind and renew are rejected, its
      release fails, and none of the three changes a table entry. */
  lemma {:induction false} DisplacedHolderIsFenced(
    slots: Slots, actions: seq<Action>, lease: SlotLease, runId: string, me: Process, fault: ReleaseFault, now: real)
    requires !Holds(slots, lease.key, lease.ownerToken) && NeverDrawn(actions, lease.ownerToken)
    ensures var later := PerformedAll(slots, actions);
      && !BindAllowed(later, lease, runId) && Bound(later, lease, runId) == later
      && !Holds(later, lease.key, lease.ownerToken) && Renewed(later, lease, me, now) == later
      && !ReleaseSucceeds(later, lease, fault) && Released(later, lease, fault, now) == later
    decreases |actions|
  {
    if actions != [] {
      var action := actions[0];
      if action.TryScope? {
        AttemptInstallsOnlyItsToken(slots, action.scope, 0, action.max, action.env, action.token, lease.key, lease.ownerToken);
      }
      DisplacedHolderIsFenced(Performed(slots, action), actions[1..], lease, runId, me, fault, now);
    }
  }

  /** A process that finds the owner alive, or can read the bound run as
      unfinished; and a holder that keeps its binding and does not release. */
  ghost predicate Respects(action: Action, holder: SlotLease, owner: Process, runId: string) {
    match action
    case TryScope(_, _, env, token) =>
      && token != holder.ownerToken
      && (|| env.live.matches(owner)
          || (runId != "" && runId in env.view.files && env.view.files[runId].Some?
              && env.view.files[runId].value.runId == runId && !env.view.files[runId].value.status.Terminal()))
    case Bind(lease, id) => lease == holder ==> id == runId
    case Renew(lease, me, _) => lease == holder ==> me == owner
    case Release(lease, _, _) => lease != holder
  }

  /** Protection: a lease stays with its holder through everything other
      processes do, as long as each of them either finds its owner alive or can
      read its run as unfinished. Only the holder's own release ends it. */
  lemma {:induction false} ProtectedLeaseSurvives(
    slots: Slots, actions: seq<Action>, holder: SlotLease, owner: Process, runId: string)
    requires Holds(slots, holder.key, holder.ownerToken)
    requires slots[holder.key].lease.value.runId == runId && slots[holder.key].lease.value.owner == Some(owner)
    requires forall i :: 0 <= i < |actions| ==> Respects(actions[i], holder, owner, runId)
    ensures Holds(PerformedAll(slots, actions), holder.key, holder.ownerToken)
    decreases |actions|
  {
    if actions != [] {
      var action := actions[0];
      assert Respects(action, holder, owner, runId);
      if action.TryScope? {
        AttemptSparesProtected(slots, action.scope, 0, action.max, action.env, action.token, holder.key);
      }
      ProtectedLeaseSurvives(Performed(slots, action), actions[1..], holder, owner, runId);
    }
  }

  lemma {:induction false} AttemptSparesProtected(
    slots: Slots, scope: string, i: nat, max: nat, env: Env, token: string, key: SlotKey)
    requires key in slots && !Reclaimable(key, slots[key], env)
    ensures var after := Attempted(slots, scope, i, max, env, token).0; key in after && after[key] == slots[key]
    decreases max - i
  {
    if i < max {
      var at := SlotKey(scope, i);
      if !Servable(slots, at, env) && Usable(slots, at, env) && env.faults(at).ReclaimFails? {
        AttemptSparesProtected(Left(slots, at, env.faults(at).left, env.now), scope, i + 1, max, env, token, key);
      } else {
        AttemptSparesProtected(slots, scope, i + 1, max, env, token, key);
      }
    }
  }

  lemma {:induction false} AttemptSparesOtherScopes(
    slots: Slots, scope: string, i: nat, max: nat, env: Env, token: string, key: SlotKey)
    requires key in slots && key.scope != scope
    ensures var after := Attempted(slots, scope, i, max, env, token).0; key in after && after[key] == slots[key]
    decreases max - i
  {
    if i < max {
      var at := SlotKey(scope, i);
      if !Servable(slots, at, env) && Usable(slots, at, env) && env.faults(at).ReclaimFails? {
        AttemptSparesOtherScopes(Left(slots, at, env.faults(at).left, env.now), scope, i + 1, max, env, token, key);
      } else {
        AttemptSparesOtherScopes(slots, scope, i + 1, max, env, token, key);
      }
    }
  }
}
