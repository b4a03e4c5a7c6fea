/** The slot manager: the two lock directories and the operations on them, each
    slot access one step under that slot's lock. */
module SlotManagers {
  import opened Common
  import opened RunRecords
  import opened Leases

  function ScopeChar(c: char): char {
    if c == '/' || c == '\\' then '_' else c
  }

  function BackendScope(backend: string): (scope: string)
    ensures scope != GLOBAL_SCOPE
  {
    var key := seq(|backend|, i requires 0 <= i < |backend| => ScopeChar(backend[i]));
    "backend-" + if key == "" then "auto" else key
  }

  const GLOBAL_SCOPE := "global"

  datatype Refused = NoBackendSlot | NoGlobalSlot | Faulted(clean: bool)

  datatype Acquisition = Granted(backend: SlotLease, global: SlotLease) | Denied(why: Refused)

  /** The two phases: the backend slot first, then the global one, giving the
      backend slot back when the second phase does not succeed. */
  function Acquired(slots: Slots, backend: string, maxPerBackend: nat, maxGlobal: nat,
                    env: Env, tokens: (string, string), undo: ReleaseFault): (Slots, Acquisition)
  {
    var (first, one) := Attempted(slots, BackendScope(backend), 0, maxPerBackend, env, tokens.0);
    match one
    case Full => (first, Denied(NoBackendSlot))
    case Broken(clean) => (first, Denied(Faulted(clean)))
    case Taken(backendLease) =>
      var (second, two) := Attempted(first, GLOBAL_SCOPE, 0, maxGlobal, env, tokens.1);
      var undone := Released(second, backendLease, undo, env.now);
      match two
      case Taken(globalLease) => (second, Granted(backendLease, globalLease))
      case Full => (undone, Denied(if undo == Tidy then NoGlobalSlot else Faulted(false)))
      case Broken(clean) => (undone, Denied(Faulted(clean && undo == Tidy)))
  }

  predicate FaultFree(env: Env, backend: string, maxPerBackend: nat, maxGlobal: nat, undo: ReleaseFault) {
    && undo == Tidy
    && (forall i :: 0 <= i < maxPerBackend ==> env.faults(SlotKey(BackendScope(backend), i)) == NoFault)
    && (forall i :: 0 <= i < maxGlobal ==> env.faults(SlotKey(GLOBAL_SCOPE, i)) == NoFault)
  }

  ghost predicate LowestServable(slots: Slots, key: SlotKey, scope: string, max: nat, env: Env) {
    && key.scope == scope && key.index < max && Servable(slots, key, env)
    && forall j :: 0 <= j < key.index ==> !Servable(slots, SlotKey(scope, j), env)
  }

  ghost predicate NoneServable(slots: Slots, scope: string, max: nat, env: Env) {
    forall j :: 0 <= j < max ==> !Servable(slots, SlotKey(scope, j), env)
  }

  /** Fresh tokens, distinct from each other and from every token in use. */
  ghost predicate FreshTokens(slots: Slots, tokens: (string, string)) {
    tokens.0 != tokens.1 && TokenNowhere(slots, tokens.0) && TokenNowhere(slots, tokens.1)
  }

  /** Success: one fresh token in the lowest servable slot of each scope, and
      neither token anywhere else. */
  ghost predicate GrantedExactly(before: Slots, after: Slots, got: Acquisition, backend: string,
                                 maxPerBackend: nat, maxGlobal: nat, env: Env, tokens: (string, string))
    requires got.Granted?
  {
    && LowestServable(before, got.backend.key, BackendScope(backend), maxPerBackend, env)
    && LowestServable(before, got.global.key, GLOBAL_SCOPE, maxGlobal, env)
    && got.backend.ownerToken == tokens.0 && got.global.ownerToken == tokens.1
    && got.backend.key in after && after[got.backend.key] == NewSlot(env, tokens.0)
    && got.global.key in after && after[got.global.key] == NewSlot(env, tokens.1)
    && (forall key :: Holds(after, key, tokens.0) ==> key == got.backend.key)
    && (forall key :: Holds(after, key, tokens.1) ==> key == got.global.key)
  }

  ghost predicate SparesProtected(before: Slots, after: Slots, env: Env) {
    forall key :: key in before && !Reclaimable(key, before[key], env) ==> key in after && after[key] == before[key]
  }

  /** The second phase neither moves the first phase's token nor touches what
      neither phase may reclaim. */
  lemma SecondPhase(slots: Slots, first: Slots, lease: SlotLease, maxGlobal: nat, env: Env, tokens: (string, string))
    requires tokens.0 != tokens.1 && lease.ownerToken == tokens.0 && lease.key.scope != GLOBAL_SCOPE
    requires Holds(first, lease.key, tokens.0)
    requires forall other :: other in first && other != lease.key ==> !Holds(first, other, tokens.0)
    requires TokenNowhere(first, tokens.1)
    requires SparesProtected(slots, first, env)
    ensures var second := Attempted(first, GLOBAL_SCOPE, 0, maxGlobal, env, tokens.1).0;
      && lease.key in second && second[lease.key] == first[lease.key]
      && (forall key :: Holds(second, key, tokens.0) ==> key == lease.key)
      && SparesProtected(slots, second, env)
  {
    AttemptTakesLowest(first, GLOBAL_SCOPE, 0, maxGlobal, env, tokens.1);
    var second := Attempted(first, GLOBAL_SCOPE, 0, maxGlobal, env, tokens.1).0;
    forall key | key in second && key != lease.key ensures !Holds(second, key, tokens.0) {
      AttemptInstallsOnlyItsToken(first, GLOBAL_SCOPE, 0, maxGlobal, env, tokens.1, key, tokens.0);
    }
  }

  /** What the first phase alone guarantees. */
  lemma FirstPhase(slots: Slots, scope: string, max: nat, env: Env, tokens: (string, string))
    requires FreshTokens(slots, tokens)
    ensures var (first, one) := Attempted(slots, scope, 0, max, env, tokens.0);
      TokenNowhere(first, tokens.1) && SparesProtected(slots, first, env)
  {
    AttemptTakesLowest(slots, scope, 0, max, env, tokens.0);
    var first := Attempted(slots, scope, 0, max, env, tokens.0).0;
    forall key | key in first ensures !Holds(first, key, tokens.1) {
      AttemptInstallsOnlyItsToken(slots, scope, 0, max, env, tokens.0, key, tokens.1);
    }
  }

  lemma GrantsExactly(slots: Slots, backend: string, maxPerBackend: nat, maxGlobal: nat,
                      env: Env, tokens: (string, string), undo: ReleaseFault)
    requires FreshTokens(slots, tokens)
    ensures var (after, got) := Acquired(slots, backend, maxPerBackend, maxGlobal, env, tokens, undo);
      got.Granted? ==> GrantedExactly(slots, after, got, backend, maxPerBackend, maxGlobal, env, tokens)
  {
    var scope := BackendScope(backend);
    FirstPhase(slots, scope, maxPerBackend, env, tokens);
    AttemptTakesLowest(slots, scope, 0, maxPerBackend, env, tokens.0);
    var (first, one) := Attempted(slots, scope, 0, maxPerBackend, env, tokens.0);
    if one.Taken? {
      GlobalSlotsUnmoved(slots, first, scope, one.lease.key, maxGlobal, env);
      SecondPhase(slots, first, one.lease, maxGlobal, env, tokens);
      AttemptTakesLowest(first, GLOBAL_SCOPE, 0, maxGlobal, env, tokens.1);
    }
  }

  /** Taking a backend slot changes no global slot's availability. */
  lemma GlobalSlotsUnmoved(slots: Slots, first: Slots, scope: string, taken: SlotKey, max: nat, env: Env)
    requires scope != GLOBAL_SCOPE
    requires forall key :: key in slots && key.scope != scope ==> key in first && first[key] == slots[key]
    requires forall key :: key in first && key.scope != scope ==> key in slots
    ensures forall j :: 0 <= j < max ==>
      Servable(first, SlotKey(GLOBAL_SCOPE, j), env) == Servable(slots, SlotKey(GLOBAL_SCOPE, j), env)
  {
  }

  lemma DenialIsClean(slots: Slots, backend: string, maxPerBackend: nat, maxGlobal: nat,
                      env: Env, tokens: (string, string), undo: ReleaseFault)
    requires FreshTokens(slots, tokens)
    ensures var (after, got) := Acquired(slots, backend, maxPerBackend, maxGlobal, env, tokens, undo);
      && (got.Denied? && (got.why.Faulted? ==> got.why.clean) ==>
            TokenNowhere(after, tokens.0) && TokenNowhere(after, tokens.1))
      && SparesProtected(slots, after, env)
  {
    var scope := BackendScope(backend);
    FirstPhase(slots, scope, maxPerBackend, env, tokens);
    AttemptTakesLowest(slots, scope, 0, maxPerBackend, env, tokens.0);
    var (first, one) := Attempted(slots, scope, 0, maxPerBackend, env, tokens.0);
    if one.Taken? {
      SecondPhase(slots, first, one.lease, maxGlobal, env, tokens);
      AttemptTakesLowest(first, GLOBAL_SCOPE, 0, maxGlobal, env, tokens.1);
      var second := Attempted(first, GLOBAL_SCOPE, 0, maxGlobal, env, tokens.1).0;
      FreshSlotIsNew(slots, first, one.lease.key, tokens.0);
      ReleaseUndoes(slots, second, one.lease, undo, env, tokens);
    }
  }

  lemma FreshSlotIsNew(slots: Slots, first: Slots, key: SlotKey, token: string)
    requires TokenNowhere(slots, token) && Holds(first, key, token)
    ensures key in slots ==> first[key] != slots[key]
  {
  }

  /** Giving the backend slot back removes its token and nothing else. */
  lemma ReleaseUndoes(slots: Slots, second: Slots, lease: SlotLease, undo: ReleaseFault, env: Env, tokens: (string,
      string))
    requires Holds(second, lease.key, lease.ownerToken) && lease.ownerToken == tokens.0
    requires forall key :: Holds(second, key, tokens.0) ==> key == lease.key
    requires SparesProtected(slots, second, env) && TokenNowhere(slots, tokens.0)
    ensures var undone := Released(second, lease, undo, env.now);
      && SparesProtected(slots, undone, env)
      && (undo == Tidy ==> TokenNowhere(undone, tokens.0))
      && (TokenNowhere(second, tokens.1) ==> TokenNowhere(undone, tokens.1))
  {
    var undone := Released(second, lease, undo, env.now);
    assert forall key :: key in second && key != lease.key ==> key in undone && undone[key] == second[key];
    assert forall key :: key in undone && key != lease.key ==> Holds(undone, key, tokens.0) == Holds(second, key, tokens.0);
    assert forall key :: key in undone && key != lease.key ==> Holds(undone, key, tokens.1) == Holds(second, key, tokens.1);
    if lease.key in slots && !Reclaimable(lease.key, slots[lease.key], env) {
      assert false;
    }
  }

  lemma FailsOnlyWhenFull(slots: Slots, backend: string, maxPerBackend: nat, maxGlobal: nat,
                          env: Env, tokens: (string, string), undo: ReleaseFault)
    requires FreshTokens(slots, tokens) && FaultFree(env, backend, maxPerBackend, maxGlobal, undo)
    ensures var (after, got) := Acquired(slots, backend, maxPerBackend, maxGlobal, env, tokens, undo);
      got.Denied? <==> NoneServable(slots, BackendScope(backend), maxPerBackend, env)
                       || NoneServable(slots, GLOBAL_SCOPE, maxGlobal, env)
  {
    var scope := BackendScope(backend);
    FirstPhase(slots, scope, maxPerBackend, env, tokens);
    AttemptTakesLowest(slots, scope, 0, maxPerBackend, env, tokens.0);
    var (first, one) := Attempted(slots, scope, 0, maxPerBackend, env, tokens.0);
    if one.Taken? {
      assert one.lease.key == SlotKey(scope, one.lease.key.index);
      GlobalSlotsUnmoved(slots, first, scope, one.lease.key, maxGlobal, env);
      AttemptTakesLowest(first, GLOBAL_SCOPE, 0, maxGlobal, env, tokens.1);
      var two := Attempted(first, GLOBAL_SCOPE, 0, maxGlobal, env, tokens.1).1;
      assert two.Taken? ==> two.lease.key == SlotKey(GLOBAL_SCOPE, two.lease.key.index);
    }
  }

  /** Two-phase acquisition. Success puts one fresh token in the lowest servable
      slot of each scope and nowhere else; failure whose clean-up was proven
      leaves neither token anywhere; leases that may not be reclaimed are exactly
      as before either way; and without I/O faults it fails exactly when one of
      the scopes has no free or reclaimable slot. */
  lemma AcquireIsTwoPhase(slots: Slots, backend: string, maxPerBackend: nat, maxGlobal: nat,
                          env: Env, tokens: (string, string), undo: ReleaseFault)
    requires FreshTokens(slots, tokens)
    ensures var (after, got) := Acquired(slots, backend, maxPerBackend, maxGlobal, env, tokens, undo);
      && (got.Granted? ==> GrantedExactly(slots, after, got, backend, maxPerBackend, maxGlobal, env, tokens))
      && (got.Denied? && (got.why.Faulted? ==> got.why.clean) ==>
            TokenNowhere(after, tokens.0) && TokenNowhere(after, tokens.1))
      && SparesProtected(slots, after, env)
      && (FaultFree(env, backend, maxPerBackend, maxGlobal, undo) ==>
            (got.Denied? <==> NoneServable(slots, BackendScope(backend), maxPerBackend, env)
                              || NoneServable(slots, GLOBAL_SCOPE, maxGlobal, env)))
  {
    GrantsExactly(slots, backend, maxPerBackend, maxGlobal, env, tokens, undo);
    DenialIsClean(slots, backend, maxPerBackend, maxGlobal, env, tokens, undo);
    if FaultFree(env, backend, maxPerBackend, maxGlobal, undo) {
      FailsOnlyWhenFull(slots, backend, maxPerBackend, maxGlobal, env, tokens, undo);
    }
  }

  /** Giving back a list of leases one after the other; `faults[i]` is what the
      release of the i-th meets. */
  function ReleasedAll(slots: Slots, leases: seq<SlotLease>, faults: seq<ReleaseFault>, now: real): Slots
    requires |faults| == |leases|
    decreases |leases|
  {
    if leases == [] then slots else ReleasedAll(Released(slots, leases[0], faults[0], now), leases[1..], faults[1..], now)
  }

  /** Whether every one of these releases is proven. */
  predicate AllReleasesSucceed(slots: Slots, leases: seq<SlotLease>, faults: seq<ReleaseFault>, now: real)
    requires |faults| == |leases|
    decreases |leases|
  {
    leases == []
    || (ReleaseSucceeds(slots, leases[0], faults[0])
        && AllReleasesSucceed(Released(slots, leases[0], faults[0], now), leases[1..], faults[1..], now))
  }

  ghost predicate DistinctSlots(leases: seq<SlotLease>) {
    forall i, j :: 0 <= i < j < |leases| ==> leases[i].key != leases[j].key
  }

  /** What a release leaves in one slot: nothing, an emptied slot, or the lease
      itself, which stays only where extra files kept the slot from going. */
  predicate GivenBack(slots: Slots, after: Slots, key: SlotKey, fault: ReleaseFault, now: real) {
    match fault
    case Tidy => key !in after
    case RemovalFails => key in after && after[key] == Slot(None, now)
    case ExtraFiles => key in slots && key in after && after[key] == slots[key]
  }

  /** What giving back distinct slots does to the table: each slot still held
      goes the way its own fault says, every other entry is untouched, and the
      whole release is proven exactly when all were still held and none met a
      fault. */
  lemma {:induction false} ReleaseAllGivesBack(slots: Slots, leases: seq<SlotLease>, faults: seq<ReleaseFault>, now: real)
    requires |faults| == |leases| && DistinctSlots(leases)
    ensures var after := ReleasedAll(slots, leases, faults, now);
      && (forall i :: 0 <= i < |leases| && Holds(slots, leases[i].key, leases[i].ownerToken)
            ==> GivenBack(slots, after, leases[i].key, faults[i], now))
      && (forall i :: 0 <= i < |leases| && !Holds(slots, leases[i].key, leases[i].ownerToken)
            ==> !Holds(after, leases[i].key, leases[i].ownerToken))
      && (forall key :: HeldByNone(slots, leases, key) ==> SameAt(slots, after, key))
    ensures AllReleasesSucceed(slots, leases, faults, now)
            <==> forall i :: 0 <= i < |leases| ==> ReleaseSucceeds(slots, leases[i], faults[i])
    decreases |leases|
  {
    if leases != [] {
      var next := Released(slots, leases[0], faults[0], now);
      ReleasedElsewhere(slots, leases[0], faults[0], now);
      ReleaseAllGivesBack(next, leases[1..], faults[1..], now);
      var after := ReleasedAll(next, leases[1..], faults[1..], now);
      assert forall i :: 0 <= i < |leases| - 1 ==> leases[1..][i] == leases[i + 1] && faults[1..][i] == faults[i + 1];
      assert SameAt(next, after, leases[0].key);
      forall i | 1 <= i < |leases|
        ensures SameAt(slots, next, leases[i].key)
        ensures ReleaseSucceeds(next, leases[i], faults[i]) == ReleaseSucceeds(slots, leases[i], faults[i])
        ensures Holds(slots, leases[i].key, leases[i].ownerToken) ==> GivenBack(slots, after, leases[i].key, faults[i], now)
        ensures !Holds(slots, leases[i].key, leases[i].ownerToken) ==> !Holds(after, leases[i].key, leases[i].ownerToken)
      {
        assert leases[1..][i - 1] == leases[i];
      }
      forall key | HeldByNone(slots, leases, key) ensures SameAt(slots, after, key) {
        assert SameAt(slots, next, key);
        assert HeldByNone(next, leases[1..], key);
      }
    }
  }

  /** None of these leases is the one that still holds this slot. */
  predicate HeldByNone(slots: Slots, leases: seq<SlotLease>, key: SlotKey) {
    forall i :: 0 <= i < |leases| ==> leases[i].key != key || !Holds(slots, key, leases[i].ownerToken)
  }

  predicate SameAt(slots: Slots, after: Slots, key: SlotKey) {
    (key in after <==> key in slots) && (key in slots ==> after[key] == slots[key])
  }

  lemma ReleasedElsewhere(slots: Slots, lease: SlotLease, fault: ReleaseFault, now: real)
    ensures var after := Released(slots, lease, fault, now);
      && (forall key :: key != lease.key || !Holds(slots, key, lease.ownerToken) ==> SameAt(slots, after, key))
      && (Holds(slots, lease.key, lease.ownerToken) ==> GivenBack(slots, after, lease.key, fault, now))
  {
  }

  class SlotManager {
    var slots: Slots
    const maxPerBackend: nat
    const maxGlobal: nat

    constructor (maxPerBackend: nat, maxGlobal: nat)
      requires maxPerBackend >= 1 && maxGlobal >= 1
      ensures slots == map[] && this.maxPerBackend == maxPerBackend && this.maxGlobal == maxGlobal
    {
      this.slots := map[];
      this.maxPerBackend := maxPerBackend;
      this.maxGlobal := maxGlobal;
    }

    /** The checks that decide whether an existing slot may be taken over. */
    method MayReclaim(key: SlotKey, slot: Slot, names: seq<string>, env: Env) returns (may: bool)
      requires forall id :: id in names <==> id in env.view.files
      ensures may <==> Reclaimable(key, slot, env)
    {
      if slot.lease.None? {
        return !Young(slot.touchedAt, env.now, LEASE_INIT_GRACE_MS);
      }
      var lease := slot.lease.value;
      if lease.owner.Some? && env.live.matches(lease.owner.value) {
        return false;
      }
      var ownerIsDead := lease.owner.Some? && env.live.dead(lease.owner.value);
      var state := BoundRunState(key, lease, names, env.view);
      if state in {Active, Unknown} {
        return false;
      }
      assert state.TerminalRun? || state.Unbound?;
      if ownerIsDead || lease.renewedAt.None? {
        return true;
      }
      return !Young(lease.renewedAt.value, env.now, LEASE_TTL_MS);
    }

    method TryAcquireScope(scope: string, maxSlots: nat, names: seq<string>, env: Env, token: string)
      returns (attempt: Attempt)
      requires forall id :: id in names <==> id in env.view.files
      modifies this
      ensures (slots, attempt) == Attempted(old(slots), scope, 0, maxSlots, env, token)
    {
      var index := 0;
      while index < maxSlots
        invariant index <= maxSlots
        invariant Attempted(slots, scope, index, maxSlots, env, token)
                  == Attempted(old(slots), scope, 0, maxSlots, env, token)
      {
        var key := SlotKey(scope, index);
        var fault := env.faults(key);
        ghost var entered := slots;
        index := index + 1;
        if fault.Inaccessible? {
          continue;
        }
        if key in slots {
          var may := MayReclaim(key, slots[key], names, env);
          if !may {
            continue;
          }
          if fault.ReclaimFails? {
            slots := Left(slots, key, fault.left, env.now);
            continue;
          }
          slots := slots - {key};
        }
        assert slots == entered - {key};
        if fault.InitFails? {
          if !fault.removed {
            var partial := Slot(if fault.written then Some(NewLease(env, token)) else None, env.now);
            slots := slots[key := partial];
            assert slots == entered[key := partial];
          }
          return Broken(fault.removed);
        }
        slots := slots[key := NewSlot(env, token)];
        assert slots == entered[key := NewSlot(env, token)];
        return Taken(SlotLease(key, token));
      }
      return Full;
    }

    method Acquire(backend: string, names: seq<string>, env: Env, tokens: (string, string), undo: ReleaseFault)
      returns (acquisition: Acquisition)
      requires forall id :: id in names <==> id in env.view.files
      requires FreshTokens(slots, tokens)
      modifies this
      ensures (slots, acquisition) == Acquired(old(slots), backend, maxPerBackend, maxGlobal, env, tokens, undo)
    {
      AttemptTakesLowest(slots, BackendScope(backend), 0, maxPerBackend, env, tokens.0);
      var first := TryAcquireScope(BackendScope(backend), maxPerBackend, names, env, tokens.0);
      if first.Full? {
        return Denied(NoBackendSlot);
      }
      if first.Broken? {
        return Denied(Faulted(first.clean));
      }
      AttemptSparesOtherScopes(slots, GLOBAL_SCOPE, 0, maxGlobal, env, tokens.1, first.lease.key);
      var second := TryAcquireScope(GLOBAL_SCOPE, maxGlobal, names, env, tokens.1);
      if second.Taken? {
        return Granted(first.lease, second.lease);
      }
      var released := Release(first.lease, undo, env.now);
      if !released {
        return Denied(Faulted(false));
      }
      return Denied(if second.Full? then NoGlobalSlot else Faulted(second.clean));
    }

    method BindRun(lease: SlotLease, runId: string) returns (bound: bool)
      modifies this
      ensures bound <==> BindAllowed(old(slots), lease, runId)
      ensures slots == Bound(old(slots), lease, runId)
    {
      if runId == "" || !SafeRunId(runId) || lease.key !in slots {
        return false;
      }
      var payload := slots[lease.key].lease;
      if payload.None? || payload.value.ownerToken != lease.ownerToken {
        return false;
      }
      slots := slots[lease.key := slots[lease.key].(lease := Some(payload.value.(runId := runId)))];
      return true;
    }

    method Renew(lease: SlotLease, me: Process, now: real) returns (renewed: bool)
      modifies this
      ensures renewed <==> Holds(old(slots), lease.key, lease.ownerToken)
      ensures slots == Renewed(old(slots), lease, me, now)
    {
      if lease.key !in slots {
        return false;
      }
      var payload := slots[lease.key].lease;
      if payload.None? || payload.value.ownerToken != lease.ownerToken {
        return false;
      }
      var written := Lease(Some(me), payload.value.acquiredAt, Some(now), lease.ownerToken, payload.value.runId);
      slots := slots[lease.key := slots[lease.key].(lease := Some(written))];
      return true;
    }

    method Release(lease: SlotLease, fault: ReleaseFault, now: real) returns (released: bool)
      modifies this
      ensures released <==> ReleaseSucceeds(old(slots), lease, fault)
      ensures slots == Released(old(slots), lease, fault, now)
    {
      if lease.key !in slots {
        return false;
      }
      var payload := slots[lease.key].lease;
      if payload.None? || payload.value.ownerToken != lease.ownerToken {
        return false;
      }
      if fault.ExtraFiles? {
        return false;
      }
      slots := slots[lease.key := Slot(None, now)];
      if fault.RemovalFails? {
        return false;
      }
      slots := slots - {lease.key};
      return true;
    }

    /** Releases every lease it is given, going on after a failure, and says
        whether all the releases were proven. */
    method ReleaseAll(leases: seq<SlotLease>, faults: seq<ReleaseFault>, now: real) returns (proven: bool)
      requires |faults| == |leases|
      modifies this
      ensures slots == ReleasedAll(old(slots), leases, faults, now)
      ensures proven <==> AllReleasesSucceed(old(slots), leases, faults, now)
    {
      proven := true;
      for i := 0 to |leases|
        invariant ReleasedAll(slots, leases[i..], faults[i..], now) == ReleasedAll(old(slots), leases, faults, now)
        invariant (proven && AllReleasesSucceed(slots, leases[i..], faults[i..], now))
                  <==> AllReleasesSucceed(old(slots), leases, faults, now)
      {
        assert leases[i..][1..] == leases[i + 1..] && faults[i..][1..] == faults[i + 1..];
        var released := Release(leases[i], faults[i], now);
        proven := proven && released;
      }
    }
  }
}
