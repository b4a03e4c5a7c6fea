/** One run record and the transitions the run store applies to it under the
    run's lock. Every transition answers with the record it wrote, the record
    it left alone, or a refusal. Clock readings and process probes are inputs. */
module RunRecords {
  import opened Common

  datatype Status = Accepted | Running | Completed | Failed | Timeout | Cancelled {
    predicate Terminal() {
      this != Accepted && this != Running
    }
  }

  /** What is fixed when a run is created and compared on a repeated create. */
  datatype Origin = Origin(
    mode: string, contract: string, projectRoot: string, backend: string,
    orchestrationId: string, threadId: string, panelId: string,
    contextSha256: string, baseHead: string, profileSha256: string, profile: map<string, string>)

  /** The tracked backend process group; pid 0 means none is tracked. */
  datatype Backend = Backend(pid: nat, pgid: nat, startedAt: string, lockPath: string)

  const NO_BACKEND := Backend(0, 0, "", "")

  datatype RunRecord = RunRecord(
    runId: string, status: Status, origin: Origin, updatedAt: real,
    result: Option<string>, error: string, shadowPath: string, leaseSlots: seq<string>,
    revision: nat, workerToken: string, worker: Process, backend: Backend,
    cancelRequestedAt: real, cancelReason: string)

  const MAX_CANCEL_REASON_CHARS := 500
  const MAX_ORCHESTRATION_ID_CHARS := 256
  const ASYNC_RESERVATION_GRACE_SECONDS := 10.0
  const CLEANUP_UNPROVEN := "backend process-group cleanup could not be proven"

  datatype Refusal =
    | NotFound | BadArgument | TerminalStatus | TokenMismatch | BackendTracked
    | CancelPending | NotAvailable | NotClaimable | Unverified | OwnershipChanged | Conflict

  datatype Reply = Saved(record: RunRecord) | Unchanged(record: RunRecord) | Rejected(why: Refusal)

  /** What the operating system reports while a backend is being bound. */
  datatype Probe = Probe(lifetimeLockHeld: bool, livePgid: Option<int>, liveStartedAt: Option<string>)

  predicate ValidOrigin(o: Origin) {
    && |o.orchestrationId| <= MAX_ORCHESTRATION_ID_CHARS
    && (o.contextSha256 == "" || IsSha256(o.contextSha256))
    && (o.baseHead == "" || (|o.baseHead| in {40, 64} && IsLowerHex(o.baseHead)))
    && (o.baseHead != "" ==> o.contextSha256 != "" && o.mode == "edit")
    && (o.profileSha256 == "" || IsSha256(o.profileSha256))
    && (o.profileSha256 == "" <==> o.profile == map[])
    && (o.profile != map[] ==> "backend" in o.profile && o.profile["backend"] == o.backend)
  }

  /** Content screening and the digest of an execution profile. */
  datatype Vetting = Vetting(allowed: string -> bool, digest: map<string, string> -> string)

  const MAX_PROFILE_NAME_CHARS := 64
  const MAX_PROFILE_VALUE_CHARS := 4096

  /** A planned profile has presentable entries and is the one its digest names. */
  predicate Vetted(v: Vetting, o: Origin) {
    o.profile != map[] ==>
      && v.digest(o.profile) == o.profileSha256
      && forall name :: name in o.profile ==> && 0 < |name| <= MAX_PROFILE_NAME_CHARS
                                              && |o.profile[name]| <= MAX_PROFILE_VALUE_CHARS
                                              && v.allowed(o.profile[name])
  }

  /** The record-shape checks that every load and every save repeat. */
  predicate WellFormed(r: RunRecord) {
    && ValidOrigin(r.origin)
    && (r.worker.pid != 0 <==> r.worker.startedAt != "")
    && (r.backend.pid != 0 <==>
        r.backend.pgid != 0 && r.backend.startedAt != "" && r.backend.lockPath != "")
    && (r.backend.pid != 0 ==> r.backend.pgid == r.backend.pid)
    && r.cancelRequestedAt >= 0.0
    && |r.cancelReason| <= MAX_CANCEL_REASON_CHARS
    && (r.cancelRequestedAt == 0.0 ==> r.cancelReason == "")
  }

  predicate CancelRequested(r: RunRecord) {
    r.cancelRequestedAt != 0.0
  }

  function NewRecord(runId: string, origin: Origin, now: real): RunRecord {
    RunRecord(runId, Accepted, origin, now, None, "", "", [], 0, "", Process(0, ""),
              NO_BACKEND, 0.0, "")
  }

  function Written(r: RunRecord, now: real): Reply {
    Saved(r.(revision := r.revision + 1, updatedAt := now))
  }

  // ---------------------------------------------------------------- transitions

  function UpdateStatus(
    r: RunRecord, status: Status, error: string, result: Option<string>,
    shadowPath: Option<string>, leaseSlots: Option<seq<string>>,
    expectedToken: Option<string>, now: real): Reply
  {
    if r.status.Terminal() && status != r.status then Rejected(TerminalStatus)
    else if r.status == Running && status != Running && (expectedToken in {None, Some("")} || r.workerToken != expectedToken.value)
      then Rejected(TokenMismatch)
    else if r.status == Running && status != Running && r.backend.pid != 0 then Rejected(BackendTracked)
    else if r.status == Running && status != Running && CancelRequested(r) && status != Cancelled
      then Rejected(CancelPending)
    else
      Written(r.(status := status,
                 error := if error != "" then error else r.error,
                 result := if result.Some? then result else r.result,
                 shadowPath := if shadowPath.Some? then shadowPath.value else r.shadowPath,
                 leaseSlots := if leaseSlots.Some? then leaseSlots.value else r.leaseSlots), now)
  }

  function RequestCancel(r: RunRecord, reason: string, now: real): Reply {
    if |reason| > MAX_CANCEL_REASON_CHARS then Rejected(BadArgument)
    else if r.status.Terminal() || CancelRequested(r) then Unchanged(r)
    else if now <= 0.0 then Rejected(BadArgument)
    else Written(r.(cancelRequestedAt := now, cancelReason := reason,
                    status := if r.status == Accepted then Cancelled else r.status), now)
  }

  function ReserveAsyncWorker(r: RunRecord, token: string, now: real): Reply {
    if token == "" then Rejected(BadArgument)
    else if r.status != Accepted || r.workerToken != "" then Rejected(NotAvailable)
    else Written(r.(workerToken := token), now)
  }

  function ClaimForExecution(
    r: RunRecord, token: string, leaseSlots: seq<string>, worker: Process, now: real): Reply
  {
    if token == "" || (worker.pid == 0) != (worker.startedAt == "") then Rejected(BadArgument)
    else if r.status != Accepted then Rejected(NotClaimable)
    else if r.workerToken != "" && r.workerToken != token then Rejected(TokenMismatch)
    else Written(r.(status := Running, workerToken := token, worker := worker,
                    leaseSlots := leaseSlots), now)
  }

  function BindBackendProcess(
    r: RunRecord, token: string, pid: int, pgid: int, startedAt: string,
    lockPath: string, probe: Probe, now: real): Reply
  {
    if pid <= 0 || pgid != pid || startedAt == "" then Rejected(BadArgument)
    else if !probe.lifetimeLockHeld || probe.livePgid != Some(pgid)
            || "unknown-" <= startedAt || probe.liveStartedAt != Some(startedAt)
      then Rejected(Unverified)
    else if r.status != Running || r.workerToken != token || r.backend.pid != 0
      then Rejected(OwnershipChanged)
    else Written(r.(backend := Backend(pid, pgid, startedAt, lockPath)), now)
  }

  /** `proven` is the operating system's answer that the whole backend process
      group has stopped. */
  function CleanupBackendIfOwned(r: RunRecord, token: string, proven: bool, now: real): Reply {
    if r.status != Running || r.workerToken != token || r.backend.pid == 0 then Unchanged(r)
    else if !proven then Written(r.(error := CLEANUP_UNPROVEN), now)
    else Written(r.(backend := NO_BACKEND), now)
  }

  /** The boolean the cleanup call returns to its caller. */
  predicate CleanupAnswer(r: RunRecord, token: string, proven: bool) {
    if r.status != Running || r.workerToken != token then r.status.Terminal()
    else r.backend.pid == 0 || proven
  }

  function FailOrCancel(r: RunRecord, error: string, now: real): Reply {
    Written(if CancelRequested(r) then r.(status := Cancelled)
            else r.(status := Failed, error := error), now)
  }

  function FailIfAccepted(r: RunRecord, error: string, now: real): Reply {
    if r.status != Accepted || r.workerToken != "" then Unchanged(r) else FailOrCancel(r, error, now)
  }

  function FailIfRunning(r: RunRecord, token: string, error: string, now: real): Reply {
    if r.status != Running || r.workerToken != token || r.backend.pid != 0 then Unchanged(r)
    else FailOrCancel(r, error, now)
  }

  function FailIfActiveWorker(r: RunRecord, token: string, error: string, now: real): Reply {
    if r.status.Terminal() || r.workerToken != token || (r.status == Running && r.backend.pid != 0)
      then Unchanged(r)
    else FailOrCancel(r, error, now)
  }

  function FailIfReservedWorker(r: RunRecord, token: string, error: string, now: real): Reply {
    if r.status != Accepted || r.workerToken != token then Unchanged(r)
    else Written(r.(status := Failed, error := error), now)
  }

  // ------------------------------------------------------- one event, and traces

  datatype Op =
    | UpdateStatusOp(status: Status, error: string, result: Option<string>, shadowPath: Option<string>,
                     leaseSlots: Option<seq<string>>, expectedToken: Option<string>)
    | RequestCancelOp(reason: string)
    | ReserveOp(token: string)
    | ClaimOp(token: string, slots: seq<string>, worker: Process)
    | BindBackendOp(token: string, pid: int, pgid: int, startedAt: string, lockPath: string, probe: Probe)
    | CleanupOp(token: string, proven: bool)
    | FailIfAcceptedOp(error: string)
    | FailIfRunningOp(token: string, error: string)
    | FailIfActiveOp(token: string, error: string)
    | FailIfReservedOp(token: string, error: string)

  datatype Event = Event(op: Op, now: real)

  /** The store computes the lifetime-lock path itself, so it is never empty. */
  predicate ValidEvent(e: Event) {
    e.op.BindBackendOp? ==> e.op.lockPath != ""
  }

  function Apply(r: RunRecord, e: Event): Reply {
    match e.op
    case UpdateStatusOp(status, error, result, shadow, slots, token) =>
      UpdateStatus(r, status, error, result, shadow, slots, token, e.now)
    case RequestCancelOp(reason) => RequestCancel(r, reason, e.now)
    case ReserveOp(token) => ReserveAsyncWorker(r, token, e.now)
    case ClaimOp(token, slots, worker) => ClaimForExecution(r, token, slots, worker, e.now)
    case BindBackendOp(token, pid, pgid, started, lock, probe) =>
      BindBackendProcess(r, token, pid, pgid, started, lock, probe, e.now)
    case CleanupOp(token, proven) => CleanupBackendIfOwned(r, token, proven, e.now)
    case FailIfAcceptedOp(error) => FailIfAccepted(r, error, e.now)
    case FailIfRunningOp(token, error) => FailIfRunning(r, token, error, e.now)
    case FailIfActiveOp(token, error) => FailIfActiveWorker(r, token, error, e.now)
    case FailIfReservedOp(token, error) => FailIfReservedWorker(r, token, error, e.now)
  }

  /** The record on disk after one event. */
  function After(r: RunRecord, e: Event): RunRecord {
    var reply := Apply(r, e);
    if reply.Saved? then reply.record else r
  }

  function Replay(r: RunRecord, events: seq<Event>): RunRecord
    decreases |events|
  {
    if events == [] then r else Replay(After(r, events[0]), events[1..])
  }

  predicate ValidEvents(events: seq<Event>) {
    forall i :: 0 <= i < |events| ==> ValidEvent(events[i])
  }

  // ------------------------------------------------------------------ invariants

  /** Holds of every record the transitions can produce. */
  predicate Inv(r: RunRecord) {
    && (r.backend.pid != 0 ==> r.status == Running)
    && (CancelRequested(r) ==> r.status in {Running, Cancelled})
  }

  /** What no transition can take back. */
  predicate Evolves(a: RunRecord, b: RunRecord) {
    && b.runId == a.runId && b.origin == a.origin
    && (a.status.Terminal() ==> b.status == a.status && b.backend == a.backend
                                && b.worker == a.worker && b.cancelRequestedAt == a.cancelRequestedAt)
    && (a.workerToken != "" ==> b.workerToken == a.workerToken)
    && (CancelRequested(a) ==> b.cancelRequestedAt == a.cancelRequestedAt && b.cancelReason == a.cancelReason)
    && b.revision >= a.revision && (b.revision == a.revision ==> b == a)
  }

  lemma EvolvesTransitive(a: RunRecord, b: RunRecord, c: RunRecord)
    requires Evolves(a, b) && Evolves(b, c)
    ensures Evolves(a, c)
  {
  }

  /** A newly created run satisfies the invariant and the record-shape checks. */
  lemma NewRecordValid(runId: string, origin: Origin, now: real)
    requires ValidOrigin(origin)
    ensures WellFormed(NewRecord(runId, origin, now)) && Inv(NewRecord(runId, origin, now))
  {
  }

  /** Each transition keeps the invariant and the record shape, so a save never
      fails its own re-parse; it undoes nothing recorded before; a write raises
      the revision by exactly one and everything else leaves the record alone. */
  lemma StepKeepsRecord(r: RunRecord, e: Event)
    requires Inv(r) && WellFormed(r) && ValidEvent(e)
    ensures Inv(After(r, e)) && WellFormed(After(r, e)) && Evolves(r, After(r, e))
    ensures Apply(r, e).Saved? ==> After(r, e).revision == r.revision + 1
    ensures Apply(r, e).Unchanged? ==> Apply(r, e).record == r
  {
    match e.op
    case UpdateStatusOp(_, _, _, _, _, _) =>
    case RequestCancelOp(_) =>
    case ReserveOp(_) =>
    case ClaimOp(_, _, _) =>
    case BindBackendOp(_, _, _, _, _, _) =>
    case CleanupOp(_, _) =>
    case FailIfAcceptedOp(_) =>
    case FailIfRunningOp(_, _) =>
    case FailIfActiveOp(_, _) =>
    case FailIfReservedOp(_, _) =>
  }

  /** How many of the events wrote the record. */
  function Writes(r: RunRecord, events: seq<Event>): nat
    decreases |events|
  {
    if events == [] then 0
    else (if Apply(r, events[0]).Saved? then 1 else 0) + Writes(After(r, events[0]), events[1..])
  }

  /** The same over any run of transitions, by any actors in any order: the
      invariant holds at the end, nothing recorded was undone, and the revision
      counts exactly the writes. */
  lemma {:induction false} ReplayKeepsRecord(r: RunRecord, events: seq<Event>)
    requires Inv(r) && WellFormed(r) && ValidEvents(events)
    ensures Inv(Replay(r, events)) && WellFormed(Replay(r, events)) && Evolves(r, Replay(r, events))
    ensures Replay(r, events).revision == r.revision + Writes(r, events)
    decreases |events|
  {
    if events != [] {
      StepKeepsRecord(r, events[0]);
      ReplayKeepsRecord(After(r, events[0]), events[1..]);
      EvolvesTransitive(r, After(r, events[0]), Replay(r, events));
    }
  }

  lemma {:induction false} ReplayAppend(r: RunRecord, before: seq<Event>, after: seq<Event>)
    ensures Replay(r, before + after) == Replay(Replay(r, before), after)
    decreases |before|
  {
    if before == [] {
      assert before + after == after;
    } else {
      assert (before + after)[1..] == before[1..] + after;
      ReplayAppend(After(r, before[0]), before[1..], after);
    }
  }

  /** The worker token an event presents, if it presents one. */
  function PresentedToken(op: Op): Option<string> {
    match op
    case UpdateStatusOp(_, _, _, _, _, token) => token
    case ReserveOp(token) => Some(token)
    case ClaimOp(token, _, _) => Some(token)
    case BindBackendOp(token, _, _, _, _, _) => Some(token)
    case CleanupOp(token, _) => Some(token)
    case FailIfRunningOp(token, _) => Some(token)
    case FailIfActiveOp(token, _) => Some(token)
    case FailIfReservedOp(token, _) => Some(token)
    case _ => None
  }

  /** A running run is ended only by presenting its own worker token, only with
      no backend tracked, and only as cancelled once cancellation was asked for. */
  lemma RunningEndsOnlyForItsOwner(r: RunRecord, e: Event)
    requires r.status == Running && After(r, e).status != Running
    ensures r.backend.pid == 0 && PresentedToken(e.op) == Some(r.workerToken)
    ensures CancelRequested(r) ==> After(r, e).status == Cancelled
  {
    match e.op
    case UpdateStatusOp(_, _, _, _, _, _) =>
    case FailIfRunningOp(_, _) =>
    case FailIfActiveOp(_, _) =>
    case _ =>
  }

  // ----------------------------------------------- claiming against terminating

  /** The supervisor reports only terminal outcomes. */
  predicate Disciplined(e: Event) {
    ValidEvent(e) && (e.op.UpdateStatusOp? ==> e.op.status.Terminal())
  }

  predicate DisciplinedAll(events: seq<Event>) {
    forall i :: 0 <= i < |events| ==> Disciplined(events[i])
  }

  /** How many claims succeeded. */
  function Claims(r: RunRecord, events: seq<Event>): nat
    decreases |events|
  {
    if events == [] then 0
    else (if events[0].op.ClaimOp? && Apply(r, events[0]).Saved? then 1 else 0)
         + Claims(After(r, events[0]), events[1..])
  }

  /** How many events ended the run while it was still unclaimed. */
  function Forestalled(r: RunRecord, events: seq<Event>): nat
    decreases |events|
  {
    if events == [] then 0
    else (if r.status == Accepted && After(r, events[0]).status.Terminal() then 1 else 0)
         + Forestalled(After(r, events[0]), events[1..])
  }

  /** Over any interleaving of parent, worker, reconciler and cancel callers, an
      accepted run is either claimed once or ended unclaimed once, never both,
      and a run that has left `Accepted` is never claimed again. */
  lemma {:induction false} ClaimedOrForestalledOnce(r: RunRecord, events: seq<Event>)
    requires DisciplinedAll(events)
    ensures Claims(r, events) + Forestalled(r, events) <= 1
    ensures r.status != Accepted ==> Claims(r, events) == 0 && Forestalled(r, events) == 0
    ensures Claims(r, events) + Forestalled(r, events) == 0 && r.status == Accepted
            ==> Replay(r, events).status == Accepted
    decreases |events|
  {
    if events != [] {
      ClaimedOrForestalledOnce(After(r, events[0]), events[1..]);
      LeavesAccepted(r, events[0]);
    }
  }

  /** Only a claim or a termination takes a run out of `Accepted`, and nothing
      takes it back. */
  lemma LeavesAccepted(r: RunRecord, e: Event)
    requires Disciplined(e)
    ensures r.status != Accepted ==> After(r, e).status != Accepted
    ensures r.status == Accepted && After(r, e).status == Running ==> e.op.ClaimOp?
    ensures e.op.ClaimOp? && Apply(r, e).Saved? ==> r.status == Accepted && After(r, e).status == Running
  {
    match e.op
    case UpdateStatusOp(_, _, _, _, _, _) =>
    case RequestCancelOp(_) =>
    case ReserveOp(_) =>
    case ClaimOp(_, _, _) =>
    case BindBackendOp(_, _, _, _, _, _) =>
    case CleanupOp(_, _) =>
    case FailIfAcceptedOp(_) =>
    case FailIfRunningOp(_, _) =>
    case FailIfActiveOp(_, _) =>
    case FailIfReservedOp(_, _) =>
  }

  /** A reservation is exclusive: while a run is reserved, only a worker that
      presents the reserved token can ever own it. */
  lemma {:induction false} ReservationExclusive(r: RunRecord, events: seq<Event>, token: string)
    requires DisciplinedAll(events)
    requires token != "" && r.workerToken == token
    ensures Replay(r, events).workerToken == token
    decreases |events|
  {
    if events != [] {
      ReservationExclusive(After(r, events[0]), events[1..], token);
    }
  }

  lemma {:induction false} NeverAcceptedAgain(r: RunRecord, events: seq<Event>)
    requires r.status != Accepted && DisciplinedAll(events)
    ensures Replay(r, events).status != Accepted
    decreases |events|
  {
    if events != [] {
      LeavesAccepted(r, events[0]);
      NeverAcceptedAgain(After(r, events[0]), events[1..]);
    }
  }

  // -------------------------------------------- once a worker's process is gone

  /** Anything but the work of this worker generation itself: once the process
      is gone nobody claims the run or binds a backend under its token. The
      reconcilers, which present that very token, may act at any time. */
  predicate Bystander(e: Event, token: string) {
    Disciplined(e) && (e.op.ClaimOp? || e.op.BindBackendOp? ==> e.op.token != token)
  }

  predicate AllBystanders(events: seq<Event>, token: string) {
    forall i :: 0 <= i < |events| ==> Bystander(events[i], token)
  }

  /** A running run has ended, or runs on with its backend or with none; any
      other run was not claimed meanwhile, and an ended one stays as it ended. */
  predicate Abandoned(r: RunRecord, s: RunRecord) {
    if r.status == Running
    then s.status.Terminal() || (s.status == Running && (s.backend == r.backend || s.backend.pid == 0))
    else s.status != Running && (r.status.Terminal() ==> s.status == r.status)
  }

  lemma BystanderStep(r: RunRecord, e: Event, token: string)
    requires r.workerToken == token && token != "" && Bystander(e, token)
    ensures Abandoned(r, After(r, e)) && After(r, e).workerToken == token
  {
    LeavesAccepted(r, e);
    match e.op
    case UpdateStatusOp(_, _, _, _, _, _) =>
    case CleanupOp(_, _) =>
    case _ =>
  }

  lemma {:induction false} BystandersAbandon(r: RunRecord, events: seq<Event>, token: string)
    requires r.workerToken == token && token != "" && AllBystanders(events, token)
    ensures Abandoned(r, Replay(r, events)) && Replay(r, events).workerToken == token
    decreases |events|
  {
    if events != [] {
      BystanderStep(r, events[0], token);
      BystandersAbandon(After(r, events[0]), events[1..], token);
    }
  }
}
