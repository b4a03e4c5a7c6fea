/** How a supervisor ends a run it claimed, and how a parent starts a detached
    worker. Between any two of its own store calls other processes may act on
    the run; what they do is an arbitrary script of run-record events. */
module Supervisors {
  import opened Common
  import opened RunRecords
  import opened RunStores
  import opened Leases
  import opened SlotManagers

  /** `result` abbreviates the result envelope that would be stored. */
  datatype Outcome = Outcome(status: Status, result: string, error: string, shadowPath: string)

  /** What running the adapter came to. */
  datatype Work = Reported(outcome: Outcome) | Raised(error: string)

  const CANCELLED_OUTCOME := Outcome(Cancelled, "cancelled", "cancelled", "")

  function FailureOutcome(error: string): Outcome {
    Outcome(Failed, "error: " + error, error, "")
  }

  function WithWarning(o: Outcome, detail: string): Outcome {
    o.(result := o.result + "; worker lifecycle cleanup also failed: " + detail)
  }

  /** The outcome a supervisor settles on; `releaseErrors` is empty when its
      heartbeat and its slots were released cleanly. */
  function Concluded(cancelled: bool, work: Work, releaseErrors: string): Outcome {
    var first := if cancelled then CANCELLED_OUTCOME
                 else if work.Raised? then FailureOutcome("worker failed after claim: " + work.error)
                 else work.outcome;
    if releaseErrors == "" then first
    else if first.status in {Failed, Timeout, Cancelled} then WithWarning(first, releaseErrors)
    else FailureOutcome("worker lifecycle cleanup failed: " + releaseErrors)
  }

  lemma ConcludedEnds(cancelled: bool, work: Work, releaseErrors: string)
    requires work.Reported? ==> work.outcome.status.Terminal()
    ensures Concluded(cancelled, work, releaseErrors).status.Terminal()
    ensures cancelled ==> Concluded(cancelled, work, releaseErrors).status == Cancelled
    ensures !cancelled && work.Raised? ==> Concluded(cancelled, work, releaseErrors).status == Failed
    ensures Concluded(cancelled, work, releaseErrors).status == Completed
            <==> !cancelled && work.Reported? && work.outcome.status == Completed && releaseErrors == ""
  {
  }

  // -------------------------------------------------------- what others may do

  /** No actor but the worker itself binds a backend under its token. */
  predicate Tame(e: Event, token: string) {
    Disciplined(e) && !(e.op.BindBackendOp? && e.op.token == token)
  }

  predicate AllTame(events: seq<Event>, token: string) {
    forall i :: 0 <= i < |events| ==> Tame(events[i], token)
  }

  /** Events of actors that do not hold the worker token. */
  predicate Foreign(e: Event, token: string) {
    Disciplined(e) && PresentedToken(e.op) != Some(token)
  }

  predicate AllForeign(events: seq<Event>, token: string) {
    forall i :: 0 <= i < |events| ==> Foreign(events[i], token)
  }

  /** The run is over, or still this worker's with its backend proven stopped. */
  predicate Settling(r: RunRecord, token: string) {
    r.status.Terminal() || (r.status == Running && r.workerToken == token && r.backend.pid == 0)
  }

  lemma SettlingStep(r: RunRecord, e: Event, token: string)
    requires Settling(r, token) && token != "" && Tame(e, token)
    ensures Settling(After(r, e), token)
  {
    LeavesAccepted(r, e);
    match e.op
    case UpdateStatusOp(_, _, _, _, _, _) =>
    case BindBackendOp(_, _, _, _, _, _) =>
    case _ =>
  }

  lemma {:induction false} SettlingStays(r: RunRecord, events: seq<Event>, token: string)
    requires Settling(r, token) && token != "" && AllTame(events, token)
    ensures Settling(Replay(r, events), token)
    decreases |events|
  {
    if events != [] {
      SettlingStep(r, events[0], token);
      SettlingStays(After(r, events[0]), events[1..], token);
    }
  }

  /** All that only the worker writes is as it was. */
  predicate SameWork(r: RunRecord, s: RunRecord) {
    && s.backend == r.backend && s.worker == r.worker && s.leaseSlots == r.leaseSlots
    && s.error == r.error && s.result == r.result && s.shadowPath == r.shadowPath
  }

  /** Without the token a running run can be asked to stop, but neither ended, nor
      taken over, nor given or robbed of a backend, a result or an error. */
  lemma ForeignStep(r: RunRecord, e: Event, token: string)
    requires r.status == Running && r.workerToken == token && token != "" && Foreign(e, token)
    ensures After(r, e).status == Running && After(r, e).workerToken == token && SameWork(r, After(r, e))
  {
    match e.op
    case UpdateStatusOp(_, _, _, _, _, _) =>
    case RequestCancelOp(_) =>
    case _ =>
  }

  lemma {:induction false} ForeignStays(r: RunRecord, events: seq<Event>, token: string)
    requires r.status == Running && r.workerToken == token && token != "" && AllForeign(events, token)
    ensures Replay(r, events).status == Running && Replay(r, events).workerToken == token && SameWork(r, Replay(r, events))
    decreases |events|
  {
    if events != [] {
      ForeignStep(r, events[0], token);
      ForeignStays(After(r, events[0]), events[1..], token);
    }
  }

  /** Whatever happens next, no claim of this run succeeds. */
  ghost predicate NeverClaimable(r: RunRecord) {
    forall events :: DisciplinedAll(events) ==> Claims(r, events) == 0
  }

  lemma FailedIsFinal(r: RunRecord)
    requires r.status != Accepted
    ensures NeverClaimable(r)
  {
    forall events | DisciplinedAll(events) ensures Claims(r, events) == 0 {
      ClaimedOrForestalledOnce(r, events);
    }
  }

  /** What happens while a worker is cleaned up after. */
  datatype Departure = Departure(
    stopFails: bool, proven: bool, profileFails: bool, beforeLook: seq<Event>, beforeCleanup: seq<Event>,
    beforeEnd: seq<Event>, lookedAt: real, cleanedAt: real, endedAt: real)

  /** A worker that could not be stopped goes on acting; one that is gone does not. */
  predicate Departs(d: Departure, token: string, gone: bool) {
    && DisciplinedAll(d.beforeLook) && DisciplinedAll(d.beforeCleanup) && DisciplinedAll(d.beforeEnd)
    && (gone ==> AllBystanders(d.beforeLook, token) && AllBystanders(d.beforeCleanup, token)
                 && AllBystanders(d.beforeEnd, token))
  }

  datatype Poll = Poll(before: seq<Event>, exited: bool)

  /** Everything that is not the parent's choice while it starts a worker. */
  datatype Launch = Launch(
    beforeReserve: seq<Event>, reservedAt: real, setupFails: bool, launchFails: bool, startedAnyway: bool,
    polls: seq<Poll>, beforeDeadline: seq<Event>, deadlineAt: real, reaperFails: bool, reaped: Departure,
    failed: Departure)

  /** The reaper runs once the worker exited; a failed start runs its cleanup
      with the worker gone unless there is one that could not be stopped. */
  predicate FairLaunch(launch: Launch, token: string) {
    && DisciplinedAll(launch.beforeReserve) && DisciplinedAll(launch.beforeDeadline)
    && (forall i :: 0 <= i < |launch.polls| ==> DisciplinedAll(launch.polls[i].before))
    && Departs(launch.reaped, token, true)
    && Departs(launch.failed, token, !(Launched(launch) && launch.failed.stopFails))
  }

  predicate Launched(launch: Launch) {
    !launch.setupFails && (launch.launchFails ==> launch.startedAnyway)
  }

  /** The record after all polls of a start, or none if at one of them the run was
      claimed or over, or the worker had exited. */
  function Unresolved(r: RunRecord, polls: seq<Poll>): Option<RunRecord>
    decreases |polls|
  {
    if polls == [] then Some(r)
    else
      var met := Replay(r, polls[0].before);
      if met.status == Accepted && !polls[0].exited then Unresolved(met, polls[1..]) else None
  }

  /** The start runs into its deadline: no poll resolved it, and then the run is
      still accepted, or somebody failed it. */
  predicate TimesOut(r: RunRecord, launch: Launch) {
    var last := Unresolved(r, launch.polls);
    last.Some? && Replay(last.value, launch.beforeDeadline).status in {Accepted, Failed}
  }

  /** The run can be reserved when it comes to that. */
  predicate Reservable(runs: Runs, runId: string, launch: Launch) {
    && runId in runs && runs[runId].status == Accepted
    && var met := Replay(runs[runId], launch.beforeReserve); met.status == Accepted && met.workerToken == ""
  }

  function Reserved(r: RunRecord, token: string, launch: Launch): RunRecord {
    After(Replay(r, launch.beforeReserve), Event(ReserveOp(token), launch.reservedAt))
  }

  datatype Spawned = Refused | Supervised(record: RunRecord) | Killed(record: RunRecord) | SupervisionFailed(ended: bool)

  /** What a resolved start says about the run: supervised runs are no longer
      reserved, a killed worker's run failed for good, and a failed supervision
      that could finish its cleanup left the run over. */
  ghost predicate Resolved(spawned: Spawned, r: RunRecord) {
    match spawned
    case Refused => true
    case Supervised(record) => record == r && r.status != Accepted
    case Killed(record) => record == r && r.status == Failed && NeverClaimable(r)
    case SupervisionFailed(ended) => ended ==> r.status.Terminal()
  }

  /** The worker is under supervision, unless its reaper could not be started. */
  ghost predicate Settles(spawned: Spawned, r: RunRecord, launch: Launch) {
    (spawned.Supervised? || (spawned.SupervisionFailed? && launch.reaperFails)) && Resolved(spawned, r)
  }

  // ------------------------------------------------------------- ending a run

  /** Everything that is not the supervisor's choice while it ends a run. */
  datatype Script = Script(
    proven: bool, heartbeatError: string, faults: seq<ReleaseFault>, beforeRelease: seq<Action>, releasedAt: real,
    beforeCleanup: seq<Event>, beforeCheck: seq<Event>, beforeUpdate: seq<Event>,
    beforeRecheck: seq<Event>, beforeRetry: seq<Event>, cleanedAt: real, updatedAt: real, retriedAt: real)

  predicate TameScript(s: Script, token: string) {
    DisciplinedAll(s.beforeCleanup) && AllTame(s.beforeCheck, token) && AllTame(s.beforeUpdate, token)
    && AllTame(s.beforeRecheck, token) && AllTame(s.beforeRetry, token)
  }

  predicate ForeignScript(s: Script, token: string) {
    AllForeign(s.beforeCleanup, token) && AllForeign(s.beforeCheck, token) && AllForeign(s.beforeUpdate, token)
    && AllForeign(s.beforeRecheck, token) && AllForeign(s.beforeRetry, token)
  }

  datatype Ending = Finished(record: RunRecord) | WorkerError(error: string) | ReleaseError(detail: string)
                  | CleanupUnproven | NotRecorded(why: Refusal)

  function Report(o: Outcome, token: string): Op {
    UpdateStatusOp(o.status, o.error, Some(o.result), Some(o.shadowPath), None, Some(token))
  }

  /** The record tells this outcome; an outcome without an error leaves the error
      that was there. */
  predicate Carries(before: RunRecord, r: RunRecord, o: Outcome) {
    && r.status == o.status && r.result == Some(o.result) && r.shadowPath == o.shadowPath
    && r.error == (if o.error != "" then o.error else before.error)
  }

  /** What a concluded run tells, unless it was asked to stop: what the worker
      reported; with lifecycle errors, an unsuccessful report and after it these
      errors, and instead of a success these errors; or what the worker raised. */
  predicate TellsItsWork(before: RunRecord, r: RunRecord, work: Work, releaseErrors: string) {
    match work
    case Raised(error) => r.status == Failed && r.error == "worker failed after claim: " + error
    case Reported(o) =>
      if releaseErrors == "" then
        && r.status == o.status && r.result == Some(o.result) && r.shadowPath == o.shadowPath
        && r.error == (if o.error != "" then o.error else before.error)
      else if o.status in {Failed, Timeout, Cancelled} then
        && r.status == o.status && r.shadowPath == o.shadowPath
        && r.result == Some(o.result + "; worker lifecycle cleanup also failed: " + releaseErrors)
        && r.error == (if o.error != "" then o.error else before.error)
      else r.status == Failed && r.error == "worker lifecycle cleanup failed: " + releaseErrors
  }

  /** What it tells if it was: that it was cancelled, in the envelope for that. */
  predicate TellsCancelled(r: RunRecord, releaseErrors: string) {
    && r.status == Cancelled && r.error == "cancelled" && r.shadowPath == ""
    && (r.result == Some("cancelled")
        || (releaseErrors != "" && r.result == Some("cancelled" + "; worker lifecycle cleanup also failed: " + releaseErrors)))
  }

  lemma ConcludedTells(before: RunRecord, r: RunRecord, work: Work, releaseErrors: string)
    requires work.Reported? ==> work.outcome.status.Terminal()
    ensures Carries(before, r, Concluded(false, work, releaseErrors)) ==> TellsItsWork(before, r, work, releaseErrors)
    ensures Carries(before, r, Concluded(true, work, releaseErrors)) ==> TellsCancelled(r, releaseErrors)
    ensures Carries(before, r, CANCELLED_OUTCOME) ==> TellsCancelled(r, releaseErrors)
    ensures Concluded(false, work, releaseErrors).status == Cancelled ==> work.Reported? && work.outcome.status == Cancelled
  {
  }

  /** A settled run accepts its worker's report, except that a requested
      cancellation leaves room for nothing but a cancelled outcome. */
  lemma ReportSettles(r: RunRecord, o: Outcome, token: string, now: real)
    requires Settling(r, token) && token != "" && o.status.Terminal()
    ensures var s := After(r, Event(Report(o, token), now)); Settling(s, token)
    ensures var e := Event(Report(o, token), now);
      r.status == Running ==>
        if CancelRequested(r) && o.status != Cancelled then Apply(r, e) == Rejected(CancelPending)
        else Apply(r, e).Saved? && After(r, e).status == o.status && Carries(r, After(r, e), o)
             && After(r, e).cancelRequestedAt == r.cancelRequestedAt
  {
    SettlingStep(r, Event(Report(o, token), now), token);
  }

  /** A cleanup that answers yes leaves the run over or its backend untracked; one
      that answers no leaves a running run tracked. */
  lemma CleanupSettles(r: RunRecord, token: string, proven: bool, now: real)
    requires Inv(r) && WellFormed(r) && r.status != Accepted
    ensures var s := After(r, Event(CleanupOp(token, proven), now));
      && Evolves(r, s) && s.status == r.status
      && (CleanupAnswer(r, token, proven) ==> Settling(s, token))
      && (!CleanupAnswer(r, token, proven) ==> s.backend == r.backend)
      && (CleanupAnswer(r, token, proven) ==> s.error == r.error)
  {
    StepKeepsRecord(r, Event(CleanupOp(token, proven), now));
  }

  /** At most this run's record differs. */
  predicate OnlyRun(before: Runs, after: Runs, runId: string) {
    runId in after && after.Keys == before.Keys && forall id :: id in after && id != runId ==> after[id] == before[id]
  }

  const SLOT_RELEASE_UNPROVEN := "slot release could not be proven"

  /** The lifecycle errors of a worker: its heartbeat's, and its slots'. */
  function ReleaseErrors(heartbeatError: string, released: bool): string {
    if released then heartbeatError
    else if heartbeatError == "" then SLOT_RELEASE_UNPROVEN
    else heartbeatError + "; " + SLOT_RELEASE_UNPROVEN
  }

  lemma OnlyRunTwice(a: Runs, b: Runs, c: Runs, runId: string)
    requires OnlyRun(a, b, runId) && OnlyRun(b, c, runId)
    ensures OnlyRun(a, c, runId)
  {
  }

  class Supervisor {
    const store: RunStore
    const slots: SlotManager

    constructor (store: RunStore, slots: SlotManager)
      ensures this.store == store && this.slots == slots
    {
      this.store := store;
      this.slots := slots;
    }

    /** Other processes act on the run. */
    method OthersAct(runId: string, events: seq<Event>)
      requires store.Valid() && runId in store.runs && DisciplinedAll(events)
      modifies store
      ensures store.Valid() && store.runs == old(store.runs)[runId := Replay(old(store.runs)[runId], events)]
    {
      ReplayKeepsRecord(store.runs[runId], events);
      store.runs := store.runs[runId := Replay(store.runs[runId], events)];
    }

    /** Other processes act on a run this worker is settling. */
    method Await(runId: string, token: string, events: seq<Event>)
      requires store.Valid() && runId in store.runs && token != ""
      requires Settling(store.runs[runId], token) && AllTame(events, token)
      modifies store
      ensures store.Valid() && OnlyRun(old(store.runs), store.runs, runId)
      ensures Settling(store.runs[runId], token) && Evolves(old(store.runs)[runId], store.runs[runId])
      ensures old(store.runs)[runId].status == Running && AllForeign(events, token) ==>
        store.runs[runId].status == Running && store.runs[runId].error == old(store.runs)[runId].error
    {
      SettlingStays(store.runs[runId], events, token);
      ReplayKeepsRecord(store.runs[runId], events);
      if store.runs[runId].status == Running && AllForeign(events, token) {
        ForeignStays(store.runs[runId], events, token);
      }
      OthersAct(runId, events);
    }

    /** Reports an outcome; a refusal leaves the record alone. */
    method Submit(runId: string, o: Outcome, token: string, now: real) returns (reply: Reply)
      requires store.Valid() && runId in store.runs && token != ""
      requires Settling(store.runs[runId], token) && o.status.Terminal()
      modifies store
      ensures store.Valid() && OnlyRun(old(store.runs), store.runs, runId)
      ensures Settling(store.runs[runId], token) && Evolves(old(store.runs)[runId], store.runs[runId])
      ensures reply.Rejected? ==> store.runs == old(store.runs)
      ensures !reply.Rejected? ==> store.runs[runId].status.Terminal()
      ensures old(store.runs)[runId].status == Running ==>
        && (reply.Rejected? <==> CancelRequested(old(store.runs)[runId]) && o.status != Cancelled)
        && (!reply.Rejected? ==> Carries(old(store.runs)[runId], store.runs[runId], o)
                                 && (CancelRequested(store.runs[runId]) <==> CancelRequested(old(store.runs)[runId])))
    {
      ReportSettles(store.runs[runId], o, token, now);
      StepKeepsRecord(store.runs[runId], Event(Report(o, token), now));
      reply := store.UpdateStatus(runId, o.status, o.error, Some(o.result), Some(o.shadowPath), None, Some(token), now);
    }

    /** The retry that closes the race between the check and the report. */
    method Retry(runId: string, token: string, refused: Refusal, script: Script) returns (kept: Option<Refusal>)
      requires store.Valid() && runId in store.runs && token != "" && TameScript(script, token)
      requires Settling(store.runs[runId], token)
      requires store.runs[runId].status == Running ==> CancelRequested(store.runs[runId])
      modifies store
      ensures store.Valid() && OnlyRun(old(store.runs), store.runs, runId)
      ensures store.runs[runId].status.Terminal() && Evolves(old(store.runs)[runId], store.runs[runId])
      ensures old(store.runs)[runId].status == Running ==> CancelRequested(store.runs[runId])
      ensures old(store.runs)[runId].status == Running && ForeignScript(script, token) ==>
        kept.None? && Carries(old(store.runs)[runId], store.runs[runId], CANCELLED_OUTCOME)
    {
      Await(runId, token, script.beforeRecheck);
      var late := store.CancelRequestedFor(runId, token);
      if !late.value {
        return Some(refused);
      }
      Await(runId, token, script.beforeRetry);
      var reply := Submit(runId, CANCELLED_OUTCOME, token, script.retriedAt);
      return if reply.Rejected? then Some(reply.why) else None;
    }

    /** Reports the outcome, or retries as cancelled if that was refused. */
    method Record(runId: string, token: string, outcome: Outcome, script: Script)
      returns (refused: Option<Refusal>, retried: bool)
      requires store.Valid() && runId in store.runs && token != "" && TameScript(script, token)
      requires Settling(store.runs[runId], token) && outcome.status.Terminal()
      modifies store
      ensures store.Valid() && OnlyRun(old(store.runs), store.runs, runId) && store.runs[runId].status.Terminal()
      ensures CancelRequested(old(store.runs)[runId]) ==> CancelRequested(store.runs[runId])
      ensures old(store.runs)[runId].status == Running ==>
        && (CancelRequested(store.runs[runId]) <==> CancelRequested(old(store.runs)[runId]))
        && (retried ==> CancelRequested(store.runs[runId]))
        && (CancelRequested(store.runs[runId]) && outcome.status != Cancelled && refused.None? ==> retried)
        && (!CancelRequested(store.runs[runId]) ==> refused.None? && Carries(old(store.runs)[runId], store.runs[runId], outcome))
        && (ForeignScript(script, token) ==>
              && refused.None?
              && Carries(old(store.runs)[runId], store.runs[runId], if retried then CANCELLED_OUTCOME else outcome)
              && (retried ==> outcome.status != Cancelled) && (!retried && CancelRequested(store.runs[runId]) ==> outcome.status == Cancelled))
    {
      var reply := Submit(runId, outcome, token, script.updatedAt);
      if !reply.Rejected? {
        return None, false;
      }
      refused := Retry(runId, token, reply.why, script);
      retried := refused.None?;
    }

    /** A cancellation replaces whatever the worker came to; an error becomes a
        failure; and release errors spoil a success but only annotate the rest. */
    method SettleOutcome(cancelled: bool, work: Work, releaseErrors: string)
      returns (outcome: Outcome, operationError: Option<string>)
      ensures outcome == Concluded(cancelled, work, releaseErrors)
      ensures operationError == if cancelled || work.Reported? then None else Some(work.error)
    {
      operationError := if work.Raised? then Some(work.error) else None;
      if cancelled {
        outcome := CANCELLED_OUTCOME;
        operationError := None;
      } else if operationError.Some? {
        outcome := FailureOutcome("worker failed after claim: " + operationError.value);
      } else {
        outcome := work.outcome;
      }
      if releaseErrors != "" {
        if outcome.status in {Failed, Timeout, Cancelled} {
          outcome := outcome.(result := outcome.result + "; worker lifecycle cleanup also failed: " + releaseErrors);
        } else {
          outcome := FailureOutcome("worker lifecycle cleanup failed: " + releaseErrors);
        }
      }
    }

    /** The part after the cleanup: check for cancellation, report, and retry as
        cancelled when a request slipped in between. The run is over afterwards
        whatever others did; and if no one else held the token it is cancelled
        when that was asked for in time, and otherwise carries the outcome. */
    method Conclude(runId: string, token: string, work: Work, releaseErrors: string, script: Script) returns (ending: Ending)
      requires store.Valid() && runId in store.runs && token != "" && TameScript(script, token)
      requires Settling(store.runs[runId], token)
      requires work.Reported? ==> work.outcome.status.Terminal()
      modifies store
      ensures store.Valid() && OnlyRun(old(store.runs), store.runs, runId)
      ensures store.runs[runId].status.Terminal() && !ending.CleanupUnproven?
      ensures CancelRequested(old(store.runs)[runId]) ==> CancelRequested(store.runs[runId])
      ensures CancelRequested(store.runs[runId]) ==> store.runs[runId].status == Cancelled
      ensures old(store.runs)[runId].status == Running && ForeignScript(script, token) ==>
        && (!CancelRequested(store.runs[runId]) ==>
              TellsItsWork(old(store.runs)[runId], store.runs[runId], work, releaseErrors))
        && (CancelRequested(old(store.runs)[runId])
            || (CancelRequested(store.runs[runId]) && !(work.Reported? && work.outcome.status == Cancelled)) ==>
              TellsCancelled(store.runs[runId], releaseErrors))
        && (ending.Finished? <==> releaseErrors == "" && (work.Reported? || CancelRequested(store.runs[runId])))
        && (ending.Finished? ==> ending.record == store.runs[runId])
        && (!CancelRequested(store.runs[runId]) && work.Raised? ==> ending == WorkerError(work.error))
        && (work.Reported? && releaseErrors != "" ==> ending == ReleaseError(releaseErrors))
    {
      Await(runId, token, script.beforeCheck);
      var cancelled := store.CancelRequestedFor(runId, token);
      var outcome, operationError := SettleOutcome(cancelled.value, work, releaseErrors);
      ConcludedEnds(cancelled.value, work, releaseErrors);
      ghost var before := old(store.runs)[runId];
      Await(runId, token, script.beforeUpdate);
      var refused, retried := Record(runId, token, outcome, script);
      ConcludedTells(before, store.runs[runId], work, releaseErrors);
      if refused.Some? {
        return NotRecorded(refused.value);
      }
      if retried {
        operationError := None;
      }
      if operationError.Some? {
        return WorkerError(operationError.value);
      }
      if releaseErrors != "" {
        return ReleaseError(releaseErrors);
      }
      return Finished(store.runs[runId]);
    }

    /** Other processes act on a claimed run whose backend may still be tracked. */
    method AwaitWork(runId: string, token: string, events: seq<Event>)
      requires store.Valid() && runId in store.runs && token != "" && DisciplinedAll(events)
      requires store.runs[runId].workerToken == token && store.runs[runId].status != Accepted
      modifies store
      ensures store.Valid() && OnlyRun(old(store.runs), store.runs, runId)
      ensures store.runs[runId].workerToken == token && store.runs[runId].status != Accepted
      ensures CancelRequested(old(store.runs)[runId]) ==> CancelRequested(store.runs[runId])
      ensures old(store.runs)[runId].status == Running && AllForeign(events, token) ==>
        && store.runs[runId].status == Running && store.runs[runId].backend == old(store.runs)[runId].backend
        && store.runs[runId].error == old(store.runs)[runId].error
    {
      ReplayKeepsRecord(store.runs[runId], events);
      NeverAcceptedAgain(store.runs[runId], events);
      if store.runs[runId].status == Running && AllForeign(events, token) {
        ForeignStays(store.runs[runId], events, token);
      }
      OthersAct(runId, events);
    }

    method CleanUp(runId: string, token: string, proven: bool, now: real) returns (clean: bool)
      requires store.Valid() && runId in store.runs && token != ""
      requires store.runs[runId].workerToken == token && store.runs[runId].status != Accepted
      modifies store
      ensures store.Valid() && OnlyRun(old(store.runs), store.runs, runId)
      ensures store.runs[runId].status == old(store.runs)[runId].status && store.runs[runId].workerToken == token
      ensures CancelRequested(old(store.runs)[runId]) ==> CancelRequested(store.runs[runId])
      ensures clean ==> Settling(store.runs[runId], token)
      ensures !clean ==> store.runs[runId].backend == old(store.runs)[runId].backend
      ensures clean ==> store.runs[runId].error == old(store.runs)[runId].error
      ensures !clean ==> store.runs[runId].status == Running && !proven
      ensures store.runs[runId].status == Running ==> (clean <==> old(store.runs)[runId].backend.pid == 0 || proven)
    {
      CleanupSettles(store.runs[runId], token, proven, now);
      var reply;
      reply, clean := store.CleanupBackendIfOwned(runId, token, proven, now);
    }

    /** Stops the backend, unless the run is no longer this worker's to stop. */
    method ProveStopped(runId: string, token: string, script: Script) returns (clean: bool)
      requires store.Valid() && runId in store.runs && token != "" && DisciplinedAll(script.beforeCleanup)
      requires store.runs[runId].workerToken == token && store.runs[runId].status != Accepted
      modifies store
      ensures store.Valid() && OnlyRun(old(store.runs), store.runs, runId)
      ensures CancelRequested(old(store.runs)[runId]) ==> CancelRequested(store.runs[runId])
      ensures clean ==> Settling(store.runs[runId], token)
      ensures old(store.runs)[runId].status == Running && AllForeign(script.beforeCleanup, token) ==>
        && store.runs[runId].status == Running
        && (clean <==> old(store.runs)[runId].backend.pid == 0 || script.proven)
        && (!clean ==> store.runs[runId].backend == old(store.runs)[runId].backend)
        && (clean ==> store.runs[runId].error == old(store.runs)[runId].error)
    {
      AwaitWork(runId, token, script.beforeCleanup);
      clean := CleanUp(runId, token, script.proven, script.cleanedAt);
    }

    /** Other processes use the slot tables. */
    method OthersUseSlots(actions: seq<Action>)
      modifies slots
      ensures slots.slots == PerformedAll(old(slots.slots), actions)
    {
      slots.slots := PerformedAll(slots.slots, actions);
    }

    /** Stops the heartbeat and gives the slots back, collecting what fails. */
    method GiveBackSlots(leases: seq<SlotLease>, script: Script) returns (releaseErrors: string)
      requires |script.faults| == |leases|
      modifies slots
      ensures var found := PerformedAll(old(slots.slots), script.beforeRelease);
        && slots.slots == ReleasedAll(found, leases, script.faults, script.releasedAt)
        && releaseErrors == ReleaseErrors(script.heartbeatError,
                                          AllReleasesSucceed(found, leases, script.faults, script.releasedAt))
    {
      releaseErrors := script.heartbeatError;
      OthersUseSlots(script.beforeRelease);
      var proven := slots.ReleaseAll(leases, script.faults, script.releasedAt);
      if !proven {
        releaseErrors := if releaseErrors == "" then SLOT_RELEASE_UNPROVEN else releaseErrors + "; " + SLOT_RELEASE_UNPROVEN;
      }
    }

    /** Everything from the end of the adapter's work on. The slots are given back
        exactly when the backend is proven stopped, and then the run is over;
        otherwise the table keeps the leases and nothing is concluded. A release
        that fails spoils the outcome. */
    method Finalise(runId: string, token: string, leases: seq<SlotLease>, work: Work, script: Script)
      returns (ending: Ending, released: bool, releaseErrors: string)
      requires store.Valid() && runId in store.runs && token != "" && TameScript(script, token)
      requires store.runs[runId].workerToken == token && store.runs[runId].status != Accepted
      requires work.Reported? ==> work.outcome.status.Terminal()
      requires |script.faults| == |leases|
      modifies store, slots
      ensures store.Valid() && OnlyRun(old(store.runs), store.runs, runId)
      ensures CancelRequested(old(store.runs)[runId]) ==> CancelRequested(store.runs[runId])
      ensures released <==> !ending.CleanupUnproven?
      ensures !released ==> slots.slots == old(slots.slots)
      ensures var found := PerformedAll(old(slots.slots), script.beforeRelease);
        released ==>
          && slots.slots == ReleasedAll(found, leases, script.faults, script.releasedAt)
          && releaseErrors == ReleaseErrors(script.heartbeatError,
                                            AllReleasesSucceed(found, leases, script.faults, script.releasedAt))
      ensures released ==> store.runs[runId].status.Terminal() && store.runs[runId].backend.pid == 0
      ensures released && CancelRequested(store.runs[runId]) ==> store.runs[runId].status == Cancelled
      ensures old(store.runs)[runId].status == Running && ForeignScript(script, token) ==>
        && (released <==> old(store.runs)[runId].backend.pid == 0 || script.proven)
        && (!released ==> store.runs[runId].status == Running && store.runs[runId].backend == old(store.runs)[runId].backend)
        && (released && !CancelRequested(store.runs[runId]) ==>
              TellsItsWork(old(store.runs)[runId], store.runs[runId], work, releaseErrors))
        && (released && (CancelRequested(old(store.runs)[runId])
                         || (CancelRequested(store.runs[runId]) && !(work.Reported? && work.outcome.status == Cancelled))) ==>
              TellsCancelled(store.runs[runId], releaseErrors))
        && (ending.Finished? <==>
              released && releaseErrors == "" && (work.Reported? || CancelRequested(store.runs[runId])))
    {
      var clean := ProveStopped(runId, token, script);
      if !clean {
        return CleanupUnproven, false, "";
      }
      releaseErrors := GiveBackSlots(leases, script);
      ending := Conclude(runId, token, work, releaseErrors, script);
      released := true;
    }

    // --------------------------------------------------- starting a detached worker

    /** Others act on a reserved or claimed run whose worker is gone, or may not be. */
    method AwaitGone(runId: string, token: string, gone: bool, events: seq<Event>)
      requires store.Valid() && runId in store.runs && token != "" && DisciplinedAll(events)
      requires gone ==> AllBystanders(events, token)
      requires store.runs[runId].workerToken == token
      modifies store
      ensures store.Valid() && OnlyRun(old(store.runs), store.runs, runId) && store.runs[runId].workerToken == token
      ensures gone ==> Abandoned(old(store.runs)[runId], store.runs[runId])
      ensures old(store.runs)[runId].status != Accepted ==> store.runs[runId].status != Accepted
    {
      ReplayKeepsRecord(store.runs[runId], events);
      ReservationExclusive(store.runs[runId], events, token);
      if gone {
        BystandersAbandon(store.runs[runId], events, token);
      }
      if store.runs[runId].status != Accepted {
        NeverAcceptedAgain(store.runs[runId], events);
      }
      OthersAct(runId, events);
    }

    /** Ends what is left of a worker's run once the worker is gone: reserved or
        running, with its backend stopped. */
    method EndActive(runId: string, token: string, error: string, now: real) returns (record: RunRecord)
      requires store.Valid() && runId in store.runs && token != "" && store.runs[runId].workerToken == token
      modifies store
      ensures store.Valid() && OnlyRun(old(store.runs), store.runs, runId) && store.runs[runId].workerToken == token
      ensures record == store.runs[runId]
      ensures old(store.runs)[runId].status == Running && old(store.runs)[runId].backend.pid != 0
              ==> store.runs == old(store.runs)
      ensures old(store.runs)[runId].status != Running || old(store.runs)[runId].backend.pid == 0
              ==> store.runs[runId].status.Terminal()
      ensures CancelRequested(store.runs[runId]) && store.runs[runId].status.Terminal() ==> store.runs[runId].status == Cancelled
    {
      StepKeepsRecord(store.runs[runId], Event(FailIfActiveOp(token, error), now));
      var reply := store.FailIfActiveWorker(runId, token, error, now);
      return reply.record;
    }

    /** Ends a run that is still reserved; otherwise says what became of it. */
    method FailReserved(runId: string, token: string, error: string, now: real) returns (record: RunRecord)
      requires store.Valid() && runId in store.runs && token != "" && store.runs[runId].workerToken == token
      modifies store
      ensures store.Valid() && OnlyRun(old(store.runs), store.runs, runId) && store.runs[runId].workerToken == token
      ensures record == store.runs[runId]
      ensures old(store.runs)[runId].status == Accepted ==> record.status == Failed
      ensures old(store.runs)[runId].status != Accepted ==> store.runs == old(store.runs)
    {
      StepKeepsRecord(store.runs[runId], Event(FailIfReservedOp(token, error), now));
      var reply := store.FailIfReservedWorker(runId, token, error, now);
      return reply.record;
    }

    /** Fails a spawn, once its worker and its backend are proven stopped. */
    method FailAsyncSupervision(runId: string, token: string, launched: bool, error: string, left: Departure)
      returns (ended: bool)
      requires store.Valid() && runId in store.runs && token != "" && Departs(left, token, !(launched && left.stopFails))
      requires store.runs[runId].workerToken == token
      modifies store
      ensures store.Valid() && OnlyRun(old(store.runs), store.runs, runId) && store.runs[runId].workerToken == token
      ensures ended ==> store.runs[runId].status.Terminal()
      ensures ended ==> !(launched && left.stopFails) && !left.profileFails
      ensures !ended ==> (launched && left.stopFails) || left.profileFails || (!left.proven && store.runs[runId].status == Running)
    {
      var failed := launched && left.stopFails;
      AwaitGone(runId, token, !(launched && left.stopFails), left.beforeLook);
      var current := store.Load(runId);
      AwaitGone(runId, token, !(launched && left.stopFails), left.beforeCleanup);
      if current.value.status == Running {
        var clean := CleanUp(runId, token, left.proven, left.cleanedAt);
        failed := failed || !clean;
      }
      if failed || left.profileFails {
        return false;
      }
      AwaitGone(runId, token, true, left.beforeEnd);
      var record := EndActive(runId, token, "worker spawn failed: " + error, left.endedAt);
      return true;
    }

    /** Waits for a worker's exit and ends the run it left behind: a run nobody
        claimed fails, a claimed one ends once its backend is proven stopped. */
    method ReapAsyncWorker(runId: string, token: string, error: string, gone: Departure)
      requires store.Valid() && runId in store.runs && token != "" && Departs(gone, token, true)
      requires store.runs[runId].workerToken == token
      modifies store
      ensures store.Valid() && OnlyRun(old(store.runs), store.runs, runId) && store.runs[runId].workerToken == token
      ensures store.runs[runId].status != Accepted
      ensures store.runs[runId].status == Running ==> old(store.runs)[runId].status == Running && !gone.proven
    {
      AwaitGone(runId, token, true, gone.beforeLook);
      var current := FailReserved(runId, token, error, gone.lookedAt);
      if current.status == Running {
        AwaitGone(runId, token, true, gone.beforeCleanup);
        var clean := CleanUp(runId, token, gone.proven, gone.cleanedAt);
        if !clean {
          return;
        }
        AwaitGone(runId, token, true, gone.beforeEnd);
        var record := EndActive(runId, token, error, gone.endedAt);
      }
    }

    /** Polls a started worker until its run is no longer reserved or it exits. */
    method PollWorker(runId: string, token: string, launch: Launch) returns (resolved: Option<Spawned>)
      requires store.Valid() && runId in store.runs && token != "" && FairLaunch(launch, token)
      requires store.runs[runId].workerToken == token && Launched(launch)
      modifies store
      ensures store.Valid() && OnlyRun(old(store.runs), store.runs, runId) && store.runs[runId].workerToken == token
      ensures var last := Unresolved(old(store.runs)[runId], launch.polls);
        (resolved.None? <==> last.Some?) && (resolved.None? ==> store.runs[runId] == last.value)
      ensures resolved.Some? ==> Settles(resolved.value, store.runs[runId], launch)
    {
      resolved := None;
      for i := 0 to |launch.polls|
        invariant store.Valid() && OnlyRun(old(store.runs), store.runs, runId) && store.runs[runId].workerToken == token
        invariant resolved.None?
        invariant Unresolved(store.runs[runId], launch.polls[i..]) == Unresolved(old(store.runs)[runId], launch.polls)
      {
        ghost var met := store.runs;
        assert launch.polls[i..][1..] == launch.polls[i + 1..];
        resolved := PollOnce(runId, token, launch, launch.polls[i]);
        OnlyRunTwice(old(store.runs), met, store.runs, runId);
        if resolved.Some? {
          return;
        }
      }
    }

    method PollOnce(runId: string, token: string, launch: Launch, poll: Poll) returns (resolved: Option<Spawned>)
      requires store.Valid() && runId in store.runs && token != "" && FairLaunch(launch, token) && DisciplinedAll(poll.before)
      requires store.runs[runId].workerToken == token && Launched(launch)
      modifies store
      ensures store.Valid() && OnlyRun(old(store.runs), store.runs, runId) && store.runs[runId].workerToken == token
      ensures resolved.None? <==> Replay(old(store.runs)[runId], poll.before).status == Accepted && !poll.exited
      ensures resolved.None? ==> store.runs[runId] == Replay(old(store.runs)[runId], poll.before)
      ensures resolved.Some? ==> Settles(resolved.value, store.runs[runId], launch)
    {
      AwaitWorker(runId, token, poll.before);
      if store.runs[runId].status != Accepted {
        var spawned := Supervise(runId, token, launch);
        return Some(spawned);
      }
      if poll.exited {
        ReapAsyncWorker(runId, token, "exited", launch.reaped);
        return Some(Supervised(store.runs[runId]));
      }
      return None;
    }

    /** Waits for a started worker to claim its run, until a deadline. The parent
        never returns with the run still reserved; it kills the worker exactly if by
        then it neither claimed its run nor exited, and then the run has failed and
        no claim of it can ever succeed. */
    method Handshake(runId: string, token: string, launch: Launch) returns (spawned: Spawned)
      requires store.Valid() && runId in store.runs && token != "" && FairLaunch(launch, token)
      requires store.runs[runId].workerToken == token && Launched(launch)
      modifies store
      ensures store.Valid() && OnlyRun(old(store.runs), store.runs, runId) && store.runs[runId].workerToken == token
      ensures !spawned.Refused? && Resolved(spawned, store.runs[runId])
      ensures spawned.Killed? <==> TimesOut(old(store.runs)[runId], launch)
      ensures spawned.SupervisionFailed? ==> launch.reaperFails
    {
      var resolved := PollWorker(runId, token, launch);
      if resolved.Some? {
        return resolved.value;
      }
      AwaitWorker(runId, token, launch.beforeDeadline);
      var current := FailReserved(runId, token, "startup deadline", launch.deadlineAt);
      if current.status != Failed {
        spawned := Supervise(runId, token, launch);
        return;
      }
      FailedIsFinal(store.runs[runId]);
      return Killed(current);
    }

    method AwaitReservation(runId: string, events: seq<Event>)
      requires store.Valid() && runId in store.runs && DisciplinedAll(events)
      modifies store
      ensures store.Valid() && OnlyRun(old(store.runs), store.runs, runId)
      ensures old(store.runs)[runId].workerToken != "" ==> store.runs[runId].workerToken == old(store.runs)[runId].workerToken
      ensures store.runs[runId] == Replay(old(store.runs)[runId], events)
    {
      ReplayKeepsRecord(store.runs[runId], events);
      OthersAct(runId, events);
    }

    method TakeReservation(runId: string, token: string, now: real) returns (taken: bool)
      requires store.Valid() && runId in store.runs && token != ""
      modifies store
      ensures store.Valid() && OnlyRun(old(store.runs), store.runs, runId)
      ensures taken <==> old(store.runs)[runId].status == Accepted && old(store.runs)[runId].workerToken == ""
      ensures taken ==> store.runs[runId].workerToken == token
      ensures taken ==> store.runs[runId] == After(old(store.runs)[runId], Event(ReserveOp(token), now))
    {
      var reply := store.ReserveAsyncWorker(runId, token, now);
      return reply.Saved?;
    }

    /** Binds an accepted run to one worker generation. */
    method Reserve(runId: string, token: string, launch: Launch) returns (reserved: bool)
      requires store.Valid() && token != "" && DisciplinedAll(launch.beforeReserve)
      modifies store
      ensures store.Valid() && store.runs.Keys == old(store.runs).Keys
      ensures reserved ==> OnlyRun(old(store.runs), store.runs, runId) && store.runs[runId].workerToken == token
      ensures reserved ==> old(store.runs)[runId].status == Accepted && old(store.runs)[runId].workerToken == ""
      ensures reserved <==> Reservable(old(store.runs), runId, launch)
      ensures reserved ==> store.runs[runId] == Reserved(old(store.runs)[runId], token, launch)
    {
      if runId !in store.runs || store.runs[runId].status != Accepted {
        return false;
      }
      AwaitReservation(runId, launch.beforeReserve);
      reserved := TakeReservation(runId, token, launch.reservedAt);
    }

    /** Reserves a run for a fresh token, starts its worker and resolves the start. */
    method SpawnWorker(runId: string, token: string, launch: Launch) returns (spawned: Spawned)
      requires store.Valid() && token != "" && FairLaunch(launch, token)
      modifies store
      ensures store.Valid() && store.runs.Keys == old(store.runs).Keys
      ensures !spawned.Refused? ==> OnlyRun(old(store.runs), store.runs, runId) && store.runs[runId].workerToken == token
      ensures !spawned.Refused? ==> old(store.runs)[runId].status == Accepted && old(store.runs)[runId].workerToken == ""
      ensures !spawned.Refused? ==> Resolved(spawned, store.runs[runId])
      ensures spawned.Refused? <==> !Reservable(old(store.runs), runId, launch)
      ensures !spawned.Refused? && (launch.setupFails || launch.launchFails) ==> spawned.SupervisionFailed?
      ensures !spawned.Refused? && !launch.setupFails && !launch.launchFails ==>
        && (spawned.Killed? <==> TimesOut(Reserved(old(store.runs)[runId], token, launch), launch))
        && (!launch.reaperFails ==> spawned.Supervised? || spawned.Killed?)
    {
      var reserved := Reserve(runId, token, launch);
      if !reserved {
        return Refused;
      }
      if launch.setupFails {
        var ended := FailAsyncSupervision(runId, token, false, "environment", launch.failed);
        return SupervisionFailed(ended);
      }
      if launch.launchFails {
        var ended := FailAsyncSupervision(runId, token, launch.startedAnyway, "launch", launch.failed);
        return SupervisionFailed(ended);
      }
      spawned := Handshake(runId, token, launch);
    }

    /** The worker under its token, and everybody else, act on a reserved run. */
    method AwaitWorker(runId: string, token: string, events: seq<Event>)
      requires store.Valid() && runId in store.runs && token != "" && DisciplinedAll(events)
      requires store.runs[runId].workerToken == token
      modifies store
      ensures store.Valid() && OnlyRun(old(store.runs), store.runs, runId) && store.runs[runId].workerToken == token
      ensures store.runs[runId] == Replay(old(store.runs)[runId], events)
    {
      ReservationExclusive(store.runs[runId], events, token);
      OthersAct(runId, events);
    }

    /** Hands a resolved start over to a reaper thread. */
    method Supervise(runId: string, token: string, launch: Launch) returns (spawned: Spawned)
      requires store.Valid() && runId in store.runs && token != "" && FairLaunch(launch, token) && Launched(launch)
      requires store.runs[runId].workerToken == token && store.runs[runId].status != Accepted
      modifies store
      ensures store.Valid() && OnlyRun(old(store.runs), store.runs, runId) && store.runs[runId].workerToken == token
      ensures (spawned.Supervised? || spawned.SupervisionFailed?) && Resolved(spawned, store.runs[runId])
      ensures spawned.SupervisionFailed? <==> launch.reaperFails
    {
      if launch.reaperFails {
        var ended := FailAsyncSupervision(runId, token, true, "reaper", launch.failed);
        return SupervisionFailed(ended);
      }
      return Supervised(store.runs[runId]);
    }
  }
}
