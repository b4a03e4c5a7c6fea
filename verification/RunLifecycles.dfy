/** The life of one run, in its record: what each accepted call writes, when it is
    refused or does nothing, and what whole lives come to. */
module RunLifecycles {
  import opened Common
  import opened RunRecords

  // ---------------------------------------------------------------- whole lives

  /** A run that is created, reserved, claimed under the reserved token, given a
      backend, cleaned up and reported is completed with exactly what was reported:
      five writes, its claim's worker and slots, and no backend left. */
  lemma CompletedLife(runId: string, origin: Origin, token: string, slots: seq<string>, worker: Process, pid: nat,
      started: string, lock: string, result: string, shadow: string, at: real)
    requires token != "" && worker.pid != 0 && worker.startedAt != ""
    requires pid != 0 && started != "" && !("unknown-" <= started)
    ensures Replay(NewRecord(runId, origin, 1.0),
                   [Event(ReserveOp(token), 2.0),
                    Event(ClaimOp(token, slots, worker), 3.0),
                    Event(BindBackendOp(token, pid, pid, started, lock, Probe(true, Some(pid), Some(started))), 4.0),
                    Event(CleanupOp(token, true), 5.0),
                    Event(UpdateStatusOp(Completed, "", Some(result), Some(shadow), None, Some(token)), at)])
         == RunRecord(runId, Completed, origin, at, Some(result), "", shadow, slots, 5, token, worker,
                      Backend(0, 0, "", ""), 0.0, "")
  {
    var reserve, claim := Event(ReserveOp(token), 2.0), Event(ClaimOp(token, slots, worker), 3.0);
    var track := Event(BindBackendOp(token, pid, pid, started, lock, Probe(true, Some(pid), Some(started))), 4.0);
    var clean := Event(CleanupOp(token, true), 5.0);
    var report := Event(UpdateStatusOp(Completed, "", Some(result), Some(shadow), None, Some(token)), at);
    var r0 := NewRecord(runId, origin, 1.0);
    var r1 := After(r0, reserve);
    var r2 := After(r1, claim);
    assert r2 == RunRecord(runId, Running, origin, 3.0, None, "", "", slots, 2, token, worker, Backend(0, 0, "", ""), 0.0, "");
    var r3 := After(r2, track);
    assert r3.backend == Backend(pid, pid, started, lock) && r3.status == Running;
    var r4 := After(r3, clean);
    FiveSteps(r0, reserve, claim, track, clean, report);
    assert r4 == RunRecord(runId, Running, origin, 5.0, None, "", "", slots, 4, token, worker, Backend(0, 0, "", ""), 0.0, "");
  }

  lemma OneStep(r: RunRecord, e: Event, rest: seq<Event>)
    ensures Replay(r, [e] + rest) == Replay(After(r, e), rest)
  {
    assert ([e] + rest)[1..] == rest;
  }

  lemma FiveSteps(r: RunRecord, a: Event, b: Event, c: Event, d: Event, e: Event)
    ensures Replay(r, [a, b, c, d, e]) == After(After(After(After(After(r, a), b), c), d), e)
  {
    assert [a, b, c, d, e] == [a] + ([b] + ([c] + ([d] + ([e] + []))));
    OneStep(r, a, [b] + ([c] + ([d] + ([e] + []))));
    OneStep(After(r, a), b, [c] + ([d] + ([e] + [])));
    OneStep(After(After(r, a), b), c, [d] + ([e] + []));
    OneStep(After(After(After(r, a), b), c), d, [e] + []);
    OneStep(After(After(After(After(r, a), b), c), d), e, []);
  }

  /** A cancellation that meets a claimed run is written once, with its reason; from
      then on the worker can report nothing but that the run was cancelled. */
  lemma CancelledLife(r: RunRecord, reason: string, again: string, asked: real, later: real, status: Status, error: string,
      result: string, at: real)
    requires r.status == Running && r.cancelRequestedAt == 0.0 && r.workerToken != "" && r.backend.pid == 0
    requires |reason| <= 500 && |again| <= 500 && asked > 0.0 && status in {Completed, Failed, Timeout, Cancelled}
    ensures var flagged := After(r, Event(RequestCancelOp(reason), asked));
      && flagged == r.(cancelRequestedAt := asked, cancelReason := reason, revision := r.revision + 1, updatedAt := asked)
      && After(flagged, Event(RequestCancelOp(again), later)) == flagged
      && var report := Event(UpdateStatusOp(status, error, Some(result), None, None, Some(r.workerToken)), at);
         if status != Cancelled then Apply(flagged, report) == Rejected(CancelPending)
         else After(flagged, report) == flagged.(status := Cancelled, error := if error != "" then error else r.error,
                                                 result := Some(result), revision := r.revision + 2, updatedAt := at)
  {
  }

  /** A cancellation that comes before any claim ends the run, and no claim succeeds. */
  lemma CancelledBeforeClaim(r: RunRecord, reason: string, asked: real, token: string, slots: seq<string>, worker: Process,
      at: real)
    requires r.status == Accepted && r.cancelRequestedAt == 0.0 && |reason| <= 500 && asked > 0.0
    ensures var ended := After(r, Event(RequestCancelOp(reason), asked));
      && ended == r.(status := Cancelled, cancelRequestedAt := asked, cancelReason := reason, revision := r.revision + 1,
                     updatedAt := asked)
      && Apply(ended, Event(ClaimOp(token, slots, worker), at)).Rejected?
  {
  }

  // --------------------------------------------------- what the calls ask and write

  /** What a create checks of an origin: lengths and forms of its names and digests; a
      base head only for an edit with a context; a profile exactly with its own digest,
      for this backend, of short entries that may be presented. */
  lemma OriginsAreAcceptedExactlyWhen(v: Vetting, o: Origin)
    ensures ValidOrigin(o) && Vetted(v, o) <==>
      && |o.orchestrationId| <= 256 && |o.contextSha256| in {0, 64} && IsLowerHex(o.contextSha256)
      && |o.baseHead| in {0, 40, 64} && IsLowerHex(o.baseHead)
      && (o.baseHead != "" ==> o.contextSha256 != "" && o.mode == "edit")
      && |o.profileSha256| in {0, 64} && IsLowerHex(o.profileSha256)
      && (if o.profile == map[] then o.profileSha256 == ""
          else
            && o.profileSha256 != "" && o.profileSha256 == v.digest(o.profile)
            && "backend" in o.profile && o.profile["backend"] == o.backend
            && forall name :: name in o.profile ==>
                 0 < |name| <= 64 && |o.profile[name]| <= 4096 && v.allowed(o.profile[name]))
  {
  }

  /** A cancellation is refused for a reason of more than 500 characters, and
      otherwise written exactly for a run that is not over and not yet asked to stop. */
  lemma CancelWritesExactlyWhen(r: RunRecord, reason: string, now: real)
    requires now > 0.0
    ensures var reply := Apply(r, Event(RequestCancelOp(reason), now));
      && (reply.Rejected? <==> |reason| > 500)
      && (reply.Saved? <==> |reason| <= 500 && r.status in {Accepted, Running} && r.cancelRequestedAt == 0.0)
  {
  }

  /** A reservation is written exactly for an accepted run that has no token, and
      writes the token and nothing else. */
  lemma ReservesExactlyWhen(r: RunRecord, token: string, now: real)
    ensures var reply := Apply(r, Event(ReserveOp(token), now));
      && (reply.Saved? <==> token != "" && r.status == Accepted && r.workerToken == "")
      && (!reply.Saved? ==> reply.Rejected?)
      && (reply.Saved? ==> reply.record == r.(workerToken := token, revision := r.revision + 1, updatedAt := now))
  {
  }

  /** A claim succeeds exactly on an accepted run, unreserved or reserved for its
      token, by a worker whose identity is whole, and writes that worker, its token
      and its slots. */
  lemma ClaimsExactlyWhen(r: RunRecord, token: string, slots: seq<string>, worker: Process, now: real)
    ensures var reply := Apply(r, Event(ClaimOp(token, slots, worker), now));
      && (reply.Saved? <==> token != "" && (worker.pid != 0 <==> worker.startedAt != "")
                            && r.status == Accepted && r.workerToken in {"", token})
      && (!reply.Saved? ==> reply.Rejected?)
      && (reply.Saved? ==> reply.record == r.(status := Running, workerToken := token, worker := worker, leaseSlots := slots,
                                              revision := r.revision + 1, updatedAt := now))
  {
  }

  /** A backend is tracked exactly for the running owner that tracks none, when it
      leads its own group, holds its lifetime lock and is the generation it says. */
  lemma TracksExactlyWhen(r: RunRecord, token: string, pid: int, pgid: int, started: string, lock: string, probe: Probe,
      now: real)
    ensures var reply := Apply(r, Event(BindBackendOp(token, pid, pgid, started, lock, probe), now));
      && (reply.Saved? <==>
            && pid > 0 && pgid == pid && started != "" && !("unknown-" <= started)
            && probe.lifetimeLockHeld && probe.livePgid == Some(pid) && probe.liveStartedAt == Some(started)
            && r.status == Running && r.workerToken == token && r.backend.pid == 0)
      && (!reply.Saved? ==> reply.Rejected?)
      && (reply.Saved? ==> reply.record == r.(backend := Backend(pid, pid, started, lock), revision := r.revision + 1,
                                              updatedAt := now))
  {
  }

  /** A clean-up writes exactly for the running owner's tracked backend: it untracks
      what was proven stopped, and otherwise notes that it could not be proven. Its
      answer is yes for a run that is over, or the owner's with nothing left to stop. */
  lemma CleansUpExactlyWhen(r: RunRecord, token: string, proven: bool, now: real)
    ensures var reply := Apply(r, Event(CleanupOp(token, proven), now));
      && (reply.Saved? <==> r.status == Running && r.workerToken == token && r.backend.pid != 0)
      && (!reply.Saved? ==> reply == Unchanged(r))
      && (reply.Saved? && proven ==>
            reply.record == r.(backend := Backend(0, 0, "", ""), revision := r.revision + 1, updatedAt := now))
      && (reply.Saved? && !proven ==>
            reply.record == r.(error := "backend process-group cleanup could not be proven", revision := r.revision + 1,
                               updatedAt := now))
    ensures CleanupAnswer(r, token, proven)
            <==> r.status in {Completed, Failed, Timeout, Cancelled}
                 || (r.status == Running && r.workerToken == token && (r.backend.pid == 0 || proven))
  {
  }

  /** An update is refused exactly when it would change how a run ended, or take a
      running run out of its owner's hands, off a tracked backend, or past a
      requested cancellation; it writes the status and whatever it carries. */
  lemma UpdatesExactlyWhen(r: RunRecord, status: Status, error: string, result: Option<string>, shadow: Option<string>,
      slots: Option<seq<string>>, token: Option<string>, now: real)
    ensures var reply := Apply(r, Event(UpdateStatusOp(status, error, result, shadow, slots, token), now));
      && (reply.Saved? <==>
            && (r.status in {Completed, Failed, Timeout, Cancelled} ==> status == r.status)
            && (r.status == Running && status != Running ==>
                  && token.Some? && token.value != "" && token.value == r.workerToken && r.backend.pid == 0
                  && (r.cancelRequestedAt != 0.0 ==> status == Cancelled)))
      && (!reply.Saved? ==> reply.Rejected?)
      && (reply.Saved? ==>
            && reply.record.status == status && reply.record.updatedAt == now && reply.record.revision == r.revision + 1
            && reply.record.error == (if error != "" then error else r.error)
            && reply.record.result == (if result.Some? then result else r.result)
            && reply.record.shadowPath == (if shadow.Some? then shadow.value else r.shadowPath)
            && reply.record.leaseSlots == (if slots.Some? then slots.value else r.leaseSlots)
            && reply.record.(status := r.status, updatedAt := r.updatedAt, revision := r.revision, error := r.error,
                             result := r.result, shadowPath := r.shadowPath, leaseSlots := r.leaseSlots) == r)
  {
  }

  /** What the four ways to fail a run write. */
  function EndedWith(r: RunRecord, error: string, now: real): RunRecord {
    if r.cancelRequestedAt != 0.0 then r.(status := Cancelled, revision := r.revision + 1, updatedAt := now)
    else r.(status := Failed, error := error, revision := r.revision + 1, updatedAt := now)
  }

  /** Each of the four writes exactly in its own case and otherwise leaves the record
      alone: an accepted run nobody reserved; the owner's running run without a
      backend; the owner's run, reserved or running without a backend; the owner's
      reserved run, which always fails. */
  lemma FailsExactlyWhen(r: RunRecord, token: string, error: string, now: real)
    ensures After(r, Event(FailIfAcceptedOp(error), now))
         == if r.status == Accepted && r.workerToken == "" then EndedWith(r, error, now) else r
    ensures After(r, Event(FailIfRunningOp(token, error), now))
         == if r.status == Running && r.workerToken == token && r.backend.pid == 0 then EndedWith(r, error, now) else r
    ensures After(r, Event(FailIfActiveOp(token, error), now))
         == if r.workerToken == token && (r.status == Accepted || (r.status == Running && r.backend.pid == 0))
            then EndedWith(r, error, now) else r
    ensures After(r, Event(FailIfReservedOp(token, error), now))
         == if r.status == Accepted && r.workerToken == token
            then r.(status := Failed, error := error, revision := r.revision + 1, updatedAt := now) else r
  {
  }
}
