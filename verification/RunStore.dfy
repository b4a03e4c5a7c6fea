/** The persisted run store: one record per run id, each method one
    lock-guarded read-modify-write of a single record. */
module RunStores {
  import opened Common
  import opened RunRecords

  type Runs = map<string, RunRecord>

  /** The records after one reply about `runId`. */
  function Stored(runs: Runs, runId: string, reply: Reply): Runs {
    if reply.Saved? then runs[runId := reply.record] else runs
  }

  /** What a transition answers when the record may be missing. */
  function AnswerFor(runs: Runs, runId: string, e: Event): Reply {
    if runId in runs then Apply(runs[runId], e) else Rejected(NotFound)
  }

  ghost predicate ValidRuns(runs: Runs) {
    forall id :: id in runs ==> runs[id].runId == id && WellFormed(runs[id]) && Inv(runs[id])
  }

  lemma StoredKeepsValid(runs: Runs, runId: string, e: Event)
    requires ValidRuns(runs) && ValidEvent(e)
    ensures ValidRuns(Stored(runs, runId, AnswerFor(runs, runId, e)))
  {
    if runId in runs {
      StepKeepsRecord(runs[runId], e);
    }
  }

  // ------------------------------------------------------------- reconciliation

  /** The probes one reconciliation pass consults. */
  datatype Oracle = Oracle(dead: Process -> bool, backendStopped: string -> bool)

  const RESERVATION_EXPIRED := "async worker reservation expired before process claim"
  const WORKER_EXITED := "worker process exited before publishing a terminal result"

  predicate ReservationExpired(r: RunRecord, now: real) {
    r.status == Accepted && r.workerToken != "" && r.worker.pid == 0
    && now - r.updatedAt >= ASYNC_RESERVATION_GRACE_SECONDS
  }

  predicate WorkerDied(r: RunRecord, oracle: Oracle) {
    r.status == Running && r.workerToken != "" && r.worker.pid != 0 && r.worker.startedAt != ""
    && oracle.dead(r.worker)
  }

  /** What reconciliation makes of one record. */
  function ReconciledRecord(r: RunRecord, now: real, oracle: Oracle): RunRecord {
    if ReservationExpired(r, now) then
      After(r, Event(FailIfReservedOp(r.workerToken, RESERVATION_EXPIRED), now))
    else if WorkerDied(r, oracle) then
      var proven := oracle.backendStopped(r.runId);
      var cleaned := After(r, Event(CleanupOp(r.workerToken, proven), now));
      if CleanupAnswer(r, r.workerToken, proven)
      then After(cleaned, Event(FailIfActiveOp(r.workerToken, WORKER_EXITED), now))
      else cleaned
    else r
  }

  /** Reconciliation ends exactly the runs whose reservation expired or whose
      worker is dead with its backend proven stopped; a requested cancellation
      still ends as cancelled, and no other run is touched except to note that
      its backend could not be stopped. */
  lemma ReconciliationOutcome(r: RunRecord, now: real, oracle: Oracle)
    requires Inv(r) && WellFormed(r)
    ensures var s := ReconciledRecord(r, now, oracle);
      var expired := r.status == Accepted && r.workerToken != "" && r.worker.pid == 0 && now - r.updatedAt >= 10.0;
      var died := r.status == Running && r.workerToken != "" && r.worker.pid != 0 && r.worker.startedAt != ""
                  && oracle.dead(r.worker);
      var ended := expired || (died && (r.backend.pid == 0 || oracle.backendStopped(r.runId)));
      && (s.status != r.status <==> ended)
      && (ended ==> s.status == (if r.cancelRequestedAt != 0.0 then Cancelled else Failed) && s.backend.pid == 0)
      && (ended && r.cancelRequestedAt == 0.0 ==>
            s.error == if expired then "async worker reservation expired before process claim"
                       else "worker process exited before publishing a terminal result")
      && (!ended && !died ==> s == r)
      && (!ended ==> s.(error := r.error, revision := r.revision, updatedAt := r.updatedAt) == r)
      && Inv(s) && WellFormed(s) && Evolves(r, s)
  {
    if ReservationExpired(r, now) {
      StepKeepsRecord(r, Event(FailIfReservedOp(r.workerToken, RESERVATION_EXPIRED), now));
    } else if WorkerDied(r, oracle) {
      var cleanup := Event(CleanupOp(r.workerToken, oracle.backendStopped(r.runId)), now);
      StepKeepsRecord(r, cleanup);
      StepKeepsRecord(After(r, cleanup), Event(FailIfActiveOp(r.workerToken, WORKER_EXITED), now));
    }
  }

  predicate Fails(r: RunRecord, now: real, oracle: Oracle) {
    r.status != Failed && ReconciledRecord(r, now, oracle).status == Failed
  }

  predicate Chosen(only: Option<set<string>>, id: string) {
    only.None? || id in only.value
  }

  /** The records once the runs in `visited` have been reconciled. */
  function ReconciledRuns(runs: Runs, visited: set<string>, only: Option<set<string>>, now: real,
      oracle: Oracle): Runs {
    map id | id in runs :: if id in visited && Chosen(only, id) then ReconciledRecord(runs[id], now, oracle) else runs[id]
  }

  // ------------------------------------------- reconciliation among other actors

  /** What another process does to the store. */
  datatype Deed = Changes(runId: string, event: Event) | Creates(runId: string, origin: Origin, at: real) | Deletes(runId: string)

  function DeedDone(runs: Runs, deed: Deed): Runs {
    match deed
    case Changes(id, e) => if id in runs then runs[id := After(runs[id], e)] else runs
    case Creates(id, origin, at) => if id in runs || !ValidOrigin(origin) then runs else runs[id := NewRecord(id, origin, at)]
    case Deletes(id) => runs - {id}
  }

  function AllDone(runs: Runs, deeds: seq<Deed>): Runs
    decreases |deeds|
  {
    if deeds == [] then runs else AllDone(DeedDone(runs, deeds[0]), deeds[1..])
  }

  predicate FairDeed(deed: Deed) {
    deed.Changes? ==> Disciplined(deed.event)
  }

  predicate FairDeeds(deeds: seq<Deed>) {
    forall i :: 0 <= i < |deeds| ==> FairDeed(deeds[i])
  }

  predicate Spares(deeds: seq<Deed>, id: string) {
    Deletes(id) !in deeds
  }

  /** What happens before one turn of the pass and between its two store calls. */
  datatype Turn = Turn(now: real, before: seq<Deed>, between: seq<Deed>)

  predicate FairTurn(turn: Turn) {
    FairDeeds(turn.before) && FairDeeds(turn.between)
  }

  predicate FairTurns(turns: seq<Turn>) {
    forall i :: 0 <= i < |turns| ==> FairTurn(turns[i])
  }

  predicate TurnSpares(turn: Turn, id: string) {
    Spares(turn.before, id) && Spares(turn.between, id)
  }

  predicate TurnsSpare(turns: seq<Turn>, id: string) {
    forall i :: 0 <= i < |turns| ==> TurnSpares(turns[i], id)
  }

  /** What a turn says of its run; a vanished record raises. */
  datatype Finding = Vanished | LeftAlone | SaidFailed

  /** One store call that may end the run. */
  function EndingCall(runs: Runs, id: string, op: Op, now: real): (Runs, Finding) {
    if id !in runs then (runs, Vanished)
    else
      var r := After(runs[id], Event(op, now));
      (runs[id := r], if r.status == Failed then SaidFailed else LeftAlone)
  }

  /** Stops a dead worker's backend, if it is that generation's still, and ends the run. */
  function DeadTurn(met: Runs, id: string, token: string, proven: bool, turn: Turn): (Runs, Finding) {
    if id !in met then (met, Vanished)
    else
      var cleaned := met[id := After(met[id], Event(CleanupOp(token, proven), turn.now))];
      if !CleanupAnswer(met[id], token, proven) then (cleaned, LeftAlone)
      else EndingCall(AllDone(cleaned, turn.between), id, FailIfActiveOp(token, WORKER_EXITED), turn.now)
  }

  /** One turn: it decides by the record as it was listed, and acts on the record
      as it is by then. */
  function TurnTaken(runs: Runs, listed: RunRecord, only: Option<set<string>>, oracle: Oracle, turn: Turn): (Runs, Finding)
  {
    var met := AllDone(runs, turn.before);
    var id, token := listed.runId, listed.workerToken;
    if !Chosen(only, id) then (met, LeftAlone)
    else if ReservationExpired(listed, turn.now) then
      EndingCall(met, id, FailIfReservedOp(token, RESERVATION_EXPIRED), turn.now)
    else if !WorkerDied(listed, oracle) then (met, LeftAlone)
    else DeadTurn(met, id, token, oracle.backendStopped(id), turn)
  }

  function Finds(updated: Reply): Finding {
    if updated.Rejected? then Vanished else if updated.record.status == Failed then SaidFailed else LeftAlone
  }

  /** What one of these calls on the store comes to. */
  lemma CallIs(met: Runs, id: string, op: Op, now: real)
    requires op.FailIfReservedOp? || op.FailIfActiveOp? || op.CleanupOp?
    requires id in met ==> Inv(met[id]) && WellFormed(met[id])
    ensures var reply := AnswerFor(met, id, Event(op, now));
      && EndingCall(met, id, op, now) == (Stored(met, id, reply), Finds(reply))
      && (id in met ==> Stored(met, id, reply) == met[id := After(met[id], Event(op, now))])
  {
    if id in met {
      var reply := Apply(met[id], Event(op, now));
      StepKeepsRecord(met[id], Event(op, now));
      assert reply.Saved? || (reply.Unchanged? && met[id := met[id]] == met);
    }
  }

  datatype Passed = Passed(runs: Runs, told: seq<string>, broken: bool)

  /** The loop over what was listed, `told` being what it has to report so far; it
      breaks off where a record has vanished. */
  function PassOver(runs: Runs, told: seq<string>, listed: seq<RunRecord>, only: Option<set<string>>, oracle: Oracle,
      turns: seq<Turn>): Passed
    requires |turns| >= |listed|
    decreases |listed|
  {
    if listed == [] then Passed(runs, told, false)
    else
      var (next, finding) := TurnTaken(runs, listed[0], only, oracle, turns[0]);
      if finding.Vanished? then Passed(next, told, true)
      else PassOver(next, if finding.SaidFailed? then told + [listed[0].runId] else told, listed[1..], only, oracle, turns[1..])
  }

  /** Reading the named run files one after the other, others acting in between. */
  function Listing(runs: Runs, names: seq<string>, deeds: seq<seq<Deed>>): (Runs, seq<RunRecord>)
    requires |deeds| == |names|
    decreases |names|
  {
    if names == [] then (runs, [])
    else
      var met := AllDone(runs, deeds[0]);
      var (after, rest) := Listing(met, names[1..], deeds[1..]);
      (after, if names[0] in met then [met[names[0]]] + rest else rest)
  }

  // -------------------------------------------------- what survives interference

  lemma {:induction false} DeedsKeepValid(runs: Runs, deeds: seq<Deed>)
    requires ValidRuns(runs) && FairDeeds(deeds)
    ensures ValidRuns(AllDone(runs, deeds))
    decreases |deeds|
  {
    if deeds != [] {
      assert FairDeed(deeds[0]);
      var next := DeedDone(runs, deeds[0]);
      match deeds[0] {
        case Changes(id, e) =>
          if id in runs {
            StepKeepsRecord(runs[id], e);
          }
        case Creates(id, origin, at) =>
          if ValidOrigin(origin) {
            NewRecordValid(id, origin, at);
          }
        case Deletes(_) =>
      }
      DeedsKeepValid(next, deeds[1..]);
    }
  }

  lemma CallKeepsValid(runs: Runs, id: string, e: Event)
    requires ValidRuns(runs) && id in runs && ValidEvent(e)
    ensures ValidRuns(runs[id := After(runs[id], e)])
  {
    StepKeepsRecord(runs[id], e);
  }

  lemma TurnKeepsValid(runs: Runs, listed: RunRecord, only: Option<set<string>>, oracle: Oracle, turn: Turn)
    requires ValidRuns(runs) && FairTurn(turn)
    ensures ValidRuns(TurnTaken(runs, listed, only, oracle, turn).0)
  {
    var met := AllDone(runs, turn.before);
    var id, token := listed.runId, listed.workerToken;
    DeedsKeepValid(runs, turn.before);
    if ReservationExpired(listed, turn.now) {
      if id in met {
        CallKeepsValid(met, id, Event(FailIfReservedOp(token, RESERVATION_EXPIRED), turn.now));
      }
    } else {
      DeadTurnKeepsValid(met, id, token, oracle.backendStopped(id), turn);
    }
  }

  lemma DeadTurnKeepsValid(met: Runs, id: string, token: string, proven: bool, turn: Turn)
    requires ValidRuns(met) && FairDeeds(turn.between)
    ensures ValidRuns(DeadTurn(met, id, token, proven, turn).0)
  {
    if id in met {
      var cleanup := Event(CleanupOp(token, proven), turn.now);
      CallKeepsValid(met, id, cleanup);
      var cleaned := met[id := After(met[id], cleanup)];
      DeedsKeepValid(cleaned, turn.between);
      var later := AllDone(cleaned, turn.between);
      if id in later {
        CallKeepsValid(later, id, Event(FailIfActiveOp(token, WORKER_EXITED), turn.now));
      }
    }
  }

  lemma {:induction false} PassKeepsValid(runs: Runs, told: seq<string>, listed: seq<RunRecord>, only: Option<set<string>>,
      oracle: Oracle, turns: seq<Turn>)
    requires ValidRuns(runs) && |turns| >= |listed| && FairTurns(turns)
    ensures ValidRuns(PassOver(runs, told, listed, only, oracle, turns).runs)
    decreases |listed|
  {
    if listed != [] {
      var (next, finding) := TurnTaken(runs, listed[0], only, oracle, turns[0]);
      TurnKeepsValid(runs, listed[0], only, oracle, turns[0]);
      PassKeepsValid(next, if finding.SaidFailed? then told + [listed[0].runId] else told, listed[1..], only, oracle, turns[1..]);
    }
  }

  lemma {:induction false} ListingKeepsValid(runs: Runs, names: seq<string>, deeds: seq<seq<Deed>>)
    requires ValidRuns(runs) && |deeds| == |names| && forall i :: 0 <= i < |deeds| ==> FairDeeds(deeds[i])
    ensures ValidRuns(Listing(runs, names, deeds).0)
    decreases |names|
  {
    if names != [] {
      DeedsKeepValid(runs, deeds[0]);
      ListingKeepsValid(AllDone(runs, deeds[0]), names[1..], deeds[1..]);
    }
  }

  /** The transitions these deeds make on one run. */
  function EventsOn(deeds: seq<Deed>, id: string): seq<Event>
    decreases |deeds|
  {
    if deeds == [] then []
    else (if deeds[0].Changes? && deeds[0].runId == id then [deeds[0].event] else []) + EventsOn(deeds[1..], id)
  }

  lemma {:induction false} DeedsReplay(runs: Runs, deeds: seq<Deed>, id: string)
    requires id in runs && Spares(deeds, id) && FairDeeds(deeds)
    ensures id in AllDone(runs, deeds) && AllDone(runs, deeds)[id] == Replay(runs[id], EventsOn(deeds, id))
    ensures DisciplinedAll(EventsOn(deeds, id))
    decreases |deeds|
  {
    if deeds != [] {
      var next, rest := DeedDone(runs, deeds[0]), EventsOn(deeds[1..], id);
      assert FairDeed(deeds[0]) && deeds[0] in deeds;
      assert id in next;
      DeedsReplay(next, deeds[1..], id);
      if deeds[0].Changes? && deeds[0].runId == id {
        assert EventsOn(deeds, id) == [deeds[0].event] + rest;
        assert ([deeds[0].event] + rest)[1..] == rest;
        assert Replay(runs[id], [deeds[0].event] + rest) == Replay(After(runs[id], deeds[0].event), rest);
      } else {
        assert EventsOn(deeds, id) == rest;
      }
    }
  }

  /** One record became the other by transitions of the run store. */
  ghost predicate Became(a: RunRecord, b: RunRecord) {
    exists events :: DisciplinedAll(events) && b == Replay(a, events)
  }

  lemma BecameByEvent(a: RunRecord, e: Event)
    requires Disciplined(e)
    ensures Became(a, After(a, e))
  {
    assert [e][1..] == [];
    assert After(a, e) == Replay(a, [e]) && DisciplinedAll([e]);
  }

  lemma BecameOn(a: RunRecord, b: RunRecord, c: RunRecord)
    requires Became(a, b) && Became(b, c)
    ensures Became(a, c)
  {
    var first :| DisciplinedAll(first) && b == Replay(a, first);
    var second :| DisciplinedAll(second) && c == Replay(b, second);
    ReplayAppend(a, first, second);
    assert DisciplinedAll(first + second);
  }

  lemma BecameSame(a: RunRecord)
    ensures Became(a, a)
  {
    assert Replay(a, []) == a && DisciplinedAll([]);
  }

  lemma DeedsBecame(runs: Runs, deeds: seq<Deed>, id: string)
    requires id in runs && Spares(deeds, id) && FairDeeds(deeds)
    ensures id in AllDone(runs, deeds) && Became(runs[id], AllDone(runs, deeds)[id])
  {
    DeedsReplay(runs, deeds, id);
  }

  lemma CallBecame(runs: Runs, id: string, op: Op, now: real, x: string)
    requires x in runs && Disciplined(Event(op, now))
    ensures var after := EndingCall(runs, id, op, now).0; x in after && Became(runs[x], after[x])
  {
    BecameSame(runs[x]);
    BecameByEvent(runs[x], Event(op, now));
  }

  /** What a turn does to a run that nobody deletes meanwhile is a history of run
      store transitions: the reconciler is one more disciplined actor. */
  lemma TurnBecame(runs: Runs, listed: RunRecord, only: Option<set<string>>, oracle: Oracle, turn: Turn, x: string)
    requires x in runs && FairTurn(turn) && TurnSpares(turn, x)
    ensures var next := TurnTaken(runs, listed, only, oracle, turn).0; x in next && Became(runs[x], next[x])
  {
    var met := AllDone(runs, turn.before);
    var id, token := listed.runId, listed.workerToken;
    DeedsBecame(runs, turn.before, x);
    if Chosen(only, id) {
      if ReservationExpired(listed, turn.now) && id in met {
        var op := FailIfReservedOp(token, RESERVATION_EXPIRED);
        CallBecame(met, id, op, turn.now, x);
        BecameOn(runs[x], met[x], EndingCall(met, id, op, turn.now).0[x]);
      } else if WorkerDied(listed, oracle) {
        DeadTurnBecame(met, id, token, oracle.backendStopped(id), turn, x);
        BecameOn(runs[x], met[x], DeadTurn(met, id, token, oracle.backendStopped(id), turn).0[x]);
      }
    }
  }

  lemma DeadTurnBecame(met: Runs, id: string, token: string, proven: bool, turn: Turn, x: string)
    requires x in met && FairDeeds(turn.between) && Spares(turn.between, x)
    ensures var after := DeadTurn(met, id, token, proven, turn).0; x in after && Became(met[x], after[x])
  {
    BecameSame(met[x]);
    if id in met {
      var cleanup := Event(CleanupOp(token, proven), turn.now);
      var cleaned := met[id := After(met[id], cleanup)];
      BecameByEvent(met[x], cleanup);
      DeedsBecame(cleaned, turn.between, x);
      var later := AllDone(cleaned, turn.between);
      BecameOn(met[x], cleaned[x], later[x]);
      var op := FailIfActiveOp(token, WORKER_EXITED);
      CallBecame(later, id, op, turn.now, x);
      BecameOn(met[x], later[x], EndingCall(later, id, op, turn.now).0[x]);
    }
  }

  /** The same for the whole pass, so everything proved of disciplined histories
      holds with reconcilers among the actors. */
  lemma {:induction false} PassBecame(runs: Runs, told: seq<string>, listed: seq<RunRecord>, only: Option<set<string>>,
      oracle: Oracle, turns: seq<Turn>, x: string)
    requires |turns| >= |listed| && x in runs && FairTurns(turns) && TurnsSpare(turns, x)
    ensures var after := PassOver(runs, told, listed, only, oracle, turns).runs; x in after && Became(runs[x], after[x])
    decreases |listed|
  {
    BecameSame(runs[x]);
    if listed != [] {
      var (next, finding) := TurnTaken(runs, listed[0], only, oracle, turns[0]);
      var more := if finding.SaidFailed? then told + [listed[0].runId] else told;
      TurnBecame(runs, listed[0], only, oracle, turns[0], x);
      PassBecame(next, more, listed[1..], only, oracle, turns[1..], x);
      BecameOn(runs[x], next[x], PassOver(next, more, listed[1..], only, oracle, turns[1..]).runs[x]);
    }
  }

  lemma BecameKeeps(a: RunRecord, b: RunRecord)
    requires Became(a, b) && Inv(a) && WellFormed(a)
    ensures Evolves(a, b) && (a.status != Accepted ==> b.status != Accepted)
  {
    var events :| DisciplinedAll(events) && b == Replay(a, events);
    ReplayKeepsRecord(a, events);
    if a.status != Accepted {
      NeverAcceptedAgain(a, events);
    }
  }

  /** Whoever acts meanwhile: an expired reservation is ended exactly if the run
      is still accepted under the listed token by then. A run claimed in time, or
      another generation, is not touched. */
  lemma ExpiryEndsOnlyTheReserved(runs: Runs, listed: RunRecord, only: Option<set<string>>, oracle: Oracle, turn: Turn)
    requires Chosen(only, listed.runId) && ReservationExpired(listed, turn.now)
    requires listed.runId in AllDone(runs, turn.before)
    ensures var met := AllDone(runs, turn.before);
      var (next, finding) := TurnTaken(runs, listed, only, oracle, turn);
      var r := met[listed.runId];
      if r.status == Accepted && r.workerToken == listed.workerToken
      then finding == SaidFailed && next == met[listed.runId := next[listed.runId]] && next[listed.runId].status == Failed
      else next == met
  {
  }

  /** On this run nobody claims or binds a backend under this token. */
  predicate LetBe(deeds: seq<Deed>, id: string, token: string) {
    forall i :: 0 <= i < |deeds| && deeds[i].Changes? && deeds[i].runId == id ==> Bystander(deeds[i].event, token)
  }

  lemma {:induction false} EventsLetBe(deeds: seq<Deed>, id: string, token: string)
    requires LetBe(deeds, id, token)
    ensures AllBystanders(EventsOn(deeds, id), token)
    decreases |deeds|
  {
    if deeds != [] {
      assert LetBe(deeds[1..], id, token) by {
        forall i | 0 <= i < |deeds[1..]| && deeds[1..][i].Changes? && deeds[1..][i].runId == id
          ensures Bystander(deeds[1..][i].event, token)
        {
          assert deeds[1..][i] == deeds[i + 1];
        }
      }
      EventsLetBe(deeds[1..], id, token);
    }
  }

  lemma DeedsAbandon(runs: Runs, deeds: seq<Deed>, id: string, token: string)
    requires id in runs && Spares(deeds, id) && FairDeeds(deeds) && LetBe(deeds, id, token)
    requires runs[id].workerToken == token && token != ""
    ensures id in AllDone(runs, deeds) && Abandoned(runs[id], AllDone(runs, deeds)[id])
    ensures AllDone(runs, deeds)[id].workerToken == token
  {
    DeedsReplay(runs, deeds, id);
    EventsLetBe(deeds, id, token);
    BystandersAbandon(runs[id], EventsOn(deeds, id), token);
  }

  /** The orphan was listed under the token its run still has. */
  predicate Matches(runs: Runs, listed: RunRecord, only: Option<set<string>>) {
    && Chosen(only, listed.runId) && listed.runId in runs
    && runs[listed.runId].workerToken == listed.workerToken != ""
  }

  /** Whatever others do short of deleting the run: after its turn an expired
      reservation is no longer accepted, */
  lemma TurnEndsReservation(runs: Runs, listed: RunRecord, only: Option<set<string>>, oracle: Oracle, turn: Turn)
    requires ValidRuns(runs) && FairTurn(turn) && TurnSpares(turn, listed.runId) && Matches(runs, listed, only)
    requires ReservationExpired(listed, turn.now)
    ensures var next := TurnTaken(runs, listed, only, oracle, turn).0;
      listed.runId in next && next[listed.runId].status != Accepted
  {
    DeedsBecame(runs, turn.before, listed.runId);
    BecameKeeps(runs[listed.runId], AllDone(runs, turn.before)[listed.runId]);
  }

  /** and the run of a dead worker is over if its backend is proven stopped. */
  lemma TurnEndsDeadRun(runs: Runs, listed: RunRecord, only: Option<set<string>>, oracle: Oracle, turn: Turn)
    requires ValidRuns(runs) && FairTurn(turn) && TurnSpares(turn, listed.runId) && Matches(runs, listed, only)
    requires WorkerDied(listed, oracle) && oracle.backendStopped(listed.runId) && runs[listed.runId].status != Accepted
    requires LetBe(turn.before, listed.runId, listed.workerToken) && LetBe(turn.between, listed.runId, listed.workerToken)
    ensures var next := TurnTaken(runs, listed, only, oracle, turn).0;
      listed.runId in next && next[listed.runId].status.Terminal()
  {
    var id, token := listed.runId, listed.workerToken;
    var met := AllDone(runs, turn.before);
    DeedsAbandon(runs, turn.before, id, token);
    DeedsBecame(runs, turn.before, id);
    BecameKeeps(runs[id], met[id]);
    CleanedUpIsOver(met[id], token, turn.now);
    var cleaned := met[id := After(met[id], Event(CleanupOp(token, true), turn.now))];
    DeedsAbandon(cleaned, turn.between, id, token);
    AbandonedEnds(cleaned[id], AllDone(cleaned, turn.between)[id], token, turn.now);
  }

  lemma CleanedUpIsOver(r: RunRecord, token: string, now: real)
    requires r.status != Accepted && r.workerToken == token
    ensures CleanupAnswer(r, token, true)
    ensures var s := After(r, Event(CleanupOp(token, true), now));
      s.workerToken == token && s.status != Accepted && (s.status == Running ==> s.backend.pid == 0)
  {
  }

  lemma AbandonedEnds(r: RunRecord, s: RunRecord, token: string, now: real)
    requires Abandoned(r, s) && s.workerToken == token && r.status != Accepted && (r.status == Running ==> r.backend.pid == 0)
    ensures After(s, Event(FailIfActiveOp(token, WORKER_EXITED), now)).status.Terminal()
  {
  }

  /** What a pass owes an orphan it listed; `clear` says that nobody revives it. */
  predicate OrphanSettled(r: RunRecord, listed: RunRecord, oracle: Oracle, now: real, clear: bool) {
    && (listed.status == Accepted && listed.workerToken != "" && listed.worker.pid == 0 && now - listed.updatedAt >= 10.0
        ==> r.status != Accepted)
    && (listed.status == Running && listed.workerToken != "" && listed.worker.pid != 0 && listed.worker.startedAt != ""
        && oracle.dead(listed.worker) && oracle.backendStopped(listed.runId) && clear
        ==> r.status in {Completed, Failed, Timeout, Cancelled})
  }

  lemma SettledStays(a: RunRecord, b: RunRecord, listed: RunRecord, oracle: Oracle, now: real, clear: bool)
    requires Inv(a) && WellFormed(a) && Became(a, b) && OrphanSettled(a, listed, oracle, now, clear)
    ensures OrphanSettled(b, listed, oracle, now, clear)
  {
    BecameKeeps(a, b);
  }

  lemma TurnSettlesOrphan(runs: Runs, listed: RunRecord, only: Option<set<string>>, oracle: Oracle, turn: Turn, clear: bool)
    requires ValidRuns(runs) && FairTurn(turn) && TurnSpares(turn, listed.runId) && Matches(runs, listed, only)
    requires clear ==> && runs[listed.runId].status != Accepted
                       && LetBe(turn.before, listed.runId, listed.workerToken) && LetBe(turn.between, listed.runId, listed.workerToken)
    ensures var next := TurnTaken(runs, listed, only, oracle, turn).0;
      listed.runId in next && OrphanSettled(next[listed.runId], listed, oracle, turn.now, clear)
  {
    TurnBecame(runs, listed, only, oracle, turn, listed.runId);
    if ReservationExpired(listed, turn.now) {
      TurnEndsReservation(runs, listed, only, oracle, turn);
    }
    if WorkerDied(listed, oracle) && oracle.backendStopped(listed.runId) && clear {
      TurnEndsDeadRun(runs, listed, only, oracle, turn);
    }
  }

  /** The run was claimed before, and up to and including the turn `k` nobody
      claims it or binds a backend under its token. */
  predicate Clear(runs: Runs, turns: seq<Turn>, k: nat, id: string, token: string)
    requires k < |turns| && id in runs
  {
    runs[id].status != Accepted
    && forall i :: 0 <= i <= k ==> LetBe(turns[i].before, id, token) && LetBe(turns[i].between, id, token)
  }

  /** A pass that runs to its end settles every orphan it listed, whoever acts
      meanwhile, short of deleting the run. */
  lemma {:induction false} PassSettlesOrphans(runs: Runs, told: seq<string>, listed: seq<RunRecord>,
      only: Option<set<string>>, oracle: Oracle, turns: seq<Turn>, k: nat)
    requires ValidRuns(runs) && |turns| >= |listed| && FairTurns(turns) && k < |listed|
    requires TurnsSpare(turns, listed[k].runId) && Matches(runs, listed[k], only)
    requires !PassOver(runs, told, listed, only, oracle, turns).broken
    ensures var id, after := listed[k].runId, PassOver(runs, told, listed, only, oracle, turns).runs;
      id in after && OrphanSettled(after[id], listed[k], oracle, turns[k].now, Clear(runs, turns, k, id, listed[k].workerToken))
    decreases |listed|
  {
    if k == 0 {
      FirstOrphanIsSettled(runs, told, listed, only, oracle, turns);
    } else {
      var (next, finding) := TurnTaken(runs, listed[0], only, oracle, turns[0]);
      OrphanWaits(runs, listed, only, oracle, turns, k);
      PassSettlesOrphans(next, if finding.SaidFailed? then told + [listed[0].runId] else told, listed[1..], only, oracle,
                         turns[1..], k - 1);
    }
  }

  lemma OrphanWaits(runs: Runs, listed: seq<RunRecord>, only: Option<set<string>>, oracle: Oracle, turns: seq<Turn>, k: nat)
    requires ValidRuns(runs) && |turns| >= |listed| && FairTurns(turns) && 0 < k < |listed|
    requires TurnsSpare(turns, listed[k].runId) && Matches(runs, listed[k], only)
    ensures var next := TurnTaken(runs, listed[0], only, oracle, turns[0]).0;
      var id, token := listed[k].runId, listed[k].workerToken;
      && ValidRuns(next) && Matches(next, listed[k], only) && TurnsSpare(turns[1..], id) && FairTurns(turns[1..])
      && turns[1..][k - 1] == turns[k] && listed[1..][k - 1] == listed[k]
      && (Clear(runs, turns, k, id, token) ==> Clear(next, turns[1..], k - 1, id, token))
  {
    var id := listed[k].runId;
    var next := TurnTaken(runs, listed[0], only, oracle, turns[0]).0;
    TurnKeepsValid(runs, listed[0], only, oracle, turns[0]);
    TurnBecame(runs, listed[0], only, oracle, turns[0], id);
    BecameKeeps(runs[id], next[id]);
    ClearStays(runs, next, turns, k, id, listed[k].workerToken);
  }

  lemma FirstOrphanIsSettled(runs: Runs, told: seq<string>, listed: seq<RunRecord>, only: Option<set<string>>,
      oracle: Oracle, turns: seq<Turn>)
    requires ValidRuns(runs) && |turns| >= |listed| && FairTurns(turns) && listed != []
    requires TurnsSpare(turns, listed[0].runId) && Matches(runs, listed[0], only)
    requires !PassOver(runs, told, listed, only, oracle, turns).broken
    ensures var id, after := listed[0].runId, PassOver(runs, told, listed, only, oracle, turns).runs;
      id in after && OrphanSettled(after[id], listed[0], oracle, turns[0].now, Clear(runs, turns, 0, id, listed[0].workerToken))
  {
    var id, clear := listed[0].runId, Clear(runs, turns, 0, listed[0].runId, listed[0].workerToken);
    var (next, finding) := TurnTaken(runs, listed[0], only, oracle, turns[0]);
    var more := if finding.SaidFailed? then told + [id] else told;
    var after := PassOver(next, more, listed[1..], only, oracle, turns[1..]).runs;
    TurnKeepsValid(runs, listed[0], only, oracle, turns[0]);
    TurnSettlesOrphan(runs, listed[0], only, oracle, turns[0], clear);
    PassBecame(next, more, listed[1..], only, oracle, turns[1..], id);
    SettledStays(next[id], after[id], listed[0], oracle, turns[0].now, clear);
  }

  lemma ClearStays(runs: Runs, next: Runs, turns: seq<Turn>, k: nat, id: string, token: string)
    requires 0 < k < |turns| && id in runs && id in next && (runs[id].status != Accepted ==> next[id].status != Accepted)
    ensures Clear(runs, turns, k, id, token) ==> Clear(next, turns[1..], k - 1, id, token)
  {
    if Clear(runs, turns, k, id, token) {
      forall i | 0 <= i <= k - 1
        ensures LetBe(turns[1..][i].before, id, token) && LetBe(turns[1..][i].between, id, token)
      {
        assert turns[1..][i] == turns[i + 1];
      }
    }
  }

  lemma SaidFailedIsFailed(runs: Runs, listed: RunRecord, only: Option<set<string>>, oracle: Oracle, turn: Turn)
    requires TurnTaken(runs, listed, only, oracle, turn).1.SaidFailed?
    ensures var next := TurnTaken(runs, listed, only, oracle, turn).0;
      listed.runId in next && next[listed.runId].status == Failed
  {
  }

  /** What a pass reports has failed for good, unless somebody deleted the run. */
  lemma {:induction false} ToldHaveFailed(runs: Runs, told: seq<string>, listed: seq<RunRecord>,
      only: Option<set<string>>, oracle: Oracle, turns: seq<Turn>, x: string)
    requires ValidRuns(runs) && |turns| >= |listed| && FairTurns(turns) && TurnsSpare(turns, x)
    requires x in told ==> x in runs && runs[x].status == Failed
    requires x in PassOver(runs, told, listed, only, oracle, turns).told
    ensures var after := PassOver(runs, told, listed, only, oracle, turns).runs; x in after && after[x].status == Failed
    decreases |listed|
  {
    if listed != [] {
      var (next, finding) := TurnTaken(runs, listed[0], only, oracle, turns[0]);
      TurnKeepsValid(runs, listed[0], only, oracle, turns[0]);
      if x in told {
        TurnBecame(runs, listed[0], only, oracle, turns[0], x);
        BecameKeeps(runs[x], next[x]);
      } else if finding.SaidFailed? {
        SaidFailedIsFailed(runs, listed[0], only, oracle, turns[0]);
      }
      if !finding.Vanished? {
        ToldHaveFailed(next, if finding.SaidFailed? then told + [listed[0].runId] else told, listed[1..], only, oracle,
                       turns[1..], x);
      }
    }
  }

  // ------------------------------------------------------------- who is spared

  /** No orphan: over; or running with a worker that is not known dead or was never
      recorded; or accepted and not reserved, or reserved less than 10 seconds ago. */
  predicate NoOrphan(r: RunRecord, now: real, oracle: Oracle) {
    match r.status
    case Running => !oracle.dead(r.worker) || r.workerToken == "" || r.worker.pid == 0 || r.worker.startedAt == ""
    case Accepted => r.workerToken == "" || r.worker.pid != 0 || now - r.updatedAt < 10.0
    case _ => true
  }

  /** What the others did during one turn. */
  function TurnDeeds(runs: Runs, listed: RunRecord, only: Option<set<string>>, oracle: Oracle, turn: Turn): seq<Deed> {
    var met := AllDone(runs, turn.before);
    if Chosen(only, listed.runId) && !ReservationExpired(listed, turn.now) && WorkerDied(listed, oracle) && listed.runId in met
       && CleanupAnswer(met[listed.runId], listed.workerToken, oracle.backendStopped(listed.runId))
    then turn.before + turn.between
    else turn.before
  }

  /** And during a whole pass. */
  function PassDeeds(runs: Runs, listed: seq<RunRecord>, only: Option<set<string>>, oracle: Oracle, turns: seq<Turn>): seq<Deed>
    requires |turns| >= |listed|
    decreases |listed|
  {
    if listed == [] then []
    else
      var (next, finding) := TurnTaken(runs, listed[0], only, oracle, turns[0]);
      TurnDeeds(runs, listed[0], only, oracle, turns[0])
      + if finding.Vanished? then [] else PassDeeds(next, listed[1..], only, oracle, turns[1..])
  }

  predicate SameRun(a: Runs, b: Runs, x: string) {
    (x in a <==> x in b) && (x in a ==> a[x] == b[x])
  }

  /** Deeds act on each run by itself. */
  lemma {:induction false} DeedsActOnEachRun(a: Runs, b: Runs, deeds: seq<Deed>, x: string)
    requires SameRun(a, b, x)
    ensures SameRun(AllDone(a, deeds), AllDone(b, deeds), x)
    decreases |deeds|
  {
    if deeds != [] {
      DeedsActOnEachRun(DeedDone(a, deeds[0]), DeedDone(b, deeds[0]), deeds[1..], x);
    }
  }

  lemma {:induction false} DeedsInTurn(runs: Runs, first: seq<Deed>, second: seq<Deed>)
    ensures AllDone(runs, first + second) == AllDone(AllDone(runs, first), second)
    decreases |first|
  {
    if first == [] {
      assert first + second == second;
    } else {
      assert (first + second)[1..] == first[1..] + second;
      DeedsInTurn(DeedDone(runs, first[0]), first[1..], second);
    }
  }

  /** A turn for another run, or for one that is no orphan, is nothing to this run. */
  lemma TurnLeavesOthers(runs: Runs, listed: RunRecord, only: Option<set<string>>, oracle: Oracle, turn: Turn, x: string)
    requires listed.runId == x ==> NoOrphan(listed, turn.now, oracle)
    ensures SameRun(TurnTaken(runs, listed, only, oracle, turn).0,
                    AllDone(runs, TurnDeeds(runs, listed, only, oracle, turn)), x)
  {
    var met := AllDone(runs, turn.before);
    var id, token := listed.runId, listed.workerToken;
    if Chosen(only, id) && !ReservationExpired(listed, turn.now) && WorkerDied(listed, oracle) && id in met {
      var cleaned := met[id := After(met[id], Event(CleanupOp(token, oracle.backendStopped(id)), turn.now))];
      DeedsActOnEachRun(cleaned, met, turn.between, x);
      DeedsInTurn(runs, turn.before, turn.between);
    }
  }

  /** Over a whole pass, however the others act, a run that is listed as no orphan
      ends exactly as the others' deeds alone would have left it. */
  lemma {:induction false} PassSparesTheLiving(runs: Runs, told: seq<string>, listed: seq<RunRecord>,
      only: Option<set<string>>, oracle: Oracle, turns: seq<Turn>, x: string)
    requires |turns| >= |listed|
    requires forall k :: 0 <= k < |listed| && listed[k].runId == x ==> NoOrphan(listed[k], turns[k].now, oracle)
    ensures SameRun(PassOver(runs, told, listed, only, oracle, turns).runs,
                    AllDone(runs, PassDeeds(runs, listed, only, oracle, turns)), x)
    decreases |listed|
  {
    if listed != [] {
      var (next, finding) := TurnTaken(runs, listed[0], only, oracle, turns[0]);
      var mine := TurnDeeds(runs, listed[0], only, oracle, turns[0]);
      TurnLeavesOthers(runs, listed[0], only, oracle, turns[0], x);
      if finding.Vanished? {
        assert mine + [] == mine;
      } else {
        var rest := PassDeeds(next, listed[1..], only, oracle, turns[1..]);
        forall k | 0 <= k < |listed[1..]| && listed[1..][k].runId == x ensures NoOrphan(listed[1..][k], turns[1..][k].now, oracle) {
          assert listed[1..][k] == listed[k + 1] && turns[1..][k] == turns[k + 1];
        }
        PassSparesTheLiving(next, if finding.SaidFailed? then told + [listed[0].runId] else told, listed[1..], only, oracle,
                            turns[1..], x);
        DeedsActOnEachRun(next, AllDone(runs, mine), rest, x);
        DeedsInTurn(runs, mine, rest);
      }
    }
  }

  // ------------------------------------------------------- nobody acts meanwhile

  /** A directory listing names each run once. */
  ghost predicate ListsAll(names: seq<string>, runs: Runs) {
    && (forall i, j :: 0 <= i < j < |names| ==> names[i] != names[j])
    && (forall id :: id in names <==> id in runs)
  }

  function Ids(listed: seq<RunRecord>): set<string> {
    set i | 0 <= i < |listed| :: listed[i].runId
  }

  ghost predicate Current(runs: Runs, listed: seq<RunRecord>) {
    && (forall i :: 0 <= i < |listed| ==> listed[i].runId in runs && runs[listed[i].runId] == listed[i])
    && (forall i, j :: 0 <= i < j < |listed| ==> listed[i].runId != listed[j].runId)
  }

  predicate Quiet(turns: seq<Turn>, now: real) {
    forall i :: 0 <= i < |turns| ==> turns[i] == Turn(now, [], [])
  }

  lemma QuietTurn(runs: Runs, r: RunRecord, only: Option<set<string>>, now: real, oracle: Oracle)
    requires r.runId in runs && runs[r.runId] == r && Inv(r) && WellFormed(r)
    ensures TurnTaken(runs, r, only, oracle, Turn(now, [], []))
         == if Chosen(only, r.runId)
            then (runs[r.runId := ReconciledRecord(r, now, oracle)], if Fails(r, now, oracle) then SaidFailed else LeftAlone)
            else (runs, LeftAlone)
  {
    ReconciliationOutcome(r, now, oracle);
    assert runs[r.runId := r] == runs;
    var cleaned := After(r, Event(CleanupOp(r.workerToken, oracle.backendStopped(r.runId)), now));
    var ended := After(cleaned, Event(FailIfActiveOp(r.workerToken, WORKER_EXITED), now));
    assert AllDone(runs[r.runId := cleaned], []) == runs[r.runId := cleaned];
    assert runs[r.runId := cleaned][r.runId := ended] == runs[r.runId := ended];
  }

  lemma ReconciledOnce(runs: Runs, listed: seq<RunRecord>, only: Option<set<string>>, now: real, oracle: Oracle)
    requires listed != [] && Current(runs, listed)
    ensures var r := listed[0];
      var next := if Chosen(only, r.runId) then runs[r.runId := ReconciledRecord(r, now, oracle)] else runs;
      && Current(next, listed[1..]) && Ids(listed) == Ids(listed[1..]) + {r.runId} && r.runId !in Ids(listed[1..])
      && ReconciledRuns(next, Ids(listed[1..]), only, now, oracle) == ReconciledRuns(runs, Ids(listed), only, now, oracle)
  {
    var r := listed[0];
    assert forall id :: id in Ids(listed) ==> id == r.runId || id in Ids(listed[1..]) by {
      forall id | id in Ids(listed) && id != r.runId ensures id in Ids(listed[1..]) {
        var i :| 0 <= i < |listed| && listed[i].runId == id;
        assert listed[1..][i - 1] == listed[i];
      }
    }
  }

  lemma {:induction false} QuietPass(runs: Runs, told: seq<string>, listed: seq<RunRecord>, only: Option<set<string>>,
      now: real, oracle: Oracle, turns: seq<Turn>)
    requires ValidRuns(runs) && |turns| >= |listed| && Quiet(turns, now) && Current(runs, listed)
    ensures var passed := PassOver(runs, told, listed, only, oracle, turns);
      passed.runs == ReconciledRuns(runs, Ids(listed), only, now, oracle) && !passed.broken
    decreases |listed|
  {
    if listed == [] {
      assert Ids(listed) == {};
    } else {
      var r := listed[0];
      QuietTurn(runs, r, only, now, oracle);
      ReconciledOnce(runs, listed, only, now, oracle);
      TurnKeepsValid(runs, r, only, oracle, turns[0]);
      var (next, finding) := TurnTaken(runs, r, only, oracle, turns[0]);
      QuietPass(next, if finding.SaidFailed? then told + [r.runId] else told, listed[1..], only, now, oracle, turns[1..]);
    }
  }

  lemma {:induction false} QuietPassTells(runs: Runs, told: seq<string>, listed: seq<RunRecord>,
      only: Option<set<string>>, now: real, oracle: Oracle, turns: seq<Turn>, id: string)
    requires ValidRuns(runs) && |turns| >= |listed| && Quiet(turns, now) && Current(runs, listed)
    ensures id in PassOver(runs, told, listed, only, oracle, turns).told
            <==> id in told || (id in Ids(listed) && id in runs && Chosen(only, id) && Fails(runs[id], now, oracle))
    decreases |listed|
  {
    if listed != [] {
      var r := listed[0];
      QuietTurn(runs, r, only, now, oracle);
      ReconciledOnce(runs, listed, only, now, oracle);
      TurnKeepsValid(runs, r, only, oracle, turns[0]);
      var (next, finding) := TurnTaken(runs, r, only, oracle, turns[0]);
      QuietPassTells(next, if finding.SaidFailed? then told + [r.runId] else told, listed[1..], only, now, oracle, turns[1..], id);
    }
  }

  lemma {:induction false} QuietListing(runs: Runs, names: seq<string>, deeds: seq<seq<Deed>>)
    requires |deeds| == |names| && (forall i :: 0 <= i < |deeds| ==> deeds[i] == [])
    requires forall i :: 0 <= i < |names| ==> names[i] in runs
    ensures var (after, listed) := Listing(runs, names, deeds);
      after == runs && |listed| == |names| && forall i :: 0 <= i < |names| ==> listed[i] == runs[names[i]]
    decreases |names|
  {
    if names != [] {
      QuietListing(runs, names[1..], deeds[1..]);
      var rest := Listing(runs, names[1..], deeds[1..]).1;
      forall i | 1 <= i < |names| ensures ([runs[names[0]]] + rest)[i] == runs[names[i]] {
        assert names[1..][i - 1] == names[i];
      }
    }
  }

  /** When nobody acts between the listing and a run's turn, a pass makes of every
      chosen run what `ReconciledRecord` says and reports exactly those it made fail. */
  lemma UndisturbedReconciliation(runs: Runs, names: seq<string>, deeds: seq<seq<Deed>>, only: Option<set<string>>,
      now: real, oracle: Oracle, turns: seq<Turn>)
    requires ValidRuns(runs) && ListsAll(names, runs) && |deeds| == |names| && |turns| >= |names|
    requires (forall i :: 0 <= i < |deeds| ==> deeds[i] == []) && Quiet(turns, now)
    ensures var (found, listed) := Listing(runs, names, deeds);
      |listed| <= |turns| &&
      var passed := PassOver(found, [], listed, only, oracle, turns);
      && passed.runs == ReconciledRuns(runs, runs.Keys, only, now, oracle) && !passed.broken
      && forall id :: id in passed.told <==> id in runs && Chosen(only, id) && Fails(runs[id], now, oracle)
  {
    QuietListing(runs, names, deeds);
    var listed := Listing(runs, names, deeds).1;
    assert Ids(listed) == runs.Keys by {
      forall id | id in runs ensures id in Ids(listed) {
        assert id in names;
        var i :| 0 <= i < |names| && names[i] == id;
        assert listed[i].runId == id;
      }
    }
    QuietPass(runs, [], listed, only, now, oracle, turns);
    forall id ensures id in PassOver(runs, [], listed, only, oracle, turns).told
                      <==> id in runs && Chosen(only, id) && Fails(runs[id], now, oracle)
    {
      QuietPassTells(runs, [], listed, only, now, oracle, turns, id);
    }
  }

  /** Seen from outside: a run that was not chosen stays as it is, and one is
      reported exactly if it had not failed before the pass and has failed after. */
  lemma UndisturbedReport(runs: Runs, names: seq<string>, deeds: seq<seq<Deed>>, only: Option<set<string>>,
      now: real, oracle: Oracle, turns: seq<Turn>, id: string)
    requires ValidRuns(runs) && ListsAll(names, runs) && |deeds| == |names| && |turns| >= |names| && id in runs
    requires (forall i :: 0 <= i < |deeds| ==> deeds[i] == []) && Quiet(turns, now)
    ensures var (found, listed) := Listing(runs, names, deeds);
      |listed| <= |turns| &&
      var passed := PassOver(found, [], listed, only, oracle, turns);
      && id in passed.runs && (only.Some? && id !in only.value ==> passed.runs[id] == runs[id])
      && (id in passed.told <==> runs[id].status != Failed && passed.runs[id].status == Failed)
  {
    UndisturbedReconciliation(runs, names, deeds, only, now, oracle, turns);
  }

  class RunStore {
    var runs: Runs

    ghost predicate Valid()
      reads this
    {
      ValidRuns(runs)
    }

    constructor ()
      ensures Valid() && runs == map[]
    {
      runs := map[];
    }

    method Load(runId: string) returns (record: Option<RunRecord>)
      ensures record == if runId in runs then Some(runs[runId]) else None
    {
      if runId in runs {
        return Some(runs[runId]);
      }
      return None;
    }

    method Create(runId: string, origin: Origin, now: real) returns (record: RunRecord)
      requires Valid() && ValidOrigin(origin) && runId !in runs
      modifies this
      ensures Valid() && record == NewRecord(runId, origin, now) && runs == old(runs)[runId := record]
    {
      record := NewRecord(runId, origin, now);
      NewRecordValid(runId, origin, now);
      runs := runs[runId := record];
    }

    /** Creates one deterministic run, or verifies an identical prior create. */
    method EnsureCreated(runId: string, origin: Origin, vetting: Vetting, now: real) returns (reply: Reply)
      requires Valid()
      modifies this
      ensures Valid() && runs == Stored(old(runs), runId, reply)
      ensures reply.Rejected? <==> !ValidOrigin(origin) || !Vetted(vetting, origin) || origin.orchestrationId == ""
                                   || (runId in old(runs) && old(runs)[runId].origin != origin)
      ensures !reply.Rejected? ==> runId in runs && reply.record == runs[runId] && reply.record.origin == origin
      ensures runId in old(runs) ==> !reply.Saved?
      ensures reply.Saved? ==>
        && reply.record == NewRecord(runId, origin, now)
        && reply.record == RunRecord(runId, Accepted, origin, now, None, "", "", [], 0, "", Process(0, ""),
                                     Backend(0, 0, "", ""), 0.0, "")
    {
      if origin.orchestrationId == "" || !ValidOrigin(origin) || !Vetted(vetting, origin) {
        return Rejected(BadArgument);
      }
      if runId in runs {
        var record := runs[runId];
        if record.origin != origin {
          return Rejected(Conflict);
        }
        return Unchanged(record);
      }
      NewRecordValid(runId, origin, now);
      reply := Saved(NewRecord(runId, origin, now));
      runs := runs[runId := reply.record];
    }

    /** Publishes a changed record: the timestamp is taken at the save. */
    method Publish(runId: string, changed: RunRecord, now: real) returns (reply: Reply)
      modifies this
      ensures reply == Saved(changed.(updatedAt := now)) && runs == old(runs)[runId := changed.(updatedAt := now)]
    {
      var record := changed.(updatedAt := now);
      runs := runs[runId := record];
      return Saved(record);
    }

    /** Sets what an update carries and leaves the rest. */
    method FillIn(r: RunRecord, error: string, result: Option<string>, shadowPath: Option<string>,
        leaseSlots: Option<seq<string>>)
      returns (record: RunRecord)
      ensures record == r.(error := if error != "" then error else r.error,
                           result := if result.Some? then result else r.result,
                           shadowPath := if shadowPath.Some? then shadowPath.value else r.shadowPath,
                           leaseSlots := if leaseSlots.Some? then leaseSlots.value else r.leaseSlots)
    {
      record := r;
      if error != "" {
        record := record.(error := error);
      }
      if result.Some? {
        record := record.(result := result);
      }
      if shadowPath.Some? {
        record := record.(shadowPath := shadowPath.value);
      }
      if leaseSlots.Some? {
        record := record.(leaseSlots := leaseSlots.value);
      }
    }

    /** Why an update would be refused, if it would. */
    method Refuse(record: RunRecord, status: Status, expectedToken: Option<string>) returns (why: Option<Refusal>)
      ensures forall error, result, shadowPath, leaseSlots, now ::
        RunRecords.UpdateStatus(record, status, error, result, shadowPath, leaseSlots, expectedToken, now).Rejected? <==> why.Some?
      ensures why.Some? ==> forall error, result, shadowPath, leaseSlots, now ::
        RunRecords.UpdateStatus(record, status, error, result, shadowPath, leaseSlots, expectedToken, now) == Rejected(why.value)
    {
      if record.status.Terminal() && status != record.status {
        return Some(TerminalStatus);
      }
      if record.status == Running && status != Running {
        if expectedToken in {None, Some("")} || record.workerToken != expectedToken.value {
          return Some(TokenMismatch);
        }
        if record.backend.pid != 0 {
          return Some(BackendTracked);
        }
        if CancelRequested(record) && status != Cancelled {
          return Some(CancelPending);
        }
      }
      return None;
    }

    method UpdateStatus(
      runId: string, status: Status, error: string, result: Option<string>, shadowPath: Option<string>,
      leaseSlots: Option<seq<string>>, expectedToken: Option<string>, now: real) returns (reply: Reply)
      requires Valid()
      modifies this
      ensures reply == AnswerFor(old(runs), runId,
                Event(UpdateStatusOp(status, error, result, shadowPath, leaseSlots, expectedToken), now))
      ensures runs == Stored(old(runs), runId, reply) && Valid()
    {
      StoredKeepsValid(runs, runId, Event(UpdateStatusOp(status, error, result, shadowPath, leaseSlots, expectedToken), now));
      if runId !in runs {
        return Rejected(NotFound);
      }
      var refusal := Refuse(runs[runId], status, expectedToken);
      if refusal.Some? {
        return Rejected(refusal.value);
      }
      var record := FillIn(runs[runId].(status := status), error, result, shadowPath, leaseSlots);
      record := record.(revision := record.revision + 1);
      reply := Publish(runId, record, now);
    }

    method RequestCancel(runId: string, reason: string, now: real) returns (reply: Reply)
      requires Valid()
      modifies this
      ensures reply == if |reason| > MAX_CANCEL_REASON_CHARS then Rejected(BadArgument)
                       else AnswerFor(old(runs), runId, Event(RequestCancelOp(reason), now))
      ensures runs == Stored(old(runs), runId, reply) && Valid()
    {
      StoredKeepsValid(runs, runId, Event(RequestCancelOp(reason), now));
      if |reason| > MAX_CANCEL_REASON_CHARS {
        return Rejected(BadArgument);
      }
      if runId !in runs {
        return Rejected(NotFound);
      }
      var record := runs[runId];
      if record.status.Terminal() {
        return Unchanged(record);
      }
      if CancelRequested(record) {
        return Unchanged(record);
      }
      if now <= 0.0 {
        return Rejected(BadArgument);
      }
      record := record.(cancelRequestedAt := now, cancelReason := reason);
      if record.status == Accepted {
        record := record.(status := Cancelled);
      }
      record := record.(revision := record.revision + 1);
      reply := Publish(runId, record, now);
    }

    /** Answers yes only to the exact active worker generation. */
    method CancelRequestedFor(runId: string, token: string) returns (reply: Result<bool, Refusal>)
      ensures reply.Err? <==> token == "" || runId !in runs
      ensures reply.Ok? ==> (reply.value <==> runs[runId].status == Running && runs[runId].workerToken == token
                                              && CancelRequested(runs[runId]))
    {
      if token == "" {
        return Err(BadArgument);
      }
      if runId !in runs {
        return Err(NotFound);
      }
      var record := runs[runId];
      return Ok(record.status == Running && record.workerToken == token && CancelRequested(record));
    }

    method ReserveAsyncWorker(runId: string, token: string, now: real) returns (reply: Reply)
      requires Valid()
      modifies this
      ensures reply == if token == "" then Rejected(BadArgument) else AnswerFor(old(runs), runId, Event(ReserveOp(token), now))
      ensures runs == Stored(old(runs), runId, reply) && Valid()
    {
      StoredKeepsValid(runs, runId, Event(ReserveOp(token), now));
      if token == "" {
        return Rejected(BadArgument);
      }
      if runId !in runs {
        return Rejected(NotFound);
      }
      var record := runs[runId];
      if record.status != Accepted || record.workerToken != "" {
        return Rejected(NotAvailable);
      }
      record := record.(workerToken := token, revision := record.revision + 1);
      reply := Publish(runId, record, now);
    }

    method ClaimForExecution(runId: string, token: string, leaseSlots: seq<string>, worker: Process, now: real)
      returns (reply: Reply)
      requires Valid()
      modifies this
      ensures reply == if token == "" || (worker.pid == 0) != (worker.startedAt == "") then Rejected(BadArgument)
                       else AnswerFor(old(runs), runId, Event(ClaimOp(token, leaseSlots, worker), now))
      ensures runs == Stored(old(runs), runId, reply) && Valid()
    {
      StoredKeepsValid(runs, runId, Event(ClaimOp(token, leaseSlots, worker), now));
      if token == "" || (worker.pid == 0) != (worker.startedAt == "") {
        return Rejected(BadArgument);
      }
      if runId !in runs {
        return Rejected(NotFound);
      }
      var record := runs[runId];
      if record.status != Accepted {
        return Rejected(NotClaimable);
      }
      if record.workerToken != "" && record.workerToken != token {
        return Rejected(TokenMismatch);
      }
      record := record.(status := Running, workerToken := token);
      record := record.(worker := worker, leaseSlots := leaseSlots);
      record := record.(revision := record.revision + 1);
      reply := Publish(runId, record, now);
    }

    method BindBackendProcess(
      runId: string, token: string, pid: int, pgid: int, startedAt: string, probe: Probe, now: real)
      returns (reply: Reply)
      requires Valid()
      modifies this
      ensures runId in old(runs) ==>
        reply == Apply(old(runs)[runId],
                       Event(BindBackendOp(token, pid, pgid, startedAt, runId + ".backend.lifetime", probe), now))
      ensures runId !in old(runs) ==> reply.Rejected?
      ensures runs == Stored(old(runs), runId, reply) && Valid()
    {
      var lifetimePath := runId + ".backend.lifetime";
      StoredKeepsValid(runs, runId, Event(BindBackendOp(token, pid, pgid, startedAt, lifetimePath, probe), now));
      if pid <= 0 || pgid <= 0 || pgid != pid || startedAt == "" {
        return Rejected(BadArgument);
      }
      if !probe.lifetimeLockHeld || probe.livePgid != Some(pgid) {
        return Rejected(Unverified);
      }
      if "unknown-" <= startedAt || probe.liveStartedAt != Some(startedAt) {
        return Rejected(Unverified);
      }
      if runId !in runs {
        return Rejected(NotFound);
      }
      var record := runs[runId];
      if record.status != Running || record.workerToken != token || record.backend.pid != 0 {
        return Rejected(OwnershipChanged);
      }
      record := record.(backend := Backend(pid, pgid, startedAt, lifetimePath), revision := record.revision + 1);
      reply := Publish(runId, record, now);
    }

    method CleanupBackendIfOwned(runId: string, token: string, proven: bool, now: real)
      returns (reply: Reply, clean: bool)
      requires Valid()
      modifies this
      ensures reply == AnswerFor(old(runs), runId, Event(CleanupOp(token, proven), now))
      ensures runs == Stored(old(runs), runId, reply) && Valid()
      ensures clean <==> runId in old(runs) && CleanupAnswer(old(runs)[runId], token, proven)
    {
      StoredKeepsValid(runs, runId, Event(CleanupOp(token, proven), now));
      if runId !in runs {
        return Rejected(NotFound), false;
      }
      var record := runs[runId];
      if record.status != Running || record.workerToken != token {
        return Unchanged(record), record.status.Terminal();
      }
      if record.backend.pid <= 0 {
        return Unchanged(record), true;
      }
      if !proven {
        record := record.(error := CLEANUP_UNPROVEN, revision := record.revision + 1);
        reply := Publish(runId, record, now);
        return reply, false;
      }
      record := record.(backend := NO_BACKEND, revision := record.revision + 1);
      reply := Publish(runId, record, now);
      return reply, true;
    }

    /** The shared ending of the `fail_if_*` family. */
    method EndRun(runId: string, error: string, now: real) returns (reply: Reply)
      requires runId in runs
      modifies this
      ensures reply == FailOrCancel(old(runs)[runId], error, now)
      ensures runs == Stored(old(runs), runId, reply)
    {
      var record := runs[runId];
      if CancelRequested(record) {
        record := record.(status := Cancelled);
      } else {
        record := record.(status := Failed, error := error);
      }
      record := record.(revision := record.revision + 1);
      reply := Publish(runId, record, now);
    }

    method FailIfAccepted(runId: string, error: string, now: real) returns (reply: Reply)
      requires Valid()
      modifies this
      ensures reply == AnswerFor(old(runs), runId, Event(FailIfAcceptedOp(error), now))
      ensures runs == Stored(old(runs), runId, reply) && Valid()
    {
      StoredKeepsValid(runs, runId, Event(FailIfAcceptedOp(error), now));
      if runId !in runs {
        return Rejected(NotFound);
      }
      if runs[runId].status != Accepted || runs[runId].workerToken != "" {
        return Unchanged(runs[runId]);
      }
      reply := EndRun(runId, error, now);
    }

    method FailIfRunning(runId: string, token: string, error: string, now: real) returns (reply: Reply)
      requires Valid()
      modifies this
      ensures reply == AnswerFor(old(runs), runId, Event(FailIfRunningOp(token, error), now))
      ensures runs == Stored(old(runs), runId, reply) && Valid()
    {
      StoredKeepsValid(runs, runId, Event(FailIfRunningOp(token, error), now));
      if runId !in runs {
        return Rejected(NotFound);
      }
      var record := runs[runId];
      if record.status != Running || record.workerToken != token || record.backend.pid != 0 {
        return Unchanged(record);
      }
      reply := EndRun(runId, error, now);
    }

    method FailIfActiveWorker(runId: string, token: string, error: string, now: real) returns (reply: Reply)
      requires Valid()
      modifies this
      ensures reply == AnswerFor(old(runs), runId, Event(FailIfActiveOp(token, error), now))
      ensures runs == Stored(old(runs), runId, reply) && Valid()
    {
      StoredKeepsValid(runs, runId, Event(FailIfActiveOp(token, error), now));
      if runId !in runs {
        return Rejected(NotFound);
      }
      var record := runs[runId];
      if record.status !in {Accepted, Running} || record.workerToken != token
         || (record.status == Running && record.backend.pid != 0) {
        return Unchanged(record);
      }
      reply := EndRun(runId, error, now);
    }

    method FailIfReservedWorker(runId: string, token: string, error: string, now: real) returns (reply: Reply)
      requires Valid()
      modifies this
      ensures reply == AnswerFor(old(runs), runId, Event(FailIfReservedOp(token, error), now))
      ensures runs == Stored(old(runs), runId, reply) && Valid()
    {
      StoredKeepsValid(runs, runId, Event(FailIfReservedOp(token, error), now));
      if runId !in runs {
        return Rejected(NotFound);
      }
      var record := runs[runId];
      if record.status != Accepted || record.workerToken != token {
        return Unchanged(record);
      }
      record := record.(status := Failed, error := error, revision := record.revision + 1);
      reply := Publish(runId, record, now);
    }

    method Delete(runId: string)
      requires Valid()
      modifies this
      ensures runs == old(runs) - {runId} && Valid()
    {
      if runId in runs {
        runs := runs - {runId};
      }
    }

    /** Other processes act on the store. */
    method OthersAct(deeds: seq<Deed>)
      requires Valid() && FairDeeds(deeds)
      modifies this
      ensures Valid() && runs == AllDone(old(runs), deeds)
    {
      DeedsKeepValid(runs, deeds);
      runs := AllDone(runs, deeds);
    }

    /** One turn of the reconciliation loop: `record` is the listed snapshot, and
        others act before it and between its store calls. */
    method ReconcileOne(record: RunRecord, only: Option<set<string>>, oracle: Oracle, turn: Turn)
      returns (finding: Finding)
      requires Valid() && FairTurn(turn)
      modifies this
      ensures Valid() && (runs, finding) == TurnTaken(old(runs), record, only, oracle, turn)
    {
      OthersAct(turn.before);
      ghost var met := runs;
      var runId, now := record.runId, turn.now;
      if only.Some? && runId !in only.value {
        return LeftAlone;
      }
      if record.status == Accepted && record.workerToken != "" && record.worker.pid == 0
         && now - record.updatedAt >= ASYNC_RESERVATION_GRACE_SECONDS {
        var updated := FailIfReservedWorker(runId, record.workerToken, RESERVATION_EXPIRED, now);
        CallIs(met, runId, FailIfReservedOp(record.workerToken, RESERVATION_EXPIRED), now);
        return Finds(updated);
      }
      if record.status != Running || record.workerToken == "" || record.worker.pid == 0
         || record.worker.startedAt == "" {
        return LeftAlone;
      }
      if !oracle.dead(record.worker) {
        return LeftAlone;
      }
      finding := EndDeadRun(runId, record.workerToken, oracle.backendStopped(runId), turn);
    }

    method EndDeadRun(runId: string, token: string, proven: bool, turn: Turn) returns (finding: Finding)
      requires Valid() && FairDeeds(turn.between)
      modifies this
      ensures Valid() && (runs, finding) == DeadTurn(old(runs), runId, token, proven, turn)
    {
      ghost var met := runs;
      var reply, clean := CleanupBackendIfOwned(runId, token, proven, turn.now);
      if reply.Rejected? {
        return Vanished;
      }
      CallIs(met, runId, CleanupOp(token, proven), turn.now);
      if !clean {
        return LeftAlone;
      }
      OthersAct(turn.between);
      met := runs;
      var updated := FailIfActiveWorker(runId, token, WORKER_EXITED, turn.now);
      CallIs(met, runId, FailIfActiveOp(token, WORKER_EXITED), turn.now);
      return Finds(updated);
    }

    /** Reads the named run files, skipping what is no longer there. */
    method ListRuns(names: seq<string>, deeds: seq<seq<Deed>>) returns (records: seq<RunRecord>)
      requires Valid() && |deeds| == |names| && forall i :: 0 <= i < |deeds| ==> FairDeeds(deeds[i])
      modifies this
      ensures Valid() && (runs, records) == Listing(old(runs), names, deeds) && |records| <= |names|
    {
      records := [];
      for i := 0 to |names|
        invariant Valid() && |records| <= i
        invariant Listing(runs, names[i..], deeds[i..]).0 == Listing(old(runs), names, deeds).0
        invariant records + Listing(runs, names[i..], deeds[i..]).1 == Listing(old(runs), names, deeds).1
      {
        assert names[i..][1..] == names[i + 1..] && deeds[i..][1..] == deeds[i + 1..];
        OthersAct(deeds[i]);
        if names[i] in runs {
          records := records + [runs[names[i]]];
        }
      }
      assert names[|names|..] == [] && records + [] == records;
    }

    /** Ends running generations whose process has died, and async reservations
        no process ever claimed. It decides by what it listed; others act all the
        time. A record that vanished under it makes it raise. */
    method ReconcileOrphanedWorkers(names: seq<string>, deeds: seq<seq<Deed>>, only: Option<set<string>>, oracle: Oracle,
        turns: seq<Turn>)
      returns (reconciled: Result<seq<string>, Refusal>)
      requires Valid() && |deeds| == |names| && (forall i :: 0 <= i < |deeds| ==> FairDeeds(deeds[i]))
      requires |turns| >= |names| && FairTurns(turns)
      modifies this
      ensures Valid()
      ensures var (found, listed) := Listing(old(runs), names, deeds);
        |listed| <= |turns| &&
        var passed := PassOver(found, [], listed, only, oracle, turns);
        && runs == passed.runs && reconciled == if passed.broken then Err(NotFound) else Ok(passed.told)
    {
      var records := ListRuns(names, deeds);
      ghost var found := runs;
      var told: seq<string> := [];
      assert records[0..] == records && turns[0..] == turns;
      for i := 0 to |records|
        invariant Valid()
        invariant PassOver(runs, told, records[i..], only, oracle, turns[i..])
                  == PassOver(found, [], records, only, oracle, turns)
      {
        assert records[i..][1..] == records[i + 1..] && turns[i..][1..] == turns[i + 1..];
        var finding := ReconcileOne(records[i], only, oracle, turns[i]);
        if finding.Vanished? {
          return Err(NotFound);
        }
        if finding.SaidFailed? {
          told := told + [records[i].runId];
        }
      }
      return Ok(told);
    }
  }
}
