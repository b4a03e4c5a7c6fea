/** Slot safety across modules: any number of workers, reconcilers, cancel
    callers and reclaimers share the run store and the slot tables, any of them
    may crash between two durable steps, and still the runs with a tracked
    backend never outnumber the slots. */
module SlotSafety {
  import opened Common
  import opened RunRecords
  import opened RunStores
  import opened Leases
  import opened SlotManagers

  datatype Limits = Limits(maxPerBackend: nat, maxGlobal: nat)

  /** Where one execution of a run stands. `Closing` has met an error after its
      claim; `Winding` has proven its backend stopped, or never claimed. */
  datatype Phase = Started | HasBackend | HasBoth | Claimed | BoundBackend | BoundBoth | Closing | Winding {
    predicate HoldsBackendLease() { this != Started }
    predicate HoldsGlobalLease() { this != Started && this != HasBackend }
    predicate Owns() { this in {Claimed, BoundBackend, BoundBoth, Closing} }
  }

  datatype Worker = Worker(runId: string, backend: string, token: string, alive: bool, phase: Phase,
                           backendLease: SlotLease, globalLease: SlotLease)

  /** Everything but the workers. `locked` maps a slot to the process that holds
      its lock having found it reclaimable; `drawn` is every owner token drawn so
      far; `retired` every run id that was deleted. */
  datatype Disk = Disk(runs: Runs, retired: set<string>, slots: Slots, locked: map<SlotKey, string>, drawn: set<string>)

  datatype System = System(disk: Disk, workers: map<string, Worker>)

  const NO_LEASE := SlotLease(SlotKey("", 0), "")

  const EMPTY := System(Disk(map[], {}, map[], map[], {}), map[])

  datatype Step =
    | CreateRun(runId: string, origin: Origin, at: real)
    | DeleteRun(runId: string)
    | StoreEvent(runId: string, event: Event)
    | Launch(w: string, runId: string, token: string)
    | InstallFree(w: string, index: nat, ownerToken: string, env: Env)
    | InstallTorn(w: string, index: nat, written: bool, ownerToken: string, env: Env)
    | Inspect(w: string, index: nat, env: Env)
    | TakeOver(w: string, index: nat, ownerToken: string, env: Env)
    | ReclaimBreaksOff(key: SlotKey, left: Leftover, at: real)
    | Claim(w: string, me: Process, at: real)
    | BindLease(w: string)
    | TrackBackend(w: string, pid: int, pgid: int, startedAt: string, lockPath: string, probe: Probe, at: real)
    | RenewLease(w: string, global: bool, me: Process, at: real)
    | StopBackend(w: string, proven: bool, at: real)
    | GiveBack(w: string, global: bool, fault: ReleaseFault, at: real)
    | Report(w: string, status: Status, error: string, result: Option<string>, at: real)
    | Crash(w: string)

  // --------------------------------------------------------------- the protocol

  predicate Alive(s: System, w: string) {
    w in s.workers && s.workers[w].alive
  }

  /** The slot a worker is trying to take next. */
  function Wanted(worker: Worker, index: nat): SlotKey {
    SlotKey(if worker.phase == Started then BackendScope(worker.backend) else GLOBAL_SCOPE, index)
  }

  predicate Wants(l: Limits, s: System, w: string, index: nat) {
    Alive(s, w) && s.workers[w].phase in {Started, HasBackend}
    && index < if s.workers[w].phase == Started then l.maxPerBackend else l.maxGlobal
  }

  /** A scan sees each run file as it is, or fails to read it. */
  predicate SeesRuns(view: RunsView, runs: Runs) {
    view.files.Keys == runs.Keys
    && forall id :: id in view.files && view.files[id].Some? ==> view.files[id].value == runs[id]
  }

  predicate OpenToAnyone(op: Op) {
    !op.ClaimOp? && !op.BindBackendOp? && !op.UpdateStatusOp?
  }

  predicate Enabled(l: Limits, s: System, step: Step) {
    match step
    case CreateRun(runId, origin, at) => runId !in s.disk.runs && runId !in s.disk.retired && ValidOrigin(origin)
    case DeleteRun(runId) => runId in s.disk.runs && s.disk.runs[runId].status.Terminal()
    case StoreEvent(runId, event) => runId in s.disk.runs && ValidEvent(event) && OpenToAnyone(event.op)
    case Launch(w, runId, token) => w !in s.workers && runId in s.disk.runs
    case InstallFree(w, index, ownerToken, env) =>
      Wants(l, s, w, index) && Wanted(s.workers[w], index) !in s.disk.slots
      && Wanted(s.workers[w], index) !in s.disk.locked && ownerToken !in s.disk.drawn
    case InstallTorn(w, index, written, ownerToken, env) =>
      Wants(l, s, w, index) && Wanted(s.workers[w], index) !in s.disk.slots
      && Wanted(s.workers[w], index) !in s.disk.locked && (written ==> ownerToken !in s.disk.drawn)
    case Inspect(w, index, env) =>
      Wants(l, s, w, index) && SeesRuns(env.view, s.disk.runs)
      && (var key := Wanted(s.workers[w], index);
          key in s.disk.slots && key !in s.disk.locked && Reclaimable(key, s.disk.slots[key], env))
    case TakeOver(w, index, ownerToken, env) =>
      Wants(l, s, w, index) && ownerToken !in s.disk.drawn
      && (var key := Wanted(s.workers[w], index); key in s.disk.locked && s.disk.locked[key] == w)
    case ReclaimBreaksOff(key, left, at) => key in s.disk.locked
    case Claim(w, me, at) => Alive(s, w) && s.workers[w].phase == HasBoth
    case BindLease(w) =>
      Alive(s, w) && s.workers[w].phase in {Claimed, BoundBackend} && Binding(s.workers[w]).key !in s.disk.locked
    case TrackBackend(w, pid, pgid, startedAt, lockPath, probe, at) =>
      Alive(s, w) && s.workers[w].phase == BoundBoth && s.workers[w].runId in s.disk.runs && lockPath != ""
    case RenewLease(w, global, me, at) =>
      Alive(s, w) && s.workers[w].phase in {BoundBoth, Closing, Winding} && LeaseOf(s.workers[w], global).key !in s.disk.locked
    case StopBackend(w, proven, at) => Alive(s, w) && s.workers[w].phase.Owns() && s.workers[w].runId in s.disk.runs
    case GiveBack(w, global, fault, at) =>
      Alive(s, w) && s.workers[w].phase in {HasBackend, HasBoth, Winding} && HoldsLease(s.workers[w], global)
      && LeaseOf(s.workers[w], global).key !in s.disk.locked
    case Report(w, status, error, result, at) =>
      Alive(s, w) && s.workers[w].phase == Winding && s.workers[w].runId in s.disk.runs && status.Terminal()
    case Crash(w) => w in s.workers
  }

  function LeaseOf(worker: Worker, global: bool): SlotLease {
    if global then worker.globalLease else worker.backendLease
  }

  predicate HoldsLease(worker: Worker, global: bool) {
    if global then worker.phase.HoldsGlobalLease() else worker.phase.HoldsBackendLease()
  }

  /** The lease a claimed worker binds next. */
  function Binding(worker: Worker): SlotLease {
    LeaseOf(worker, worker.phase == BoundBackend)
  }

  function Take(worker: Worker, lease: SlotLease): Worker {
    if worker.phase == Started then worker.(phase := HasBackend, backendLease := lease)
    else worker.(phase := HasBoth, globalLease := lease)
  }

  function OnDisk(s: System, disk: Disk): System {
    s.(disk := disk)
  }

  function Becomes(s: System, w: string, worker: Worker): System {
    s.(workers := s.workers[w := worker])
  }

  function StoredEvent(d: Disk, runId: string, e: Event): Disk {
    d.(runs := Stored(d.runs, runId, AnswerFor(d.runs, runId, e)))
  }

  function ClaimEvent(worker: Worker, me: Process, at: real): Event {
    Event(ClaimOp(worker.token, [SlotPath(worker.backendLease.key), SlotPath(worker.globalLease.key)], me), at)
  }

  function Do(l: Limits, s: System, step: Step): System
    requires Enabled(l, s, step)
  {
    match step
    case CreateRun(runId, origin, at) => OnDisk(s, s.disk.(runs := s.disk.runs[runId := NewRecord(runId, origin, at)]))
    case DeleteRun(runId) => OnDisk(s, s.disk.(runs := s.disk.runs - {runId}, retired := s.disk.retired + {runId}))
    case StoreEvent(runId, event) => OnDisk(s, StoredEvent(s.disk, runId, event))
    case Launch(w, runId, token) =>
      Becomes(s, w, Worker(runId, s.disk.runs[runId].origin.backend, token, true, Started, NO_LEASE, NO_LEASE))
    case InstallFree(w, index, ownerToken, env) => Installed(s, w, index, ownerToken, env)
    case InstallTorn(w, index, written, ownerToken, env) =>
      OnDisk(s, Torn(s.disk, Wanted(s.workers[w], index), written, ownerToken, env))
    case Inspect(w, index, env) => OnDisk(s, s.disk.(locked := s.disk.locked[Wanted(s.workers[w], index) := w]))
    case TakeOver(w, index, ownerToken, env) =>
      Installed(OnDisk(s, s.disk.(locked := s.disk.locked - {Wanted(s.workers[w], index)})), w, index, ownerToken, env)
    case ReclaimBreaksOff(key, left, at) =>
      OnDisk(s, s.disk.(locked := s.disk.locked - {key}, slots := Left(s.disk.slots, key, left, at)))
    case Claim(w, me, at) =>
      var worker := s.workers[w];
      var e := ClaimEvent(worker, me, at);
      Becomes(OnDisk(s, StoredEvent(s.disk, worker.runId, e)), w,
              worker.(phase := if AnswerFor(s.disk.runs, worker.runId, e).Saved? then Claimed else Winding))
    case BindLease(w) =>
      var worker := s.workers[w];
      var bound := BindAllowed(s.disk.slots, Binding(worker), worker.runId);
      var next := if !bound then Closing else if worker.phase == Claimed then BoundBackend else BoundBoth;
      Becomes(OnDisk(s, s.disk.(slots := Bound(s.disk.slots, Binding(worker), worker.runId))), w, worker.(phase := next))
    case TrackBackend(w, pid, pgid, startedAt, lockPath, probe, at) =>
      var worker := s.workers[w];
      OnDisk(s, StoredEvent(s.disk, worker.runId,
                            Event(BindBackendOp(worker.token, pid, pgid, startedAt, lockPath, probe), at)))
    case RenewLease(w, global, me, at) =>
      OnDisk(s, s.disk.(slots := Renewed(s.disk.slots, LeaseOf(s.workers[w], global), me, at)))
    case StopBackend(w, proven, at) =>
      var worker := s.workers[w];
      var clean := CleanupAnswer(s.disk.runs[worker.runId], worker.token, proven);
      Becomes(OnDisk(s, StoredEvent(s.disk, worker.runId, Event(CleanupOp(worker.token, proven), at))), w,
              if clean then worker.(phase := Winding) else worker.(alive := false))
    case GiveBack(w, global, fault, at) =>
      OnDisk(s, s.disk.(slots := Released(s.disk.slots, LeaseOf(s.workers[w], global), fault, at)))
    case Report(w, status, error, result, at) =>
      var worker := s.workers[w];
      OnDisk(s, StoredEvent(s.disk, worker.runId,
                            Event(UpdateStatusOp(status, error, result, None, None, Some(worker.token)), at)))
    case Crash(w) => Becomes(s, w, s.workers[w].(alive := false))
  }

  /** An installation that breaks off and is not undone, before or after its lease
      file was written; nobody keeps its token. */
  function Torn(d: Disk, key: SlotKey, written: bool, ownerToken: string, env: Env): Disk {
    d.(slots := d.slots[key := Slot(if written then Some(NewLease(env, ownerToken)) else None, env.now)],
       drawn := if written then d.drawn + {ownerToken} else d.drawn)
  }

  function Installed(s: System, w: string, index: nat, ownerToken: string, env: Env): System
    requires w in s.workers
  {
    var key := Wanted(s.workers[w], index);
    Becomes(OnDisk(s, s.disk.(slots := s.disk.slots[key := NewSlot(env, ownerToken)],
                              drawn := s.disk.drawn + {ownerToken})),
            w, Take(s.workers[w], SlotLease(key, ownerToken)))
  }

  // ------------------------------------------------------------- the invariant

  /** A worker's own tokens were drawn for it, in slots within the limits. */
  ghost predicate LeasesInRange(l: Limits, d: Disk, worker: Worker) {
    && (worker.phase.HoldsBackendLease() ==>
          && worker.backendLease.ownerToken in d.drawn
          && worker.backendLease.key.scope == BackendScope(worker.backend)
          && worker.backendLease.key.index < l.maxPerBackend)
    && (worker.phase.HoldsGlobalLease() ==>
          && worker.globalLease.ownerToken in d.drawn
          && worker.globalLease.key.scope == GLOBAL_SCOPE
          && worker.globalLease.key.index < l.maxGlobal)
  }

  /** The tokens a worker has drawn so far. */
  function TokensOf(worker: Worker): set<string> {
    (if worker.phase.HoldsBackendLease() then {worker.backendLease.ownerToken} else {})
    + (if worker.phase.HoldsGlobalLease() then {worker.globalLease.ownerToken} else {})
  }

  /** Two workers never share a token, nor a claimed run. */
  ghost predicate Apart(a: Worker, b: Worker) {
    && TokensOf(a) !! TokensOf(b)
    && (a.phase.Owns() && b.phase.Owns() ==> a.runId != b.runId)
  }

  /** The lease still carries its holder's token and names its run, and nobody
      has found it reclaimable. */
  ghost predicate Secured(d: Disk, lease: SlotLease, runId: string) {
    && Holds(d.slots, lease.key, lease.ownerToken)
    && d.slots[lease.key].lease.value.runId == runId != ""
    && lease.key !in d.locked
  }

  ghost predicate RunRunning(d: Disk, runId: string) {
    runId in d.runs && d.runs[runId].status == Running
  }

  ghost predicate LeasesSecured(d: Disk, worker: Worker) {
    && (worker.phase in {BoundBackend, BoundBoth} ==> Secured(d, worker.backendLease, worker.runId))
    && (worker.phase == BoundBoth ==> Secured(d, worker.globalLease, worker.runId))
  }

  ghost predicate WorkerInv(l: Limits, d: Disk, worker: Worker) {
    && LeasesInRange(l, d, worker)
    && (worker.runId in d.runs || worker.runId in d.retired)
    && (worker.runId in d.runs ==> worker.backend == d.runs[worker.runId].origin.backend)
    && (worker.phase.Owns() && worker.runId in d.runs ==> d.runs[worker.runId].status != Accepted)
    && (RunRunning(d, worker.runId) ==> LeasesSecured(d, worker))
  }

  ghost predicate DiskInv(d: Disk) {
    && ValidRuns(d.runs) && d.runs.Keys !! d.retired
    && (forall key :: key in d.slots && d.slots[key].lease.Some? ==> d.slots[key].lease.value.ownerToken in d.drawn)
  }

  ghost predicate WorkersInv(l: Limits, d: Disk, workers: map<string, Worker>) {
    forall w :: w in workers ==> WorkerInv(l, d, workers[w])
  }

  ghost predicate AllApart(workers: map<string, Worker>) {
    forall a, b :: a in workers && b in workers && a != b ==> Apart(workers[a], workers[b])
  }

  predicate Tracked(d: Disk, runId: string) {
    runId in d.runs && d.runs[runId].backend.pid != 0
  }

  ghost predicate Executes(workers: map<string, Worker>, w: string, runId: string) {
    w in workers && workers[w].runId == runId && workers[w].phase == BoundBoth
  }

  /** Every tracked backend belongs to a worker that bound both its leases. */
  ghost predicate TrackedByWorkers(d: Disk, workers: map<string, Worker>) {
    forall id :: Tracked(d, id) ==> exists w :: Executes(workers, w, id)
  }

  ghost predicate SystemInv(l: Limits, s: System) {
    && DiskInv(s.disk) && WorkersInv(l, s.disk, s.workers)
    && AllApart(s.workers) && TrackedByWorkers(s.disk, s.workers)
  }

  // ------------------------------------------------- steps keep the invariant

  /** An event by anyone but the run's own worker, or that worker's final report,
      revives nothing and tracks nothing. */
  lemma NoRevival(r: RunRecord, e: Event)
    requires OpenToAnyone(e.op) || (e.op.UpdateStatusOp? && e.op.status.Terminal())
    ensures After(r, e).status == Running ==> r.status == Running
    ensures r.status != Accepted ==> After(r, e).status != Accepted
    ensures After(r, e).backend.pid != 0 ==> r.backend.pid != 0
  {
    match e.op
    case UpdateStatusOp(_, _, _, _, _, _) =>
    case RequestCancelOp(_) =>
    case ReserveOp(_) =>
    case CleanupOp(_, _) =>
    case FailIfAcceptedOp(_) =>
    case FailIfRunningOp(_, _) =>
    case FailIfActiveOp(_, _) =>
    case FailIfReservedOp(_, _) =>
  }

  /** Only this run's record differs, and it is not what a creation would give. */
  ghost predicate Rewritten(d: Disk, e: Disk, runId: string) {
    && runId in d.runs && e == d.(runs := e.runs) && e.runs.Keys == d.runs.Keys && ValidRuns(e.runs)
    && (forall id :: id in d.runs && id != runId ==> e.runs[id] == d.runs[id])
    && e.runs[runId].origin == d.runs[runId].origin
    && (d.runs[runId].status != Accepted ==> e.runs[runId].status != Accepted)
    && (e.runs[runId].status == Running ==> d.runs[runId].status in {Accepted, Running})
  }

  lemma RewriteKeepsWorker(l: Limits, d: Disk, e: Disk, runId: string, worker: Worker)
    requires Rewritten(d, e, runId) && WorkerInv(l, d, worker)
    ensures WorkerInv(l, e, worker)
  {
  }

  lemma RewriteKeepsInv(l: Limits, s: System, d: Disk, runId: string)
    requires SystemInv(l, s) && Rewritten(s.disk, d, runId)
    requires d.runs[runId].backend.pid != 0 ==> s.disk.runs[runId].backend.pid != 0 || exists w :: Executes(s.workers, w, runId)
    ensures SystemInv(l, OnDisk(s, d))
  {
    forall w | w in s.workers ensures WorkerInv(l, d, s.workers[w]) {
      RewriteKeepsWorker(l, s.disk, d, runId, s.workers[w]);
    }
    forall id | Tracked(d, id) ensures exists w :: Executes(s.workers, w, id) {
      assert Tracked(s.disk, id) || id == runId;
    }
  }

  /** A store transition on one record rewrites that record and nothing else. */
  lemma EventRewrites(d: Disk, runId: string, e: Event)
    requires DiskInv(d) && runId in d.runs && ValidEvent(e)
    requires d.runs[runId].status != Accepted ==> After(d.runs[runId], e).status != Accepted
    requires After(d.runs[runId], e).status == Running ==> d.runs[runId].status in {Accepted, Running}
    ensures Rewritten(d, StoredEvent(d, runId, e), runId)
    ensures StoredEvent(d, runId, e).runs[runId] == After(d.runs[runId], e)
  {
    StepKeepsRecord(d.runs[runId], e);
    StoredKeepsValid(d.runs, runId, e);
  }

  lemma EventKeepsInv(l: Limits, s: System, runId: string, e: Event)
    requires SystemInv(l, s) && runId in s.disk.runs && ValidEvent(e)
    requires OpenToAnyone(e.op) || (e.op.UpdateStatusOp? && e.op.status.Terminal())
    ensures SystemInv(l, OnDisk(s, StoredEvent(s.disk, runId, e)))
  {
    NoRevival(s.disk.runs[runId], e);
    EventRewrites(s.disk, runId, e);
    RewriteKeepsInv(l, s, StoredEvent(s.disk, runId, e), runId);
  }

  /** A change of the slot tables alone, which leaves every secured lease secured. */
  lemma TableKeepsInv(l: Limits, s: System, d: Disk)
    requires SystemInv(l, s) && d.runs == s.disk.runs && d.retired == s.disk.retired && s.disk.drawn <= d.drawn
    requires forall key :: key in d.slots && d.slots[key].lease.Some? ==> d.slots[key].lease.value.ownerToken in d.drawn
    requires forall w :: w in s.workers && RunRunning(s.disk, s.workers[w].runId) && LeasesSecured(s.disk, s.workers[w])
               ==> LeasesSecured(d, s.workers[w])
    ensures SystemInv(l, OnDisk(s, d))
  {
    forall w | w in s.workers ensures WorkerInv(l, d, s.workers[w]) {
      assert WorkerInv(l, s.disk, s.workers[w]);
    }
    forall id | Tracked(d, id) ensures exists w :: Executes(s.workers, w, id) {
      assert Tracked(s.disk, id);
    }
  }

  /** A change of one worker alone. */
  lemma WorkerKeepsInv(l: Limits, s: System, w: string, next: Worker)
    requires SystemInv(l, s) && WorkerInv(l, s.disk, next)
    requires forall x :: x in s.workers && x != w ==> Apart(next, s.workers[x]) && Apart(s.workers[x], next)
    requires forall id :: Tracked(s.disk, id) && Executes(s.workers, w, id) ==> next.phase == BoundBoth && next.runId == id
    ensures SystemInv(l, Becomes(s, w, next))
  {
    var workers := s.workers[w := next];
    forall id | Tracked(s.disk, id) ensures exists x :: Executes(workers, x, id) {
      var x :| Executes(s.workers, x, id);
      assert Executes(workers, x, id);
    }
  }

  lemma CreateKeepsInv(l: Limits, s: System, step: Step)
    requires SystemInv(l, s) && Enabled(l, s, step) && (step.CreateRun? || step.DeleteRun?)
    ensures SystemInv(l, Do(l, s, step))
  {
    var d := Do(l, s, step).disk;
    if step.CreateRun? {
      NewRecordValid(step.runId, step.origin, step.at);
    }
    forall w | w in s.workers ensures WorkerInv(l, d, s.workers[w]) {
      assert WorkerInv(l, s.disk, s.workers[w]);
    }
    forall id | Tracked(d, id) ensures exists w :: Executes(s.workers, w, id) {
      assert Tracked(s.disk, id);
    }
  }

  /** Tokens in use were drawn before, so a fresh one belongs to nobody. */
  lemma FreshTokenApart(l: Limits, d: Disk, worker: Worker, token: string)
    requires WorkerInv(l, d, worker) && token !in d.drawn
    ensures token !in TokensOf(worker)
  {
  }

  /** A change of one slot that was free, or locked by the process changing it. */
  lemma FreeSlotKeepsInv(l: Limits, s: System, d: Disk, key: SlotKey)
    requires SystemInv(l, s) && d == s.disk.(slots := d.slots, locked := d.locked, drawn := d.drawn)
    requires s.disk.drawn <= d.drawn && d.locked.Keys <= s.disk.locked.Keys
    requires key !in s.disk.slots || key in s.disk.locked
    requires forall k :: k != key ==> (k in d.slots <==> k in s.disk.slots) && (k in d.slots ==> d.slots[k] == s.disk.slots[k])
    requires key in d.slots && d.slots[key].lease.Some? ==> d.slots[key].lease.value.ownerToken in d.drawn
    ensures SystemInv(l, OnDisk(s, d))
  {
    forall w | w in s.workers && RunRunning(s.disk, s.workers[w].runId) && LeasesSecured(s.disk, s.workers[w])
      ensures LeasesSecured(d, s.workers[w])
    {
    }
    TableKeepsInv(l, s, d);
  }

  /** Installing a lease in a slot nobody has secured. */
  lemma InstallKeepsInv(l: Limits, s: System, w: string, index: nat, ownerToken: string, env: Env)
    requires SystemInv(l, s) && Wants(l, s, w, index) && ownerToken !in s.disk.drawn
    requires Wanted(s.workers[w], index) !in s.disk.slots || Wanted(s.workers[w], index) in s.disk.locked
    ensures SystemInv(l, Installed(OnDisk(s, s.disk.(locked := s.disk.locked - {Wanted(s.workers[w], index)})),
                                   w, index, ownerToken, env))
  {
    var key := Wanted(s.workers[w], index);
    var d := s.disk.(locked := s.disk.locked - {key}, slots := s.disk.slots[key := NewSlot(env, ownerToken)],
                     drawn := s.disk.drawn + {ownerToken});
    FreeSlotKeepsInv(l, s, d, key);
    var next := Take(s.workers[w], SlotLease(key, ownerToken));
    assert WorkerInv(l, s.disk, s.workers[w]);
    forall x | x in s.workers && x != w ensures Apart(next, s.workers[x]) && Apart(s.workers[x], next) {
      FreshTokenApart(l, s.disk, s.workers[x], ownerToken);
      assert Apart(s.workers[w], s.workers[x]) && Apart(s.workers[x], s.workers[w]);
      assert TokensOf(next) <= TokensOf(s.workers[w]) + {ownerToken};
    }
    WorkerKeepsInv(l, OnDisk(s, d), w, next);
  }

  /** A slot found reclaimable is secured by no running run. */
  lemma ReclaimableIsUnsecured(d: Disk, key: SlotKey, lease: SlotLease, runId: string, env: Env)
    requires SeesRuns(env.view, d.runs) && ValidRuns(d.runs) && RunRunning(d, runId) && Secured(d, lease, runId)
    requires key in d.slots && Reclaimable(key, d.slots[key], env)
    ensures lease.key != key
  {
  }

  lemma InspectKeepsInv(l: Limits, s: System, step: Step)
    requires SystemInv(l, s) && Enabled(l, s, step) && step.Inspect?
    ensures SystemInv(l, Do(l, s, step))
  {
    var d := Do(l, s, step).disk;
    var key := Wanted(s.workers[step.w], step.index);
    forall w | w in s.workers && RunRunning(s.disk, s.workers[w].runId) && LeasesSecured(s.disk, s.workers[w])
      ensures LeasesSecured(d, s.workers[w])
    {
      var worker := s.workers[w];
      if worker.phase in {BoundBackend, BoundBoth} {
        ReclaimableIsUnsecured(s.disk, key, worker.backendLease, worker.runId, step.env);
      }
      if worker.phase == BoundBoth {
        ReclaimableIsUnsecured(s.disk, key, worker.globalLease, worker.runId, step.env);
      }
    }
    TableKeepsInv(l, s, d);
  }

  /** A claim only ever turns an accepted run without a backend into a running one. */
  lemma ClaimStarts(r: RunRecord, worker: Worker, me: Process, at: real)
    requires Inv(r)
    ensures var e := ClaimEvent(worker, me, at);
      if Apply(r, e).Saved? then r.status == Accepted && After(r, e).status == Running && After(r, e).backend.pid == 0
      else After(r, e) == r
  {
  }

  lemma ClaimKeepsInv(l: Limits, s: System, step: Step)
    requires SystemInv(l, s) && Enabled(l, s, step) && step.Claim?
    ensures SystemInv(l, Do(l, s, step))
  {
    var worker := s.workers[step.w];
    var e := ClaimEvent(worker, step.me, step.at);
    var d := StoredEvent(s.disk, worker.runId, e);
    if AnswerFor(s.disk.runs, worker.runId, e).Saved? {
      ClaimStarts(s.disk.runs[worker.runId], worker, step.me, step.at);
      EventRewrites(s.disk, worker.runId, e);
      RewriteKeepsInv(l, s, d, worker.runId);
      OwnKeepsInv(l, s, OnDisk(s, d), step.w);
    } else {
      assert d == s.disk;
      RetireKeepsInv(l, s, step.w, worker.(phase := Winding));
    }
  }

  /** A worker whose run was accepted just before is the only one to own it now. */
  lemma OwnKeepsInv(l: Limits, s: System, t: System, w: string)
    requires SystemInv(l, s) && SystemInv(l, t) && t.workers == s.workers && w in s.workers && s.workers[w].phase == HasBoth
    requires s.workers[w].runId in s.disk.runs && s.disk.runs[s.workers[w].runId].status == Accepted
    requires RunRunning(t.disk, s.workers[w].runId)
    ensures SystemInv(l, Becomes(t, w, s.workers[w].(phase := Claimed)))
  {
    var worker, next := s.workers[w], s.workers[w].(phase := Claimed);
    assert WorkerInv(l, t.disk, worker);
    forall x | x in s.workers && x != w ensures Apart(next, s.workers[x]) && Apart(s.workers[x], next) {
      assert WorkerInv(l, s.disk, s.workers[x]);
      assert Apart(worker, s.workers[x]) && Apart(s.workers[x], worker);
    }
    WorkerKeepsInv(l, t, w, next);
  }

  /** A worker gives up claims but keeps its leases' tokens. */
  lemma RetireKeepsInv(l: Limits, s: System, w: string, next: Worker)
    requires SystemInv(l, s) && w in s.workers
    requires next == s.workers[w].(phase := next.phase, alive := next.alive)
    requires next.phase == s.workers[w].phase
             || (next.phase in {Closing, Winding} && s.workers[w].phase.HoldsGlobalLease()
                 && (next.phase == Closing ==> s.workers[w].phase.Owns())
                 && !(s.workers[w].phase == BoundBoth && Tracked(s.disk, s.workers[w].runId)))
    ensures SystemInv(l, Becomes(s, w, next))
  {
    assert WorkerInv(l, s.disk, s.workers[w]);
    forall x | x in s.workers && x != w ensures Apart(next, s.workers[x]) && Apart(s.workers[x], next) {
      assert Apart(s.workers[w], s.workers[x]) && Apart(s.workers[x], s.workers[w]);
    }
    WorkerKeepsInv(l, s, w, next);
  }

  /** Writing to a slot whose lease one worker holds moves no other worker's. */
  lemma OwnWriteKeepsSecured(l: Limits, s: System, w: string, global: bool, d: Disk)
    requires SystemInv(l, s) && w in s.workers && HoldsLease(s.workers[w], global)
    requires d.runs == s.disk.runs && d.locked == s.disk.locked
    requires var lease := LeaseOf(s.workers[w], global);
      && Holds(s.disk.slots, lease.key, lease.ownerToken)
      && forall key :: key in s.disk.slots && key != lease.key ==> key in d.slots && d.slots[key] == s.disk.slots[key]
    ensures forall x :: x in s.workers && x != w && RunRunning(s.disk, s.workers[x].runId) && LeasesSecured(s.disk, s.workers[x])
              ==> LeasesSecured(d, s.workers[x])
  {
    var lease := LeaseOf(s.workers[w], global);
    forall x | x in s.workers && x != w && RunRunning(s.disk, s.workers[x].runId) && LeasesSecured(s.disk, s.workers[x])
      ensures LeasesSecured(d, s.workers[x])
    {
      assert Apart(s.workers[w], s.workers[x]);
      assert lease.ownerToken in TokensOf(s.workers[w]);
      var other := s.workers[x];
      if other.phase in {BoundBackend, BoundBoth} {
        assert other.backendLease.ownerToken in TokensOf(other) && other.globalLease.ownerToken in TokensOf(other);
      }
    }
  }

  lemma BindKeepsInv(l: Limits, s: System, step: Step)
    requires SystemInv(l, s) && Enabled(l, s, step) && step.BindLease?
    ensures SystemInv(l, Do(l, s, step))
  {
    var worker := s.workers[step.w];
    var lease := Binding(worker);
    assert WorkerInv(l, s.disk, worker);
    var d := s.disk.(slots := Bound(s.disk.slots, lease, worker.runId));
    if BindAllowed(s.disk.slots, lease, worker.runId) {
      OwnWriteKeepsSecured(l, s, step.w, worker.phase == BoundBackend, d);
      assert worker.backendLease.key != worker.globalLease.key;
      TableKeepsInv(l, s, d);
      var next := worker.(phase := if worker.phase == Claimed then BoundBackend else BoundBoth);
      assert WorkerInv(l, d, worker);
      assert WorkerInv(l, d, next);
      forall x | x in s.workers && x != step.w ensures Apart(next, s.workers[x]) && Apart(s.workers[x], next) {
        assert Apart(worker, s.workers[x]) && Apart(s.workers[x], worker);
      }
      WorkerKeepsInv(l, OnDisk(s, d), step.w, next);
    } else {
      RetireKeepsInv(l, s, step.w, worker.(phase := Closing));
    }
  }

  lemma TrackKeepsInv(l: Limits, s: System, step: Step)
    requires SystemInv(l, s) && Enabled(l, s, step) && step.TrackBackend?
    ensures SystemInv(l, Do(l, s, step))
  {
    var worker := s.workers[step.w];
    var e := Event(BindBackendOp(worker.token, step.pid, step.pgid, step.startedAt, step.lockPath, step.probe), step.at);
    assert After(s.disk.runs[worker.runId], e).status == s.disk.runs[worker.runId].status;
    EventRewrites(s.disk, worker.runId, e);
    assert Executes(s.workers, step.w, worker.runId);
    RewriteKeepsInv(l, s, StoredEvent(s.disk, worker.runId, e), worker.runId);
  }

  lemma StopKeepsInv(l: Limits, s: System, step: Step)
    requires SystemInv(l, s) && Enabled(l, s, step) && step.StopBackend?
    ensures SystemInv(l, Do(l, s, step))
  {
    var worker := s.workers[step.w];
    var e := Event(CleanupOp(worker.token, step.proven), step.at);
    var r := s.disk.runs[worker.runId];
    EventKeepsInv(l, s, worker.runId, e);
    var d := StoredEvent(s.disk, worker.runId, e);
    if CleanupAnswer(r, worker.token, step.proven) {
      assert After(r, e).backend.pid == 0 && !Tracked(d, worker.runId);
      RetireKeepsInv(l, OnDisk(s, d), step.w, worker.(phase := Winding));
    } else {
      RetireKeepsInv(l, OnDisk(s, d), step.w, worker.(alive := false));
    }
  }

  /** Giving a lease back, or renewing it. */
  lemma HolderWriteKeepsInv(l: Limits, s: System, step: Step)
    requires SystemInv(l, s) && Enabled(l, s, step) && (step.GiveBack? || step.RenewLease?)
    ensures SystemInv(l, Do(l, s, step))
  {
    var d := Do(l, s, step).disk;
    var lease := LeaseOf(s.workers[step.w], step.global);
    if Holds(s.disk.slots, lease.key, lease.ownerToken) {
      OwnWriteKeepsSecured(l, s, step.w, step.global, d);
    }
    assert WorkerInv(l, s.disk, s.workers[step.w]);
    TableKeepsInv(l, s, d);
  }

  lemma LockStepKeepsInv(l: Limits, s: System, step: Step)
    requires SystemInv(l, s) && Enabled(l, s, step) && (step.ReclaimBreaksOff? || step.InstallTorn?)
    ensures SystemInv(l, Do(l, s, step))
  {
    var key := if step.InstallTorn? then Wanted(s.workers[step.w], step.index) else step.key;
    BrokenOffSlot(s.disk, key, if step.ReclaimBreaksOff? then step.left else Untouched);
    FreeSlotKeepsInv(l, s, Do(l, s, step).disk, key);
  }

  lemma BrokenOffSlot(d: Disk, key: SlotKey, left: Leftover)
    requires DiskInv(d)
    ensures forall at :: var slots := Left(d.slots, key, left, at);
      && (forall k :: k != key ==> (k in slots <==> k in d.slots) && (k in slots ==> slots[k] == d.slots[k]))
      && (key in slots && slots[key].lease.Some? ==> slots[key].lease.value.ownerToken in d.drawn)
  {
  }

  lemma InstallFreeKeepsInv(l: Limits, s: System, step: Step)
    requires SystemInv(l, s) && Enabled(l, s, step) && step.InstallFree?
    ensures SystemInv(l, Do(l, s, step))
  {
    assert s.disk.locked - {Wanted(s.workers[step.w], step.index)} == s.disk.locked;
    InstallKeepsInv(l, s, step.w, step.index, step.ownerToken, step.env);
  }

  lemma LaunchKeepsInv(l: Limits, s: System, step: Step)
    requires SystemInv(l, s) && Enabled(l, s, step) && step.Launch?
    ensures SystemInv(l, Do(l, s, step))
  {
    WorkerKeepsInv(l, s, step.w, Do(l, s, step).workers[step.w]);
  }

  /** Every step of every process, crashes included, keeps the invariant. */
  lemma StepKeepsInv(l: Limits, s: System, step: Step)
    requires SystemInv(l, s) && Enabled(l, s, step)
    ensures SystemInv(l, Do(l, s, step))
  {
    match step
    case CreateRun(_, _, _) => CreateKeepsInv(l, s, step);
    case DeleteRun(_) => CreateKeepsInv(l, s, step);
    case StoreEvent(runId, event) => EventKeepsInv(l, s, runId, event);
    case Launch(_, _, _) => LaunchKeepsInv(l, s, step);
    case InstallFree(_, _, _, _) => InstallFreeKeepsInv(l, s, step);
    case InstallTorn(_, _, _, _, _) => LockStepKeepsInv(l, s, step);
    case Inspect(_, _, _) => InspectKeepsInv(l, s, step);
    case TakeOver(w, index, ownerToken, env) => InstallKeepsInv(l, s, w, index, ownerToken, env);
    case ReclaimBreaksOff(_, _, _) => LockStepKeepsInv(l, s, step);
    case Claim(_, _, _) => ClaimKeepsInv(l, s, step);
    case BindLease(_) => BindKeepsInv(l, s, step);
    case TrackBackend(_, _, _, _, _, _, _) => TrackKeepsInv(l, s, step);
    case RenewLease(_, _, _, _) => HolderWriteKeepsInv(l, s, step);
    case StopBackend(_, _, _) => StopKeepsInv(l, s, step);
    case GiveBack(_, _, _, _) => HolderWriteKeepsInv(l, s, step);
    case Report(w, status, error, result, at) =>
      EventKeepsInv(l, s, s.workers[w].runId,
                    Event(UpdateStatusOp(status, error, result, None, None, Some(s.workers[w].token)), at));
    case Crash(w) => RetireKeepsInv(l, s, w, s.workers[w].(alive := false));
  }

  // ---------------------------------------------------------------- whole runs

  predicate Runnable(l: Limits, s: System, steps: seq<Step>)
    decreases |steps|
  {
    steps == [] || (Enabled(l, s, steps[0]) && Runnable(l, Do(l, s, steps[0]), steps[1..]))
  }

  function Reached(l: Limits, s: System, steps: seq<Step>): System
    requires Runnable(l, s, steps)
    decreases |steps|
  {
    if steps == [] then s else Reached(l, Do(l, s, steps[0]), steps[1..])
  }

  lemma {:induction false} RunKeepsInv(l: Limits, s: System, steps: seq<Step>)
    requires SystemInv(l, s) && Runnable(l, s, steps)
    ensures SystemInv(l, Reached(l, s, steps))
    decreases |steps|
  {
    if steps != [] {
      StepKeepsInv(l, s, steps[0]);
      RunKeepsInv(l, Do(l, s, steps[0]), steps[1..]);
    }
  }

  function TrackedRuns(d: Disk): set<string> {
    set id | id in d.runs && Tracked(d, id)
  }

  function TrackedIn(d: Disk, scope: string): set<string> {
    set id | id in d.runs && Tracked(d, id) && BackendScope(d.runs[id].origin.backend) == scope
  }

  /** An injective numbering below `n` bounds the size of a set. */
  lemma {:induction false} Pigeonhole(ids: set<string>, number: map<string, nat>, n: nat)
    requires forall id :: id in ids ==> id in number && number[id] < n
    requires forall a, b :: a in ids && b in ids && a != b ==> number[a] != number[b]
    ensures |ids| <= n
    decreases n
  {
    if n == 0 {
      assert ids == {};
    } else if last :| last in ids && number[last] == n - 1 {
      Pigeonhole(ids - {last}, number, n - 1);
    } else {
      Pigeonhole(ids, number, n - 1);
    }
  }

  /** A run with a tracked backend is running and still owns both its slots. */
  lemma TrackedRunOwnsBothSlots(l: Limits, s: System, runId: string) returns (w: string)
    requires SystemInv(l, s) && Tracked(s.disk, runId)
    ensures Executes(s.workers, w, runId) && RunRunning(s.disk, runId)
    ensures Secured(s.disk, s.workers[w].backendLease, runId) && Secured(s.disk, s.workers[w].globalLease, runId)
    ensures s.workers[w].backendLease.key.scope == BackendScope(s.disk.runs[runId].origin.backend)
    ensures s.workers[w].backendLease.key.index < l.maxPerBackend && s.workers[w].globalLease.key.index < l.maxGlobal
    ensures s.workers[w].globalLease.key.scope == GLOBAL_SCOPE
  {
    w :| Executes(s.workers, w, runId);
    assert WorkerInv(l, s.disk, s.workers[w]);
  }

  ghost function OwnerOf(s: System, runId: string): string
    requires exists w :: Executes(s.workers, w, runId)
  {
    var w :| Executes(s.workers, w, runId); w
  }

  ghost function SlotNumbers(l: Limits, s: System, global: bool): map<string, nat>
    requires SystemInv(l, s)
  {
    map id | id in TrackedRuns(s.disk) :: LeaseOf(s.workers[OwnerOf(s, id)], global).key.index
  }

  /** Two tracked runs that compete in one scope sit in different slots of it. */
  lemma TrackedRunsSitApart(l: Limits, s: System, a: string, b: string, global: bool)
    requires SystemInv(l, s) && a in TrackedRuns(s.disk) && b in TrackedRuns(s.disk) && a != b
    requires global || BackendScope(s.disk.runs[a].origin.backend) == BackendScope(s.disk.runs[b].origin.backend)
    ensures SlotNumbers(l, s, global)[a] != SlotNumbers(l, s, global)[b]
    ensures SlotNumbers(l, s, global)[a] < if global then l.maxGlobal else l.maxPerBackend
  {
    var _ := TrackedRunOwnsBothSlots(l, s, a);
    var x, y := s.workers[OwnerOf(s, a)], s.workers[OwnerOf(s, b)];
    assert Apart(x, y) && WorkerInv(l, s.disk, x) && WorkerInv(l, s.disk, y);
    assert LeaseOf(x, global).ownerToken in TokensOf(x) && LeaseOf(y, global).ownerToken in TokensOf(y);
  }

  /** The slot limits hold in every state any run of the system can reach: at
      most `maxGlobal` runs have a tracked backend, and at most `maxPerBackend`
      of them in any one backend's scope. */
  lemma SlotLimitsHold(l: Limits, steps: seq<Step>, scope: string)
    requires Runnable(l, EMPTY, steps)
    ensures var d := Reached(l, EMPTY, steps).disk;
      |TrackedRuns(d)| <= l.maxGlobal && |TrackedIn(d, scope)| <= l.maxPerBackend
  {
    RunKeepsInv(l, EMPTY, steps);
    var s := Reached(l, EMPTY, steps);
    forall a, b | a in TrackedRuns(s.disk) && b in TrackedRuns(s.disk) && a != b
      ensures SlotNumbers(l, s, true)[a] != SlotNumbers(l, s, true)[b]
    {
      TrackedRunsSitApart(l, s, a, b, true);
    }
    forall a | a in TrackedRuns(s.disk) ensures SlotNumbers(l, s, true)[a] < l.maxGlobal {
      var _ := TrackedRunOwnsBothSlots(l, s, a);
      assert WorkerInv(l, s.disk, s.workers[OwnerOf(s, a)]);
    }
    Pigeonhole(TrackedRuns(s.disk), SlotNumbers(l, s, true), l.maxGlobal);
    var there := TrackedIn(s.disk, scope);
    assert there <= TrackedRuns(s.disk);
    forall a, b | a in there && b in there && a != b ensures SlotNumbers(l, s, false)[a] != SlotNumbers(l, s, false)[b] {
      TrackedRunsSitApart(l, s, a, b, false);
    }
    forall a | a in there ensures SlotNumbers(l, s, false)[a] < l.maxPerBackend {
      var _ := TrackedRunOwnsBothSlots(l, s, a);
      assert WorkerInv(l, s.disk, s.workers[OwnerOf(s, a)]);
    }
    Pigeonhole(there, SlotNumbers(l, s, false), l.maxPerBackend);
  }

  // ------------------------------------------------- the limits can be reached

  ghost predicate Leads(l: Limits, s: System, steps: seq<Step>, t: System) {
    Runnable(l, s, steps) && Reached(l, s, steps) == t
  }

  lemma {:induction false} LeadsOn(l: Limits, s: System, steps: seq<Step>, t: System, next: Step)
    requires Leads(l, s, steps, t) && Enabled(l, t, next)
    ensures Leads(l, s, steps + [next], Do(l, t, next))
    decreases |steps|
  {
    if steps == [] {
      assert (steps + [next])[1..] == [];
    } else {
      assert (steps + [next])[1..] == steps[1..] + [next];
      LeadsOn(l, Do(l, s, steps[0]), steps[1..], t, next);
    }
  }

  lemma {:induction false} LeadsThrough(l: Limits, s: System, first: seq<Step>, t: System, next: seq<Step>, u: System)
    requires Leads(l, s, first, t) && Leads(l, t, next, u)
    ensures Leads(l, s, first + next, u)
    decreases |first|
  {
    if first == [] {
      assert first + next == next;
    } else {
      assert (first + next)[1..] == first[1..] + next;
      LeadsThrough(l, Do(l, s, first[0]), first[1..], t, next, u);
    }
  }

  /** Everything one more execution needs: a run of a backend, the slots it will
      sit in, and the two tokens it will draw. */
  datatype Seat = Seat(runId: string, backend: string, index: nat, globalIndex: nat, first: string, second: string) {
    function BackendKey(): SlotKey { SlotKey(BackendScope(backend), index) }
    function GlobalKey(): SlotKey { SlotKey(GLOBAL_SCOPE, globalIndex) }
    function Source(): Origin { Origin("read-only", "", "", backend, "", "", "", "", "", "", map[]) }
  }

  ghost predicate Vacant(l: Limits, s: System, seat: Seat) {
    && seat.runId != "" && SafeRunId(seat.runId)
    && seat.runId !in s.disk.runs && seat.runId !in s.disk.retired && seat.runId !in s.workers
    && seat.index < l.maxPerBackend && seat.globalIndex < l.maxGlobal
    && seat.BackendKey() !in s.disk.slots && seat.GlobalKey() !in s.disk.slots && s.disk.locked == map[]
    && seat.first !in s.disk.drawn && seat.second !in s.disk.drawn && seat.first != seat.second
  }

  function Seated(seat: Seat, phase: Phase): Worker {
    Worker(seat.runId, seat.backend, seat.runId, true, phase, SlotLease(seat.BackendKey(), seat.first),
           SlotLease(seat.GlobalKey(), seat.second))
  }

  function Leased(s: System, seat: Seat, env: Env): System {
    System(s.disk.(runs := s.disk.runs[seat.runId := NewRecord(seat.runId, seat.Source(), 1.0)],
                   slots := s.disk.slots[seat.BackendKey() := NewSlot(env, seat.first)]
                                        [seat.GlobalKey() := NewSlot(env, seat.second)],
                   drawn := s.disk.drawn + {seat.first} + {seat.second}),
           s.workers[seat.runId := Seated(seat, HasBoth)])
  }

  lemma WorkerCanStart(l: Limits, s: System, seat: Seat) returns (steps: seq<Step>, t: System)
    requires Vacant(l, s, seat)
    ensures Leads(l, s, steps, t)
    ensures t.disk == s.disk.(runs := s.disk.runs[seat.runId := NewRecord(seat.runId, seat.Source(), 1.0)])
    ensures t.workers
            == s.workers[seat.runId := Worker(seat.runId, seat.backend, seat.runId, true, Started, NO_LEASE, NO_LEASE)]
  {
    var create := CreateRun(seat.runId, seat.Source(), 1.0);
    var launch := Launch(seat.runId, seat.runId, seat.runId);
    LeadsOn(l, s, [], s, create);
    LeadsOn(l, s, [] + [create], Do(l, s, create), launch);
    steps, t := [] + [create] + [launch], Do(l, Do(l, s, create), launch);
  }

  lemma WorkerCanLease(l: Limits, s: System, seat: Seat, env: Env) returns (steps: seq<Step>)
    requires Vacant(l, s, seat)
    ensures Leads(l, s, steps, Leased(s, seat, env))
  {
    var t: System;
    steps, t := WorkerCanStart(l, s, seat);
    var first := InstallFree(seat.runId, seat.index, seat.first, env);
    var second := InstallFree(seat.runId, seat.globalIndex, seat.second, env);
    LeadsOn(l, s, steps, t, first);
    var u := Do(l, t, first);
    assert u.workers[seat.runId].phase == HasBackend && u.disk.slots.Keys == s.disk.slots.Keys + {seat.BackendKey()};
    LeadsOn(l, s, steps + [first], u, second);
    steps := steps + [first] + [second];
    assert Do(l, u, second).workers == Leased(s, seat, env).workers;
    assert Do(l, u, second).disk == Leased(s, seat, env).disk;
  }

  function ClaimedRun(seat: Seat, me: Process): RunRecord {
    After(NewRecord(seat.runId, seat.Source(), 1.0), ClaimEvent(Seated(seat, HasBoth), me, 2.0))
  }

  lemma ClaimedRunRuns(seat: Seat, me: Process)
    requires me.pid != 0 && me.startedAt != "" && seat.runId != ""
    ensures var r := ClaimedRun(seat, me);
      r.status == Running && r.workerToken == seat.runId && r.backend.pid == 0 && r.origin.backend == seat.backend
  {
  }

  function Claiming(s: System, seat: Seat, env: Env, me: Process): System {
    var t := Leased(s, seat, env);
    System(t.disk.(runs := t.disk.runs[seat.runId := ClaimedRun(seat, me)]), t.workers[seat.runId := Seated(seat, Claimed)])
  }

  lemma WorkerCanClaim(l: Limits, s: System, seat: Seat, env: Env, me: Process) returns (steps: seq<Step>)
    requires Vacant(l, s, seat) && me.pid != 0 && me.startedAt != ""
    ensures Leads(l, s, steps, Claiming(s, seat, env, me))
  {
    var claim := Claim(seat.runId, me, 2.0);
    steps := WorkerCanLease(l, s, seat, env);
    var t := Leased(s, seat, env);
    LeadsOn(l, s, steps, t, claim);
    assert Do(l, t, claim).disk == Claiming(s, seat, env, me).disk;
    steps := steps + [claim];
  }

  /** Binding a lease that its worker holds. */
  lemma BindStep(l: Limits, t: System, w: string, next: Phase)
    requires Alive(t, w) && t.workers[w].phase in {Claimed, BoundBackend} && t.disk.locked == map[]
    requires BindAllowed(t.disk.slots, Binding(t.workers[w]), t.workers[w].runId)
    requires next == if t.workers[w].phase == Claimed then BoundBackend else BoundBoth
    ensures Enabled(l, t, BindLease(w))
    ensures var u := Do(l, t, BindLease(w));
      && u.workers == t.workers[w := t.workers[w].(phase := next)]
      && u.disk == t.disk.(slots := u.disk.slots) && u.disk.slots.Keys == t.disk.slots.Keys
      && forall key :: key in t.disk.slots && key != Binding(t.workers[w]).key ==> u.disk.slots[key] == t.disk.slots[key]
  {
  }

  lemma WorkerCanBindFirst(l: Limits, s: System, seat: Seat, env: Env, me: Process) returns (steps: seq<Step>, t: System)
    requires Vacant(l, s, seat) && me.pid != 0 && me.startedAt != ""
    ensures Leads(l, s, steps, t)
    ensures t.workers == s.workers[seat.runId := Seated(seat, BoundBackend)]
    ensures t.disk == s.disk.(runs := s.disk.runs[seat.runId := ClaimedRun(seat, me)], slots := t.disk.slots,
                              drawn := s.disk.drawn + {seat.first} + {seat.second})
    ensures t.disk.slots.Keys == s.disk.slots.Keys + {seat.BackendKey(), seat.GlobalKey()}
    ensures Holds(t.disk.slots, seat.GlobalKey(), seat.second)
  {
    var bind := BindLease(seat.runId);
    steps := WorkerCanClaim(l, s, seat, env, me);
    t := Claiming(s, seat, env, me);
    BindStep(l, t, seat.runId, BoundBackend);
    LeadsOn(l, s, steps, t, bind);
    steps, t := steps + [bind], Do(l, t, bind);
  }

  lemma WorkerCanBind(l: Limits, s: System, seat: Seat, env: Env, me: Process) returns (steps: seq<Step>, t: System)
    requires Vacant(l, s, seat) && me.pid != 0 && me.startedAt != ""
    ensures Leads(l, s, steps, t)
    ensures t.workers == s.workers[seat.runId := Seated(seat, BoundBoth)]
    ensures t.disk == s.disk.(runs := s.disk.runs[seat.runId := ClaimedRun(seat, me)], slots := t.disk.slots,
                              drawn := s.disk.drawn + {seat.first} + {seat.second})
    ensures t.disk.slots.Keys == s.disk.slots.Keys + {seat.BackendKey(), seat.GlobalKey()}
  {
    var bind := BindLease(seat.runId);
    var first, u := WorkerCanBindFirst(l, s, seat, env, me);
    BindStep(l, u, seat.runId, BoundBoth);
    LeadsOn(l, s, first, u, bind);
    steps, t := first + [bind], Do(l, u, bind);
  }

  /** One more backend is tracked, and what was there before is as it was. */
  ghost predicate SeatTaken(s: System, t: System, seat: Seat) {
    && t.disk.runs.Keys == s.disk.runs.Keys + {seat.runId} && Tracked(t.disk, seat.runId)
    && t.disk.runs[seat.runId].origin.backend == seat.backend
    && (forall id :: id in s.disk.runs && id != seat.runId ==> t.disk.runs[id] == s.disk.runs[id])
    && t.workers.Keys == s.workers.Keys + {seat.runId}
    && t.disk.slots.Keys == s.disk.slots.Keys + {seat.BackendKey(), seat.GlobalKey()}
    && t.disk.drawn == s.disk.drawn + {seat.first} + {seat.second}
    && t.disk.locked == s.disk.locked && t.disk.retired == s.disk.retired
  }

  /** Tracking the backend of a run that its worker has claimed. */
  lemma TrackStep(l: Limits, t: System, w: string, track: Step)
    requires track == TrackBackend(w, 1, 1, "s", "lock", Probe(true, Some(1), Some("s")), 3.0)
    requires Alive(t, w) && t.workers[w].phase == BoundBoth && RunRunning(t.disk, t.workers[w].runId)
    requires var r := t.disk.runs[t.workers[w].runId]; r.workerToken == t.workers[w].token && r.backend.pid == 0
    ensures Enabled(l, t, track)
    ensures var u, runId := Do(l, t, track), t.workers[w].runId;
      && u.workers == t.workers && u.disk == t.disk.(runs := u.disk.runs) && Tracked(u.disk, runId)
      && u.disk.runs.Keys == t.disk.runs.Keys && u.disk.runs[runId].origin == t.disk.runs[runId].origin
      && forall id :: id in t.disk.runs && id != runId ==> u.disk.runs[id] == t.disk.runs[id]
  {
  }

  /** In any state with a vacant seat a new worker can take it: acquire its slots,
      claim its run, bind both leases and track its backend. */
  lemma WorkerCanTrack(l: Limits, s: System, seat: Seat, env: Env, me: Process) returns (steps: seq<Step>, t: System)
    requires Vacant(l, s, seat) && me.pid != 0 && me.startedAt != ""
    ensures Leads(l, s, steps, t) && SeatTaken(s, t, seat)
  {
    var track := TrackBackend(seat.runId, 1, 1, "s", "lock", Probe(true, Some(1), Some("s")), 3.0);
    steps, t := WorkerCanBind(l, s, seat, env, me);
    ClaimedRunRuns(seat, me);
    TrackStep(l, t, seat.runId, track);
    LeadsOn(l, s, steps, t, track);
    steps, t := steps + [track], Do(l, t, track);
  }

  /** Names told apart by their length. */
  function Name(n: nat): (name: string)
    ensures |name| == n + 1
  {
    seq(n + 1, i => 'r')
  }

  /** Seats fill one backend after the other. */
  function SeatAt(k: nat, backend: nat, index: nat): Seat {
    Seat(Name(k), Name(backend), index, k, Name(2 * k), Name(2 * k + 1))
  }

  /** The first `k` runs are tracked, those of the first backend first. */
  ghost predicate RunsFilled(l: Limits, d: Disk, k: nat) {
    && (forall i :: 0 <= i < k ==> Tracked(d, Name(i)))
    && (forall i :: 0 <= i < k && i < l.maxPerBackend ==> d.runs[Name(i)].origin.backend == Name(0))
    && (forall id :: id in d.runs ==> |id| <= k)
  }

  /** No slot is used from `index` of this backend on. */
  ghost predicate SlotsFilled(d: Disk, k: nat, backend: nat, index: nat) {
    forall key :: key in d.slots ==>
      if key.scope == GLOBAL_SCOPE then key.index < k
      else |key.scope| < |"backend-"| + backend + 1 || (key.scope == BackendScope(Name(backend)) && key.index < index)
  }

  /** `k` seats are taken, the next free one being `index` of this backend. */
  ghost predicate Filled(l: Limits, s: System, k: nat, backend: nat, index: nat) {
    && RunsFilled(l, s.disk, k) && SlotsFilled(s.disk, k, backend, index)
    && (forall id :: id in s.workers ==> |id| <= k)
    && (forall token :: token in s.disk.drawn ==> |token| <= 2 * k)
    && s.disk.locked == map[] && s.disk.retired == {}
    && index < l.maxPerBackend && (if backend == 0 then index == k else k >= l.maxPerBackend)
  }

  lemma ScopeLength(n: nat)
    ensures |BackendScope(Name(n))| == |"backend-"| + n + 1
  {
  }

  lemma FilledHasVacancy(l: Limits, s: System, k: nat, backend: nat, index: nat)
    requires Filled(l, s, k, backend, index) && k < l.maxGlobal
    ensures Vacant(l, s, SeatAt(k, backend, index))
  {
    ScopeLength(backend);
    assert forall i :: 0 <= i < |Name(k)| ==> Name(k)[i] == 'r';
  }

  lemma SeatingFillsRuns(l: Limits, s: System, t: System, k: nat, backend: nat, index: nat)
    requires Filled(l, s, k, backend, index) && SeatTaken(s, t, SeatAt(k, backend, index))
    ensures RunsFilled(l, t.disk, k + 1)
  {
    forall i | 0 <= i < k ensures Tracked(t.disk, Name(i)) && t.disk.runs[Name(i)] == s.disk.runs[Name(i)] {
      assert Name(i) != Name(k) && Tracked(s.disk, Name(i));
    }
  }

  /** The seat after this one. */
  function NextSeat(l: Limits, backend: nat, index: nat): (nat, nat) {
    if index + 1 < l.maxPerBackend then (backend, index + 1) else (backend + 1, 0)
  }

  lemma SeatingFillsSlots(l: Limits, s: System, t: System, k: nat, backend: nat, index: nat)
    requires Filled(l, s, k, backend, index) && SeatTaken(s, t, SeatAt(k, backend, index))
    ensures var (b, i) := NextSeat(l, backend, index); SlotsFilled(t.disk, k + 1, b, i)
  {
    ScopeLength(backend);
  }

  lemma SeatingFills(l: Limits, s: System, t: System, k: nat, backend: nat, index: nat)
    requires Filled(l, s, k, backend, index) && SeatTaken(s, t, SeatAt(k, backend, index))
    ensures var (b, i) := NextSeat(l, backend, index); Filled(l, t, k + 1, b, i)
  {
    SeatingFillsRuns(l, s, t, k, backend, index);
    SeatingFillsSlots(l, s, t, k, backend, index);
  }

  lemma CanFillOne(l: Limits, s: System, k: nat, backend: nat, index: nat, env: Env, me: Process)
    returns (more: seq<Step>, t: System)
    requires Filled(l, s, k, backend, index) && k < l.maxGlobal && me.pid != 0 && me.startedAt != ""
    ensures var (b, i) := NextSeat(l, backend, index); Leads(l, s, more, t) && Filled(l, t, k + 1, b, i)
  {
    FilledHasVacancy(l, s, k, backend, index);
    more, t := WorkerCanTrack(l, s, SeatAt(k, backend, index), env, me);
    SeatingFills(l, s, t, k, backend, index);
  }

  lemma NothingFilled(l: Limits)
    requires l.maxPerBackend >= 1
    ensures Filled(l, EMPTY, 0, 0, 0) && Leads(l, EMPTY, [], EMPTY)
  {
  }

  lemma {:induction false} CanFill(l: Limits, k: nat, env: Env, me: Process)
    returns (steps: seq<Step>, s: System, backend: nat, index: nat)
    requires l.maxPerBackend >= 1 && k <= l.maxGlobal && me.pid != 0 && me.startedAt != ""
    ensures Leads(l, EMPTY, steps, s) && Filled(l, s, k, backend, index)
    decreases k
  {
    if k == 0 {
      NothingFilled(l);
      return [], EMPTY, 0, 0;
    }
    var before, s0, b, i := CanFill(l, k - 1, env, me);
    var more;
    more, s := CanFillOne(l, s0, k - 1, b, i, env, me);
    LeadsThrough(l, EMPTY, before, s0, more, s);
    steps := before + more;
    var next := NextSeat(l, b, i);
    backend, index := next.0, next.1;
  }

  function Names(k: nat): set<string> {
    set i | 0 <= i < k :: Name(i)
  }

  lemma {:induction false} NamesCount(k: nat)
    ensures |Names(k)| == k
    decreases k
  {
    if k > 0 {
      NamesCount(k - 1);
      assert Names(k) == Names(k - 1) + {Name(k - 1)};
      forall i | 0 <= i < k - 1 ensures Name(i) != Name(k - 1) {
      }
    }
  }

  lemma {:induction false} SubsetCount(a: set<string>, b: set<string>)
    requires a <= b
    ensures |a| <= |b|
    decreases a
  {
    if x :| x in a {
      SubsetCount(a - {x}, b - {x});
    }
  }

  /** Both limits are sharp: from the empty system a run leads to exactly
      `maxGlobal` tracked backends, with as many of them in one backend's scope
      as that scope or the whole admits. */
  lemma LimitsAreAttained(l: Limits, env: Env, me: Process) returns (steps: seq<Step>)
    requires l.maxPerBackend >= 1 && me.pid != 0 && me.startedAt != ""
    ensures Runnable(l, EMPTY, steps)
    ensures var d := Reached(l, EMPTY, steps).disk;
      && |TrackedRuns(d)| == l.maxGlobal
      && |TrackedIn(d, BackendScope(Name(0)))| == if l.maxPerBackend <= l.maxGlobal then l.maxPerBackend else l.maxGlobal
  {
    var s, backend, index;
    steps, s, backend, index := CanFill(l, l.maxGlobal, env, me);
    var scope := BackendScope(Name(0));
    SlotLimitsHold(l, steps, scope);
    var some := if l.maxPerBackend <= l.maxGlobal then l.maxPerBackend else l.maxGlobal;
    NamesCount(l.maxGlobal);
    NamesCount(some);
    SubsetCount(Names(l.maxGlobal), TrackedRuns(s.disk));
    SubsetCount(Names(some), TrackedIn(s.disk, scope));
    SubsetCount(TrackedIn(s.disk, scope), TrackedRuns(s.disk));
  }
}
