/** Batches, their member runs and any number of collectors on one disk. Every
    collector works from what it read earlier while batches start and are
    cancelled, runs change state, and other collectors remove things. */
module BatchProtocol {
  import opened Common
  import opened BatchPlans
  import opened Manifests
  import opened RunRecords
  import opened Orchestrations
  import opened GarbageCollection
  import RunStores

  /** A request together with the plan digest it is bound to. */
  datatype Batch = Batch(requestId: string, planSha256: string)

  /** The plans the planner can build, what each member's run is created with, the
      id functions, the batches that anyone ever tries to start, and the ids drawn
      at random for runs of no batch, with what those are created with. */
  datatype World = World(plannable: BatchPlan -> bool, origins: (BatchPlan, nat) -> Origin, ids: Ids, batches: set<Batch>,
                         draws: map<string, Origin>)

  const MIN_MEMBERS := 2
  const MAX_MEMBERS := 4

  function IdOf(w: World, b: Batch): string {
    w.ids.orchestration(b.requestId, b.planSha256)
  }

  function BatchOf(m: Manifest): Batch {
    Batch(m.requestId, m.planSha256)
  }

  function BatchFor(w: World, plan: BatchPlan): Batch {
    Batch(plan.requestId, w.ids.plan(plan))
  }

  /** A plan the planner can build, for one of the batches. */
  predicate Startable(w: World, plan: BatchPlan) {
    w.plannable(plan) && MIN_MEMBERS <= |plan.members| <= MAX_MEMBERS && BatchFor(w, plan) in w.batches
  }

  function RunOf(w: World, plan: BatchPlan, i: nat): string {
    w.ids.run(IdOf(w, BatchFor(w, plan)), i)
  }

  /** `runId` is the derived id of one of the batch's members. */
  ghost predicate Derived(w: World, b: Batch, runId: string) {
    exists plan, i: nat :: Startable(w, plan) && BatchFor(w, plan) == b && i < |plan.members| && RunOf(w, plan, i) == runId
  }

  /** Two plans whose `i`-th and `j`-th members share a run id. Batches that share
      the file of their tombstones cannot both have members. */
  ghost predicate Collide(w: World, a: BatchPlan, i: nat, b: BatchPlan, j: nat) {
    && Startable(w, a) && Startable(w, b) && TombKey(w.ids, a.requestId) != TombKey(w.ids, b.requestId)
    && i < |a.members| && j < |b.members| && RunOf(w, a, i) == RunOf(w, b, j)
  }

  /** A plan's `i`-th member comes to an id that is drawn for a run of no batch. */
  ghost predicate IsDrawn(w: World, a: BatchPlan, i: nat) {
    Startable(w, a) && i < |a.members| && RunOf(w, a, i) in w.draws
  }

  ghost predicate Clash(w: World) {
    (exists a, i, b, j :: Collide(w, a, i, b, j)) || (exists a, i :: IsDrawn(w, a, i))
  }

  /** Two plans that share a member's run id and the file of their tombstones: the
      first may still leave a manifest without tombstone and members. */
  ghost predicate Shadow(w: World, a: BatchPlan, i: nat, b: BatchPlan, j: nat) {
    && Startable(w, a) && Startable(w, b) && a.requestId != b.requestId
    && TombKey(w.ids, a.requestId) == TombKey(w.ids, b.requestId)
    && IdOf(w, BatchFor(w, a)) != IdOf(w, BatchFor(w, b))
    && i < |a.members| && j < |b.members| && RunOf(w, a, i) == RunOf(w, b, j)
  }

  ghost predicate ListingClash(w: World) {
    Clash(w) || exists a, i, b, j :: Shadow(w, a, i, b, j)
  }

  datatype Phase = Reading | Scanning | Unlinking | Deleting

  /** One collector's memory. `holding` is the batch whose locks it holds after a
      successful re-check; `unread` the member runs that re-check could not read. */
  datatype Collector = Collector(
    age: Age, phase: Phase, snapshot: map<string, RunRecord>, listing: set<string>, seen: map<string, Manifest>,
    invalid: set<string>, gone: set<string>, pending: set<string>, unlinked: set<string>, doomed: set<string>,
    holding: Option<string>, unread: set<string>)

  /** `born` is every run id that was ever used, `drawn` those drawn at random. */
  datatype Disk = Disk(shelf: Shelf, runs: map<string, RunRecord>, born: set<string>, drawn: set<string>)

  datatype System = System(disk: Disk, collectors: map<string, Collector>)

  const EMPTY := System(Disk(EMPTY_SHELF, map[], {}, {}), map[])

  datatype Step =
    | CreateManifest(plan: BatchPlan, at: real)
    | BindTombstoneOf(o: string)
    | CancelBatch(o: string, at: real)
    | EnsureMember(o: string, index: nat, at: real)
    | StandaloneRun(runId: string, at: real)
    | RunEvent(runId: string, event: Event)
    | GcStart(g: string, age: Age)
    | GcReadRun(g: string, runId: string)
    | GcList(g: string)
    | GcLoad(g: string, o: string, fails: bool)
    | GcDecide(g: string, stuck: set<string>)
    | GcExamine(g: string, o: string, unread: set<string>)
    | GcUnlink(g: string)
    | GcSweep(g: string)
    | GcDelete(g: string, runId: string)
    | GcCrash(g: string)

  predicate Held(s: System, o: string) {
    exists g :: g in s.collectors && s.collectors[g].holding == Some(o)
  }

  predicate In(s: System, g: string, phase: Phase) {
    g in s.collectors && s.collectors[g].phase == phase
  }

  function Visible(runs: map<string, RunRecord>, unread: set<string>): map<string, RunRecord> {
    runs - unread
  }

  predicate Passes(w: World, s: System, c: Collector, o: string, unread: set<string>)
    requires o in c.seen
  {
    && o in s.disk.shelf.manifests && Readable(s.disk.shelf.manifests[o])
    && StillRemovable(c.seen[o], s.disk.shelf.manifests[o], Visible(s.disk.runs, unread), c.age)
    && Binds(w.ids, s.disk.shelf, s.disk.shelf.manifests[o])
  }

  /** Members are created in order, once the tombstone is bound and the manifest
      was read back. */
  predicate MayEnsure(w: World, d: Disk, o: string, index: nat) {
    && o in d.shelf.manifests
    && var m := d.shelf.manifests[o];
       && Readable(m) && Tombstoned(w.ids, d.shelf, m) && index < |m.members|
       && (forall k :: 0 <= k < index ==> m.members[k].runId in d.born)
       && ValidOrigin(w.origins(m.plan, index)) && w.origins(m.plan, index).orchestrationId == o
  }

  /** A draw is not repeated; nobody asks whether a batch has, or will have, a run
      of that id. */
  predicate MayDraw(w: World, d: Disk, runId: string) {
    runId in w.draws && runId !in d.drawn && ValidOrigin(w.draws[runId]) && w.draws[runId].orchestrationId == ""
  }

  ghost predicate Enabled(w: World, s: System, step: Step) {
    var shelf := s.disk.shelf;
    match step
    case CreateManifest(plan, at) => MayCreate(w.ids, shelf, plan) && Startable(w, plan)
    case BindTombstoneOf(o) => o in shelf.manifests
    case CancelBatch(o, at) => o in shelf.manifests && !Held(s, o)
    case EnsureMember(o, index, at) => MayEnsure(w, s.disk, o, index) && !Held(s, o)
    case StandaloneRun(runId, at) => MayDraw(w, s.disk, runId)
    case RunEvent(runId, event) => runId in s.disk.runs && ValidEvent(event)
    case GcStart(g, age) => g !in s.collectors
    case GcReadRun(g, runId) => In(s, g, Reading) && runId in s.disk.runs
    case GcList(g) => In(s, g, Reading)
    case GcLoad(g, o, fails) =>
      In(s, g, Scanning)
      && (var c := s.collectors[g]; o in c.listing && o !in c.seen && o !in c.invalid && o !in c.gone)
    case GcDecide(g, stuck) =>
      In(s, g, Scanning)
      && (var c := s.collectors[g]; forall o :: o in c.listing ==> o in c.seen || o in c.invalid || o in c.gone)
    case GcExamine(g, o, unread) =>
      In(s, g, Unlinking) && s.collectors[g].holding.None? && o in s.collectors[g].pending && o in s.collectors[g].seen
      && !Held(s, o)
    case GcUnlink(g) =>
      In(s, g, Unlinking) && s.collectors[g].holding.Some? && s.collectors[g].holding.value in shelf.manifests
    case GcSweep(g) => In(s, g, Unlinking) && s.collectors[g].holding.None? && s.collectors[g].pending == {}
    case GcDelete(g, runId) => In(s, g, Deleting) && runId in s.collectors[g].doomed
    case GcCrash(g) => g in s.collectors
  }

  function OnDisk(s: System, disk: Disk): System {
    s.(disk := disk)
  }

  function Collects(s: System, g: string, c: Collector): System {
    s.(collectors := s.collectors[g := c])
  }

  function SurveyOf(c: Collector, stuck: set<string>): Survey {
    Survey(c.snapshot, c.seen, c.invalid, stuck, c.age)
  }

  function Loaded(s: System, c: Collector, o: string, fails: bool): Collector {
    if fails then c.(invalid := c.invalid + {o})
    else if o !in s.disk.shelf.manifests then c.(gone := c.gone + {o})
    else if Readable(s.disk.shelf.manifests[o]) then c.(seen := c.seen[o := s.disk.shelf.manifests[o]])
    else c.(invalid := c.invalid + {o})
  }

  function Decided(c: Collector, stuck: set<string>): Collector {
    var sv := SurveyOf(c, stuck);
    c.(phase := Unlinking,
       pending := (set o | o in c.seen && Chosen(sv, o)),
       doomed := (set r | r in c.snapshot && Removable(sv, r)))
  }

  function Spared(c: Collector, o: string): Collector
    requires o in c.seen
  {
    c.(pending := c.pending - {o}, doomed := c.doomed - MemberIds(c.seen[o]))
  }

  function NewCollector(age: Age): Collector {
    Collector(age, Reading, map[], {}, map[], {}, {}, {}, {}, {}, None, {})
  }

  function WithRun(d: Disk, r: string, origin: Origin, at: real): Disk {
    d.(runs := d.runs[r := NewRecord(r, origin, at)], born := d.born + {r})
  }

  /** A member's run is created unless a run of that id exists. */
  function WithMember(w: World, d: Disk, o: string, index: nat, at: real): Disk
    requires MayEnsure(w, d, o, index)
  {
    var m := d.shelf.manifests[o];
    var runId := m.members[index].runId;
    if runId in d.runs then d else WithRun(d, runId, w.origins(m.plan, index), at)
  }

  /** A drawn run is saved whether or not a run of that id exists. */
  function WithDraw(w: World, d: Disk, runId: string, at: real): Disk
    requires MayDraw(w, d, runId)
  {
    WithRun(d, runId, w.draws[runId], at).(drawn := d.drawn + {runId})
  }

  function Unlinked(s: System, g: string): System
    requires g in s.collectors && s.collectors[g].holding.Some?
  {
    var c, o := s.collectors[g], s.collectors[g].holding.value;
    Collects(OnDisk(s, s.disk.(shelf := s.disk.shelf.(manifests := s.disk.shelf.manifests - {o}))), g,
             c.(holding := None, pending := c.pending - {o}, unlinked := c.unlinked + {o}))
  }

  function Do(w: World, s: System, step: Step): System
    requires Enabled(w, s, step)
  {
    var shelf := s.disk.shelf;
    match step
    case CreateManifest(plan, at) => OnDisk(s, s.disk.(shelf := Created(w.ids, shelf, plan, at)))
    case BindTombstoneOf(o) => OnDisk(s, s.disk.(shelf := Bound(w.ids, shelf, shelf.manifests[o])))
    case CancelBatch(o, at) => OnDisk(s, s.disk.(shelf := Orchestrations.Cancelled(shelf, o, at)))
    case EnsureMember(o, index, at) => OnDisk(s, WithMember(w, s.disk, o, index, at))
    case StandaloneRun(runId, at) => OnDisk(s, WithDraw(w, s.disk, runId, at))
    case RunEvent(runId, event) => OnDisk(s, s.disk.(runs := s.disk.runs[runId := After(s.disk.runs[runId], event)]))
    case GcStart(g, age) => Collects(s, g, NewCollector(age))
    case GcReadRun(g, runId) =>
      Collects(s, g, s.collectors[g].(snapshot := s.collectors[g].snapshot[runId := s.disk.runs[runId]]))
    case GcList(g) => Collects(s, g, s.collectors[g].(phase := Scanning, listing := shelf.manifests.Keys))
    case GcLoad(g, o, fails) => Collects(s, g, Loaded(s, s.collectors[g], o, fails))
    case GcDecide(g, stuck) => Collects(s, g, Decided(s.collectors[g], stuck))
    case GcExamine(g, o, unread) =>
      if Passes(w, s, s.collectors[g], o, unread)
      then Collects(OnDisk(s, s.disk.(shelf := Bound(w.ids, shelf, shelf.manifests[o]))), g,
                    s.collectors[g].(holding := Some(o), unread := unread))
      else Collects(s, g, Spared(s.collectors[g], o))
    case GcUnlink(g) => Unlinked(s, g)
    case GcSweep(g) => Collects(s, g, s.collectors[g].(phase := Deleting))
    case GcDelete(g, runId) =>
      Collects(OnDisk(s, s.disk.(runs := s.disk.runs - {runId})), g,
               s.collectors[g].(doomed := s.collectors[g].doomed - {runId}))
    case GcCrash(g) => s.(collectors := s.collectors - {g})
  }

  // ------------------------------------------------------------- the invariant

  ghost predicate IsRetired(w: World, d: Disk, b: Batch) {
    Retired(w.ids, d.shelf, b.requestId, b.planSha256)
  }

  /** The batch's manifest is on disk. */
  ghost predicate Present(w: World, d: Disk, b: Batch) {
    IdOf(w, b) in d.shelf.manifests && BatchOf(d.shelf.manifests[IdOf(w, b)]) == b
  }

  /** The batch's tombstone is bound: it may have members, or was collected. */
  ghost predicate Enrolled(w: World, d: Disk, b: Batch) {
    var key := TombKey(w.ids, b.requestId);
    key in d.shelf.tombs && d.shelf.tombs[key].requestId == b.requestId && d.shelf.tombs[key].planSha256 == b.planSha256
  }

  /** Some plan can start the batch. */
  ghost predicate Known(w: World, b: Batch) {
    exists plan :: Startable(w, plan) && BatchFor(w, plan) == b
  }

  ghost predicate ListedByItsBatch(w: World, d: Disk, b: Batch, r: string) {
    Present(w, d, b) ==> GarbageCollection.Lists(d.shelf.manifests[IdOf(w, b)], r)
  }

  /** A tombstone in a manifest's place that names its id is its own. */
  ghost predicate KeysApart(w: World, shelf: Shelf) {
    forall o :: o in shelf.manifests ==>
      var key := TombKey(w.ids, shelf.manifests[o].requestId);
      key in shelf.tombs && shelf.tombs[key].orchestrationId == o ==> shelf.tombs[key].requestId == shelf.manifests[o].requestId
  }

  ghost predicate ShelfFits(w: World, shelf: Shelf) {
    && ShelfInv(w.ids, shelf) && KeysApart(w, shelf)
    && (forall o :: o in shelf.manifests ==> Startable(w, shelf.manifests[o].plan))
    && (forall k :: k in shelf.tombs ==> Known(w, Batch(shelf.tombs[k].requestId, shelf.tombs[k].planSha256)))
  }

  /** Some enrolled batch derives the run. */
  ghost predicate Owned(w: World, d: Disk, r: string) {
    exists b :: Derived(w, b, r) && Enrolled(w, d, b)
  }

  ghost predicate RunsFit(w: World, d: Disk) {
    && RunStores.ValidRuns(d.runs) && d.runs.Keys <= d.born
    && (forall r :: r in d.born && r in w.draws ==> r in d.drawn)
    && (forall b, r :: r in d.born && Derived(w, b, r) ==> Owned(w, d, r))
    && (forall b, r :: r in d.born && Derived(w, b, r) && Enrolled(w, d, b) ==> ListedByItsBatch(w, d, b, r))
    && (forall b, r :: r in d.runs && Derived(w, b, r) && Enrolled(w, d, b) ==> d.runs[r].origin.orchestrationId == IdOf(w, b))
  }

  ghost predicate DiskInv(w: World, d: Disk) {
    ShelfFits(w, d.shelf) && RunsFit(w, d)
  }

  /** What a collector remembers of a run still holds: the record only evolved, or
      it was removed and its batch was collected. */
  ghost predicate Remembers(w: World, d: Disk, r: string, record: RunRecord) {
    && r in d.born
    && (r in d.runs ==> Evolves(record, d.runs[r]))
    && (forall b :: Derived(w, b, r) && Enrolled(w, d, b) ==>
          record.origin.orchestrationId == IdOf(w, b) && (r !in d.runs ==> IsRetired(w, d, b)))
  }

  /** The same batch, perhaps cancelled since. */
  predicate SameBatch(a: Manifest, b: Manifest) {
    BatchOf(a) == BatchOf(b) && a.plan == b.plan && a.members == b.members
  }

  ghost predicate SeenStillThere(w: World, d: Disk, o: string, m: Manifest) {
    && Proper(w.ids, o, m)
    && (if o in d.shelf.manifests then SameBatch(d.shelf.manifests[o], m) else IsRetired(w, d, BatchOf(m)))
  }

  ghost predicate GoneForGood(w: World, d: Disk, o: string) {
    exists b :: IdOf(w, b) == o && IsRetired(w, d, b)
  }

  ghost predicate ReadingInv(w: World, d: Disk, c: Collector) {
    && (forall r :: r in c.snapshot ==> Remembers(w, d, r, c.snapshot[r]))
    && (c.phase == Reading ==> c.listing == {} && c.seen == map[] && c.gone == {} && c.invalid == {})
    && (c.phase in {Reading, Scanning} ==> c.pending == {} && c.unlinked == {} && c.doomed == {} && c.holding.None?)
    && (c.phase == Deleting ==> c.pending == {} && c.holding.None?)
  }

  ghost predicate ScanInv(w: World, d: Disk, c: Collector) {
    && (forall o :: o in c.listing ==> o in d.shelf.manifests || GoneForGood(w, d, o))
    && (c.phase != Reading ==>
          forall b, r :: r in c.snapshot && Derived(w, b, r) && Enrolled(w, d, b) ==>
            IdOf(w, b) in c.listing || IsRetired(w, d, b))
    && (forall o :: o in c.seen ==> SeenStillThere(w, d, o, c.seen[o]))
    && (forall o :: o in c.gone ==> GoneForGood(w, d, o))
    && (c.phase in {Unlinking, Deleting} ==>
          forall o :: o in c.listing ==> o in c.seen || o in c.invalid || o in c.gone)
  }

  ghost predicate DoomInv(w: World, d: Disk, c: Collector) {
    && (forall r :: r in c.doomed ==>
          && r in c.snapshot && c.snapshot[r].status.Terminal()
          && c.snapshot[r].origin.orchestrationId !in c.invalid)
    && (forall r, o :: r in c.doomed && o in c.seen && GarbageCollection.Lists(c.seen[o], r) ==> o in c.pending || o in c.unlinked)
    && (forall o :: o in c.unlinked ==> GoneForGood(w, d, o))
  }

  /** Under its locks, a collector's re-check stays true until it unlinks. */
  ghost predicate HoldInv(w: World, d: Disk, c: Collector) {
    c.holding.Some? ==>
      var o := c.holding.value;
      && o in c.pending && o in d.shelf.manifests && Tombstoned(w.ids, d.shelf, d.shelf.manifests[o])
      && MembersFinished(d, d.shelf.manifests[o], c.unread)
  }

  predicate MembersFinished(d: Disk, m: Manifest, unread: set<string>) {
    forall i :: 0 <= i < |m.members| && m.members[i].runId in d.runs && m.members[i].runId !in unread ==>
      d.runs[m.members[i].runId].status.Terminal()
  }

  ghost predicate CollectorInv(w: World, d: Disk, c: Collector) {
    ReadingInv(w, d, c) && ScanInv(w, d, c) && DoomInv(w, d, c) && HoldInv(w, d, c)
  }

  ghost predicate HoldsApart(collectors: map<string, Collector>) {
    forall g, h :: g in collectors && h in collectors && g != h && collectors[g].holding.Some? ==>
      collectors[g].holding != collectors[h].holding
  }

  ghost predicate SystemInv(w: World, s: System) {
    && DiskInv(w, s.disk)
    && (forall g :: g in s.collectors ==> CollectorInv(w, s.disk, s.collectors[g]))
    && HoldsApart(s.collectors)
  }

  // -------------------------------------------------- what every disk step keeps

  /** A manifest stays the same batch's or is collected for good; tombstones stay;
      a run only evolves, or disappears once its batch was collected; and no run
      appears that was used before, unless its batch is still there. */
  ghost predicate Gentle(w: World, d: Disk, e: Disk) {
    && (forall b :: IsRetired(w, d, b) ==> IsRetired(w, e, b))
    && (forall b :: Enrolled(w, d, b) ==> Enrolled(w, e, b))
    && (forall o :: o in d.shelf.manifests ==>
          if o in e.shelf.manifests then SameBatch(d.shelf.manifests[o], e.shelf.manifests[o])
          else IsRetired(w, e, BatchOf(d.shelf.manifests[o])))
    && d.born <= e.born
    && (forall r :: r in d.runs ==>
          if r in e.runs then Evolves(d.runs[r], e.runs[r])
          else forall b :: Derived(w, b, r) && Enrolled(w, e, b) ==> IsRetired(w, e, b))
    && (forall r :: r in e.runs && r !in d.runs && r in d.born ==> HasLiveBatch(w, d, r))
  }

  /** An enrolled batch whose manifest is on disk derives the run. */
  ghost predicate HasLiveBatch(w: World, d: Disk, r: string) {
    exists b :: Derived(w, b, r) && Present(w, d, b) && Enrolled(w, d, b)
  }

  lemma EnrolledIsKnown(w: World, d: Disk, b: Batch)
    requires ShelfFits(w, d.shelf) && Enrolled(w, d, b)
    ensures Known(w, b) && (Present(w, d, b) || IsRetired(w, d, b))
  {
    if !IsRetired(w, d, b) {
      var o :| o in d.shelf.manifests && d.shelf.manifests[o].requestId == b.requestId;
      assert Proper(w.ids, o, d.shelf.manifests[o]);
    }
  }

  lemma ManifestIsKnown(w: World, d: Disk, o: string)
    requires ShelfFits(w, d.shelf) && o in d.shelf.manifests
    ensures var b := BatchOf(d.shelf.manifests[o]); Known(w, b) && IdOf(w, b) == o
  {
    var m := d.shelf.manifests[o];
    assert Proper(w.ids, o, m) && BatchFor(w, m.plan) == BatchOf(m);
  }

  /** Batches with tombstones in different files that share an orchestration id,
      or a run id, clash. */
  lemma SharingClashes(w: World, a: Batch, b: Batch, r: string)
    requires TombKey(w.ids, a.requestId) != TombKey(w.ids, b.requestId)
    requires (Derived(w, a, r) && Derived(w, b, r)) || (IdOf(w, a) == IdOf(w, b) && Known(w, a) && Known(w, b))
    ensures Clash(w)
  {
    if Derived(w, a, r) && Derived(w, b, r) {
      var p, i: nat :| Startable(w, p) && BatchFor(w, p) == a && i < |p.members| && RunOf(w, p, i) == r;
      var q, j: nat :| Startable(w, q) && BatchFor(w, q) == b && j < |q.members| && RunOf(w, q, j) == r;
      assert Collide(w, p, i, q, j);
    } else {
      var p :| Startable(w, p) && BatchFor(w, p) == a;
      var q :| Startable(w, q) && BatchFor(w, q) == b;
      assert Collide(w, p, 0, q, 0);
    }
  }

  /** Of all enrolled batches, no two share an orchestration id or a run id. */
  lemma EnrolledApart(w: World, d: Disk, a: Batch, b: Batch)
    requires !Clash(w) && ShelfFits(w, d.shelf) && Enrolled(w, d, a) && Enrolled(w, d, b)
    ensures IdOf(w, a) == IdOf(w, b) ==> a == b
    ensures forall r :: Derived(w, a, r) && Derived(w, b, r) ==> a == b
  {
    EnrolledIsKnown(w, d, a);
    EnrolledIsKnown(w, d, b);
    if a != b {
      if IdOf(w, a) == IdOf(w, b) {
        SharingClashes(w, a, b, "");
        assert false;
      }
      if r :| Derived(w, a, r) && Derived(w, b, r) {
        SharingClashes(w, a, b, r);
        assert false;
      }
    }
  }

  /** An enrolled batch is the one whose manifest has its id. */
  lemma ManifestBatch(w: World, d: Disk, o: string, b: Batch)
    requires !Clash(w) && ShelfFits(w, d.shelf) && o in d.shelf.manifests && Enrolled(w, d, b) && IdOf(w, b) == o
    ensures BatchOf(d.shelf.manifests[o]) == b && !IsRetired(w, d, b)
  {
    var x := BatchOf(d.shelf.manifests[o]);
    ManifestIsKnown(w, d, o);
    EnrolledIsKnown(w, d, b);
    if TombKey(w.ids, x.requestId) != TombKey(w.ids, b.requestId) {
      SharingClashes(w, x, b, "");
      assert false;
    }
  }

  lemma GentleKeepsEnrolled(w: World, d: Disk, e: Disk, b: Batch)
    requires Gentle(w, d, e) && Enrolled(w, d, b)
    ensures Enrolled(w, e, b)
  {
  }

  /** A run that was used before belongs to the batch it belonged to. */
  lemma OwnerStays(w: World, d: Disk, e: Disk, b: Batch, r: string)
    requires !Clash(w) && DiskInv(w, d) && ShelfFits(w, e.shelf) && Gentle(w, d, e)
    requires r in d.born && Derived(w, b, r) && Enrolled(w, e, b)
    ensures Enrolled(w, d, b)
  {
    assert Owned(w, d, r);
    var a :| Derived(w, a, r) && Enrolled(w, d, a);
    GentleKeepsEnrolled(w, d, e, a);
    EnrolledApart(w, e, a, b);
  }

  lemma OnlyLiveBatchesRecreate(w: World, d: Disk, e: Disk, r: string, record: RunRecord)
    requires Gentle(w, d, e) && Remembers(w, d, r, record) && r in e.runs
    ensures r in d.runs
  {
  }

  lemma GentleKeepsRemembered(w: World, d: Disk, e: Disk, r: string, record: RunRecord)
    requires !Clash(w) && DiskInv(w, d) && DiskInv(w, e) && Gentle(w, d, e) && Remembers(w, d, r, record)
    ensures Remembers(w, e, r, record)
  {
    forall b | Derived(w, b, r) && Enrolled(w, e, b)
      ensures record.origin.orchestrationId == IdOf(w, b) && (r !in e.runs ==> IsRetired(w, e, b))
    {
      OwnerStays(w, d, e, b, r);
    }
    if r in e.runs {
      OnlyLiveBatchesRecreate(w, d, e, r, record);
      EvolvesTransitive(record, d.runs[r], e.runs[r]);
    }
  }

  lemma GentleKeepsScan(w: World, d: Disk, e: Disk, c: Collector)
    requires !Clash(w) && DiskInv(w, d) && DiskInv(w, e) && Gentle(w, d, e) && ReadingInv(w, d, c) && ScanInv(w, d, c)
    ensures ScanInv(w, e, c)
  {
    forall o | GoneForGood(w, d, o) ensures GoneForGood(w, e, o) {
      var b :| IdOf(w, b) == o && IsRetired(w, d, b);
      assert IsRetired(w, e, b);
    }
    forall o | o in c.listing ensures o in e.shelf.manifests || GoneForGood(w, e, o) {
      if o in d.shelf.manifests && o !in e.shelf.manifests {
        var b := BatchOf(d.shelf.manifests[o]);
        assert Proper(w.ids, o, d.shelf.manifests[o]) && IdOf(w, b) == o && IsRetired(w, e, b);
      }
    }
    forall o | o in c.seen ensures SeenStillThere(w, e, o, c.seen[o]) {
      assert SeenStillThere(w, d, o, c.seen[o]);
      if o in e.shelf.manifests && o !in d.shelf.manifests {
        ManifestBatch(w, e, o, BatchOf(c.seen[o]));
      }
    }
    if c.phase != Reading {
      forall b, r | r in c.snapshot && Derived(w, b, r) && Enrolled(w, e, b)
        ensures IdOf(w, b) in c.listing || IsRetired(w, e, b)
      {
        assert Remembers(w, d, r, c.snapshot[r]);
        OwnerStays(w, d, e, b, r);
      }
    }
  }

  /** Collectors that hold no lock keep their invariant through a gentle step. */
  lemma GentleKeepsCollector(w: World, d: Disk, e: Disk, c: Collector)
    requires !Clash(w) && DiskInv(w, d) && DiskInv(w, e) && Gentle(w, d, e) && CollectorInv(w, d, c)
    requires HoldInv(w, e, c)
    ensures CollectorInv(w, e, c)
  {
    forall r | r in c.snapshot ensures Remembers(w, e, r, c.snapshot[r]) {
      GentleKeepsRemembered(w, d, e, r, c.snapshot[r]);
    }
    GentleKeepsScan(w, d, e, c);
    forall o | o in c.unlinked ensures GoneForGood(w, e, o) {
      var b :| IdOf(w, b) == o && IsRetired(w, d, b);
      assert IsRetired(w, e, b);
    }
  }

  // ------------------------------------------------------ the steps on the disk

  /** A step that changes only the shelf. */
  lemma ShelfStep(w: World, d: Disk, e: Disk)
    requires !Clash(w) && DiskInv(w, d) && e == d.(shelf := e.shelf) && ShelfFits(w, e.shelf)
    requires forall o :: o in d.shelf.manifests ==>
      if o in e.shelf.manifests then SameBatch(d.shelf.manifests[o], e.shelf.manifests[o])
      else IsRetired(w, e, BatchOf(d.shelf.manifests[o]))
    requires forall b :: IsRetired(w, d, b) ==> IsRetired(w, e, b)
    requires forall b :: Enrolled(w, d, b) ==> Enrolled(w, e, b)
    ensures DiskInv(w, e) && Gentle(w, d, e)
  {
    assert Gentle(w, d, e);
    forall b, r | r in e.born && Derived(w, b, r) ensures Owned(w, e, r) {
      assert Owned(w, d, r);
      var a :| Derived(w, a, r) && Enrolled(w, d, a);
      GentleKeepsEnrolled(w, d, e, a);
    }
    forall b, r | r in e.born && Derived(w, b, r) && Enrolled(w, e, b)
      ensures ListedByItsBatch(w, e, b, r) && (r in e.runs ==> e.runs[r].origin.orchestrationId == IdOf(w, b))
    {
      OwnerStays(w, d, e, b, r);
      assert ListedByItsBatch(w, d, b, r);
      ListingStays(w, d, e, b, r);
    }
  }

  lemma ListingStays(w: World, d: Disk, e: Disk, b: Batch, r: string)
    requires Gentle(w, d, e) && ShelfFits(w, d.shelf) && Enrolled(w, d, b) && ListedByItsBatch(w, d, b, r)
    ensures ListedByItsBatch(w, e, b, r)
  {
    EnrolledIsKnown(w, d, b);
    if Present(w, e, b) && !Present(w, d, b) {
      assert false;
    }
  }

  lemma CreateStep(w: World, d: Disk, e: Disk, plan: BatchPlan, at: real)
    requires !Clash(w) && DiskInv(w, d) && MayCreate(w.ids, d.shelf, plan) && Startable(w, plan)
    requires e == d.(shelf := Created(w.ids, d.shelf, plan, at))
    ensures DiskInv(w, e) && Gentle(w, d, e)
  {
    CreatedKeepsInv(w.ids, d.shelf, plan, at);
    forall b | IsRetired(w, d, b) ensures IsRetired(w, e, b) {
      assert b.requestId != plan.requestId;
    }
    ShelfStep(w, d, e);
  }

  lemma BindStep(w: World, d: Disk, e: Disk, o: string)
    requires !Clash(w) && DiskInv(w, d) && o in d.shelf.manifests
    requires e == d.(shelf := Bound(w.ids, d.shelf, d.shelf.manifests[o]))
    ensures DiskInv(w, e) && Gentle(w, d, e)
  {
    BoundKeepsInv(w.ids, d.shelf, o);
    BoundFits(w, d.shelf, o);
    ShelfStep(w, d, e);
  }

  lemma BoundFits(w: World, shelf: Shelf, o: string)
    requires ShelfFits(w, shelf) && o in shelf.manifests
    ensures ShelfFits(w, Bound(w.ids, shelf, shelf.manifests[o]))
  {
    BoundKeepsInv(w.ids, shelf, o);
    var m := shelf.manifests[o];
    assert Proper(w.ids, o, m) && BatchFor(w, m.plan) == BatchOf(m);
    var after := Bound(w.ids, shelf, m);
    forall x | x in after.manifests
      ensures var key := TombKey(w.ids, after.manifests[x].requestId);
        key in after.tombs && after.tombs[key].orchestrationId == x ==> after.tombs[key].requestId == after.manifests[x].requestId
    {
      assert Proper(w.ids, x, shelf.manifests[x]);
    }
  }

  lemma CancelledFits(w: World, shelf: Shelf, o: string, at: real)
    requires ShelfFits(w, shelf) && o in shelf.manifests
    ensures ShelfFits(w, Orchestrations.Cancelled(shelf, o, at))
    ensures forall x :: x in shelf.manifests ==> SameBatch(shelf.manifests[x], Orchestrations.Cancelled(shelf, o, at).manifests[x])
  {
    CancelledKeepsInv(w.ids, shelf, o, at);
    var after := Orchestrations.Cancelled(shelf, o, at);
    forall x | x in after.manifests
      ensures x in shelf.manifests && SameBatch(shelf.manifests[x], after.manifests[x])
    {
    }
  }

  lemma CancelStep(w: World, d: Disk, e: Disk, o: string, at: real)
    requires !Clash(w) && DiskInv(w, d) && o in d.shelf.manifests
    requires e == d.(shelf := Orchestrations.Cancelled(d.shelf, o, at))
    ensures DiskInv(w, e) && Gentle(w, d, e)
  {
    CancelledFits(w, d.shelf, o, at);
    assert e.shelf.manifests.Keys == d.shelf.manifests.Keys && e.shelf.tombs == d.shelf.tombs;
    forall b | IsRetired(w, d, b) ensures IsRetired(w, e, b) {
      forall x | x in e.shelf.manifests ensures e.shelf.manifests[x].requestId != b.requestId {
        assert SameBatch(d.shelf.manifests[x], e.shelf.manifests[x]);
      }
    }
    ShelfStep(w, d, e);
  }

  lemma UnlinkStep(w: World, d: Disk, e: Disk, o: string)
    requires !Clash(w) && DiskInv(w, d)
    requires o in d.shelf.manifests && Tombstoned(w.ids, d.shelf, d.shelf.manifests[o])
    requires e == d.(shelf := d.shelf.(manifests := d.shelf.manifests - {o}))
    ensures DiskInv(w, e) && Gentle(w, d, e) && IsRetired(w, e, BatchOf(d.shelf.manifests[o])) && GoneForGood(w, e, o)
  {
    UnlinkRetires(w.ids, d.shelf, o);
    ShelfStep(w, d, e);
    assert Proper(w.ids, o, d.shelf.manifests[o]);
    assert IdOf(w, BatchOf(d.shelf.manifests[o])) == o;
  }

  /** The run belongs to no enrolled batch but these, which list it. */
  ghost predicate Fresh(w: World, d: Disk, r: string, o: string) {
    forall b :: Derived(w, b, r) && Enrolled(w, d, b) ==>
      Present(w, d, b) && o == IdOf(w, b) && GarbageCollection.Lists(d.shelf.manifests[IdOf(w, b)], r)
  }

  lemma AddedRunIsOwned(w: World, d: Disk, e: Disk, r: string)
    requires RunsFit(w, d) && e == d.(runs := e.runs, born := d.born + {r}, drawn := e.drawn)
    requires Owned(w, d, r) || forall b :: !Derived(w, b, r)
    ensures forall b, x :: x in e.born && Derived(w, b, x) ==> Owned(w, e, x)
  {
    forall b, x | x in e.born && Derived(w, b, x) ensures Owned(w, e, x) {
      assert Owned(w, d, x);
      var a :| Derived(w, a, x) && Enrolled(w, d, a);
      assert Enrolled(w, e, a);
    }
  }

  lemma AddedRunIsListed(w: World, d: Disk, e: Disk, r: string, origin: Origin, at: real)
    requires RunsFit(w, d) && Fresh(w, d, r, origin.orchestrationId) && e == WithRun(d, r, origin, at).(drawn := e.drawn)
    ensures forall b, x :: x in e.born && Derived(w, b, x) && Enrolled(w, e, b) ==> ListedByItsBatch(w, e, b, x)
    ensures forall b, x :: x in e.runs && Derived(w, b, x) && Enrolled(w, e, b) ==> e.runs[x].origin.orchestrationId == IdOf(w, b)
  {
    forall b, x | x in e.born && Derived(w, b, x) && Enrolled(w, e, b)
      ensures ListedByItsBatch(w, e, b, x) && (x in e.runs ==> e.runs[x].origin.orchestrationId == IdOf(w, b))
    {
      assert Enrolled(w, d, b);
      if x != r {
        assert ListedByItsBatch(w, d, b, x);
      }
    }
  }

  lemma AddedRunFits(w: World, d: Disk, e: Disk, r: string, origin: Origin, at: real)
    requires DiskInv(w, d) && ValidOrigin(origin) && r !in d.runs && Fresh(w, d, r, origin.orchestrationId)
    requires e == WithRun(d, r, origin, at).(drawn := e.drawn) && d.drawn <= e.drawn && (r in w.draws ==> r in e.drawn)
    requires Owned(w, d, r) || forall b :: !Derived(w, b, r)
    ensures DiskInv(w, e)
  {
    NewRecordValid(r, origin, at);
    AddedRunIsOwned(w, d, e, r);
    AddedRunIsListed(w, d, e, r, origin, at);
  }

  lemma AddedRunIsGentle(w: World, d: Disk, e: Disk, r: string)
    requires r !in d.runs && e == d.(runs := e.runs, born := d.born + {r}, drawn := e.drawn)
    requires e.runs.Keys == d.runs.Keys + {r} && forall x :: x in d.runs ==> e.runs[x] == d.runs[x]
    requires r in d.born ==> HasLiveBatch(w, d, r)
    ensures Gentle(w, d, e)
  {
    assert forall b :: IsRetired(w, e, b) <==> IsRetired(w, d, b);
  }

  /** A run that was never used before is added under an existing manifest, or
      belongs to no batch at all. */
  lemma AddRunStep(w: World, d: Disk, e: Disk, r: string, origin: Origin, at: real)
    requires DiskInv(w, d) && ValidOrigin(origin) && r !in d.runs && Fresh(w, d, r, origin.orchestrationId)
    requires e == WithRun(d, r, origin, at).(drawn := e.drawn) && d.drawn <= e.drawn && (r in w.draws ==> r in e.drawn)
    requires HasLiveBatch(w, d, r) || (r !in d.born && forall b :: !Derived(w, b, r))
    ensures DiskInv(w, e) && Gentle(w, d, e)
  {
    AddedRunFits(w, d, e, r, origin, at);
    AddedRunIsGentle(w, d, e, r);
  }

  /** A listed member's run id is derived from that manifest's batch. */
  lemma MemberIsDerived(w: World, d: Disk, o: string, index: nat)
    requires ShelfFits(w, d.shelf) && o in d.shelf.manifests && index < |d.shelf.manifests[o].members|
    ensures Derived(w, BatchOf(d.shelf.manifests[o]), d.shelf.manifests[o].members[index].runId)
    ensures IdOf(w, BatchOf(d.shelf.manifests[o])) == o && Present(w, d, BatchOf(d.shelf.manifests[o]))
  {
    var m := d.shelf.manifests[o];
    assert Proper(w.ids, o, m);
    assert m.members == MembersOf(w.ids, o, m.plan) && BatchFor(w, m.plan) == BatchOf(m);
    assert Startable(w, m.plan) && index < |m.plan.members| && RunOf(w, m.plan, index) == m.members[index].runId;
  }

  lemma EnsureStep(w: World, d: Disk, e: Disk, o: string, index: nat, at: real)
    requires !Clash(w) && DiskInv(w, d) && MayEnsure(w, d, o, index)
    requires d.shelf.manifests[o].members[index].runId !in d.runs && e == WithMember(w, d, o, index, at)
    ensures DiskInv(w, e) && Gentle(w, d, e)
  {
    var m := d.shelf.manifests[o];
    var r := m.members[index].runId;
    MemberIsDerived(w, d, o, index);
    assert GarbageCollection.Lists(m, r);
    forall b | Derived(w, b, r) && Enrolled(w, d, b) ensures b == BatchOf(m) {
      EnrolledApart(w, d, b, BatchOf(m));
    }
    DerivedIsNotDrawn(w, BatchOf(m), r);
    AddRunStep(w, d, e, r, w.origins(m.plan, index), at);
  }

  lemma DerivedIsNotDrawn(w: World, b: Batch, r: string)
    requires !Clash(w) && Derived(w, b, r)
    ensures r !in w.draws
  {
    var p, i: nat :| Startable(w, p) && BatchFor(w, p) == b && i < |p.members| && RunOf(w, p, i) == r;
    assert !IsDrawn(w, p, i);
  }

  lemma ReplaceRunStep(w: World, d: Disk, e: Disk, r: string, record: RunRecord)
    requires DiskInv(w, d) && r in d.runs && e == d.(runs := d.runs[r := record])
    requires WellFormed(record) && Inv(record) && Evolves(d.runs[r], record)
    ensures DiskInv(w, e) && Gentle(w, d, e)
  {
    forall x | x in e.runs ensures Evolves(d.runs[x], e.runs[x]) && e.runs[x].runId == x && WellFormed(e.runs[x]) && Inv(e.runs[x]) {
      assert d.runs[x].runId == x;
    }
    RunsStayFitting(w, d, e);
    EvolvedRunsAreGentle(w, d, e);
  }

  lemma EvolvedRunsAreGentle(w: World, d: Disk, e: Disk)
    requires e == d.(runs := e.runs) && e.runs.Keys == d.runs.Keys && forall r :: r in d.runs ==> Evolves(d.runs[r], e.runs[r])
    ensures Gentle(w, d, e)
  {
    assert forall b :: IsRetired(w, e, b) <==> IsRetired(w, d, b);
  }

  /** Runs that are a part of those there were, or only evolved from them, fit. */
  lemma RunsStayFitting(w: World, d: Disk, e: Disk)
    requires DiskInv(w, d) && e == d.(runs := e.runs) && RunStores.ValidRuns(e.runs)
    requires forall r :: r in e.runs ==> r in d.runs && Evolves(d.runs[r], e.runs[r])
    ensures DiskInv(w, e)
  {
    assert forall b :: Enrolled(w, e, b) <==> Enrolled(w, d, b);
    forall b, x | x in e.born && Derived(w, b, x) ensures Owned(w, e, x) {
      assert Owned(w, d, x);
      var a :| Derived(w, a, x) && Enrolled(w, d, a);
      assert Enrolled(w, e, a);
    }
    forall b, x | x in e.born && Derived(w, b, x) && Enrolled(w, e, b) ensures ListedByItsBatch(w, e, b, x) {
      assert ListedByItsBatch(w, d, b, x);
    }
  }

  lemma RunStep(w: World, d: Disk, e: Disk, r: string, event: Event)
    requires DiskInv(w, d) && r in d.runs && ValidEvent(event)
    requires e == d.(runs := d.runs[r := After(d.runs[r], event)])
    ensures DiskInv(w, e) && Gentle(w, d, e)
  {
    assert WellFormed(d.runs[r]) && Inv(d.runs[r]);
    StepKeepsRecord(d.runs[r], event);
    ReplaceRunStep(w, d, e, r, After(d.runs[r], event));
  }

  // ---------------------------------------------------------- what collectors do

  /** A doomed run whose batches were all unlinked is finished, and its batch was
      collected. */
  lemma DoomedIsSafe(w: World, d: Disk, c: Collector, r: string)
    requires !Clash(w) && DiskInv(w, d) && CollectorInv(w, d, c) && c.phase == Deleting && r in c.doomed
    ensures r in d.runs ==> d.runs[r].status.Terminal()
    ensures forall b :: Derived(w, b, r) && Enrolled(w, d, b) ==> IsRetired(w, d, b)
  {
    assert Remembers(w, d, r, c.snapshot[r]);
    forall b | Derived(w, b, r) && Enrolled(w, d, b) ensures IsRetired(w, d, b) {
      DoomedBatchIsRetired(w, d, c, r, b);
    }
  }

  predicate Unlisted(d: Disk, r: string) {
    forall o :: o in d.shelf.manifests ==> !GarbageCollection.Lists(d.shelf.manifests[o], r)
  }

  /** Nor does any manifest on disk list it, not even one that never got members. */
  lemma DoomedIsUnlisted(w: World, d: Disk, c: Collector, r: string)
    requires !ListingClash(w) && DiskInv(w, d) && CollectorInv(w, d, c) && c.phase == Deleting && r in c.doomed
    ensures Unlisted(d, r)
  {
    assert Remembers(w, d, r, c.snapshot[r]);
    forall o | o in d.shelf.manifests ensures !GarbageCollection.Lists(d.shelf.manifests[o], r) {
      if GarbageCollection.Lists(d.shelf.manifests[o], r) {
        var i :| 0 <= i < |d.shelf.manifests[o].members| && d.shelf.manifests[o].members[i].runId == r;
        MemberIsDerived(w, d, o, i);
        assert Owned(w, d, r);
        var b :| Derived(w, b, r) && Enrolled(w, d, b);
        DoomedBatchIsRetired(w, d, c, r, b);
        ListedTwiceClashes(w, d, o, b, r);
        assert false;
      }
    }
  }

  /** A manifest that lists a run of another, collected batch. */
  lemma ListedTwiceClashes(w: World, d: Disk, o: string, b: Batch, r: string)
    requires ShelfFits(w, d.shelf) && o in d.shelf.manifests && Derived(w, BatchOf(d.shelf.manifests[o]), r)
    requires Derived(w, b, r) && IsRetired(w, d, b)
    ensures ListingClash(w)
  {
    var x := BatchOf(d.shelf.manifests[o]);
    ManifestIsKnown(w, d, o);
    if TombKey(w.ids, x.requestId) != TombKey(w.ids, b.requestId) {
      SharingClashes(w, x, b, r);
    } else {
      assert d.shelf.tombs[TombKey(w.ids, b.requestId)].orchestrationId == IdOf(w, b);
      var p, i: nat :| Startable(w, p) && BatchFor(w, p) == x && i < |p.members| && RunOf(w, p, i) == r;
      var q, j: nat :| Startable(w, q) && BatchFor(w, q) == b && j < |q.members| && RunOf(w, q, j) == r;
      assert Shadow(w, p, i, q, j);
    }
  }

  lemma DoomedBatchIsRetired(w: World, d: Disk, c: Collector, r: string, b: Batch)
    requires !Clash(w) && DiskInv(w, d) && CollectorInv(w, d, c) && c.phase == Deleting && r in c.doomed
    requires Derived(w, b, r) && Enrolled(w, d, b)
    ensures IsRetired(w, d, b)
  {
    assert Remembers(w, d, r, c.snapshot[r]);
    EnrolledIsKnown(w, d, b);
    var o := IdOf(w, b);
    if Present(w, d, b) {
      assert ListedByItsBatch(w, d, b, r);
      PresentIsNotGone(w, d, b);
      assert o in c.listing && o !in c.invalid && o in c.seen;
      assert SeenStillThere(w, d, o, c.seen[o]) && GarbageCollection.Lists(c.seen[o], r);
      assert false;
    }
  }

  lemma PresentIsNotGone(w: World, d: Disk, b: Batch)
    requires !Clash(w) && ShelfFits(w, d.shelf) && Present(w, d, b) && Enrolled(w, d, b)
    ensures !GoneForGood(w, d, IdOf(w, b)) && !IsRetired(w, d, b)
  {
    if x :| IdOf(w, x) == IdOf(w, b) && IsRetired(w, d, x) {
      ManifestBatch(w, d, IdOf(w, b), x);
      assert false;
    }
  }

  lemma DropRunStep(w: World, d: Disk, e: Disk, r: string)
    requires DiskInv(w, d) && e == d.(runs := d.runs - {r})
    requires forall b :: Derived(w, b, r) && Enrolled(w, d, b) ==> IsRetired(w, d, b)
    ensures DiskInv(w, e) && Gentle(w, d, e)
  {
    RunsStayFitting(w, d, e);
    assert forall b :: Enrolled(w, e, b) <==> Enrolled(w, d, b);
    assert forall b :: IsRetired(w, e, b) <==> IsRetired(w, d, b);
  }

  lemma DeleteStep(w: World, d: Disk, e: Disk, c: Collector, r: string)
    requires !Clash(w) && DiskInv(w, d) && CollectorInv(w, d, c) && c.phase == Deleting && r in c.doomed
    requires e == d.(runs := d.runs - {r})
    ensures DiskInv(w, e) && Gentle(w, d, e)
  {
    DoomedIsSafe(w, d, c, r);
    DropRunStep(w, d, e, r);
  }

  lemma ListKeepsCollector(w: World, d: Disk, c: Collector)
    requires !Clash(w) && DiskInv(w, d) && CollectorInv(w, d, c) && c.phase == Reading
    ensures CollectorInv(w, d, c.(phase := Scanning, listing := d.shelf.manifests.Keys))
  {
    forall b, r | r in c.snapshot && Derived(w, b, r) && Enrolled(w, d, b)
      ensures IdOf(w, b) in d.shelf.manifests || IsRetired(w, d, b)
    {
      EnrolledIsKnown(w, d, b);
    }
  }

  lemma ReadKeepsCollector(w: World, d: Disk, c: Collector, r: string)
    requires !Clash(w) && DiskInv(w, d) && CollectorInv(w, d, c) && c.phase == Reading && r in d.runs
    ensures CollectorInv(w, d, c.(snapshot := c.snapshot[r := d.runs[r]]))
  {
    assert Remembers(w, d, r, d.runs[r]);
  }

  lemma SeeKeepsCollector(w: World, d: Disk, c: Collector, o: string)
    requires DiskInv(w, d) && CollectorInv(w, d, c) && c.phase == Scanning && o in d.shelf.manifests
    ensures CollectorInv(w, d, c.(seen := c.seen[o := d.shelf.manifests[o]]))
  {
    var after := c.(seen := c.seen[o := d.shelf.manifests[o]]);
    forall x | x in after.seen ensures SeenStillThere(w, d, x, after.seen[x]) {
      if x == o {
        assert Proper(w.ids, o, d.shelf.manifests[o]);
      } else {
        assert SeenStillThere(w, d, x, c.seen[x]);
      }
    }
  }

  lemma SkipKeepsCollector(w: World, d: Disk, c: Collector, o: string)
    requires CollectorInv(w, d, c) && c.phase == Scanning && o in c.listing
    ensures CollectorInv(w, d, c.(invalid := c.invalid + {o}))
    ensures o !in d.shelf.manifests ==> CollectorInv(w, d, c.(gone := c.gone + {o}))
  {
  }

  lemma DecideKeepsCollector(w: World, d: Disk, c: Collector, stuck: set<string>)
    requires !Clash(w) && DiskInv(w, d) && CollectorInv(w, d, c) && c.phase == Scanning
    requires forall o :: o in c.listing ==> o in c.seen || o in c.invalid || o in c.gone
    ensures CollectorInv(w, d, Decided(c, stuck))
  {
    var sv := SurveyOf(c, stuck);
    var after := Decided(c, stuck);
    forall r | r in after.doomed
      ensures r in c.snapshot && c.snapshot[r].status.Terminal() && c.snapshot[r].origin.orchestrationId !in c.invalid
      ensures forall o :: o in c.seen && GarbageCollection.Lists(c.seen[o], r) ==> o in after.pending
    {
      forall o | o in c.seen && GarbageCollection.Lists(c.seen[o], r) ensures o in after.pending {
        RemovableRunsFollowTheirBatches(sv, r, o);
      }
      RemovableRunsFollowTheirBatches(sv, r, "");
    }
  }

  lemma SpareKeepsCollector(w: World, d: Disk, c: Collector, o: string)
    requires CollectorInv(w, d, c) && c.phase == Unlinking && c.holding.None? && o in c.seen
    ensures CollectorInv(w, d, Spared(c, o))
  {
    forall r | GarbageCollection.Lists(c.seen[o], r) ensures r in MemberIds(c.seen[o]) {
    }
  }

  /** A re-check that passes leaves the batch tombstoned and its members finished. */
  lemma PassingFounds(w: World, s: System, e: Disk, c: Collector, o: string, unread: set<string>)
    requires o in c.seen && Passes(w, s, c, o, unread)
    requires e == s.disk.(shelf := Bound(w.ids, s.disk.shelf, s.disk.shelf.manifests[o]))
    ensures o in e.shelf.manifests && Tombstoned(w.ids, e.shelf, e.shelf.manifests[o])
    ensures MembersFinished(e, e.shelf.manifests[o], unread)
  {
    var m := s.disk.shelf.manifests[o];
    forall i | 0 <= i < |m.members| && m.members[i].runId in e.runs && m.members[i].runId !in unread
      ensures e.runs[m.members[i].runId].status.Terminal()
    {
      assert m.members[i].runId in Visible(s.disk.runs, unread);
    }
  }

  lemma HoldingKeepsCollector(w: World, e: Disk, c: Collector, o: string, unread: set<string>)
    requires CollectorInv(w, e, c) && c.phase == Unlinking && o in c.pending && o in e.shelf.manifests
    requires Tombstoned(w.ids, e.shelf, e.shelf.manifests[o]) && MembersFinished(e, e.shelf.manifests[o], unread)
    ensures CollectorInv(w, e, c.(holding := Some(o), unread := unread))
  {
  }

  lemma UnlinkedKeepsCollector(w: World, e: Disk, c: Collector, o: string)
    requires CollectorInv(w, e, c) && c.phase == Unlinking && c.holding.None? && GoneForGood(w, e, o)
    ensures CollectorInv(w, e, c.(pending := c.pending - {o}, unlinked := c.unlinked + {o}))
  {
  }

  lemma HoldKeepsCollector(w: World, s: System, e: Disk, c: Collector, o: string, unread: set<string>)
    requires !Clash(w) && DiskInv(w, s.disk) && CollectorInv(w, s.disk, c)
    requires c.phase == Unlinking && c.holding.None? && o in c.pending && o in c.seen && Passes(w, s, c, o, unread)
    requires e == s.disk.(shelf := Bound(w.ids, s.disk.shelf, s.disk.shelf.manifests[o]))
    ensures CollectorInv(w, e, c.(holding := Some(o), unread := unread))
  {
    PassingFounds(w, s, e, c, o, unread);
    BindStep(w, s.disk, e, o);
    GentleKeepsCollector(w, s.disk, e, c);
    HoldingKeepsCollector(w, e, c, o, unread);
  }

  lemma UnlinkKeepsCollector(w: World, d: Disk, e: Disk, c: Collector, o: string)
    requires !Clash(w) && DiskInv(w, d) && CollectorInv(w, d, c) && c.phase == Unlinking && c.holding == Some(o)
    requires o in d.shelf.manifests && e == d.(shelf := d.shelf.(manifests := d.shelf.manifests - {o}))
    ensures CollectorInv(w, e, c.(holding := None, pending := c.pending - {o}, unlinked := c.unlinked + {o}))
  {
    UnlinkStep(w, d, e, o);
    GentleKeepsCollector(w, d, e, c.(holding := None));
    UnlinkedKeepsCollector(w, e, c.(holding := None), o);
  }

  // ------------------------------------------------------- steps of the system

  /** A gentle disk step taken by no collector keeps the system's invariant when
      it leaves what is held under locks alone. */
  lemma DiskStepKeepsInv(w: World, s: System, e: Disk)
    requires !Clash(w) && SystemInv(w, s) && DiskInv(w, e) && Gentle(w, s.disk, e)
    requires forall g :: g in s.collectors ==> HoldInv(w, e, s.collectors[g])
    ensures SystemInv(w, OnDisk(s, e))
  {
    forall g | g in s.collectors ensures CollectorInv(w, e, s.collectors[g]) {
      GentleKeepsCollector(w, s.disk, e, s.collectors[g]);
    }
  }

  /** A collector's own step: the disk may move gently, the others' holds stay. */
  lemma CollectorStepKeepsInv(w: World, s: System, e: Disk, g: string, c: Collector)
    requires !Clash(w) && SystemInv(w, s) && DiskInv(w, e) && Gentle(w, s.disk, e) && CollectorInv(w, e, c)
    requires forall h :: h in s.collectors && h != g ==>
      HoldInv(w, e, s.collectors[h]) && (c.holding.Some? ==> s.collectors[h].holding != c.holding)
    ensures SystemInv(w, Collects(OnDisk(s, e), g, c))
  {
    forall h | h in s.collectors && h != g ensures CollectorInv(w, e, s.collectors[h]) {
      GentleKeepsCollector(w, s.disk, e, s.collectors[h]);
    }
  }

  /** What is held stays held through a step that keeps the held manifest and its
      tombstone and neither adds nor revives a member run. */
  lemma HoldStays(w: World, d: Disk, e: Disk, c: Collector)
    requires HoldInv(w, d, c)
    requires c.holding.Some? ==>
      var o := c.holding.value;
      && o in e.shelf.manifests && e.shelf.manifests[o] == d.shelf.manifests[o]
      && (forall k :: k in d.shelf.tombs ==> k in e.shelf.tombs && e.shelf.tombs[k] == d.shelf.tombs[k])
      && (forall r :: r in e.runs && GarbageCollection.Lists(e.shelf.manifests[o], r) ==>
            r in d.runs && (d.runs[r].status.Terminal() ==> e.runs[r].status.Terminal()))
    ensures HoldInv(w, e, c)
  {
    if c.holding.Some? {
      var m := d.shelf.manifests[c.holding.value];
      forall i | 0 <= i < |m.members| && m.members[i].runId in e.runs && m.members[i].runId !in c.unread
        ensures e.runs[m.members[i].runId].status.Terminal()
      {
        assert GarbageCollection.Lists(m, m.members[i].runId);
      }
    }
  }

  lemma ShelfChangeKeepsHolds(w: World, s: System, e: Disk)
    requires !Clash(w) && SystemInv(w, s) && e == s.disk.(shelf := e.shelf)
    requires forall k :: k in s.disk.shelf.tombs ==> k in e.shelf.tombs && e.shelf.tombs[k] == s.disk.shelf.tombs[k]
    requires forall o :: o in s.disk.shelf.manifests && Held(s, o) ==>
      o in e.shelf.manifests && e.shelf.manifests[o] == s.disk.shelf.manifests[o]
    ensures forall g :: g in s.collectors ==> HoldInv(w, e, s.collectors[g])
  {
    forall g | g in s.collectors ensures HoldInv(w, e, s.collectors[g]) {
      assert CollectorInv(w, s.disk, s.collectors[g]);
      if s.collectors[g].holding.Some? {
        assert Held(s, s.collectors[g].holding.value);
      }
      HoldStays(w, s.disk, e, s.collectors[g]);
    }
  }

  /** What others hold under their locks is unchanged on this shelf. */
  ghost predicate HeldUntouched(s: System, shelf: Shelf) {
    && (forall k :: k in s.disk.shelf.tombs ==> k in shelf.tombs && shelf.tombs[k] == s.disk.shelf.tombs[k])
    && (forall o :: o in s.disk.shelf.manifests && Held(s, o) ==>
          o in shelf.manifests && shelf.manifests[o] == s.disk.shelf.manifests[o])
  }

  lemma ShelfChangeKeepsInv(w: World, s: System, e: Disk)
    requires !Clash(w) && SystemInv(w, s) && e == s.disk.(shelf := e.shelf) && HeldUntouched(s, e.shelf)
    requires DiskInv(w, e) && Gentle(w, s.disk, e)
    ensures SystemInv(w, OnDisk(s, e))
  {
    ShelfChangeKeepsHolds(w, s, e);
    DiskStepKeepsInv(w, s, e);
  }

  lemma ShelfStepsLeaveHeld(w: World, s: System, o: string, at: real, plan: BatchPlan)
    ensures MayCreate(w.ids, s.disk.shelf, plan) ==> HeldUntouched(s, Created(w.ids, s.disk.shelf, plan, at))
    ensures o in s.disk.shelf.manifests ==> HeldUntouched(s, Bound(w.ids, s.disk.shelf, s.disk.shelf.manifests[o]))
    ensures o in s.disk.shelf.manifests && !Held(s, o) ==> HeldUntouched(s, Orchestrations.Cancelled(s.disk.shelf, o, at))
  {
  }

  lemma CreateKeepsInv(w: World, s: System, plan: BatchPlan, at: real)
    requires !Clash(w) && SystemInv(w, s) && MayCreate(w.ids, s.disk.shelf, plan) && Startable(w, plan)
    ensures SystemInv(w, OnDisk(s, s.disk.(shelf := Created(w.ids, s.disk.shelf, plan, at))))
  {
    var e := s.disk.(shelf := Created(w.ids, s.disk.shelf, plan, at));
    CreateStep(w, s.disk, e, plan, at);
    ShelfStepsLeaveHeld(w, s, "", at, plan);
    ShelfChangeKeepsInv(w, s, e);
  }

  lemma BindKeepsInv(w: World, s: System, o: string)
    requires !Clash(w) && SystemInv(w, s) && o in s.disk.shelf.manifests
    ensures SystemInv(w, OnDisk(s, s.disk.(shelf := Bound(w.ids, s.disk.shelf, s.disk.shelf.manifests[o]))))
  {
    var e := s.disk.(shelf := Bound(w.ids, s.disk.shelf, s.disk.shelf.manifests[o]));
    BindStep(w, s.disk, e, o);
    ShelfStepsLeaveHeld(w, s, o, 0.0, s.disk.shelf.manifests[o].plan);
    ShelfChangeKeepsInv(w, s, e);
  }

  lemma CancelKeepsInv(w: World, s: System, o: string, at: real)
    requires !Clash(w) && SystemInv(w, s) && o in s.disk.shelf.manifests && !Held(s, o)
    ensures SystemInv(w, OnDisk(s, s.disk.(shelf := Orchestrations.Cancelled(s.disk.shelf, o, at))))
  {
    var e := s.disk.(shelf := Orchestrations.Cancelled(s.disk.shelf, o, at));
    CancelStep(w, s.disk, e, o, at);
    ShelfStepsLeaveHeld(w, s, o, at, s.disk.shelf.manifests[o].plan);
    ShelfChangeKeepsInv(w, s, e);
  }

  /** A batch's lock also protects the runs it lists: no other batch with members
      derives them. */
  lemma NewRunIsNotHeld(w: World, s: System, r: string, o: string)
    requires !Clash(w) && DiskInv(w, s.disk) && AllHold(w, s) && o in s.disk.shelf.manifests && !Held(s, o)
    requires Tombstoned(w.ids, s.disk.shelf, s.disk.shelf.manifests[o])
    requires GarbageCollection.Lists(s.disk.shelf.manifests[o], r)
    ensures forall x :: x in s.disk.shelf.manifests && Held(s, x) ==> !GarbageCollection.Lists(s.disk.shelf.manifests[x], r)
  {
    var d := s.disk;
    var i: nat :| 0 <= i < |d.shelf.manifests[o].members| && d.shelf.manifests[o].members[i].runId == r;
    MemberIsDerived(w, d, o, i);
    forall x | x in d.shelf.manifests && Held(s, x) ensures !GarbageCollection.Lists(d.shelf.manifests[x], r) {
      if j: nat :| j < |d.shelf.manifests[x].members| && d.shelf.manifests[x].members[j].runId == r {
        var g :| g in s.collectors && s.collectors[g].holding == Some(x);
        assert HoldInv(w, d, s.collectors[g]);
        MemberIsDerived(w, d, x, j);
        EnrolledApart(w, d, BatchOf(d.shelf.manifests[x]), BatchOf(d.shelf.manifests[o]));
      }
    }
  }

  ghost predicate AllHold(w: World, s: System) {
    forall g :: g in s.collectors ==> HoldInv(w, s.disk, s.collectors[g])
  }

  lemma AddedRunLeavesHolds(w: World, s: System, e: Disk, r: string)
    requires AllHold(w, s) && e.shelf == s.disk.shelf && e.runs.Keys == s.disk.runs.Keys + {r}
    requires forall x :: x in s.disk.runs ==> e.runs[x] == s.disk.runs[x]
    requires forall o :: o in s.disk.shelf.manifests && Held(s, o) ==> !GarbageCollection.Lists(s.disk.shelf.manifests[o], r)
    ensures forall g :: g in s.collectors ==> HoldInv(w, e, s.collectors[g])
  {
    forall g | g in s.collectors ensures HoldInv(w, e, s.collectors[g]) {
      if s.collectors[g].holding.Some? {
        assert Held(s, s.collectors[g].holding.value);
      }
      HoldStays(w, s.disk, e, s.collectors[g]);
    }
  }

  lemma AddedRunKeepsInv(w: World, s: System, e: Disk, r: string)
    requires !Clash(w) && SystemInv(w, s) && DiskInv(w, e) && Gentle(w, s.disk, e)
    requires e.shelf == s.disk.shelf && e.runs.Keys == s.disk.runs.Keys + {r}
    requires forall x :: x in s.disk.runs ==> e.runs[x] == s.disk.runs[x]
    requires forall o :: o in s.disk.shelf.manifests && Held(s, o) ==> !GarbageCollection.Lists(s.disk.shelf.manifests[o], r)
    ensures SystemInv(w, OnDisk(s, e))
  {
    assert AllHold(w, s);
    AddedRunLeavesHolds(w, s, e, r);
    DiskStepKeepsInv(w, s, e);
  }

  lemma EnsureKeepsInv(w: World, s: System, o: string, index: nat, at: real)
    requires !Clash(w) && SystemInv(w, s) && MayEnsure(w, s.disk, o, index) && !Held(s, o)
    requires s.disk.shelf.manifests[o].members[index].runId !in s.disk.runs
    ensures SystemInv(w, OnDisk(s, WithMember(w, s.disk, o, index, at)))
  {
    var r := s.disk.shelf.manifests[o].members[index].runId;
    var e := WithMember(w, s.disk, o, index, at);
    EnsureStep(w, s.disk, e, o, index, at);
    WithMemberAdds(w, s.disk, o, index, at);
    MemberIsNotHeld(w, s, o, index);
    AddedRunKeepsInv(w, s, e, r);
  }

  lemma WithMemberAdds(w: World, d: Disk, o: string, index: nat, at: real)
    requires MayEnsure(w, d, o, index) && d.shelf.manifests[o].members[index].runId !in d.runs
    ensures var e := WithMember(w, d, o, index, at);
      && e.shelf == d.shelf && e.runs.Keys == d.runs.Keys + {d.shelf.manifests[o].members[index].runId}
      && forall x :: x in d.runs ==> e.runs[x] == d.runs[x]
  {
  }

  lemma MemberIsNotHeld(w: World, s: System, o: string, index: nat)
    requires !Clash(w) && SystemInv(w, s) && MayEnsure(w, s.disk, o, index) && !Held(s, o)
    ensures var r := s.disk.shelf.manifests[o].members[index].runId;
      forall x :: x in s.disk.shelf.manifests && Held(s, x) ==> !GarbageCollection.Lists(s.disk.shelf.manifests[x], r)
  {
    var r := s.disk.shelf.manifests[o].members[index].runId;
    assert GarbageCollection.Lists(s.disk.shelf.manifests[o], r) && AllHold(w, s);
    NewRunIsNotHeld(w, s, r, o);
  }

  lemma DrawStep(w: World, d: Disk, e: Disk, r: string, at: real)
    requires !Clash(w) && DiskInv(w, d) && MayDraw(w, d, r) && e == WithDraw(w, d, r, at)
    ensures r !in d.runs && (forall b :: !Derived(w, b, r)) && DiskInv(w, e) && Gentle(w, d, e)
  {
    forall b ensures !Derived(w, b, r) {
      if Derived(w, b, r) {
        DerivedIsNotDrawn(w, b, r);
      }
    }
    AddRunStep(w, d, e, r, w.draws[r], at);
  }

  lemma DrawKeepsInv(w: World, s: System, r: string, at: real)
    requires !Clash(w) && SystemInv(w, s) && MayDraw(w, s.disk, r)
    ensures SystemInv(w, OnDisk(s, WithDraw(w, s.disk, r, at)))
  {
    var e := WithDraw(w, s.disk, r, at);
    DrawStep(w, s.disk, e, r, at);
    forall o | o in s.disk.shelf.manifests ensures !GarbageCollection.Lists(s.disk.shelf.manifests[o], r) {
      if i: nat :| i < |s.disk.shelf.manifests[o].members| && s.disk.shelf.manifests[o].members[i].runId == r {
        MemberIsDerived(w, s.disk, o, i);
      }
    }
    AddedRunKeepsInv(w, s, e, r);
  }

  lemma RunEventKeepsInv(w: World, s: System, r: string, event: Event)
    requires !Clash(w) && SystemInv(w, s) && r in s.disk.runs && ValidEvent(event)
    ensures SystemInv(w, OnDisk(s, s.disk.(runs := s.disk.runs[r := After(s.disk.runs[r], event)])))
  {
    var record := After(s.disk.runs[r], event);
    var e := s.disk.(runs := s.disk.runs[r := record]);
    RunStep(w, s.disk, e, r, event);
    assert Evolves(s.disk.runs[r], record) by {
      assert WellFormed(s.disk.runs[r]) && Inv(s.disk.runs[r]);
      StepKeepsRecord(s.disk.runs[r], event);
    }
    RunReplacementKeepsInv(w, s, e, r, record);
  }

  lemma ReplacedRunLeavesHolds(w: World, s: System, e: Disk, r: string, record: RunRecord)
    requires AllHold(w, s) && r in s.disk.runs && e == s.disk.(runs := s.disk.runs[r := record])
    requires Evolves(s.disk.runs[r], record)
    ensures forall g :: g in s.collectors ==> HoldInv(w, e, s.collectors[g])
  {
    forall g | g in s.collectors ensures HoldInv(w, e, s.collectors[g]) {
      HoldStays(w, s.disk, e, s.collectors[g]);
    }
  }

  lemma RunReplacementKeepsInv(w: World, s: System, e: Disk, r: string, record: RunRecord)
    requires !Clash(w) && SystemInv(w, s) && r in s.disk.runs && e == s.disk.(runs := s.disk.runs[r := record])
    requires Evolves(s.disk.runs[r], record) && DiskInv(w, e) && Gentle(w, s.disk, e)
    ensures SystemInv(w, OnDisk(s, e))
  {
    assert AllHold(w, s);
    ReplacedRunLeavesHolds(w, s, e, r, record);
    DiskStepKeepsInv(w, s, e);
  }

  /** A collector learns something and holds what it held. */
  lemma LearningKeepsInv(w: World, s: System, g: string, c: Collector)
    requires !Clash(w) && SystemInv(w, s) && CollectorInv(w, s.disk, c)
    requires c.holding == if g in s.collectors then s.collectors[g].holding else None
    ensures SystemInv(w, Collects(s, g, c))
  {
  }

  lemma StartKeepsInv(w: World, s: System, g: string, age: Age)
    requires !Clash(w) && SystemInv(w, s) && g !in s.collectors
    ensures SystemInv(w, Collects(s, g, NewCollector(age)))
  {
    LearningKeepsInv(w, s, g, NewCollector(age));
  }

  /** The steps in which a collector only reads or decides. */
  lemma ReadingKeepsInv(w: World, s: System, g: string, r: string)
    requires !Clash(w) && SystemInv(w, s) && In(s, g, Reading)
    ensures r in s.disk.runs ==>
      SystemInv(w, Collects(s, g, s.collectors[g].(snapshot := s.collectors[g].snapshot[r := s.disk.runs[r]])))
    ensures SystemInv(w, Collects(s, g, s.collectors[g].(phase := Scanning, listing := s.disk.shelf.manifests.Keys)))
  {
    var c := s.collectors[g];
    assert CollectorInv(w, s.disk, c);
    if r in s.disk.runs {
      ReadKeepsCollector(w, s.disk, c, r);
      LearningKeepsInv(w, s, g, c.(snapshot := c.snapshot[r := s.disk.runs[r]]));
    }
    ListKeepsCollector(w, s.disk, c);
    LearningKeepsInv(w, s, g, c.(phase := Scanning, listing := s.disk.shelf.manifests.Keys));
  }

  lemma LoadKeepsInv(w: World, s: System, g: string, o: string, fails: bool)
    requires !Clash(w) && SystemInv(w, s) && In(s, g, Scanning) && o in s.collectors[g].listing
    ensures SystemInv(w, Collects(s, g, Loaded(s, s.collectors[g], o, fails)))
  {
    var c := s.collectors[g];
    assert CollectorInv(w, s.disk, c);
    SkipKeepsCollector(w, s.disk, c, o);
    if o in s.disk.shelf.manifests {
      SeeKeepsCollector(w, s.disk, c, o);
    }
    LearningKeepsInv(w, s, g, Loaded(s, c, o, fails));
  }

  lemma DecideKeepsInv(w: World, s: System, g: string, stuck: set<string>)
    requires !Clash(w) && SystemInv(w, s) && In(s, g, Scanning)
    requires var c := s.collectors[g]; forall o :: o in c.listing ==> o in c.seen || o in c.invalid || o in c.gone
    ensures SystemInv(w, Collects(s, g, Decided(s.collectors[g], stuck)))
  {
    assert CollectorInv(w, s.disk, s.collectors[g]);
    DecideKeepsCollector(w, s.disk, s.collectors[g], stuck);
    LearningKeepsInv(w, s, g, Decided(s.collectors[g], stuck));
  }

  lemma SweepKeepsInv(w: World, s: System, g: string)
    requires !Clash(w) && SystemInv(w, s) && In(s, g, Unlinking) && s.collectors[g].holding.None? && s.collectors[g].pending == {}
    ensures SystemInv(w, Collects(s, g, s.collectors[g].(phase := Deleting)))
  {
    assert CollectorInv(w, s.disk, s.collectors[g]);
    LearningKeepsInv(w, s, g, s.collectors[g].(phase := Deleting));
  }

  lemma PassKeepsInv(w: World, s: System, g: string, o: string, unread: set<string>)
    requires !Clash(w) && SystemInv(w, s) && In(s, g, Unlinking) && !Held(s, o)
    requires var c := s.collectors[g];
      c.holding.None? && o in c.pending && o in c.seen && Passes(w, s, c, o, unread)
    ensures SystemInv(w, Collects(OnDisk(s, s.disk.(shelf := Bound(w.ids, s.disk.shelf, s.disk.shelf.manifests[o]))), g,
                                  s.collectors[g].(holding := Some(o), unread := unread)))
  {
    var c := s.collectors[g];
    var e := s.disk.(shelf := Bound(w.ids, s.disk.shelf, s.disk.shelf.manifests[o]));
    assert CollectorInv(w, s.disk, c);
    HoldKeepsCollector(w, s, e, c, o, unread);
    BindKeepsInv(w, s, o);
    TakingHoldKeepsInv(w, s, OnDisk(s, e), g, o, c.(holding := Some(o), unread := unread));
  }

  /** A collector takes hold of a batch that nobody holds. */
  lemma TakingHoldKeepsInv(w: World, s: System, t: System, g: string, o: string, c: Collector)
    requires SystemInv(w, t) && t.collectors == s.collectors && !Held(s, o) && c.holding == Some(o)
    requires CollectorInv(w, t.disk, c)
    ensures SystemInv(w, Collects(t, g, c))
  {
    forall h | h in s.collectors ensures s.collectors[h].holding != Some(o) {
      assert s.collectors[h].holding == Some(o) ==> Held(s, o);
    }
  }

  lemma FailKeepsInv(w: World, s: System, g: string, o: string)
    requires !Clash(w) && SystemInv(w, s) && In(s, g, Unlinking) && s.collectors[g].holding.None? && o in s.collectors[g].seen
    ensures SystemInv(w, Collects(s, g, Spared(s.collectors[g], o)))
  {
    assert CollectorInv(w, s.disk, s.collectors[g]);
    SpareKeepsCollector(w, s.disk, s.collectors[g], o);
    LearningKeepsInv(w, s, g, Spared(s.collectors[g], o));
  }

  lemma UnlinkKeepsInv(w: World, s: System, g: string)
    requires !Clash(w) && SystemInv(w, s) && In(s, g, Unlinking) && s.collectors[g].holding.Some?
    requires s.collectors[g].holding.value in s.disk.shelf.manifests
    ensures SystemInv(w, Unlinked(s, g))
  {
    var c := s.collectors[g];
    assert CollectorInv(w, s.disk, c);
    var o := c.holding.value;
    var e := s.disk.(shelf := s.disk.shelf.(manifests := s.disk.shelf.manifests - {o}));
    UnlinkStep(w, s.disk, e, o);
    UnlinkKeepsCollector(w, s.disk, e, c, o);
    forall h | h in s.collectors && h != g ensures HoldInv(w, e, s.collectors[h]) {
      assert CollectorInv(w, s.disk, s.collectors[h]);
      HoldStays(w, s.disk, e, s.collectors[h]);
    }
    CollectorStepKeepsInv(w, s, e, g, c.(holding := None, pending := c.pending - {o}, unlinked := c.unlinked + {o}));
  }

  lemma DeleteKeepsInv(w: World, s: System, g: string, r: string)
    requires !Clash(w) && SystemInv(w, s) && In(s, g, Deleting) && r in s.collectors[g].doomed
    ensures SystemInv(w, Collects(OnDisk(s, s.disk.(runs := s.disk.runs - {r})), g,
                                  s.collectors[g].(doomed := s.collectors[g].doomed - {r})))
  {
    var c := s.collectors[g];
    assert CollectorInv(w, s.disk, c);
    var e := s.disk.(runs := s.disk.runs - {r});
    DeleteStep(w, s.disk, e, c, r);
    forall h | h in s.collectors ensures HoldInv(w, e, s.collectors[h]) {
      assert CollectorInv(w, s.disk, s.collectors[h]);
      HoldStays(w, s.disk, e, s.collectors[h]);
    }
    GentleKeepsCollector(w, s.disk, e, c);
    CollectorStepKeepsInv(w, s, e, g, c.(doomed := c.doomed - {r}));
  }

  /** Every step keeps the invariant, a crash of a collector included. */
  lemma StepKeepsInv(w: World, s: System, step: Step)
    requires !Clash(w) && SystemInv(w, s) && Enabled(w, s, step)
    ensures SystemInv(w, Do(w, s, step))
  {
    match step {
      case CreateManifest(plan, at) => CreateKeepsInv(w, s, plan, at);
      case BindTombstoneOf(o) => BindKeepsInv(w, s, o);
      case CancelBatch(o, at) => CancelKeepsInv(w, s, o, at);
      case EnsureMember(o, index, at) =>
        if s.disk.shelf.manifests[o].members[index].runId !in s.disk.runs {
          EnsureKeepsInv(w, s, o, index, at);
        }
      case StandaloneRun(r, at) => DrawKeepsInv(w, s, r, at);
      case RunEvent(r, event) => RunEventKeepsInv(w, s, r, event);
      case GcStart(g, age) => StartKeepsInv(w, s, g, age);
      case GcReadRun(g, r) => ReadingKeepsInv(w, s, g, r);
      case GcList(g) => ReadingKeepsInv(w, s, g, "");
      case GcLoad(g, o, fails) => LoadKeepsInv(w, s, g, o, fails);
      case GcDecide(g, stuck) => DecideKeepsInv(w, s, g, stuck);
      case GcExamine(g, o, unread) =>
        if Passes(w, s, s.collectors[g], o, unread) {
          PassKeepsInv(w, s, g, o, unread);
        } else {
          FailKeepsInv(w, s, g, o);
        }
      case GcUnlink(g) => UnlinkKeepsInv(w, s, g);
      case GcSweep(g) => SweepKeepsInv(w, s, g);
      case GcDelete(g, r) => DeleteKeepsInv(w, s, g, r);
      case GcCrash(_) =>
    }
  }

  ghost predicate Runnable(w: World, s: System, steps: seq<Step>)
    decreases |steps|
  {
    steps == [] || (Enabled(w, s, steps[0]) && Runnable(w, Do(w, s, steps[0]), steps[1..]))
  }

  function Reached(w: World, s: System, steps: seq<Step>): System
    requires Runnable(w, s, steps)
    decreases |steps|
  {
    if steps == [] then s else Reached(w, Do(w, s, steps[0]), steps[1..])
  }

  lemma {:induction false} RunKeepsInv(w: World, s: System, steps: seq<Step>)
    requires !Clash(w) && SystemInv(w, s) && Runnable(w, s, steps)
    ensures SystemInv(w, Reached(w, s, steps))
    decreases |steps|
  {
    if steps != [] {
      StepKeepsInv(w, s, steps[0]);
      RunKeepsInv(w, Do(w, s, steps[0]), steps[1..]);
    }
  }

  /** Collection is safe however it interleaves with batch starts, cancellations,
      other runs, crashes and other collectors: whenever a collector deletes a run,
      that run is finished, */
  lemma CollectorDeletesOnlyFinishedRuns(w: World, steps: seq<Step>, g: string, runId: string)
    requires !Clash(w) && Runnable(w, EMPTY, steps) && Enabled(w, Reached(w, EMPTY, steps), GcDelete(g, runId))
    ensures var d := Reached(w, EMPTY, steps).disk; runId in d.runs ==> d.runs[runId].status.Terminal()
  {
    RunKeepsInv(w, EMPTY, steps);
    var s := Reached(w, EMPTY, steps);
    DoomedIsSafe(w, s.disk, s.collectors[g], runId);
  }

  /** and no manifest left on disk lists it. */
  lemma CollectorDeletesOnlyUnlistedRuns(w: World, steps: seq<Step>, g: string, runId: string)
    requires !ListingClash(w) && Runnable(w, EMPTY, steps) && Enabled(w, Reached(w, EMPTY, steps), GcDelete(g, runId))
    ensures Unlisted(Reached(w, EMPTY, steps).disk, runId)
  {
    RunKeepsInv(w, EMPTY, steps);
    var s := Reached(w, EMPTY, steps);
    DoomedIsUnlisted(w, s.disk, s.collectors[g], runId);
  }

  /** Whenever a collector unlinks a manifest, the request's tombstone is on disk
      and every member run its re-check could read is finished still. */
  lemma CollectorUnlinksOnlyFinishedBatches(w: World, steps: seq<Step>, g: string)
    requires !Clash(w) && Runnable(w, EMPTY, steps) && Enabled(w, Reached(w, EMPTY, steps), GcUnlink(g))
    ensures var s := Reached(w, EMPTY, steps);
      var m := s.disk.shelf.manifests[s.collectors[g].holding.value];
      && Tombstoned(w.ids, s.disk.shelf, m) && MembersFinished(s.disk, m, s.collectors[g].unread)
  {
    RunKeepsInv(w, EMPTY, steps);
    var s := Reached(w, EMPTY, steps);
    assert CollectorInv(w, s.disk, s.collectors[g]);
  }
}
