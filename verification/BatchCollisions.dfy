/** Exactly when collection can go wrong: a run id that two plans share, or that a
    plan shares with a run of no batch, is enough, whatever else the id functions
    do, and nothing less is. Each schedule consists of steps the programs take: a
    batch writes its manifest, binds its tombstone and creates its members in
    order; a collector reads every run, lists, loads, re-checks, unlinks, deletes. */
module BatchCollisions {
  import opened Common
  import opened BatchPlans
  import opened Manifests
  import opened RunRecords
  import opened Orchestrations
  import opened GarbageCollection
  import opened BatchProtocol

  /** A collector is about to delete a run that is not finished. */
  ghost predicate DeletesUnfinished(w: World, steps: seq<Step>, g: string, r: string) {
    && Runnable(w, EMPTY, steps) && Enabled(w, Reached(w, EMPTY, steps), GcDelete(g, r))
    && var d := Reached(w, EMPTY, steps).disk; r in d.runs && !d.runs[r].status.Terminal()
  }

  /** A collector is about to delete a run that a manifest lists. */
  ghost predicate DeletesListed(w: World, steps: seq<Step>, g: string, r: string) {
    && Runnable(w, EMPTY, steps) && Enabled(w, Reached(w, EMPTY, steps), GcDelete(g, r))
    && r in Reached(w, EMPTY, steps).disk.runs && !Unlisted(Reached(w, EMPTY, steps).disk, r)
  }

  /** What runs are created with passes the run store's checks and names the batch
      of a member, and no batch otherwise. */
  ghost predicate Presentable(w: World) {
    && (forall plan, i: nat :: Startable(w, plan) && i < |plan.members| ==>
          ValidOrigin(w.origins(plan, i)) && w.origins(plan, i).orchestrationId == IdOf(w, BatchFor(w, plan)))
    && (forall r :: r in w.draws ==> ValidOrigin(w.draws[r]) && w.draws[r].orchestrationId == "")
  }

  // ------------------------------------------------------- following one schedule

  ghost predicate Leads(w: World, s: System, steps: seq<Step>, t: System) {
    Runnable(w, s, steps) && Reached(w, s, steps) == t
  }

  lemma {:induction false} LeadsOn(w: World, s: System, steps: seq<Step>, t: System, next: Step)
    requires Leads(w, s, steps, t) && Enabled(w, t, next)
    ensures Leads(w, s, steps + [next], Do(w, t, next))
    decreases |steps|
  {
    if steps == [] {
      assert (steps + [next])[1..] == [];
    } else {
      assert (steps + [next])[1..] == steps[1..] + [next];
      LeadsOn(w, Do(w, s, steps[0]), steps[1..], t, next);
    }
  }

  ghost predicate Reachable(w: World, t: System) {
    exists steps :: Leads(w, EMPTY, steps, t)
  }

  lemma Next(w: World, t: System, next: Step)
    requires Reachable(w, t) && Enabled(w, t, next)
    ensures Reachable(w, Do(w, t, next))
  {
    var steps :| Leads(w, EMPTY, steps, t);
    LeadsOn(w, EMPTY, steps, t, next);
  }

  // Each kind of step a collector takes, from wherever it can be taken.

  lemma StartOn(w: World, s: System, g: string, age: Age)
    requires Reachable(w, s) && g !in s.collectors
    ensures Reachable(w, Collects(s, g, NewCollector(age)))
  {
    Next(w, s, GcStart(g, age));
  }

  lemma ReadOn(w: World, s: System, g: string, r: string)
    requires Reachable(w, s) && In(s, g, Reading) && r in s.disk.runs
    ensures Reachable(w, Collects(s, g, s.collectors[g].(snapshot := s.collectors[g].snapshot[r := s.disk.runs[r]])))
  {
    Next(w, s, GcReadRun(g, r));
  }

  lemma ListOn(w: World, s: System, g: string)
    requires Reachable(w, s) && In(s, g, Reading)
    ensures Reachable(w, Collects(s, g, s.collectors[g].(phase := Scanning, listing := s.disk.shelf.manifests.Keys)))
  {
    Next(w, s, GcList(g));
  }

  lemma LoadOn(w: World, s: System, g: string, o: string, fails: bool)
    requires Reachable(w, s) && In(s, g, Scanning)
    requires var c := s.collectors[g]; o in c.listing && o !in c.seen && o !in c.invalid && o !in c.gone
    ensures Reachable(w, Collects(s, g, Loaded(s, s.collectors[g], o, fails)))
  {
    Next(w, s, GcLoad(g, o, fails));
  }

  lemma DecideOn(w: World, s: System, g: string)
    requires Reachable(w, s) && In(s, g, Scanning)
    requires var c := s.collectors[g]; forall o :: o in c.listing ==> o in c.seen || o in c.invalid || o in c.gone
    ensures Reachable(w, Collects(s, g, Decided(s.collectors[g], {})))
  {
    Next(w, s, GcDecide(g, {}));
  }

  lemma UnlinkOn(w: World, s: System, g: string)
    requires Reachable(w, s) && In(s, g, Unlinking) && s.collectors[g].holding.Some?
    requires s.collectors[g].holding.value in s.disk.shelf.manifests
    ensures Reachable(w, Unlinked(s, g))
  {
    Next(w, s, GcUnlink(g));
  }

  lemma SweepOn(w: World, s: System, g: string)
    requires Reachable(w, s) && In(s, g, Unlinking) && s.collectors[g].holding.None? && s.collectors[g].pending == {}
    ensures Reachable(w, Collects(s, g, s.collectors[g].(phase := Deleting)))
  {
    Next(w, s, GcSweep(g));
  }

  lemma DeleteOn(w: World, s: System, g: string, r: string)
    requires Reachable(w, s) && In(s, g, Deleting) && r in s.collectors[g].doomed
    ensures Reachable(w, Collects(OnDisk(s, s.disk.(runs := s.disk.runs - {r})), g,
                                  s.collectors[g].(doomed := s.collectors[g].doomed - {r})))
  {
    Next(w, s, GcDelete(g, r));
  }

  /** A collector that keeps runs for a week, some days after the week. */
  const WEEKLY := Age(700000.0, 604800.0)

  // ----------------------------------------------------------------- a batch starts

  ghost predicate AllNew(d: Disk, o: string) {
    forall r :: r in d.runs ==>
      d.runs[r].status == Accepted && !CancelRequested(d.runs[r]) && d.runs[r].origin.orchestrationId == o
  }

  ghost predicate AllExpired(d: Disk) {
    forall r :: r in d.runs ==> Expired(d.runs[r], WEEKLY)
  }

  /** The batch whose members may be created now. */
  ghost predicate Enrolling(w: World, s: System, o: string, plan: BatchPlan) {
    && o == IdOf(w, BatchFor(w, plan)) && o in s.disk.shelf.manifests && !Held(s, o) && Startable(w, plan) && Presentable(w)
    && var m := s.disk.shelf.manifests[o];
       m.plan == plan && m.members == MembersOf(w.ids, o, plan) && Readable(m) && Tombstoned(w.ids, s.disk.shelf, m)
  }

  function OnlyRuns(s: System, t: System): System {
    OnDisk(s, s.disk.(runs := t.disk.runs, born := t.disk.born))
  }

  /** Only members of this batch have runs, and its first `k` members have one. */
  ghost predicate MembersStarted(w: World, s: System, t: System, o: string, plan: BatchPlan, k: nat) {
    && Reachable(w, t) && t == OnlyRuns(s, t) && AllNew(t.disk, o) && t.disk.runs.Keys <= t.disk.born
    && forall i :: 0 <= i < k ==> RunOf(w, plan, i) in t.disk.runs
  }

  /** Its first `k` members are created, in order. */
  lemma {:induction false} MembersStart(w: World, s: System, o: string, plan: BatchPlan, k: nat, at: real) returns (t: System)
    requires Reachable(w, s) && Enrolling(w, s, o, plan) && s.disk.runs == map[] && k <= |plan.members|
    ensures MembersStarted(w, s, t, o, plan, k)
    decreases k
  {
    if k == 0 {
      t := s;
    } else {
      var before := MembersStart(w, s, o, plan, k - 1, at);
      EnrollingStays(w, s, before, o, plan);
      t := NextMemberStarts(w, before, o, plan, k - 1, at);
    }
  }

  lemma EnrollingStays(w: World, s: System, t: System, o: string, plan: BatchPlan)
    requires Enrolling(w, s, o, plan) && t == OnlyRuns(s, t)
    ensures Enrolling(w, t, o, plan)
  {
    assert !Held(s, o) && t.collectors == s.collectors;
  }

  lemma MemberMayStart(w: World, s: System, o: string, plan: BatchPlan, k: nat)
    requires Enrolling(w, s, o, plan) && k < |plan.members| && forall i :: 0 <= i < k ==> RunOf(w, plan, i) in s.disk.born
    ensures MayEnsure(w, s.disk, o, k) && s.disk.shelf.manifests[o].members[k].runId == RunOf(w, plan, k)
  {
    var m := s.disk.shelf.manifests[o];
    forall x | 0 <= x < |m.members| ensures m.members[x].runId == RunOf(w, plan, x) {
    }
  }

  lemma NextMemberStarts(w: World, s: System, o: string, plan: BatchPlan, k: nat, at: real) returns (t: System)
    requires Reachable(w, s) && Enrolling(w, s, o, plan) && k < |plan.members| && AllNew(s.disk, o)
    requires s.disk.runs.Keys <= s.disk.born && forall i :: 0 <= i < k ==> RunOf(w, plan, i) in s.disk.runs
    ensures MembersStarted(w, s, t, o, plan, k + 1)
  {
    var ensure := EnsureMember(o, k, at);
    MemberMayStart(w, s, o, plan, k);
    MemberIsNew(w, s.disk, o, k, at);
    Next(w, s, ensure);
    t := Do(w, s, ensure);
  }

  lemma MemberIsNew(w: World, d: Disk, o: string, index: nat, at: real)
    requires MayEnsure(w, d, o, index) && AllNew(d, o) && d.runs.Keys <= d.born
    ensures var e := WithMember(w, d, o, index, at);
      && AllNew(e, o) && e == d.(runs := e.runs, born := e.born) && d.runs.Keys <= e.runs.Keys && d.born <= e.born
      && e.runs.Keys <= e.born && d.shelf.manifests[o].members[index].runId in e.runs && d.shelf.manifests[o].members[index].runId in e.born
  {
  }

  /** The batch writes its manifest and binds its tombstone. */
  lemma BatchEnrols(w: World, s: System, plan: BatchPlan, at: real) returns (t: System)
    requires Reachable(w, s) && MayCreate(w.ids, s.disk.shelf, plan) && Startable(w, plan) && Presentable(w) && at > 0.0
    requires forall o :: !Held(s, o)
    ensures Reachable(w, t) && Enrolling(w, t, IdOf(w, BatchFor(w, plan)), plan) && t == OnDisk(s, s.disk.(shelf := t.disk.shelf))
    ensures var m := NewManifest(w.ids, plan, at);
      && t.disk.shelf.manifests == s.disk.shelf.manifests[m.orchestrationId := m]
      && t.disk.shelf.tombs == s.disk.shelf.tombs[TombKey(w.ids, plan.requestId) := TombstoneOf(m)]
  {
    var m := NewManifest(w.ids, plan, at);
    Next(w, s, CreateManifest(plan, at));
    var u := Do(w, s, CreateManifest(plan, at));
    Next(w, u, BindTombstoneOf(m.orchestrationId));
    t := Do(w, u, BindTombstoneOf(m.orchestrationId));
    assert t.collectors == s.collectors && !Held(s, m.orchestrationId);
  }

  // ------------------------------------------------------------ its runs are cancelled

  lemma CancelledRunExpires(r: RunRecord)
    requires r.status == Accepted && !CancelRequested(r)
    ensures var s := After(r, Event(RequestCancelOp(""), 2.0)); Expired(s, WEEKLY) && s.origin == r.origin
  {
  }

  lemma {:induction false} RunsAreCancelled(w: World, s: System, todo: set<string>) returns (t: System)
    requires Reachable(w, s) && todo <= s.disk.runs.Keys
    requires forall r :: r in todo ==> s.disk.runs[r].status == Accepted && !CancelRequested(s.disk.runs[r])
    requires forall r :: r in s.disk.runs && r !in todo ==> Expired(s.disk.runs[r], WEEKLY)
    ensures Reachable(w, t) && t == OnDisk(s, s.disk.(runs := t.disk.runs)) && AllExpired(t.disk)
    ensures t.disk.runs.Keys == s.disk.runs.Keys
    ensures forall r :: r in s.disk.runs ==> t.disk.runs[r].origin == s.disk.runs[r].origin
    decreases todo
  {
    if r :| r in todo {
      var cancel := RunEvent(r, Event(RequestCancelOp(""), 2.0));
      CancelledRunExpires(s.disk.runs[r]);
      Next(w, s, cancel);
      t := RunsAreCancelled(w, Do(w, s, cancel), todo - {r});
    } else {
      t := s;
    }
  }

  // ------------------------------------------------------------- a collector's pass

  lemma {:induction false} CollectorReads(w: World, s: System, g: string, todo: set<string>)
    requires Reachable(w, s) && In(s, g, Reading) && todo <= s.disk.runs.Keys
    requires var c := s.collectors[g]; c.snapshot == s.disk.runs - todo
    ensures Reachable(w, Collects(s, g, s.collectors[g].(snapshot := s.disk.runs)))
    decreases todo
  {
    var c := s.collectors[g];
    if r :| r in todo {
      var next := c.(snapshot := c.snapshot[r := s.disk.runs[r]]);
      ReadOn(w, s, g, r);
      assert next.snapshot == s.disk.runs - (todo - {r});
      CollectorReads(w, Collects(s, g, next), g, todo - {r});
      assert s.collectors[g := next][g := next.(snapshot := s.disk.runs)] == s.collectors[g := c.(snapshot := s.disk.runs)];
    } else {
      assert c.snapshot == s.disk.runs && s.collectors[g := c] == s.collectors;
    }
  }

  /** It has read every run and listed every manifest. */
  function Lister(d: Disk): Collector {
    NewCollector(WEEKLY).(phase := Scanning, snapshot := d.runs, listing := d.shelf.manifests.Keys)
  }

  lemma CollectorLists(w: World, s: System, g: string)
    requires Reachable(w, s) && g !in s.collectors
    ensures Reachable(w, Collects(s, g, Lister(s.disk)))
  {
    var c := NewCollector(WEEKLY);
    StartOn(w, s, g, WEEKLY);
    assert s.disk.runs - s.disk.runs.Keys == map[];
    CollectorReads(w, Collects(s, g, c), g, s.disk.runs.Keys);
    var read := c.(snapshot := s.disk.runs);
    assert s.collectors[g := c][g := read] == s.collectors[g := read];
    ListOn(w, Collects(s, g, read), g);
    assert s.collectors[g := read][g := Lister(s.disk)] == s.collectors[g := Lister(s.disk)];
  }

  /** It found no manifest and is about to delete every run it read. */
  function Doomer(runs: map<string, RunRecord>): Collector {
    NewCollector(WEEKLY).(phase := Deleting, snapshot := runs, doomed := runs.Keys)
  }

  lemma OrphansAreDoomed(d: Disk)
    requires d.shelf.manifests == map[] && AllExpired(d)
    ensures Decided(Lister(d), {}).(phase := Deleting) == Doomer(d.runs)
  {
    var sv := SurveyOf(Lister(d), {});
    forall r | r in d.runs ensures Removable(sv, r) {
      assert Expired(d.runs[r], WEEKLY) && Loose(sv, r);
    }
    assert Decided(Lister(d), {}).doomed == d.runs.Keys && Decided(Lister(d), {}).pending == {};
  }

  lemma CollectorDecides(w: World, s: System, g: string)
    requires Reachable(w, s) && g !in s.collectors && s.disk.shelf.manifests == map[]
    ensures Reachable(w, Collects(s, g, Decided(Lister(s.disk), {})))
  {
    var c := Lister(s.disk);
    CollectorLists(w, s, g);
    assert c.listing == {};
    DecideOn(w, Collects(s, g, c), g);
    assert s.collectors[g := c][g := Decided(c, {})] == s.collectors[g := Decided(c, {})];
  }

  lemma CollectorDooms(w: World, s: System, g: string)
    requires Reachable(w, s) && g !in s.collectors && s.disk.shelf.manifests == map[] && AllExpired(s.disk)
    ensures Reachable(w, Collects(s, g, Doomer(s.disk.runs)))
  {
    var decided := Decided(Lister(s.disk), {});
    CollectorDecides(w, s, g);
    OrphansAreDoomed(s.disk);
    SweepOn(w, Collects(s, g, decided), g);
    assert s.collectors[g := decided][g := Doomer(s.disk.runs)] == s.collectors[g := Doomer(s.disk.runs)];
  }

  /** A collector deletes everything it doomed. */
  lemma {:induction false} CollectorDeletes(w: World, s: System, g: string) returns (t: System)
    requires Reachable(w, s) && In(s, g, Deleting) && s.collectors[g].doomed == s.disk.runs.Keys
    ensures Reachable(w, t) && t.disk == s.disk.(runs := map[])
    ensures t.collectors == s.collectors[g := s.collectors[g].(doomed := {})]
    decreases s.disk.runs.Keys
  {
    var c := s.collectors[g];
    if r :| r in s.disk.runs {
      var next := Collects(OnDisk(s, s.disk.(runs := s.disk.runs - {r})), g, c.(doomed := c.doomed - {r}));
      DeleteOn(w, s, g, r);
      assert next.disk.runs.Keys == s.disk.runs.Keys - {r};
      t := CollectorDeletes(w, next, g);
      assert next.collectors[g := next.collectors[g].(doomed := {})] == s.collectors[g := c.(doomed := {})];
    } else {
      t := s;
      assert c == c.(doomed := {}) && s.collectors == s.collectors[g := c];
    }
  }

  // ----------------------------------------------------------- what can go wrong then

  /** The collector `g` is about to delete a run that is new and listed. */
  ghost predicate Lost(w: World, t: System, g: string, r: string) {
    && Reachable(w, t) && Enabled(w, t, GcDelete(g, r))
    && r in t.disk.runs && t.disk.runs[r].status == Accepted
    && !Unlisted(t.disk, r)
  }

  /** Two collectors doom the same runs, which no manifest lists, and one of them
      deletes these runs. */
  lemma RunsAreDoomedTwice(w: World, s: System) returns (t: System)
    requires Reachable(w, s) && s.collectors == map[] && s.disk.shelf.manifests == map[] && AllExpired(s.disk)
    ensures Reachable(w, t) && t.disk == s.disk.(runs := map[])
    ensures t.collectors == map["g" := Doomer(s.disk.runs), "h" := Doomer(s.disk.runs).(doomed := {})]
  {
    var c, done := Doomer(s.disk.runs), Doomer(s.disk.runs).(doomed := {});
    CollectorDooms(w, s, "g");
    CollectorDooms(w, Collects(s, "g", c), "h");
    t := CollectorDeletes(w, Collects(Collects(s, "g", c), "h", c), "h");
    assert t.collectors == map["g" := c, "h" := done];
  }

  /** A batch starts then and creates one of them anew, while the other collector is
      still to delete it. */
  lemma BatchLosesItsRun(w: World, s: System, plan: BatchPlan, i: nat, r: string) returns (t: System)
    requires Reachable(w, s) && s.collectors == map[] && s.disk.shelf.manifests == map[] && AllExpired(s.disk)
    requires Startable(w, plan) && Presentable(w) && i < |plan.members| && RunOf(w, plan, i) == r && r in s.disk.runs
    requires TombKey(w.ids, plan.requestId) !in s.disk.shelf.tombs
    ensures Lost(w, t, "g", r)
  {
    var gone := RunsAreDoomedTwice(w, s);
    NobodyHolds(gone, s.disk.runs);
    var enrolled := BatchEnrols(w, gone, plan, 700001.0);
    var o := IdOf(w, BatchFor(w, plan));
    t := MembersStart(w, enrolled, o, plan, |plan.members|, 700001.0);
    NewManifestLists(w, plan, 700001.0, i);
    ItIsLost(w, t, o, s.disk.runs, r);
  }

  lemma ItIsLost(w: World, t: System, o: string, runs: map<string, RunRecord>, r: string)
    requires Reachable(w, t) && "g" in t.collectors && t.collectors["g"] == Doomer(runs) && r in runs
    requires AllNew(t.disk, o) && r in t.disk.runs
    requires o in t.disk.shelf.manifests && GarbageCollection.Lists(t.disk.shelf.manifests[o], r)
    ensures Lost(w, t, "g", r)
  {
  }

  lemma NobodyHolds(s: System, runs: map<string, RunRecord>)
    requires s.collectors == map["g" := Doomer(runs), "h" := Doomer(runs).(doomed := {})]
    ensures forall o :: !Held(s, o)
  {
  }

  lemma NewManifestLists(w: World, plan: BatchPlan, at: real, i: nat)
    requires i < |plan.members|
    ensures GarbageCollection.Lists(NewManifest(w.ids, plan, at), RunOf(w, plan, i))
  {
    assert NewManifest(w.ids, plan, at).members[i].runId == RunOf(w, plan, i);
  }

  // ------------------------------------------------- a batch that ran and is collected

  /** The collector cannot read these manifests. */
  lemma {:induction false} CollectorFailsToLoad(w: World, s: System, g: string, todo: set<string>)
    requires Reachable(w, s) && In(s, g, Scanning) && todo <= s.collectors[g].listing
    requires var c := s.collectors[g]; todo !! c.seen.Keys && todo !! c.invalid && todo !! c.gone
    ensures Reachable(w, Collects(s, g, s.collectors[g].(invalid := s.collectors[g].invalid + todo)))
    decreases todo
  {
    var c := s.collectors[g];
    if o :| o in todo {
      var next := c.(invalid := c.invalid + {o});
      LoadOn(w, s, g, o, true);
      CollectorFailsToLoad(w, Collects(s, g, next), g, todo - {o});
      assert next.invalid + (todo - {o}) == c.invalid + todo;
      assert s.collectors[g := next][g := c.(invalid := c.invalid + todo)] == s.collectors[g := c.(invalid := c.invalid + todo)];
    } else {
      assert c.invalid + todo == c.invalid && s.collectors[g := c] == s.collectors;
    }
  }

  /** The disk of a batch whose members have all finished; nothing else ran. */
  ghost predicate Finished(w: World, d: Disk, o: string, plan: BatchPlan) {
    && o == IdOf(w, BatchFor(w, plan)) && o in d.shelf.manifests && d.shelf.manifests[o] == NewManifest(w.ids, plan, 1.0)
    && d.shelf.tombs == map[TombKey(w.ids, plan.requestId) := TombstoneOf(d.shelf.manifests[o])]
    && AllExpired(d) && (forall r :: r in d.runs ==> d.runs[r].origin.orchestrationId == o)
    && (forall i :: 0 <= i < |plan.members| ==> RunOf(w, plan, i) in d.runs)
  }

  /** The collector that could read this manifest alone. */
  function Reader(d: Disk, o: string): Collector
    requires o in d.shelf.manifests
  {
    Lister(d).(seen := map[o := d.shelf.manifests[o]], invalid := d.shelf.manifests.Keys - {o})
  }

  /** And that has chosen it, with all its runs. */
  function Chooser(d: Disk, o: string): Collector
    requires o in d.shelf.manifests
  {
    Reader(d, o).(phase := Unlinking, pending := {o}, doomed := d.runs.Keys)
  }

  lemma FinishedBatchIsChosen(w: World, d: Disk, o: string, plan: BatchPlan)
    requires Finished(w, d, o, plan)
    ensures Decided(Reader(d, o), {}) == Chooser(d, o)
  {
    var sv, m := SurveyOf(Reader(d, o), {}), d.shelf.manifests[o];
    assert Candidate(sv, m);
    forall r | r in d.runs ensures Removable(sv, r) {
      assert Expired(d.runs[r], WEEKLY) && Loose(sv, r);
      forall x | x in d.runs ensures Loose(sv, x) {
        assert Expired(d.runs[x], WEEKLY);
      }
      assert AllLoose(sv, m);
    }
    assert RunOf(w, plan, 0) in d.runs || |plan.members| == 0;
    assert AllLoose(sv, m) by {
      forall x | x in d.runs ensures Loose(sv, x) {
        assert Expired(d.runs[x], WEEKLY);
      }
    }
    assert Chosen(sv, o);
    assert Decided(Reader(d, o), {}).pending == {o} && Decided(Reader(d, o), {}).doomed == d.runs.Keys;
  }

  lemma BatchFinishes(w: World, s: System, plan: BatchPlan) returns (t: System)
    requires Reachable(w, s) && s.collectors == map[] && s.disk.runs == map[] && s.disk.shelf.tombs == map[]
    requires MayCreate(w.ids, s.disk.shelf, plan) && Startable(w, plan) && Presentable(w)
    ensures var o := IdOf(w, BatchFor(w, plan));
      && Reachable(w, t) && Finished(w, t.disk, o, plan) && t.collectors == map[]
      && t.disk.shelf.manifests == s.disk.shelf.manifests[o := NewManifest(w.ids, plan, 1.0)]
  {
    var o := IdOf(w, BatchFor(w, plan));
    var enrolled := BatchEnrols(w, s, plan, 1.0);
    var started := MembersStart(w, enrolled, o, plan, |plan.members|, 1.0);
    t := RunsAreCancelled(w, started, started.disk.runs.Keys);
  }

  lemma CollectorReadsNoOther(w: World, s: System, o: string)
    requires Reachable(w, s) && s.collectors == map[] && o in s.disk.shelf.manifests
    ensures Reachable(w, System(s.disk, map["c" := Lister(s.disk).(invalid := s.disk.shelf.manifests.Keys - {o})]))
  {
    var c, others := Lister(s.disk), s.disk.shelf.manifests.Keys - {o};
    CollectorLists(w, s, "c");
    assert Collects(s, "c", c) == System(s.disk, map["c" := c]);
    CollectorFailsToLoad(w, System(s.disk, map["c" := c]), "c", others);
    assert {} + others == others;
    var failed := c.(invalid := others);
    assert Collects(System(s.disk, map["c" := c]), "c", failed) == System(s.disk, map["c" := failed]);
  }

  lemma ReaderLoads(d: Disk, o: string)
    requires o in d.shelf.manifests && Readable(d.shelf.manifests[o])
    ensures var failed := Lister(d).(invalid := d.shelf.manifests.Keys - {o});
      Loaded(System(d, map["c" := failed]), failed, o, false) == Reader(d, o)
  {
  }

  lemma CollectorLoads(w: World, s: System, o: string)
    requires Reachable(w, s) && s.collectors == map[] && o in s.disk.shelf.manifests && Readable(s.disk.shelf.manifests[o])
    ensures Reachable(w, System(s.disk, map["c" := Reader(s.disk, o)]))
  {
    var failed := Lister(s.disk).(invalid := s.disk.shelf.manifests.Keys - {o});
    CollectorReadsNoOther(w, s, o);
    LoadOn(w, System(s.disk, map["c" := failed]), "c", o, false);
    ReaderLoads(s.disk, o);
    assert map["c" := failed]["c" := Reader(s.disk, o)] == map["c" := Reader(s.disk, o)];
  }

  lemma CollectorChooses(w: World, s: System, o: string, plan: BatchPlan)
    requires Reachable(w, s) && s.collectors == map[] && Finished(w, s.disk, o, plan)
    ensures Reachable(w, System(s.disk, map["c" := Chooser(s.disk, o)]))
  {
    CollectorLoads(w, s, o);
    DecideOn(w, System(s.disk, map["c" := Reader(s.disk, o)]), "c");
    FinishedBatchIsChosen(w, s.disk, o, plan);
    assert map["c" := Reader(s.disk, o)]["c" := Chooser(s.disk, o)] == map["c" := Chooser(s.disk, o)];
  }

  lemma ChooserPasses(w: World, s: System, o: string, plan: BatchPlan)
    requires Finished(w, s.disk, o, plan) && s.collectors == map["c" := Chooser(s.disk, o)]
    ensures Passes(w, s, Chooser(s.disk, o), o, {}) && Bound(w.ids, s.disk.shelf, s.disk.shelf.manifests[o]) == s.disk.shelf
  {
    var m := s.disk.shelf.manifests[o];
    assert Visible(s.disk.runs, {}) == s.disk.runs;
    assert StillRemovable(m, m, s.disk.runs, WEEKLY);
  }

  /** The one collector is about to delete all runs. */
  predicate Sweeps(t: System) {
    t.collectors.Keys == {"c"} && In(t, "c", Deleting) && t.collectors["c"].doomed == t.disk.runs.Keys
  }

  /** The collector re-checks the batch, unlinks it, and turns to its runs. */
  lemma BatchIsUnlinked(w: World, s: System, o: string, plan: BatchPlan) returns (t: System)
    requires Reachable(w, s) && Finished(w, s.disk, o, plan) && s.collectors == map["c" := Chooser(s.disk, o)]
    ensures Reachable(w, t) && t.disk == s.disk.(shelf := s.disk.shelf.(manifests := s.disk.shelf.manifests - {o}))
    ensures Sweeps(t)
  {
    ChooserPasses(w, s, o, plan);
    Next(w, s, GcExamine("c", o, {}));
    var held := System(s.disk, map["c" := Chooser(s.disk, o).(holding := Some(o))]);
    assert Do(w, s, GcExamine("c", o, {})) == held;
    UnlinkOn(w, held, "c");
    var unlinked := Unlinked(held, "c");
    SweepOn(w, unlinked, "c");
    t := Collects(unlinked, "c", unlinked.collectors["c"].(phase := Deleting));
  }

  /** Whichever other manifests there are, as long as the collector cannot read them. */
  lemma BatchIsCollected(w: World, s: System, plan: BatchPlan) returns (t: System)
    requires Reachable(w, s) && s.collectors == map[] && s.disk.runs == map[] && s.disk.shelf.tombs == map[]
    requires MayCreate(w.ids, s.disk.shelf, plan) && Startable(w, plan) && Presentable(w)
    ensures Reachable(w, t) && t.disk.shelf.manifests == s.disk.shelf.manifests
    ensures t.disk.shelf.tombs.Keys == {TombKey(w.ids, plan.requestId)} && AllExpired(t.disk)
    ensures forall i :: 0 <= i < |plan.members| ==> RunOf(w, plan, i) in t.disk.runs
    ensures Sweeps(t)
  {
    var o := IdOf(w, BatchFor(w, plan));
    var done := BatchFinishes(w, s, plan);
    CollectorChooses(w, done, o, plan);
    t := BatchIsUnlinked(w, System(done.disk, map["c" := Chooser(done.disk, o)]), o, plan);
    assert s.disk.shelf.manifests[o := NewManifest(w.ids, plan, 1.0)] - {o} == s.disk.shelf.manifests;
  }

  // --------------------------------------------------------------- the main claim

  lemma CollisionLosesALiveRun(w: World, a: BatchPlan, i: nat, b: BatchPlan, j: nat) returns (t: System)
    requires Collide(w, a, i, b, j) && Presentable(w)
    ensures Lost(w, t, "g", RunOf(w, b, j))
  {
    assert Leads(w, EMPTY, [], EMPTY);
    var collected := BatchIsCollected(w, EMPTY, a);
    Next(w, collected, GcCrash("c"));
    var s := Do(w, collected, GcCrash("c"));
    assert s.collectors == map[];
    t := BatchLosesItsRun(w, s, b, j, RunOf(w, b, j));
  }

  lemma DrawLosesALiveRun(w: World, a: BatchPlan, i: nat) returns (t: System)
    requires IsDrawn(w, a, i) && Presentable(w)
    ensures Lost(w, t, "g", RunOf(w, a, i))
  {
    var r := RunOf(w, a, i);
    assert Leads(w, EMPTY, [], EMPTY);
    Next(w, EMPTY, StandaloneRun(r, 1.0));
    var s := Do(w, EMPTY, StandaloneRun(r, 1.0));
    var u := RunsAreCancelled(w, s, {r});
    t := BatchLosesItsRun(w, u, a, i, r);
  }

  /** Whenever plans clash, some schedule ends with a collector about to delete a
      run that is both unfinished and listed. */
  lemma ClashLosesALiveRun(w: World) returns (steps: seq<Step>, g: string, r: string)
    requires Clash(w) && Presentable(w)
    ensures DeletesUnfinished(w, steps, g, r) && DeletesListed(w, steps, g, r)
  {
    var t: System;
    if a, i, b, j :| Collide(w, a, i, b, j) {
      r := RunOf(w, b, j);
      t := CollisionLosesALiveRun(w, a, i, b, j);
    } else {
      var a, i :| IsDrawn(w, a, i);
      r := RunOf(w, a, i);
      t := DrawLosesALiveRun(w, a, i);
    }
    g := "g";
    steps :| Leads(w, EMPTY, steps, t);
  }

  lemma ManifestIsLeft(w: World, a: BatchPlan) returns (s: System)
    requires Startable(w, a)
    ensures Reachable(w, s)
    ensures s == System(Disk(Shelf(map[IdOf(w, BatchFor(w, a)) := NewManifest(w.ids, a, 1.0)], map[]), map[], {}, {}), map[])
  {
    assert Leads(w, EMPTY, [], EMPTY);
    Next(w, EMPTY, CreateManifest(a, 1.0));
    s := Do(w, EMPTY, CreateManifest(a, 1.0));
  }

  /** A batch that shares its tombstone's file with another gets as far as its
      manifest; the other runs, finishes and is collected by a collector that failed
      to read this manifest, which lists the run that is deleted then. */
  lemma ShadowLosesAListedRun(w: World, a: BatchPlan, i: nat, b: BatchPlan, j: nat)
    returns (steps: seq<Step>, g: string, r: string)
    requires Shadow(w, a, i, b, j) && Presentable(w)
    ensures DeletesListed(w, steps, g, r)
  {
    var s := ManifestIsLeft(w, a);
    var t := BatchIsCollected(w, s, b);
    g, r := "c", RunOf(w, b, j);
    NewManifestLists(w, a, 1.0, i);
    assert t.disk.shelf.manifests[IdOf(w, BatchFor(w, a))] == NewManifest(w.ids, a, 1.0);
    steps :| Leads(w, EMPTY, steps, t);
  }

  lemma WithoutClashNothingIsLost(w: World, steps: seq<Step>, g: string, r: string)
    requires !Clash(w)
    ensures !DeletesUnfinished(w, steps, g, r)
  {
    if DeletesUnfinished(w, steps, g, r) {
      CollectorDeletesOnlyFinishedRuns(w, steps, g, r);
      assert false;
    }
  }

  lemma WithoutClashNothingListedIsLost(w: World, steps: seq<Step>, g: string, r: string)
    requires !ListingClash(w)
    ensures !DeletesListed(w, steps, g, r)
  {
    if Runnable(w, EMPTY, steps) && Enabled(w, Reached(w, EMPTY, steps), GcDelete(g, r)) {
      CollectorDeletesOnlyUnlistedRuns(w, steps, g, r);
    }
  }

  /** Collection is safe exactly when no plans clash: then, and only then, no
      schedule of starts, cancellations, runs of no batch, run transitions, crashes
      and collectors deletes an unfinished run. Listed runs are deleted, besides,
      where two plans share a run id and their tombstones' file. */
  lemma CollectionIsSafeExactlyWhen(w: World)
    requires Presentable(w)
    ensures (exists steps, g, r :: DeletesUnfinished(w, steps, g, r)) <==> Clash(w)
    ensures (exists steps, g, r :: DeletesListed(w, steps, g, r)) <==> ListingClash(w)
  {
    forall steps, g, r ensures DeletesUnfinished(w, steps, g, r) ==> Clash(w) {
      if !Clash(w) {
        WithoutClashNothingIsLost(w, steps, g, r);
      }
    }
    forall steps, g, r ensures DeletesListed(w, steps, g, r) ==> ListingClash(w) {
      if !ListingClash(w) {
        WithoutClashNothingListedIsLost(w, steps, g, r);
      }
    }
    if Clash(w) {
      var steps, g, r := ClashLosesALiveRun(w);
    } else if a, i, b, j :| Shadow(w, a, i, b, j) {
      var steps, g, r := ShadowLosesAListedRun(w, a, i, b, j);
    }
  }

  // -------------------------------------------------------- the store's own world

  function TextOf(j: Json): string {
    if j.JStr? then j.text else ""
  }

  /** What a batch start creates a member's run with. */
  function MemberOrigin(out: Outside, plan: BatchPlan, i: nat): Origin
    requires i < |plan.members|
  {
    var m := plan.members[i];
    Origin(TextOf(Get(m.contract, "mode")), out.canonical(m.contract), plan.projectRoot, m.backend,
           OrchestrationIdFor(out, plan.requestId, PlanSha256(out, plan)), m.roleId, "", m.contextSha256,
           if m.baseHead.Some? then m.baseHead.value else "",
           out.sha256(out.canonical(ProfileMapping(m.profile).fields)), m.profile)
  }

  /** The plans the planner can construct, with the ids the store derives. */
  ghost function StoreWorld(out: Outside, batches: set<Batch>, draws: map<string, Origin>): World {
    World(plan => ConstructiblePlan(out, plan),
          (plan: BatchPlan, i: nat) => if i < |plan.members| then MemberOrigin(out, plan, i)
                                       else Origin("", "", "", "", "", "", "", "", "", "", map[]),
          IdsFrom(out), batches, draws)
  }

  /** An edit, and only an edit, is planned on a base head. */
  lemma HeadMeansEdit(out: Outside, m: BatchMemberPlan)
    requires NormalMember(out, m) && m.baseHead.Some?
    ensures TextOf(Get(m.contract, "mode")) == "edit" && IsGitHead(m.baseHead.value)
  {
    var task := StrictTaskContract(out, JObj(m.contract)).value;
    assert Get(m.contract, "mode") == JStr(task.mode);
  }

  lemma MemberOriginIsValid(out: Outside, plan: BatchPlan, i: nat)
    requires Settled(out) && ConstructiblePlan(out, plan) && i < |plan.members|
    ensures ValidOrigin(MemberOrigin(out, plan, i))
  {
    var m := plan.members[i];
    MemberRoundTrip(out, m);
    DerivedIdsAreWellFormed(out, plan.requestId, PlanSha256(out, plan), "", 0);
    if m.baseHead.Some? {
      HeadMeansEdit(out, m);
    }
    assert IsSha256(MemberOrigin(out, plan, i).profileSha256);
  }

  lemma StoreIsPresentable(out: Outside, batches: set<Batch>, draws: map<string, Origin>)
    requires Settled(out) && forall r :: r in draws ==> ValidOrigin(draws[r]) && draws[r].orchestrationId == ""
    ensures Presentable(StoreWorld(out, batches, draws))
  {
    var w := StoreWorld(out, batches, draws);
    forall plan, i: nat | Startable(w, plan) && i < |plan.members|
      ensures ValidOrigin(w.origins(plan, i)) && w.origins(plan, i).orchestrationId == IdOf(w, BatchFor(w, plan))
    {
      MemberOriginIsValid(out, plan, i);
    }
  }

  /** So it is for the store itself, whose ids are abbreviated digests: safe exactly
      when no two of the plans that are started, and no plan and a run of no batch,
      come to one run id. */
  lemma StoreCollectionIsSafeExactlyWhen(out: Outside, batches: set<Batch>, draws: map<string, Origin>)
    requires Settled(out) && forall r :: r in draws ==> ValidOrigin(draws[r]) && draws[r].orchestrationId == ""
    ensures var w := StoreWorld(out, batches, draws);
      && ((exists steps, g, r :: DeletesUnfinished(w, steps, g, r)) <==> Clash(w))
      && ((exists steps, g, r :: DeletesListed(w, steps, g, r)) <==> ListingClash(w))
  {
    StoreIsPresentable(out, batches, draws);
    CollectionIsSafeExactlyWhen(StoreWorld(out, batches, draws));
  }
}
