/** How old things are that a collector takes, in clock readings: what it selects,
    what it has to select, and what its age limit comes to while others act. */
module CollectionAges {
  import opened Common
  import opened BatchPlans
  import opened Manifests
  import opened RunRecords
  import opened Orchestrations
  import opened GarbageCollection
  import opened BatchProtocol
  import opened BatchCollisions

  predicate Over(r: RunRecord) {
    r.status in {Completed, Failed, Timeout, Cancelled}
  }

  /** This manifest lists the run. */
  predicate Names(m: Manifest, runId: string) {
    exists i :: 0 <= i < |m.members| && m.members[i].runId == runId
  }

  // ------------------------------------------------------------- one selection

  /** Nothing is selected before it is `maxAge` old, nor any run that is not over,
      nor a batch with a readable member that is not. */
  lemma SelectedIsOld(sv: Survey, runId: string, o: string)
    ensures Removable(sv, runId) ==>
      && runId in sv.snapshot && Over(sv.snapshot[runId])
      && sv.age.now - sv.snapshot[runId].updatedAt >= sv.age.maxAge
    ensures GarbageCollection.Chosen(sv, o) ==>
      && o in sv.seen && sv.age.now - sv.seen[o].updatedAt >= sv.age.maxAge
      && forall i :: 0 <= i < |sv.seen[o].members| && sv.seen[o].members[i].runId in sv.snapshot ==>
           && Over(sv.snapshot[sv.seen[o].members[i].runId])
           && sv.age.now - sv.snapshot[sv.seen[o].members[i].runId].updatedAt >= sv.age.maxAge
  {
  }

  /** A run that no manifest lists is removed exactly when it is over, at least
      `maxAge` old, not of a batch whose manifest cannot be read, and not an edit
      whose worktree could not be cleaned. */
  lemma UnlistedRunGoesExactlyWhen(sv: Survey, runId: string)
    requires runId in sv.snapshot && forall o :: o in sv.seen ==> !Names(sv.seen[o], runId)
    ensures var r := sv.snapshot[runId];
      Removable(sv, runId) <==>
        && Over(r) && sv.age.now - r.updatedAt >= sv.age.maxAge
        && r.origin.orchestrationId !in sv.invalid && !(r.origin.mode == "edit" && runId in sv.stuck)
  {
    forall o | o in sv.seen ensures !GarbageCollection.Lists(sv.seen[o], runId) {
      assert !Names(sv.seen[o], runId);
    }
  }

  /** No other manifest lists a run that this one lists. */
  ghost predicate Exclusive(sv: Survey, o: string)
    requires o in sv.seen
  {
    forall x, i :: x in sv.seen && x != o && 0 <= i < |sv.seen[o].members| ==> !Names(sv.seen[x], sv.seen[o].members[i].runId)
  }

  /** Every readable member is over, at least `maxAge` old and removable by itself. */
  predicate MembersQualify(sv: Survey, m: Manifest) {
    forall i :: 0 <= i < |m.members| && m.members[i].runId in sv.snapshot ==>
      var r := sv.snapshot[m.members[i].runId];
      && Over(r) && sv.age.now - r.updatedAt >= sv.age.maxAge
      && r.origin.orchestrationId !in sv.invalid && !(r.origin.mode == "edit" && m.members[i].runId in sv.stuck)
  }

  predicate WorktreesCleaned(sv: Survey, m: Manifest) {
    forall i :: 0 <= i < |m.members| && i < |m.plan.members| && Get(m.plan.members[i].contract, "mode") == JStr("edit")
      ==> m.members[i].runId !in sv.stuck
  }

  lemma ExclusiveMemberIsLoose(sv: Survey, o: string, i: nat)
    requires o in sv.seen && Exclusive(sv, o) && Candidate(sv, sv.seen[o]) && WorktreesCleaned(sv, sv.seen[o])
    requires i < |sv.seen[o].members| && sv.seen[o].members[i].runId in sv.snapshot
    ensures var runId := sv.seen[o].members[i].runId;
      var r := sv.snapshot[runId];
      Loose(sv, runId) <==>
        && Over(r) && sv.age.now - r.updatedAt >= sv.age.maxAge
        && r.origin.orchestrationId !in sv.invalid && !(r.origin.mode == "edit" && runId in sv.stuck)
  {
    var runId := sv.seen[o].members[i].runId;
    forall x | x in sv.seen && x != o ensures !GarbageCollection.Lists(sv.seen[x], runId) {
      assert !Names(sv.seen[x], runId);
    }
    assert !EditStuck(sv, sv.seen[o]);
  }

  /** A batch whose runs no other batch lists is selected exactly when its manifest is
      at least `maxAge` old, its readable members qualify and its worktrees were
      cleaned; and then its runs go with it. */
  lemma ExclusiveBatchGoesExactlyWhen(sv: Survey, o: string)
    requires o in sv.seen && Exclusive(sv, o)
    ensures var m := sv.seen[o];
      GarbageCollection.Chosen(sv, o) <==>
        sv.age.now - m.updatedAt >= sv.age.maxAge && MembersQualify(sv, m) && WorktreesCleaned(sv, m)
    ensures GarbageCollection.Chosen(sv, o) ==>
      forall i :: 0 <= i < |sv.seen[o].members| && sv.seen[o].members[i].runId in sv.snapshot ==>
        Removable(sv, sv.seen[o].members[i].runId)
  {
    var m := sv.seen[o];
    if Candidate(sv, m) && WorktreesCleaned(sv, m) {
      forall i | 0 <= i < |m.members| && m.members[i].runId in sv.snapshot
        ensures Loose(sv, m.members[i].runId) <==>
          var r := sv.snapshot[m.members[i].runId];
          && Over(r) && sv.age.now - r.updatedAt >= sv.age.maxAge
          && r.origin.orchestrationId !in sv.invalid && !(r.origin.mode == "edit" && m.members[i].runId in sv.stuck)
      {
        ExclusiveMemberIsLoose(sv, o, i);
      }
    }
    if GarbageCollection.Chosen(sv, o) {
      forall i | 0 <= i < |m.members| && m.members[i].runId in sv.snapshot ensures Removable(sv, m.members[i].runId) {
        forall x | x in sv.seen && x != o ensures !GarbageCollection.Lists(sv.seen[x], m.members[i].runId) {
          assert !Names(sv.seen[x], m.members[i].runId);
        }
      }
    }
  }

  /** The members that can be read now are over and at least `maxAge` old. */
  predicate MembersAreOld(m: Manifest, runs: map<string, RunRecord>, unread: set<string>, age: Age) {
    forall i :: 0 <= i < |m.members| && m.members[i].runId in runs && m.members[i].runId !in unread ==>
      Over(runs[m.members[i].runId]) && age.now - runs[m.members[i].runId].updatedAt >= age.maxAge
  }

  lemma VisibleMembersAreOld(m: Manifest, runs: map<string, RunRecord>, unread: set<string>, age: Age)
    ensures MembersAreOld(m, runs, unread, age)
            <==> forall i :: 0 <= i < |m.members| && m.members[i].runId in Visible(runs, unread) ==>
                   Expired(Visible(runs, unread)[m.members[i].runId], age)
  {
  }

  /** The re-check under the locks passes exactly when the manifest is still there and
      readable, of the same request and plan and at least `maxAge` old, every member
      that can be read is over and as old, and the request's tombstone is its own, if
      there is one. */
  lemma RecheckPassesExactlyWhen(w: World, s: System, c: Collector, o: string, unread: set<string>)
    requires o in c.seen && o in s.disk.shelf.manifests
    ensures var m, tombs := s.disk.shelf.manifests[o], s.disk.shelf.tombs;
      var key := w.ids.request(m.requestId);
      BatchProtocol.Passes(w, s, c, o, unread) <==>
        && 0.0 <= m.createdAt <= m.updatedAt && c.age.now - m.updatedAt >= c.age.maxAge
        && m.requestId == c.seen[o].requestId && m.planSha256 == c.seen[o].planSha256
        && MembersAreOld(m, s.disk.runs, unread, c.age)
        && (key in tombs ==>
              && tombs[key].boundAt > 0.0 && tombs[key].requestId == m.requestId
              && tombs[key].planSha256 == m.planSha256 && tombs[key].orchestrationId == m.orchestrationId)
  {
    VisibleMembersAreOld(s.disk.shelf.manifests[o], s.disk.runs, unread, c.age);
  }

  // ------------------------------------------------------- while others act as well

  /** Everything the collector dooms was over and at least `maxAge` old when it read it. */
  ghost predicate OldWhenRead(c: Collector) {
    forall r :: r in c.doomed ==>
      && r in c.snapshot && Over(c.snapshot[r]) && c.age.now - c.snapshot[r].updatedAt >= c.age.maxAge
  }

  /** The manifest it holds under its locks is at least `maxAge` old. */
  predicate HeldIsOld(d: Disk, c: Collector) {
    c.holding.Some? ==>
      c.holding.value in d.shelf.manifests && c.age.now - d.shelf.manifests[c.holding.value].updatedAt >= c.age.maxAge
  }

  ghost predicate AgesFit(s: System) {
    && HoldsApart(s.collectors)
    && forall g :: g in s.collectors ==>
         && OldWhenRead(s.collectors[g]) && HeldIsOld(s.disk, s.collectors[g])
         && (s.collectors[g].phase in {Reading, Scanning} ==> s.collectors[g].doomed == {} && s.collectors[g].holding.None?)
  }

  lemma DecisionIsOld(c: Collector, stuck: set<string>)
    ensures OldWhenRead(Decided(c, stuck))
  {
    forall r | r in Decided(c, stuck).doomed
      ensures r in c.snapshot && Over(c.snapshot[r]) && c.age.now - c.snapshot[r].updatedAt >= c.age.maxAge
    {
      SelectedIsOld(SurveyOf(c, stuck), r, "");
    }
  }

  lemma NotHeldByAny(s: System, o: string)
    requires !Held(s, o)
    ensures forall g :: g in s.collectors ==> s.collectors[g].holding != Some(o)
  {
  }

  lemma DecideKeepsAges(w: World, s: System, g: string, stuck: set<string>)
    requires AgesFit(s) && In(s, g, Scanning)
    ensures AgesFit(Collects(s, g, Decided(s.collectors[g], stuck)))
  {
    DecisionIsOld(s.collectors[g], stuck);
  }

  lemma ExamineKeepsAges(w: World, s: System, g: string, o: string, unread: set<string>)
    requires AgesFit(s) && BatchProtocol.Enabled(w, s, GcExamine(g, o, unread))
    ensures AgesFit(BatchProtocol.Do(w, s, GcExamine(g, o, unread)))
  {
    NotHeldByAny(s, o);
    if BatchProtocol.Passes(w, s, s.collectors[g], o, unread) {
      assert s.collectors[g].age.now - s.disk.shelf.manifests[o].updatedAt >= s.collectors[g].age.maxAge;
    }
  }

  lemma ManifestStepKeepsAges(w: World, s: System, step: Step)
    requires AgesFit(s) && BatchProtocol.Enabled(w, s, step)
    requires step.CreateManifest? || step.CancelBatch? || step.GcUnlink?
    ensures AgesFit(BatchProtocol.Do(w, s, step))
  {
    if step.CancelBatch? {
      NotHeldByAny(s, step.o);
    }
  }

  lemma StepKeepsAges(w: World, s: System, step: Step)
    requires AgesFit(s) && BatchProtocol.Enabled(w, s, step)
    ensures AgesFit(BatchProtocol.Do(w, s, step))
  {
    if step.GcDecide? {
      DecideKeepsAges(w, s, step.g, step.stuck);
    } else if step.GcExamine? {
      ExamineKeepsAges(w, s, step.g, step.o, step.unread);
    } else if step.CreateManifest? || step.CancelBatch? || step.GcUnlink? {
      ManifestStepKeepsAges(w, s, step);
    } else if step.GcStart? || step.GcReadRun? || step.GcList? || step.GcLoad? {
      ReadingKeepsAges(w, s, step);
    } else if step.GcSweep? || step.GcDelete? || step.GcCrash? {
      DeletingKeepsAges(w, s, step);
    } else {
      OtherStepKeepsAges(w, s, step);
    }
  }

  lemma ReadingKeepsAges(w: World, s: System, step: Step)
    requires AgesFit(s) && BatchProtocol.Enabled(w, s, step)
    requires step.GcStart? || step.GcReadRun? || step.GcList? || step.GcLoad?
    ensures AgesFit(BatchProtocol.Do(w, s, step))
  {
  }

  lemma DeletingKeepsAges(w: World, s: System, step: Step)
    requires AgesFit(s) && BatchProtocol.Enabled(w, s, step)
    requires step.GcSweep? || step.GcDelete? || step.GcCrash?
    ensures AgesFit(BatchProtocol.Do(w, s, step))
  {
  }

  lemma OtherStepKeepsAges(w: World, s: System, step: Step)
    requires AgesFit(s) && BatchProtocol.Enabled(w, s, step)
    requires step.BindTombstoneOf? || step.EnsureMember? || step.StandaloneRun? || step.RunEvent?
    ensures AgesFit(BatchProtocol.Do(w, s, step))
  {
    assert BatchProtocol.Do(w, s, step).disk.shelf.manifests == s.disk.shelf.manifests;
  }

  lemma {:induction false} RunKeepsAges(w: World, s: System, steps: seq<Step>)
    requires AgesFit(s) && BatchProtocol.Runnable(w, s, steps)
    ensures AgesFit(BatchProtocol.Reached(w, s, steps))
    decreases |steps|
  {
    if steps != [] {
      StepKeepsAges(w, s, steps[0]);
      RunKeepsAges(w, BatchProtocol.Do(w, s, steps[0]), steps[1..]);
    }
  }

  /** Over any interleaving, clashing plans included, a manifest that is unlinked is at
      least `maxAge` old at that very moment. */
  lemma UnlinkedManifestsAreOld(w: World, steps: seq<Step>, g: string)
    requires BatchProtocol.Runnable(w, EMPTY, steps)
    requires BatchProtocol.Enabled(w, BatchProtocol.Reached(w, EMPTY, steps), GcUnlink(g))
    ensures var s := BatchProtocol.Reached(w, EMPTY, steps);
      var c := s.collectors[g];
      c.age.now - s.disk.shelf.manifests[c.holding.value].updatedAt >= c.age.maxAge
  {
    RunKeepsAges(w, EMPTY, steps);
  }

  /** Over any interleaving a run that is deleted was over and at least `maxAge` old
      when the collector read it; */
  lemma DeletedRunsWereReadAsOld(w: World, steps: seq<Step>, g: string, runId: string)
    requires BatchProtocol.Runnable(w, EMPTY, steps)
    requires BatchProtocol.Enabled(w, BatchProtocol.Reached(w, EMPTY, steps), GcDelete(g, runId))
    ensures var c := BatchProtocol.Reached(w, EMPTY, steps).collectors[g];
      && runId in c.snapshot && Over(c.snapshot[runId]) && c.age.now - c.snapshot[runId].updatedAt >= c.age.maxAge
  {
    RunKeepsAges(w, EMPTY, steps);
  }

  /** and, without a clash, it is that old still, and the very record that was read,
      unless it was written again since; even then its end is the same. */
  lemma DeletedRunsAreOldUnlessRewritten(w: World, steps: seq<Step>, g: string, runId: string)
    requires !Clash(w) && BatchProtocol.Runnable(w, EMPTY, steps)
    requires BatchProtocol.Enabled(w, BatchProtocol.Reached(w, EMPTY, steps), GcDelete(g, runId))
    requires runId in BatchProtocol.Reached(w, EMPTY, steps).disk.runs
    ensures var s := BatchProtocol.Reached(w, EMPTY, steps);
      var c, now := s.collectors[g], s.disk.runs[runId];
      && runId in c.snapshot
      && var read := c.snapshot[runId];
      && now.status == read.status
      && (now.revision == read.revision ==> now == read && c.age.now - now.updatedAt >= c.age.maxAge)
  {
    DeletedRunsWereReadAsOld(w, steps, g, runId);
    BatchProtocol.RunKeepsInv(w, EMPTY, steps);
    var s := BatchProtocol.Reached(w, EMPTY, steps);
    assert CollectorInv(w, s.disk, s.collectors[g]);
    assert Remembers(w, s.disk, runId, s.collectors[g].snapshot[runId]);
  }

  /** One run of no batch, started and cancelled long ago. */
  lemma OneRunIsOver(w: World, r: string) returns (done: System)
    requires Presentable(w) && r in w.draws
    ensures BatchCollisions.Reachable(w, done) && done.disk.shelf.manifests == map[] && done.collectors == map[]
    ensures done.disk.runs.Keys == {r} && AllExpired(done.disk)
  {
    assert BatchCollisions.Leads(w, EMPTY, [], EMPTY);
    Next(w, EMPTY, StandaloneRun(r, 1.0));
    done := RunsAreCancelled(w, BatchProtocol.Do(w, EMPTY, StandaloneRun(r, 1.0)), {r});
  }

  /** The deleting loop does not look at ages again. A finished run that is reported once
      more, with the same status, after it was read is deleted however recent that
      report is. */
  lemma RewrittenRunsAreDeletedYoung(w: World, r: string, at: real) returns (steps: seq<Step>)
    requires Presentable(w) && r in w.draws && at > 700000.0 - 604800.0
    ensures BatchProtocol.Runnable(w, EMPTY, steps)
    ensures var s := BatchProtocol.Reached(w, EMPTY, steps);
      && BatchProtocol.Enabled(w, s, GcDelete("g", r)) && r in s.disk.runs
      && s.collectors["g"].age == Age(700000.0, 604800.0)
      && s.collectors["g"].age.now - s.disk.runs[r].updatedAt < s.collectors["g"].age.maxAge
  {
    var done := OneRunIsOver(w, r);
    CollectorDooms(w, done, "g");
    var doomed := Collects(done, "g", Doomer(done.disk.runs));
    var again := RunEvent(r, Event(UpdateStatusOp(done.disk.runs[r].status, "", None, None, None, None), at));
    Next(w, doomed, again);
    var t := BatchProtocol.Do(w, doomed, again);
    steps :| BatchCollisions.Leads(w, EMPTY, steps, t);
  }
}
