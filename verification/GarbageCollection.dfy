/** How a collector decides, from a snapshot that may already be stale, which
    batches and runs it may remove; and the re-check it makes under the locks. */
module GarbageCollection {
  import opened Common
  import opened BatchPlans
  import opened Manifests
  import opened RunRecords

  datatype Age = Age(now: real, maxAge: real)

  predicate Aged(at: real, age: Age) {
    age.now - at >= age.maxAge
  }

  /** A finished run that is old enough to go. */
  predicate Expired(r: RunRecord, age: Age) {
    r.status.Terminal() && Aged(r.updatedAt, age)
  }

  /** What one pass has read: readable runs, readable manifests, the ids of the
      manifests it could not read, and the edit worktrees it could not clean. */
  datatype Survey = Survey(snapshot: map<string, RunRecord>, seen: map<string, Manifest>, invalid: set<string>,
                           stuck: set<string>, age: Age)

  predicate Lists(m: Manifest, runId: string) {
    exists i :: 0 <= i < |m.members| && m.members[i].runId == runId
  }

  function MemberIds(m: Manifest): set<string> {
    set i | 0 <= i < |m.members| :: m.members[i].runId
  }

  predicate Candidate(sv: Survey, m: Manifest) {
    Aged(m.updatedAt, sv.age)
    && forall i :: 0 <= i < |m.members| && m.members[i].runId in sv.snapshot ==>
         Expired(sv.snapshot[m.members[i].runId], sv.age)
  }

  /** A run some live batch may still need, or whose batch cannot be read. */
  predicate Protected(sv: Survey, runId: string) {
    || (exists o :: o in sv.seen && !Candidate(sv, sv.seen[o]) && Lists(sv.seen[o], runId))
    || (runId in sv.snapshot && sv.snapshot[runId].origin.orchestrationId in sv.invalid)
  }

  predicate EditStuck(sv: Survey, m: Manifest) {
    exists i :: 0 <= i < |m.members| && i < |m.plan.members| && IsEdit(m.plan.members[i]) && m.members[i].runId in sv.stuck
  }

  /** Candidates whose edit worktrees were all cleaned. */
  predicate Cleaned(sv: Survey, o: string) {
    o in sv.seen && Candidate(sv, sv.seen[o]) && !EditStuck(sv, sv.seen[o])
  }

  predicate HeldByStuckBatch(sv: Survey, runId: string) {
    exists o :: o in sv.seen && Candidate(sv, sv.seen[o]) && EditStuck(sv, sv.seen[o]) && Lists(sv.seen[o], runId)
  }

  predicate Loose(sv: Survey, runId: string) {
    && runId in sv.snapshot && Expired(sv.snapshot[runId], sv.age) && !Protected(sv, runId)
    && !HeldByStuckBatch(sv, runId)
    && !(sv.snapshot[runId].origin.mode == "edit" && runId in sv.stuck)
  }

  predicate AllLoose(sv: Survey, m: Manifest) {
    forall i :: 0 <= i < |m.members| && m.members[i].runId in sv.snapshot ==> Loose(sv, m.members[i].runId)
  }

  /** The batches this pass will try to unlink. */
  predicate Chosen(sv: Survey, o: string) {
    Cleaned(sv, o) && AllLoose(sv, sv.seen[o])
  }

  predicate HeldBySparedBatch(sv: Survey, runId: string) {
    exists o :: o in sv.seen && Cleaned(sv, o) && !AllLoose(sv, sv.seen[o]) && Lists(sv.seen[o], runId)
  }

  /** The runs this pass will delete once their batches are unlinked. */
  predicate Removable(sv: Survey, runId: string) {
    Loose(sv, runId) && !HeldBySparedBatch(sv, runId)
  }

  /** Blocking propagates: a run marked for removal is finished, its batch was
      readable, and every batch seen to list it is itself about to be unlinked. */
  lemma RemovableRunsFollowTheirBatches(sv: Survey, runId: string, o: string)
    requires Removable(sv, runId)
    ensures runId in sv.snapshot && Expired(sv.snapshot[runId], sv.age)
    ensures sv.snapshot[runId].origin.orchestrationId !in sv.invalid
    ensures o in sv.seen && Lists(sv.seen[o], runId) ==> Chosen(sv, o)
  {
  }

  /** A dry run cleans no worktree, so none is found stuck. */
  function Viewed(sv: Survey, dryRun: bool): Survey {
    if dryRun then sv.(stuck := {}) else sv
  }

  /** What a dry run announces covers what the pass would remove. */
  lemma DryRunCoversPass(sv: Survey, runId: string, o: string)
    ensures Removable(sv, runId) ==> Removable(Viewed(sv, true), runId)
    ensures Chosen(sv, o) ==> Chosen(Viewed(sv, true), o)
  {
    var dry := Viewed(sv, true);
    assert forall r :: Protected(dry, r) == Protected(sv, r);
    assert forall m :: Candidate(dry, m) == Candidate(sv, m);
    assert forall r :: Loose(sv, r) ==> Loose(dry, r);
    assert forall m :: AllLoose(sv, m) ==> AllLoose(dry, m);
    forall b | Removable(sv, runId) && b in sv.seen && Candidate(sv, sv.seen[b]) && Lists(sv.seen[b], runId)
      ensures AllLoose(dry, sv.seen[b])
    {
      assert !EditStuck(sv, sv.seen[b]);
    }
  }

  /** The re-check under the locks, against what is on disk now. */
  predicate StillRemovable(stale: Manifest, current: Manifest, runs: map<string, RunRecord>, age: Age) {
    && current.requestId == stale.requestId && current.planSha256 == stale.planSha256 && Aged(current.updatedAt, age)
    && forall i :: 0 <= i < |current.members| && current.members[i].runId in runs ==> Expired(runs[current.members[i].runId], age)
  }

  // ----------------------------------------------------------- the selection pass

  class Selection {
    var protectedRuns: set<string>
    var blocked: set<string>
    var candidates: seq<string>
    var selected: seq<string>
    var loose: set<string>
    var removable: set<string>

    constructor () {
      protectedRuns, blocked, candidates, selected, loose, removable := {}, {}, [], [], {}, {};
    }

    /** Splits the manifests into removal candidates and protected batches. */
    method Classify(sv: Survey, listing: seq<string>, records: seq<string>)
      requires (forall o :: o in listing <==> o in sv.seen) && (forall r :: r in records <==> r in sv.snapshot)
      modifies this
      ensures forall o :: o in candidates <==> o in sv.seen && Candidate(sv, sv.seen[o])
      ensures forall r :: r in sv.snapshot ==> (r in protectedRuns <==> Protected(sv, r))
    {
      protectedRuns, candidates := {}, [];
      for i := 0 to |listing|
        invariant forall o :: o in candidates <==> o in listing[..i] && o in sv.seen && Candidate(sv, sv.seen[o])
        invariant forall r :: r in protectedRuns <==>
          exists o :: o in listing[..i] && o in sv.seen && !Candidate(sv, sv.seen[o]) && Lists(sv.seen[o], r)
      {
        var o := listing[i];
        assert listing[..i + 1] == listing[..i] + [o] && o in listing;
        if Candidate(sv, sv.seen[o]) {
          candidates := candidates + [o];
        } else {
          protectedRuns := protectedRuns + MemberIds(sv.seen[o]);
          assert forall r :: r in MemberIds(sv.seen[o]) <==> Lists(sv.seen[o], r);
        }
      }
      assert listing[..|listing|] == listing;
      ghost var byBatch, picked := protectedRuns, candidates;
      for i := 0 to |records|
        invariant candidates == picked
        invariant forall r :: r in protectedRuns <==>
          r in byBatch || (r in records[..i] && r in sv.snapshot && sv.snapshot[r].origin.orchestrationId in sv.invalid)
      {
        assert records[..i + 1] == records[..i] + [records[i]] && records[i] in records;
        if sv.snapshot[records[i]].origin.orchestrationId in sv.invalid {
          protectedRuns := protectedRuns + {records[i]};
        }
      }
      assert records[..|records|] == records;
    }

    /** Drops the candidates whose edit worktrees cannot be cleaned; a dry run
        cleans none. */
    method CleanBatches(sv: Survey, dryRun: bool)
      requires forall o :: o in candidates <==> o in sv.seen && Candidate(sv, sv.seen[o])
      modifies this`selected, this`blocked
      ensures forall o :: o in selected <==> Cleaned(Viewed(sv, dryRun), o)
      ensures forall r :: r in blocked <==> HeldByStuckBatch(Viewed(sv, dryRun), r)
    {
      assert forall m :: EditStuck(Viewed(sv, dryRun), m) == (!dryRun && EditStuck(sv, m));
      selected, blocked := [], {};
      for i := 0 to |candidates|
        invariant forall o :: o in selected <==> o in candidates[..i] && Cleaned(Viewed(sv, dryRun), o)
        invariant forall r :: r in blocked <==>
          !dryRun && exists o :: o in candidates[..i] && o in sv.seen && EditStuck(sv, sv.seen[o]) && Lists(sv.seen[o], r)
      {
        var o := candidates[i];
        assert candidates[..i + 1] == candidates[..i] + [o] && o in candidates;
        if dryRun || !EditStuck(sv, sv.seen[o]) {
          selected := selected + [o];
        } else {
          blocked := blocked + MemberIds(sv.seen[o]);
          assert forall r :: r in MemberIds(sv.seen[o]) <==> Lists(sv.seen[o], r);
        }
      }
      assert candidates[..|candidates|] == candidates;
    }

    /** Marks the finished runs nothing holds back. */
    method MarkRuns(sv: Survey, dryRun: bool, records: seq<string>)
      requires forall r :: r in records <==> r in sv.snapshot
      requires forall r :: r in sv.snapshot ==> (r in protectedRuns <==> Protected(sv, r))
      requires forall r :: r in blocked <==> HeldByStuckBatch(Viewed(sv, dryRun), r)
      modifies this`loose
      ensures forall r :: r in loose <==> Loose(Viewed(sv, dryRun), r)
    {
      loose := {};
      for i := 0 to |records|
        invariant forall r :: r in loose <==> r in records[..i] && Loose(Viewed(sv, dryRun), r)
      {
        var r := records[i];
        assert records[..i + 1] == records[..i] + [r] && r in records;
        var record := sv.snapshot[r];
        var removableNow := Expired(record, sv.age) && r !in protectedRuns;
        if removableNow && r !in blocked && !dryRun && record.origin.mode == "edit" && r in sv.stuck {
          removableNow := false;
        }
        if removableNow && r !in blocked {
          loose := loose + {r};
        }
      }
      assert records[..|records|] == records;
    }

    /** Spares every batch with a member that has to stay, and with it the rest
        of that batch's members. */
    method SpareBatches(sv: Survey)
      requires forall o :: o in selected <==> Cleaned(sv, o)
      requires forall r :: r in loose <==> Loose(sv, r)
      modifies this`selected, this`blocked, this`removable
      ensures forall o :: o in selected <==> Chosen(sv, o)
      ensures forall r :: r in removable <==> Removable(sv, r)
    {
      var kept: seq<string> := [];
      var held: set<string> := {};
      for i := 0 to |selected|
        invariant forall o :: o in kept <==> o in selected[..i] && Chosen(sv, o)
        invariant forall r :: r in held <==>
          exists o :: o in selected[..i] && o in sv.seen && !AllLoose(sv, sv.seen[o]) && Lists(sv.seen[o], r)
        invariant selected == old(selected)
      {
        var o := selected[i];
        assert selected[..i + 1] == selected[..i] + [o] && o in selected;
        var manifest := sv.seen[o];
        var stays := exists j :: 0 <= j < |manifest.members| && manifest.members[j].runId in sv.snapshot
                                 && manifest.members[j].runId !in loose;
        assert stays <==> !AllLoose(sv, manifest);
        if stays {
          held := held + MemberIds(manifest);
          assert forall r :: r in MemberIds(manifest) <==> Lists(manifest, r);
        } else {
          kept := kept + [o];
        }
      }
      assert selected[..|selected|] == selected;
      selected, blocked := kept, blocked + held;
      removable := loose - held;
    }

    /** The whole selection, in the source's order. */
    method Select(sv: Survey, dryRun: bool, listing: seq<string>, records: seq<string>)
      requires (forall o :: o in listing <==> o in sv.seen) && (forall r :: r in records <==> r in sv.snapshot)
      modifies this
      ensures forall o :: o in selected <==> Chosen(Viewed(sv, dryRun), o)
      ensures forall r :: r in removable <==> Removable(Viewed(sv, dryRun), r)
      ensures forall o :: o in selected ==> o in sv.seen && sv.age.now - sv.seen[o].updatedAt >= sv.age.maxAge
      ensures forall r :: r in removable ==>
        && r in sv.snapshot && sv.snapshot[r].status in {Completed, Failed, RunRecords.Timeout, Cancelled}
        && sv.age.now - sv.snapshot[r].updatedAt >= sv.age.maxAge
    {
      Classify(sv, listing, records);
      CleanBatches(sv, dryRun);
      MarkRuns(sv, dryRun, records);
      SpareBatches(Viewed(sv, dryRun));
    }
  }
}
