/** What a batch start finds, writes and answers, on the manifests and tombstones
    themselves: when it succeeds, what it leaves on disk, and how a start that was
    interrupted is completed by the next one. */
module OrchestrationStarts {
  import opened Common
  import opened BatchPlans
  import opened Manifests
  import opened Orchestrations

  /** Every manifest on disk passes its parser. */
  ghost predicate AllReadable(shelf: Shelf) {
    forall o :: o in shelf.manifests ==> 0.0 <= shelf.manifests[o].createdAt <= shelf.manifests[o].updatedAt
  }

  /** The request's tombstone file is its own and valid, or there is none. */
  predicate TombstoneInOrder(ids: Ids, shelf: Shelf, requestId: string) {
    var key := ids.request(requestId);
    key in shelf.tombs ==> shelf.tombs[key].requestId == requestId && shelf.tombs[key].boundAt > 0.0
  }

  /** This manifest is this very plan's. */
  predicate IsOf(ids: Ids, m: Manifest, plan: BatchPlan) {
    && m.requestId == plan.requestId && m.planSha256 == ids.plan(plan) && m.plan == plan
    && m.orchestrationId == ids.orchestration(plan.requestId, ids.plan(plan))
  }

  /** The request's batch is there already, with its tombstone or without one. */
  ghost predicate AlreadyStarted(ids: Ids, shelf: Shelf, plan: BatchPlan) {
    var key, digest := ids.request(plan.requestId), ids.plan(plan);
    && (exists o :: o in shelf.manifests && IsOf(ids, shelf.manifests[o], plan))
    && (key in shelf.tombs ==>
          shelf.tombs[key].planSha256 == digest && shelf.tombs[key].orchestrationId == ids.orchestration(plan.requestId, digest))
  }

  /** Nothing is known of the request, and the id its batch would get is free. */
  ghost predicate NeverStarted(ids: Ids, shelf: Shelf, plan: BatchPlan) {
    && ids.request(plan.requestId) !in shelf.tombs
    && (forall o :: o in shelf.manifests ==> shelf.manifests[o].requestId != plan.requestId)
    && ids.orchestration(plan.requestId, ids.plan(plan)) !in shelf.manifests
  }

  /** The manifest of a new batch: revision 0, not cancelled, created and updated
      now, with one member for each planned one under its derived run id. */
  ghost predicate IsNew(ids: Ids, m: Manifest, plan: BatchPlan, now: real) {
    && IsOf(ids, m, plan) && m.revision == 0 && !m.cancelRequested && m.createdAt == now && m.updatedAt == now
    && |m.members| == |plan.members|
    && forall i :: 0 <= i < |plan.members| ==>
         && m.members[i].roleId == plan.members[i].roleId && m.members[i].backend == plan.members[i].backend
         && m.members[i].timeoutSeconds == plan.members[i].timeoutSeconds
         && m.members[i].runId == ids.run(m.orchestrationId, i)
  }

  /** A start succeeds exactly when the request's batch is there already, or nothing
      is known of the request; and, of course, what it has to read can be read. */
  lemma StartsExactlyWhen(ids: Ids, shelf: Shelf, plan: BatchPlan, now: real, killed: bool, found: Found)
    requires ShelfInv(ids, shelf) && Answers(shelf, plan.requestId, found) && !found.Unreadable?
    ensures CreateEffect(ids, shelf, plan, now, killed, found).1.Ok?
            <==> TombstoneInOrder(ids, shelf, plan.requestId)
                 && (AlreadyStarted(ids, shelf, plan) || NeverStarted(ids, shelf, plan))
  {
    if found.Hit? {
      var m := found.manifest;
      assert m.orchestrationId in shelf.manifests && Proper(ids, m.orchestrationId, m);
      if o :| o in shelf.manifests && IsOf(ids, shelf.manifests[o], plan) {
        assert o == m.orchestrationId;
      }
    }
  }

  /** A scan passes over no manifest its parser refuses: it hits the request's own,
      readable; or misses it, all being readable; or stops at one that is not. */
  lemma ScansStopAtUnreadable(shelf: Shelf, requestId: string, found: Found)
    requires Answers(shelf, requestId, found)
    ensures found.Hit? ==> 0.0 <= found.manifest.createdAt <= found.manifest.updatedAt && found.manifest.requestId == requestId
    ensures found.Miss? ==> AllReadable(shelf)
    ensures found.Unreadable? ==> !AllReadable(shelf)
  {
  }

  /** The first start of a request: its manifest is written under its id, new; then
      its tombstone, unless the process dies in between; nothing else changes. */
  lemma FirstStart(ids: Ids, shelf: Shelf, plan: BatchPlan, now: real, killed: bool, found: Found)
    requires Answers(shelf, plan.requestId, found) && !found.Unreadable? && NeverStarted(ids, shelf, plan)
    ensures var (after, reply) := CreateEffect(ids, shelf, plan, now, killed, found);
      var id, key := ids.orchestration(plan.requestId, ids.plan(plan)), ids.request(plan.requestId);
      && reply.Ok? && IsNew(ids, reply.value, plan, now)
      && after.manifests == shelf.manifests[id := reply.value]
      && after.tombs == if killed then shelf.tombs
                        else shelf.tombs[key := Tombstone(plan.requestId, ids.plan(plan), id, now)]
  {
    assert found.Miss?;
  }

  /** A repeated start answers the stored manifest and at most adds its tombstone. */
  lemma RepeatedStart(ids: Ids, shelf: Shelf, plan: BatchPlan, now: real, killed: bool, found: Found)
    requires ShelfInv(ids, shelf) && Answers(shelf, plan.requestId, found) && !found.Unreadable?
    requires TombstoneInOrder(ids, shelf, plan.requestId) && AlreadyStarted(ids, shelf, plan)
    ensures var (after, reply) := CreateEffect(ids, shelf, plan, now, killed, found);
      var id, key := ids.orchestration(plan.requestId, ids.plan(plan)), ids.request(plan.requestId);
      && reply.Ok? && id in shelf.manifests && reply.value == shelf.manifests[id] && IsOf(ids, reply.value, plan)
      && after.manifests == shelf.manifests
      && after.tombs == if key in shelf.tombs then shelf.tombs
                        else shelf.tombs[key := Tombstone(plan.requestId, ids.plan(plan), id, reply.value.createdAt)]
  {
    var o :| o in shelf.manifests && IsOf(ids, shelf.manifests[o], plan);
    assert Proper(ids, o, shelf.manifests[o]);
    if found.Hit? {
      assert Proper(ids, found.manifest.orchestrationId, found.manifest);
      assert o == found.manifest.orchestrationId;
    }
  }

  /** A start that died between manifest and tombstone is completed by the next: it
      answers the same manifest and leaves the tombstone, at whatever time. */
  lemma InterruptedStartIsCompleted(ids: Ids, shelf: Shelf, plan: BatchPlan, now: real, found: Found, later: real, again: Found)
    requires ShelfInv(ids, shelf) && AllReadable(shelf) && now >= 0.0 && NeverStarted(ids, shelf, plan)
    requires Answers(shelf, plan.requestId, found)
    requires Answers(CreateEffect(ids, shelf, plan, now, true, found).0, plan.requestId, again)
    ensures var (half, first) := CreateEffect(ids, shelf, plan, now, true, found);
      var (whole, second) := CreateEffect(ids, half, plan, later, false, again);
      && first.Ok? && second == first
      && ids.request(plan.requestId) !in half.tombs
      && whole == CreateEffect(ids, shelf, plan, now, false, found).0
      && ids.request(plan.requestId) in whole.tombs
  {
    var id := ids.orchestration(plan.requestId, ids.plan(plan));
    FirstStart(ids, shelf, plan, now, true, found);
    FirstStart(ids, shelf, plan, now, false, found);
    CreateEffectKeepsInv(ids, shelf, plan, now, true, found);
    var (half, first) := CreateEffect(ids, shelf, plan, now, true, found);
    assert AllReadable(half);
    ScansStopAtUnreadable(half, plan.requestId, again);
    assert half.manifests[id] == first.value && IsOf(ids, half.manifests[id], plan);
    RepeatedStart(ids, half, plan, later, false, again);
  }

  /** Why a start is refused: a tombstone file that is not the request's, an
      unreadable manifest before the request's own, a binding to another plan, a
      collected batch, or an id that another request's batch has. */
  lemma RefusedStartsSayWhy(ids: Ids, shelf: Shelf, plan: BatchPlan, now: real, killed: bool, found: Found)
    requires ShelfInv(ids, shelf) && Answers(shelf, plan.requestId, found)
    ensures var (after, reply) := CreateEffect(ids, shelf, plan, now, killed, found);
      var key, digest := ids.request(plan.requestId), ids.plan(plan);
      var id := ids.orchestration(plan.requestId, digest);
      && (!TombstoneInOrder(ids, shelf, plan.requestId) ==> reply == Err(ForeignTombstone))
      && (TombstoneInOrder(ids, shelf, plan.requestId) && found.Unreadable? ==> reply == Err(UnreadableManifest))
      && (TombstoneInOrder(ids, shelf, plan.requestId) && found.Miss? && key in shelf.tombs ==>
            reply == Err(if shelf.tombs[key].planSha256 == digest then Collected else BoundElsewhere))
      && (TombstoneInOrder(ids, shelf, plan.requestId) && found.Miss? && key !in shelf.tombs && id in shelf.manifests ==>
            reply == Err(IdCollision))
      && (TombstoneInOrder(ids, shelf, plan.requestId) && found.Hit? && !IsOf(ids, found.manifest, plan) ==>
            reply == Err(BoundElsewhere))
      && (reply.Err? ==> after == shelf)
  {
  }
}
