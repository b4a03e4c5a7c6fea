/** The orchestration store: one manifest per batch start, and one permanent
    tombstone per request id that outlives the manifest. */
module Orchestrations {
  import opened Common
  import opened BatchPlans
  import opened Manifests

  datatype Tombstone = Tombstone(requestId: string, planSha256: string, orchestrationId: string, boundAt: real)

  /** The directory: manifests by orchestration id, tombstones by request digest. */
  datatype Shelf = Shelf(manifests: map<string, Manifest>, tombs: map<string, Tombstone>)

  datatype StoreError = UnreadableManifest | ForeignTombstone | BoundElsewhere | Collected | IdCollision
                      | NotFound | RevisionConflict

  /** The parser refuses a manifest whose clock readings are out of order. */
  predicate Readable(m: Manifest) {
    0.0 <= m.createdAt <= m.updatedAt
  }

  function TombKey(ids: Ids, requestId: string): string {
    ids.request(requestId)
  }

  /** No tombstone, this request's tombstone, or a file that is not a valid
      tombstone for this request. */
  function LoadTombstone(ids: Ids, shelf: Shelf, requestId: string): Result<Option<Tombstone>, StoreError> {
    var key := TombKey(ids, requestId);
    if key !in shelf.tombs then Ok(None)
    else if shelf.tombs[key].requestId != requestId || shelf.tombs[key].boundAt <= 0.0 then Err(ForeignTombstone)
    else Ok(Some(shelf.tombs[key]))
  }

  predicate Matches(t: Tombstone, m: Manifest) {
    t.requestId == m.requestId && t.planSha256 == m.planSha256 && t.orchestrationId == m.orchestrationId
  }

  /** Whether binding a manifest's tombstone succeeds, and the shelf after it. */
  predicate Binds(ids: Ids, shelf: Shelf, m: Manifest) {
    match LoadTombstone(ids, shelf, m.requestId)
    case Err(_) => false
    case Ok(None) => true
    case Ok(Some(t)) => Matches(t, m)
  }

  function TombstoneOf(m: Manifest): Tombstone {
    Tombstone(m.requestId, m.planSha256, m.orchestrationId, m.createdAt)
  }

  function Bound(ids: Ids, shelf: Shelf, m: Manifest): Shelf {
    if LoadTombstone(ids, shelf, m.requestId) == Ok(None)
    then shelf.(tombs := shelf.tombs[TombKey(ids, m.requestId) := TombstoneOf(m)])
    else shelf
  }

  /** What a scan of the manifests for one request may answer. */
  datatype Found = Hit(manifest: Manifest) | Miss | Unreadable

  predicate Answers(shelf: Shelf, requestId: string, found: Found) {
    match found
    case Hit(m) => m.orchestrationId in shelf.manifests && shelf.manifests[m.orchestrationId] == m
                   && m.requestId == requestId && Readable(m)
    case Miss => forall id :: id in shelf.manifests ==>
                   Readable(shelf.manifests[id]) && shelf.manifests[id].requestId != requestId
    case Unreadable => exists id :: id in shelf.manifests && !Readable(shelf.manifests[id])
  }

  predicate SamePlan(ids: Ids, m: Manifest, plan: BatchPlan) {
    m.planSha256 == ids.plan(plan)
    && m.orchestrationId == ids.orchestration(plan.requestId, ids.plan(plan)) && m.plan == plan
  }

  predicate NoManifestFor(shelf: Shelf, requestId: string) {
    forall id :: id in shelf.manifests ==> shelf.manifests[id].requestId != requestId
  }

  /** A create may write a new manifest exactly here. Manifests of other requests
      may change while the scan runs, so nothing is asked of them; the request's
      own lock keeps its manifest from appearing. */
  predicate MayCreate(ids: Ids, shelf: Shelf, plan: BatchPlan) {
    && LoadTombstone(ids, shelf, plan.requestId) == Ok(None)
    && NoManifestFor(shelf, plan.requestId)
    && ids.orchestration(plan.requestId, ids.plan(plan)) !in shelf.manifests
  }

  function Created(ids: Ids, shelf: Shelf, plan: BatchPlan, now: real): Shelf {
    var m := NewManifest(ids, plan, now);
    shelf.(manifests := shelf.manifests[m.orchestrationId := m])
  }

  function Cancelled(shelf: Shelf, id: string, now: real): Shelf
    requires id in shelf.manifests
  {
    if shelf.manifests[id].cancelRequested then shelf
    else shelf.(manifests := shelf.manifests[id := CancelledManifest(shelf.manifests[id], now)])
  }

  // ---------------------------------------------------------------- shelf invariant

  /** A stored manifest repeats its plan and carries the ids derived from it. */
  predicate Proper(ids: Ids, id: string, m: Manifest) {
    && m.orchestrationId == id == ids.orchestration(m.requestId, m.planSha256)
    && m.requestId == m.plan.requestId && m.planSha256 == ids.plan(m.plan)
    && m.members == MembersOf(ids, id, m.plan)
  }

  ghost predicate OneManifestPerRequest(shelf: Shelf) {
    forall a, b :: a in shelf.manifests && b in shelf.manifests && a != b ==>
      shelf.manifests[a].requestId != shelf.manifests[b].requestId
  }

  ghost predicate ShelfInv(ids: Ids, shelf: Shelf) {
    && (forall id :: id in shelf.manifests ==> Proper(ids, id, shelf.manifests[id]))
    && OneManifestPerRequest(shelf)
    && (forall k :: k in shelf.tombs ==>
          k == TombKey(ids, shelf.tombs[k].requestId)
          && shelf.tombs[k].orchestrationId == ids.orchestration(shelf.tombs[k].requestId, shelf.tombs[k].planSha256))
    && (forall id, k :: id in shelf.manifests && k in shelf.tombs
          && shelf.manifests[id].requestId == shelf.tombs[k].requestId
          ==> Matches(shelf.tombs[k], shelf.manifests[id]))
  }

  /** The request is bound to this plan digest, by its manifest or its tombstone. */
  ghost predicate BoundTo(ids: Ids, shelf: Shelf, requestId: string, planSha256: string) {
    || (exists id :: id in shelf.manifests && shelf.manifests[id].requestId == requestId
                     && shelf.manifests[id].planSha256 == planSha256)
    || (TombKey(ids, requestId) in shelf.tombs && shelf.tombs[TombKey(ids, requestId)].requestId == requestId
        && shelf.tombs[TombKey(ids, requestId)].planSha256 == planSha256)
  }

  /** The request's batch was collected: only its tombstone is left. */
  ghost predicate Retired(ids: Ids, shelf: Shelf, requestId: string, planSha256: string) {
    && TombKey(ids, requestId) in shelf.tombs
    && shelf.tombs[TombKey(ids, requestId)].requestId == requestId
    && shelf.tombs[TombKey(ids, requestId)].planSha256 == planSha256
    && NoManifestFor(shelf, requestId)
  }

  /** A request is never bound to two plans. */
  lemma BoundToOne(ids: Ids, shelf: Shelf, requestId: string, a: string, b: string)
    requires ShelfInv(ids, shelf) && BoundTo(ids, shelf, requestId, a) && BoundTo(ids, shelf, requestId, b)
    ensures a == b
  {
  }

  // ----------------------------------------------------------- creating or loading

  /** A create or replay of one plan, given what the scan for its request found.
      `killed` stops the process between the manifest and its tombstone. */
  function CreateEffect(ids: Ids, shelf: Shelf, plan: BatchPlan, now: real, killed: bool, found: Found):
    (Shelf, Result<Manifest, StoreError>)
  {
    var tombstone := LoadTombstone(ids, shelf, plan.requestId);
    if tombstone.Err? then (shelf, Err(ForeignTombstone))
    else match found
      case Unreadable => (shelf, Err(UnreadableManifest))
      case Hit(m) =>
        if !SamePlan(ids, m, plan) then (shelf, Err(BoundElsewhere))
        else (Bound(ids, shelf, m), if Binds(ids, shelf, m) then Ok(m) else Err(BoundElsewhere))
      case Miss =>
        if tombstone.value.Some? then
          (shelf, Err(if tombstone.value.value.planSha256 == ids.plan(plan)
                         && tombstone.value.value.orchestrationId == ids.orchestration(plan.requestId, ids.plan(plan))
                      then Collected else BoundElsewhere))
        else if !MayCreate(ids, shelf, plan) then (shelf, Err(IdCollision))
        else
          var created := Created(ids, shelf, plan, now);
          (if killed then created else Bound(ids, created, NewManifest(ids, plan, now)), Ok(NewManifest(ids, plan, now)))
  }

  lemma BoundKeepsInv(ids: Ids, shelf: Shelf, id: string)
    requires ShelfInv(ids, shelf) && id in shelf.manifests
    ensures ShelfInv(ids, Bound(ids, shelf, shelf.manifests[id]))
  {
    assert Proper(ids, id, shelf.manifests[id]);
  }

  lemma CreatedKeepsInv(ids: Ids, shelf: Shelf, plan: BatchPlan, now: real)
    requires ShelfInv(ids, shelf) && MayCreate(ids, shelf, plan)
    ensures ShelfInv(ids, Created(ids, shelf, plan, now))
  {
    var m := NewManifest(ids, plan, now);
    var after := Created(ids, shelf, plan, now);
    assert Proper(ids, m.orchestrationId, m);
    forall k | k in after.tombs ensures after.tombs[k].requestId != plan.requestId {
      assert k == TombKey(ids, after.tombs[k].requestId);
    }
  }

  /** A create never unbinds or rebinds anything: the invariant holds after it,
      and unless the process is killed a success leaves the request's tombstone
      on disk. */
  lemma CreateEffectKeepsInv(ids: Ids, shelf: Shelf, plan: BatchPlan, now: real, killed: bool, found: Found)
    requires ShelfInv(ids, shelf) && Answers(shelf, plan.requestId, found)
    ensures var (after, reply) := CreateEffect(ids, shelf, plan, now, killed, found);
      && ShelfInv(ids, after)
      && (reply.Ok? ==>
            && reply.value.requestId == plan.requestId && SamePlan(ids, reply.value, plan)
            && reply.value.orchestrationId in after.manifests
            && after.manifests[reply.value.orchestrationId] == reply.value
            && (!killed || found.Hit? ==> TombKey(ids, plan.requestId) in after.tombs
                                          && Matches(after.tombs[TombKey(ids, plan.requestId)], reply.value)))
  {
    if found.Hit? {
      BoundKeepsInv(ids, shelf, found.manifest.orchestrationId);
    } else if MayCreate(ids, shelf, plan) {
      CreatedKeepsInv(ids, shelf, plan, now);
      BoundKeepsInv(ids, Created(ids, shelf, plan, now), NewManifest(ids, plan, now).orchestrationId);
    }
  }

  /** A request that is bound to another plan, or whose batch was collected, can
      never be created again, and the refusal writes nothing. */
  lemma BoundRequestsAreRefused(ids: Ids, shelf: Shelf, plan: BatchPlan, now: real, killed: bool, found: Found,
      digest: string)
    requires ShelfInv(ids, shelf) && Answers(shelf, plan.requestId, found)
    requires (BoundTo(ids, shelf, plan.requestId, digest) && digest != ids.plan(plan))
             || Retired(ids, shelf, plan.requestId, digest)
    ensures CreateEffect(ids, shelf, plan, now, killed, found).0 == shelf
    ensures CreateEffect(ids, shelf, plan, now, killed, found).1.Err?
  {
    if found.Hit? && SamePlan(ids, found.manifest, plan) {
      assert BoundTo(ids, shelf, plan.requestId, ids.plan(plan));
      if BoundTo(ids, shelf, plan.requestId, digest) {
        BoundToOne(ids, shelf, plan.requestId, digest, ids.plan(plan));
      }
    }
  }

  // ------------------------------------------------ histories of the whole store

  /** One durable change: a create that was allowed, a tombstone, a cancellation,
      or the collector's unlink. A crash can fall between any two of them. */
  datatype ShelfAction =
    | Create(plan: BatchPlan, now: real)
    | BindTombstone(id: string)
    | Cancel(id: string, now: real)
    | Unlink(id: string)

  predicate Tombstoned(ids: Ids, shelf: Shelf, m: Manifest) {
    TombKey(ids, m.requestId) in shelf.tombs && Matches(shelf.tombs[TombKey(ids, m.requestId)], m)
  }

  predicate Allowed(ids: Ids, shelf: Shelf, a: ShelfAction) {
    match a
    case Create(plan, _) => MayCreate(ids, shelf, plan)
    case BindTombstone(id) => id in shelf.manifests
    case Cancel(id, _) => id in shelf.manifests
    case Unlink(id) => id in shelf.manifests && Tombstoned(ids, shelf, shelf.manifests[id])
  }

  function Act(ids: Ids, shelf: Shelf, a: ShelfAction): Shelf
    requires Allowed(ids, shelf, a)
  {
    match a
    case Create(plan, now) => Created(ids, shelf, plan, now)
    case BindTombstone(id) => Bound(ids, shelf, shelf.manifests[id])
    case Cancel(id, now) => Cancelled(shelf, id, now)
    case Unlink(id) => shelf.(manifests := shelf.manifests - {id})
  }

  predicate AllAllowed(ids: Ids, shelf: Shelf, actions: seq<ShelfAction>)
    decreases |actions|
  {
    actions == [] || (Allowed(ids, shelf, actions[0]) && AllAllowed(ids, Act(ids, shelf, actions[0]), actions[1..]))
  }

  function ActAll(ids: Ids, shelf: Shelf, actions: seq<ShelfAction>): Shelf
    requires AllAllowed(ids, shelf, actions)
    decreases |actions|
  {
    if actions == [] then shelf else ActAll(ids, Act(ids, shelf, actions[0]), actions[1..])
  }

  /** A create or replay, killed or not, is at most a create and a binding. */
  lemma CreateEffectIsActions(ids: Ids, shelf: Shelf, plan: BatchPlan, now: real, killed: bool, found: Found)
    returns (actions: seq<ShelfAction>)
    requires Answers(shelf, plan.requestId, found)
    ensures AllAllowed(ids, shelf, actions)
    ensures ActAll(ids, shelf, actions) == CreateEffect(ids, shelf, plan, now, killed, found).0
  {
    var after := CreateEffect(ids, shelf, plan, now, killed, found).0;
    if after == shelf {
      actions := [];
    } else if found.Hit? {
      actions := [BindTombstone(found.manifest.orchestrationId)];
      assert actions[1..] == [];
    } else if killed {
      actions := [Create(plan, now)];
      assert actions[1..] == [];
    } else {
      var m := NewManifest(ids, plan, now);
      actions := [Create(plan, now), BindTombstone(m.orchestrationId)];
      var created := Created(ids, shelf, plan, now);
      assert actions[1..] == [BindTombstone(m.orchestrationId)] && actions[1..][1..] == [];
      assert Act(ids, shelf, actions[0]) == created && created.manifests[m.orchestrationId] == m;
      assert AllAllowed(ids, created, actions[1..]);
      assert ActAll(ids, created, actions[1..]) == Bound(ids, created, m);
    }
  }

  lemma CancelledKeepsInv(ids: Ids, shelf: Shelf, id: string, now: real)
    requires ShelfInv(ids, shelf) && id in shelf.manifests
    ensures ShelfInv(ids, Cancelled(shelf, id, now))
  {
    var after := Cancelled(shelf, id, now);
    forall o | o in after.manifests
      ensures Proper(ids, o, after.manifests[o])
      ensures after.manifests[o].requestId == shelf.manifests[o].requestId
      ensures after.manifests[o].planSha256 == shelf.manifests[o].planSha256
    {
      assert Proper(ids, o, shelf.manifests[o]);
    }
  }

  lemma ActKeepsInv(ids: Ids, shelf: Shelf, a: ShelfAction)
    requires ShelfInv(ids, shelf) && Allowed(ids, shelf, a)
    ensures ShelfInv(ids, Act(ids, shelf, a))
  {
    match a
    case Create(plan, now) => CreatedKeepsInv(ids, shelf, plan, now);
    case BindTombstone(id) => BoundKeepsInv(ids, shelf, id);
    case Cancel(id, now) => CancelledKeepsInv(ids, shelf, id, now);
    case Unlink(id) =>
  }

  lemma ActKeepsBound(ids: Ids, shelf: Shelf, a: ShelfAction, requestId: string, digest: string)
    requires ShelfInv(ids, shelf) && Allowed(ids, shelf, a) && BoundTo(ids, shelf, requestId, digest)
    ensures BoundTo(ids, Act(ids, shelf, a), requestId, digest)
  {
    var after := Act(ids, shelf, a);
    if id :| id in shelf.manifests && shelf.manifests[id].requestId == requestId && shelf.manifests[id].planSha256 == digest {
      if a != Unlink(id) {
        assert id in after.manifests && after.manifests[id].requestId == requestId && after.manifests[id].planSha256 == digest;
      }
    }
  }

  lemma ActKeepsRetired(ids: Ids, shelf: Shelf, a: ShelfAction, requestId: string, digest: string)
    requires ShelfInv(ids, shelf) && Allowed(ids, shelf, a) && Retired(ids, shelf, requestId, digest)
    ensures Retired(ids, Act(ids, shelf, a), requestId, digest)
  {
  }

  /** One durable change keeps the shelf's invariant, unbinds no request, and
      never brings back a collected one. */
  lemma ActKeepsBindings(ids: Ids, shelf: Shelf, a: ShelfAction, requestId: string, digest: string)
    requires ShelfInv(ids, shelf) && Allowed(ids, shelf, a)
    ensures var after := Act(ids, shelf, a);
      && ShelfInv(ids, after)
      && (BoundTo(ids, shelf, requestId, digest) ==> BoundTo(ids, after, requestId, digest))
      && (Retired(ids, shelf, requestId, digest) ==> Retired(ids, after, requestId, digest))
  {
    ActKeepsInv(ids, shelf, a);
    if BoundTo(ids, shelf, requestId, digest) {
      ActKeepsBound(ids, shelf, a, requestId, digest);
    }
    if Retired(ids, shelf, requestId, digest) {
      ActKeepsRetired(ids, shelf, a, requestId, digest);
    }
  }

  lemma {:induction false} HistoryKeepsBindings(ids: Ids, shelf: Shelf, actions: seq<ShelfAction>, requestId: string,
      digest: string)
    requires ShelfInv(ids, shelf) && AllAllowed(ids, shelf, actions)
    ensures var after := ActAll(ids, shelf, actions);
      && ShelfInv(ids, after)
      && (BoundTo(ids, shelf, requestId, digest) ==> BoundTo(ids, after, requestId, digest))
      && (Retired(ids, shelf, requestId, digest) ==> Retired(ids, after, requestId, digest))
    decreases |actions|
  {
    if actions != [] {
      ActKeepsBindings(ids, shelf, actions[0], requestId, digest);
      HistoryKeepsBindings(ids, Act(ids, shelf, actions[0]), actions[1..], requestId, digest);
    }
  }

  /** A create or replay, whatever it ends in, unbinds no request and brings no
      collected one back. */
  lemma CreateKeepsBindings(ids: Ids, shelf: Shelf, plan: BatchPlan, now: real, killed: bool, found: Found,
                            requestId: string, digest: string)
    requires ShelfInv(ids, shelf) && Answers(shelf, plan.requestId, found)
    ensures var after := CreateEffect(ids, shelf, plan, now, killed, found).0;
      && (BoundTo(ids, shelf, requestId, digest) ==> BoundTo(ids, after, requestId, digest))
      && (Retired(ids, shelf, requestId, digest) ==> Retired(ids, after, requestId, digest))
  {
    var actions := CreateEffectIsActions(ids, shelf, plan, now, killed, found);
    HistoryKeepsBindings(ids, shelf, actions, requestId, digest);
  }

  const EMPTY_SHELF := Shelf(map[], map[])

  /** Idempotency for ever: over any history of creates, replays, cancellations
      and collections, crashes included, with any hash functions whatever, a
      request that was ever bound to one plan digest is never bound to another. */
  lemma OnePlanPerRequest(ids: Ids, past: seq<ShelfAction>, future: seq<ShelfAction>, requestId: string, a: string,
      b: string)
    requires AllAllowed(ids, EMPTY_SHELF, past) && AllAllowed(ids, ActAll(ids, EMPTY_SHELF, past), future)
    requires BoundTo(ids, ActAll(ids, EMPTY_SHELF, past), requestId, a)
    requires BoundTo(ids, ActAll(ids, ActAll(ids, EMPTY_SHELF, past), future), requestId, b)
    ensures a == b
  {
    var middle := ActAll(ids, EMPTY_SHELF, past);
    HistoryKeepsBindings(ids, EMPTY_SHELF, past, requestId, a);
    HistoryKeepsBindings(ids, middle, future, requestId, a);
    BoundToOne(ids, ActAll(ids, middle, future), requestId, a, b);
  }

  /** Once the collector has unlinked a request's manifest, no later create for
      that request succeeds or writes anything, whatever plan it carries. */
  lemma CollectedForever(ids: Ids, past: seq<ShelfAction>, id: string, future: seq<ShelfAction>,
                         plan: BatchPlan, now: real, killed: bool, found: Found)
    requires AllAllowed(ids, EMPTY_SHELF, past) && Allowed(ids, ActAll(ids, EMPTY_SHELF, past), Unlink(id))
    requires var middle := Act(ids, ActAll(ids, EMPTY_SHELF, past), Unlink(id));
      && AllAllowed(ids, middle, future)
      && plan.requestId == ActAll(ids, EMPTY_SHELF, past).manifests[id].requestId
      && Answers(ActAll(ids, middle, future), plan.requestId, found)
    ensures var after := ActAll(ids, Act(ids, ActAll(ids, EMPTY_SHELF, past), Unlink(id)), future);
      && CreateEffect(ids, after, plan, now, killed, found).1.Err?
      && CreateEffect(ids, after, plan, now, killed, found).0 == after
  {
    var before := ActAll(ids, EMPTY_SHELF, past);
    var m := before.manifests[id];
    HistoryKeepsBindings(ids, EMPTY_SHELF, past, m.requestId, m.planSha256);
    var middle := Act(ids, before, Unlink(id));
    UnlinkRetires(ids, before, id);
    HistoryKeepsBindings(ids, middle, future, m.requestId, m.planSha256);
    BoundRequestsAreRefused(ids, ActAll(ids, middle, future), plan, now, killed, found, m.planSha256);
  }

  lemma UnlinkRetires(ids: Ids, shelf: Shelf, id: string)
    requires ShelfInv(ids, shelf) && Allowed(ids, shelf, Unlink(id))
    ensures var m := shelf.manifests[id];
      ShelfInv(ids, Act(ids, shelf, Unlink(id))) && Retired(ids, Act(ids, shelf, Unlink(id)), m.requestId, m.planSha256)
  {
    ActKeepsBindings(ids, shelf, Unlink(id), "", "");
  }

  class OrchestrationStore {
    var shelf: Shelf
    const ids: Ids

    ghost predicate Valid()
      reads this
    {
      ShelfInv(ids, shelf)
    }

    constructor (ids: Ids)
      ensures Valid() && this.ids == ids && shelf == Shelf(map[], map[])
    {
      this.ids := ids;
      this.shelf := Shelf(map[], map[]);
    }

    method Load(id: string) returns (m: Option<Manifest>)
      ensures m == if id in shelf.manifests && Readable(shelf.manifests[id]) then Some(shelf.manifests[id]) else None
    {
      if id !in shelf.manifests || !Readable(shelf.manifests[id]) {
        return None;
      }
      return Some(shelf.manifests[id]);
    }

    /** Scans the manifests in listing order and stops at the first hit. */
    method FindRequest(requestId: string, listing: seq<string>) returns (found: Found)
      requires Valid() && forall id :: id in listing <==> id in shelf.manifests
      ensures Answers(shelf, requestId, found)
    {
      for i := 0 to |listing|
        invariant forall j :: 0 <= j < i ==>
          Readable(shelf.manifests[listing[j]]) && shelf.manifests[listing[j]].requestId != requestId
      {
        assert listing[i] in shelf.manifests && Proper(ids, listing[i], shelf.manifests[listing[i]]);
        var manifest := shelf.manifests[listing[i]];
        if !Readable(manifest) {
          return Unreadable;
        }
        if manifest.requestId == requestId {
          return Hit(manifest);
        }
      }
      return Miss;
    }

    method BindRequestTombstone(m: Manifest) returns (bound: bool)
      modifies this`shelf
      ensures bound <==> Binds(ids, old(shelf), m)
      ensures shelf == Bound(ids, old(shelf), m)
    {
      var existing := LoadTombstone(ids, shelf, m.requestId);
      if existing.Err? {
        return false;
      }
      if existing.value.Some? {
        var t := existing.value.value;
        return t.requestId == m.requestId && t.planSha256 == m.planSha256 && t.orchestrationId == m.orchestrationId;
      }
      shelf := shelf.(tombs := shelf.tombs[TombKey(ids, m.requestId) := TombstoneOf(m)]);
      return true;
    }

    /** Creates the manifest for a plan, or loads the one its request already has. */
    method CreateOrLoad(plan: BatchPlan, listing: seq<string>, now: real, killed: bool)
      returns (reply: Result<Manifest, StoreError>, found: Found)
      requires Valid() && forall id :: id in listing <==> id in shelf.manifests
      modifies this`shelf
      ensures Valid() && Answers(old(shelf), plan.requestId, found)
      ensures (shelf, reply) == CreateEffect(ids, old(shelf), plan, now, killed, found)
      ensures forall requestId, digest :: BoundTo(ids, old(shelf), requestId, digest) ==> BoundTo(ids, shelf, requestId, digest)
      ensures forall requestId, digest :: Retired(ids, old(shelf), requestId, digest) ==> Retired(ids, shelf, requestId, digest)
    {
      found := FindRequest(plan.requestId, listing);
      forall requestId, digest
        ensures var after := CreateEffect(ids, shelf, plan, now, killed, found).0;
          && (BoundTo(ids, shelf, requestId, digest) ==> BoundTo(ids, after, requestId, digest))
          && (Retired(ids, shelf, requestId, digest) ==> Retired(ids, after, requestId, digest))
      {
        CreateKeepsBindings(ids, shelf, plan, now, killed, found, requestId, digest);
      }
      CreateEffectKeepsInv(ids, shelf, plan, now, killed, found);
      var digest := ids.plan(plan);
      var id := ids.orchestration(plan.requestId, digest);
      var tombstone := LoadTombstone(ids, shelf, plan.requestId);
      if tombstone.Err? {
        return Err(ForeignTombstone), found;
      }
      if found.Unreadable? {
        return Err(UnreadableManifest), found;
      }
      if found.Hit? {
        var existing := found.manifest;
        if existing.orchestrationId != id || existing.planSha256 != digest || existing.plan != plan {
          return Err(BoundElsewhere), found;
        }
        var bound := BindRequestTombstone(existing);
        return if bound then Ok(existing) else Err(BoundElsewhere), found;
      }
      if tombstone.value.Some? {
        var t := tombstone.value.value;
        return Err(if t.planSha256 != digest || t.orchestrationId != id then BoundElsewhere else Collected), found;
      }
      if id in shelf.manifests {
        return Err(IdCollision), found;
      }
      var manifest := NewManifest(ids, plan, now);
      shelf := shelf.(manifests := shelf.manifests[id := manifest]);
      if killed {
        return Ok(manifest), found;
      }
      var bound := BindRequestTombstone(manifest);
      return if bound then Ok(manifest) else Err(BoundElsewhere), found;
    }

    method RequestCancel(id: string, expectedRevision: Option<nat>, now: real)
      returns (reply: Result<Manifest, StoreError>)
      requires Valid()
      modifies this`shelf
      ensures Valid() && shelf.tombs == old(shelf).tombs
      ensures shelf == old(shelf) || (id in old(shelf).manifests && shelf == Cancelled(old(shelf), id, now))
      ensures reply.Ok? ==> id in shelf.manifests && shelf.manifests[id] == reply.value && reply.value.cancelRequested
                            && Readable(reply.value)
      ensures (&& id in old(shelf).manifests && Readable(old(shelf).manifests[id])
               && (expectedRevision == None || expectedRevision == Some(old(shelf).manifests[id].revision)))
              ==> shelf == Cancelled(old(shelf), id, now)
      ensures shelf != old(shelf) ==>
        && id in old(shelf).manifests && !old(shelf).manifests[id].cancelRequested
        && (expectedRevision.Some? ==> expectedRevision.value == old(shelf).manifests[id].revision)
        && shelf.manifests == old(shelf).manifests[id := old(shelf).manifests[id].(
             updatedAt := now, revision := old(shelf).manifests[id].revision + 1, cancelRequested := true)]
    {
      if id !in shelf.manifests || !Readable(shelf.manifests[id]) {
        return Err(NotFound);
      }
      var manifest := shelf.manifests[id];
      if manifest.cancelRequested {
        return Ok(manifest);
      }
      if expectedRevision.Some? && manifest.revision != expectedRevision.value {
        return Err(RevisionConflict);
      }
      var updated := manifest.(updatedAt := now, revision := manifest.revision + 1);
      updated := updated.(cancelRequested := true);
      shelf := shelf.(manifests := shelf.manifests[id := updated]);
      if !Readable(updated) {
        return Err(UnreadableManifest);
      }
      return Ok(updated);
    }
  }
}
