/** Which backend each batch member gets: explicit choices are honoured, `auto`
    takes the least loaded capable backend, and none is used more than twice. */
module Allocation {
  import opened Common

  const MAX_PER_BACKEND := 2
  const AUTO := "auto"

  datatype Need = Need(requested: string, mode: string, strict: bool, allowUnconfined: bool)

  /** The installed backends in registry order, and what each can do. */
  datatype Market = Market(ready: seq<string>, isolates: string -> bool, supports: (string, string) -> bool)

  datatype Refusal = NotInstalled | NotStrict | WrongMode | OverLimit | NoCapacity | NoProvider | Unconfined

  type Loads = map<string, nat>

  function Load(loads: Loads, backend: string): nat {
    if backend in loads then loads[backend] else 0
  }

  predicate Capable(m: Market, need: Need, backend: string) {
    && backend in m.ready && (need.requested == AUTO || need.requested == backend)
    && (need.strict ==> m.isolates(backend)) && m.supports(backend, need.mode)
  }

  predicate Eligible(m: Market, loads: Loads, need: Need, backend: string) {
    Capable(m, need, backend) && Load(loads, backend) < MAX_PER_BACKEND
  }

  // ------------------------------------------------------------------ the order

  function IndexIn(ready: seq<string>, backend: string): (i: nat)
    requires backend in ready
    ensures i < |ready| && ready[i] == backend && backend !in ready[..i]
  {
    if ready[0] == backend then 0 else 1 + IndexIn(ready[1..], backend)
  }

  /** Ranked before: less loaded, or as loaded and earlier in registry order. */
  predicate Before(m: Market, loads: Loads, a: string, b: string)
    requires a in m.ready && b in m.ready
  {
    Load(loads, a) < Load(loads, b)
    || (Load(loads, a) == Load(loads, b) && IndexIn(m.ready, a) <= IndexIn(m.ready, b))
  }

  function Inserted(m: Market, loads: Loads, x: string, rest: seq<string>): (s: seq<string>)
    requires x in m.ready && forall y :: y in rest ==> y in m.ready
    ensures forall y :: y in s <==> y == x || y in rest
  {
    if rest == [] then [x]
    else if Before(m, loads, x, rest[0]) then [x] + rest
    else
      var s := Inserted(m, loads, x, rest[1..]);
      assert rest == [rest[0]] + rest[1..];
      [rest[0]] + s
  }

  function Ranked(m: Market, loads: Loads, candidates: seq<string>): (s: seq<string>)
    requires forall y :: y in candidates ==> y in m.ready
    ensures forall y :: y in s <==> y in candidates
  {
    if candidates == [] then []
    else
      assert candidates == [candidates[0]] + candidates[1..];
      Inserted(m, loads, candidates[0], Ranked(m, loads, candidates[1..]))
  }

  lemma OneIsRanked(m: Market, loads: Loads, x: string)
    requires x in m.ready
    ensures Ranked(m, loads, [x]) == [x]
  {
    assert [x][1..] == [];
  }

  predicate InOrder(m: Market, loads: Loads, s: seq<string>)
    requires forall y :: y in s ==> y in m.ready
  {
    forall i, j :: 0 <= i < j < |s| ==> Before(m, loads, s[i], s[j])
  }

  lemma {:induction false} InsertedInOrder(m: Market, loads: Loads, x: string, rest: seq<string>)
    requires x in m.ready && (forall y :: y in rest ==> y in m.ready) && InOrder(m, loads, rest)
    ensures InOrder(m, loads, Inserted(m, loads, x, rest))
  {
    if rest != [] && !Before(m, loads, x, rest[0]) {
      InsertedInOrder(m, loads, x, rest[1..]);
      var s := Inserted(m, loads, x, rest[1..]);
      forall j | 0 <= j < |s| ensures Before(m, loads, rest[0], s[j]) {
        assert s[j] in s;
      }
    }
  }

  lemma {:induction false} RankedInOrder(m: Market, loads: Loads, candidates: seq<string>)
    requires forall y :: y in candidates ==> y in m.ready
    ensures InOrder(m, loads, Ranked(m, loads, candidates))
  {
    if candidates != [] {
      RankedInOrder(m, loads, candidates[1..]);
      InsertedInOrder(m, loads, candidates[0], Ranked(m, loads, candidates[1..]));
    }
  }

  // -------------------------------------------------------------- one selection

  /** The best eligible backend. */
  predicate IsBest(m: Market, loads: Loads, need: Need, backend: string) {
    Eligible(m, loads, need, backend)
    && forall other :: other in m.ready && Eligible(m, loads, need, other) ==> Before(m, loads, backend, other)
  }

  lemma BestIsUnique(m: Market, loads: Loads, need: Need, a: string, b: string)
    requires IsBest(m, loads, need, a) && IsBest(m, loads, need, b)
    ensures a == b
  {
  }

  predicate Full(m: Market, loads: Loads, need: Need) {
    forall backend :: backend in m.ready ==> !Eligible(m, loads, need, backend)
  }

  function Candidates(m: Market, need: Need): seq<string> {
    if need.requested == AUTO then m.ready else [need.requested]
  }

  lemma FirstEligibleIsBest(m: Market, loads: Loads, need: Need, candidates: seq<string>, ranked: seq<string>, i: nat)
    requires candidates == Candidates(m, need) && (forall y :: y in ranked <==> y in candidates)
    requires (forall y :: y in ranked ==> y in m.ready) && InOrder(m, loads, ranked)
    requires i < |ranked| && Eligible(m, loads, need, ranked[i])
    requires forall j :: 0 <= j < i ==> !Eligible(m, loads, need, ranked[j])
    ensures IsBest(m, loads, need, ranked[i])
  {
    forall other | other in m.ready && Eligible(m, loads, need, other) ensures Before(m, loads, ranked[i], other) {
      assert other in ranked;
      var j :| 0 <= j < |ranked| && ranked[j] == other;
    }
  }

  lemma NoneEligible(m: Market, loads: Loads, need: Need, candidates: seq<string>, ranked: seq<string>)
    requires candidates == Candidates(m, need) && (forall y :: y in ranked <==> y in candidates)
    requires forall j :: 0 <= j < |ranked| ==> !Eligible(m, loads, need, ranked[j])
    ensures Full(m, loads, need)
  {
    forall other | other in candidates ensures !Eligible(m, loads, need, other) {
      assert other in ranked;
    }
  }

  class Allocator {
    const m: Market
    var loads: Loads

    constructor (m: Market)
      ensures this.m == m && loads == map[]
    {
      this.m, this.loads := m, map[];
    }

    /** Takes the best eligible backend, and fails only when there is none. */
    method SelectBackend(need: Need) returns (reply: Result<string, Refusal>)
      modifies this
      ensures reply.Ok? <==> !Full(m, old(loads), need)
      ensures reply.Ok? ==> IsBest(m, old(loads), need, reply.value)
                            && loads == old(loads)[reply.value := Load(old(loads), reply.value) + 1]
      ensures reply.Err? ==> loads == old(loads)
      ensures reply.Err? ==> reply.error !in {Unconfined, NoProvider}
      ensures reply == Err(NoCapacity) <==> reply.Err? && need.requested == "auto"
      ensures reply == Err(NotInstalled) <==> need.requested != "auto" && need.requested !in m.ready
      ensures reply == Err(OverLimit) <==>
        need.requested != "auto" && need.requested in m.ready && Load(old(loads), need.requested) >= 2
      ensures reply == Err(NotStrict) <==>
        && need.requested != "auto" && need.requested in m.ready && Load(old(loads), need.requested) < 2
        && need.strict && !m.isolates(need.requested)
    {
      if need.requested != AUTO && need.requested !in m.ready {
        return Err(NotInstalled);
      }
      var candidates := Candidates(m, need);
      RankedInOrder(m, loads, candidates);
      var ranked := Ranked(m, loads, candidates);
      if need.requested != AUTO {
        OneIsRanked(m, loads, need.requested);
      }
      for i := 0 to |ranked|
        invariant loads == old(loads)
        invariant forall j :: 0 <= j < i ==> !Eligible(m, loads, need, ranked[j])
        invariant need.requested != AUTO && i > 0 ==> Load(loads, need.requested) >= 2
      {
        var backend := ranked[i];
        assert backend in ranked;
        if Load(loads, backend) >= MAX_PER_BACKEND {
          continue;
        }
        if need.strict && !m.isolates(backend) {
          if need.requested != AUTO {
            return Err(NotStrict);
          }
          continue;
        }
        if !m.supports(backend, need.mode) {
          if need.requested != AUTO {
            return Err(WrongMode);
          }
          continue;
        }
        FirstEligibleIsBest(m, loads, need, candidates, ranked, i);
        loads := loads[backend := Load(loads, backend) + 1];
        return Ok(backend);
      }
      NoneEligible(m, loads, need, candidates, ranked);
      return Err(if need.requested == AUTO then NoCapacity else OverLimit);
    }

    /** Allocates a whole batch, in member order. A member that would be given an
        unconfined backend without having asked for it ends the planning: no other
        backend is tried for it. */
    method PlanBatch(needs: seq<Need>) returns (reply: Result<seq<string>, Refusal>)
      modifies this
      ensures reply.Ok? <==> m.ready != [] && CanPlan(m, needs)
      ensures reply.Ok? ==> IsPlan(m, needs, reply.value) && loads == LoadsOf(reply.value)
      ensures reply.Err? && m.ready != [] ==>
        exists done :: |done| < |needs| && IsPlan(m, needs[..|done|], done)
                       && Blocks(m, LoadsOf(done), needs[|done|], reply.error)
    {
      loads := map[];
      if m.ready == [] {
        return Err(NoProvider);
      }
      var chosen: seq<string> := [];
      for i := 0 to |needs|
        invariant |chosen| == i && IsPlan(m, needs[..i], chosen) && loads == LoadsOf(chosen)
      {
        ghost var before := loads;
        var selected := SelectBackend(needs[i]);
        if selected.Err? {
          BlockedCannotPlan(m, needs, chosen, selected.error);
          return Err(selected.error);
        }
        var backend := selected.value;
        if !needs[i].strict && !m.isolates(backend) && !needs[i].allowUnconfined {
          assert IsBest(m, before, needs[i], backend);
          BlockedCannotPlan(m, needs, chosen, Unconfined);
          return Err(Unconfined);
        }
        PlanGrows(m, needs, chosen, backend);
        chosen := chosen + [backend];
      }
      assert needs[..|needs|] == needs;
      return Ok(chosen);
    }
  }

  // ------------------------------------------------------------- a whole batch

  /** How often each backend is used. */
  function LoadsOf(chosen: seq<string>): Loads {
    if chosen == [] then map[]
    else
      var before := LoadsOf(chosen[..|chosen| - 1]);
      before[chosen[|chosen| - 1] := Load(before, chosen[|chosen| - 1]) + 1]
  }

  /** Every member got the best backend that was left for it. */
  predicate IsAllocation(m: Market, needs: seq<Need>, chosen: seq<string>)
    decreases |chosen|
  {
    |chosen| == |needs|
    && (chosen == [] ||
        (var k := |chosen| - 1;
         IsAllocation(m, needs[..k], chosen[..k]) && IsBest(m, LoadsOf(chosen[..k]), needs[k], chosen[k])))
  }

  /** A plan honours explicit choices, modes and strictness, and uses no backend
      more than twice. */
  lemma {:induction false} AllocationsHonourNeeds(m: Market, needs: seq<Need>, chosen: seq<string>)
    requires IsAllocation(m, needs, chosen)
    ensures |chosen| == |needs|
    ensures forall i :: 0 <= i < |needs| ==>
      && chosen[i] in m.ready && (needs[i].requested != "auto" ==> chosen[i] == needs[i].requested)
      && (needs[i].strict ==> m.isolates(chosen[i])) && m.supports(chosen[i], needs[i].mode)
    ensures forall backend :: backend in LoadsOf(chosen) ==> LoadsOf(chosen)[backend] <= 2
    decreases |chosen|
  {
    if chosen != [] {
      AllocationsHonourNeeds(m, needs[..|chosen| - 1], chosen[..|chosen| - 1]);
    }
  }

  /** The loads each member finds are those of the members before it. */
  lemma {:induction false} AllocationIsStepwise(m: Market, needs: seq<Need>, chosen: seq<string>)
    requires |chosen| == |needs|
    requires forall i :: 0 <= i < |needs| ==> IsBest(m, LoadsOf(chosen[..i]), needs[i], chosen[i])
    ensures IsAllocation(m, needs, chosen)
    decreases |chosen|
  {
    if chosen != [] {
      var k := |chosen| - 1;
      forall i | 0 <= i < k
        ensures IsBest(m, LoadsOf(chosen[..k][..i]), needs[..k][i], chosen[..k][i]) {
        assert chosen[..k][..i] == chosen[..i];
      }
      AllocationIsStepwise(m, needs[..k], chosen[..k]);
    }
  }

  lemma StepsOfAllocation(m: Market, needs: seq<Need>, chosen: seq<string>, i: nat)
    requires IsAllocation(m, needs, chosen) && i < |needs|
    ensures IsBest(m, LoadsOf(chosen[..i]), needs[i], chosen[i])
  {
    AllocationPrefix(m, needs, chosen, i + 1);
    assert needs[..i + 1][..i] == needs[..i] && chosen[..i + 1][..i] == chosen[..i];
  }

  /** The backend is ready, the one the member asked for if it asked for one, isolates
      a strict member, supports the mode, and is used by less than two before. */
  predicate Suits(m: Market, need: Need, before: seq<string>, b: string) {
    && b in m.ready && need.requested in {"auto", b} && (!need.strict || m.isolates(b)) && m.supports(b, need.mode)
    && multiset(before)[b] < 2
  }

  /** Of all backends that suit, the one used least, and of these the first registered;
      and the member consented if nothing isolates it there. */
  predicate GreedyChoice(m: Market, need: Need, before: seq<string>, b: string) {
    && Suits(m, need, before, b) && (m.isolates(b) || need.allowUnconfined)
    && forall other :: other in m.ready && Suits(m, need, before, other) ==>
         || multiset(before)[b] < multiset(before)[other]
         || (multiset(before)[b] == multiset(before)[other] && IndexIn(m.ready, b) <= IndexIn(m.ready, other))
  }

  lemma GreedyChoicesAreBest(m: Market, need: Need, before: seq<string>, b: string)
    ensures GreedyChoice(m, need, before, b) <==> IsBest(m, LoadsOf(before), need, b) && Permitted(m, need, b)
  {
    forall x ensures Load(LoadsOf(before), x) == multiset(before)[x] {
      LoadsCountUses(before, x);
    }
    forall x ensures Suits(m, need, before, x) <==> Eligible(m, LoadsOf(before), need, x) {
    }
  }

  /** A plan is one greedy choice after the other, and nothing else is a plan. */
  lemma PlansAreGreedyChoices(m: Market, needs: seq<Need>, chosen: seq<string>)
    ensures IsPlan(m, needs, chosen) <==>
      |chosen| == |needs| && forall i :: 0 <= i < |needs| ==> GreedyChoice(m, needs[i], chosen[..i], chosen[i])
  {
    if |chosen| == |needs| {
      forall i | 0 <= i < |needs|
        ensures GreedyChoice(m, needs[i], chosen[..i], chosen[i])
                <==> IsBest(m, LoadsOf(chosen[..i]), needs[i], chosen[i]) && Permitted(m, needs[i], chosen[i]) {
        GreedyChoicesAreBest(m, needs[i], chosen[..i], chosen[i]);
      }
      if IsAllocation(m, needs, chosen) {
        forall i | 0 <= i < |needs| ensures IsBest(m, LoadsOf(chosen[..i]), needs[i], chosen[i]) {
          StepsOfAllocation(m, needs, chosen, i);
        }
      } else if forall i :: 0 <= i < |needs| ==> GreedyChoice(m, needs[i], chosen[..i], chosen[i]) {
        AllocationIsStepwise(m, needs, chosen);
      }
    }
  }

  /** Loads count uses. */
  lemma {:induction false} LoadsCountUses(chosen: seq<string>, backend: string)
    ensures Load(LoadsOf(chosen), backend) == multiset(chosen)[backend]
    decreases |chosen|
  {
    if chosen != [] {
      var k := |chosen| - 1;
      assert chosen == chosen[..k] + [chosen[k]];
      LoadsCountUses(chosen[..k], backend);
    }
  }

  /** The allocation is determined by its inputs. */
  lemma {:induction false} AllocationIsUnique(m: Market, needs: seq<Need>, a: seq<string>, b: seq<string>)
    requires IsAllocation(m, needs, a) && IsAllocation(m, needs, b)
    ensures a == b
    decreases |a|
  {
    if a != [] {
      var k := |a| - 1;
      AllocationIsUnique(m, needs[..k], a[..k], b[..k]);
      BestIsUnique(m, LoadsOf(a[..k]), needs[k], a[k], b[k]);
      assert a == a[..k] + [a[k]] && b == b[..k] + [b[k]];
    }
  }

  /** The member may run on this backend: it is confined there, or asked for strict
      isolation, or consented to run unconfined. */
  predicate Permitted(m: Market, need: Need, backend: string) {
    need.strict || m.isolates(backend) || need.allowUnconfined
  }

  /** An allocation in which every member may run where it is put. */
  predicate IsPlan(m: Market, needs: seq<Need>, chosen: seq<string>) {
    IsAllocation(m, needs, chosen) && AllPermitted(m, needs, chosen)
  }

  predicate AllPermitted(m: Market, needs: seq<Need>, chosen: seq<string>)
    requires |chosen| == |needs|
  {
    forall i :: 0 <= i < |needs| ==> Permitted(m, needs[i], chosen[i])
  }

  ghost predicate CanPlan(m: Market, needs: seq<Need>) {
    exists chosen :: IsPlan(m, needs, chosen)
  }

  /** What ends a planning: nothing is left, or the best backend is not permitted. */
  ghost predicate Blocks(m: Market, loads: Loads, need: Need, why: Refusal) {
    if why == Unconfined then exists b :: IsBest(m, loads, need, b) && !Permitted(m, need, b) else Full(m, loads, need)
  }

  lemma {:induction false} AllocationPrefix(m: Market, needs: seq<Need>, chosen: seq<string>, n: nat)
    requires IsAllocation(m, needs, chosen) && n <= |needs|
    ensures IsAllocation(m, needs[..n], chosen[..n])
    decreases |chosen|
  {
    if n == |needs| {
      assert needs[..n] == needs && chosen[..n] == chosen;
    } else {
      var k := |chosen| - 1;
      AllocationPrefix(m, needs[..k], chosen[..k], n);
      assert needs[..k][..n] == needs[..n] && chosen[..k][..n] == chosen[..n];
    }
  }

  lemma AllocationGrows(m: Market, needs: seq<Need>, done: seq<string>, backend: string)
    requires |done| < |needs| && IsAllocation(m, needs[..|done|], done)
    requires IsBest(m, LoadsOf(done), needs[|done|], backend)
    ensures IsAllocation(m, needs[..|done| + 1], done + [backend])
    ensures LoadsOf(done + [backend]) == LoadsOf(done)[backend := Load(LoadsOf(done), backend) + 1]
  {
    var k, more, wanted := |done|, done + [backend], needs[..|done| + 1];
    assert more[..k] == done && wanted[..k] == needs[..k] && more != [];
  }

  lemma PlanGrows(m: Market, needs: seq<Need>, done: seq<string>, backend: string)
    requires |done| < |needs| && IsPlan(m, needs[..|done|], done)
    requires IsBest(m, LoadsOf(done), needs[|done|], backend) && Permitted(m, needs[|done|], backend)
    ensures IsPlan(m, needs[..|done| + 1], done + [backend])
    ensures LoadsOf(done + [backend]) == LoadsOf(done)[backend := Load(LoadsOf(done), backend) + 1]
  {
    AllocationGrows(m, needs, done, backend);
    PermittedGrows(m, needs, done, backend);
  }

  lemma PermittedGrows(m: Market, needs: seq<Need>, done: seq<string>, backend: string)
    requires |done| < |needs| && AllPermitted(m, needs[..|done|], done) && Permitted(m, needs[|done|], backend)
    ensures AllPermitted(m, needs[..|done| + 1], done + [backend])
  {
    forall i | 0 <= i < |done| ensures Permitted(m, needs[i], done[i]) {
      assert Permitted(m, needs[..|done|][i], done[i]);
    }
  }

  /** Every allocation of the batch starts like this one and goes on with the best. */
  lemma AllocationGoesOn(m: Market, needs: seq<Need>, done: seq<string>, chosen: seq<string>)
    requires |done| < |needs| && IsAllocation(m, needs[..|done|], done) && IsAllocation(m, needs, chosen)
    ensures IsBest(m, LoadsOf(done), needs[|done|], chosen[|done|])
  {
    var n := |done|;
    AllocationPrefix(m, needs, chosen, n);
    AllocationIsUnique(m, needs[..n], chosen[..n], done);
    AllocationPrefix(m, needs, chosen, n + 1);
    assert needs[..n + 1][..n] == needs[..n] && chosen[..n + 1][..n] == chosen[..n];
  }

  /** A prefix that cannot be continued shows that there is no plan at all. */
  lemma BlockedCannotPlan(m: Market, needs: seq<Need>, done: seq<string>, why: Refusal)
    requires |done| < |needs| && IsPlan(m, needs[..|done|], done) && Blocks(m, LoadsOf(done), needs[|done|], why)
    ensures !CanPlan(m, needs)
  {
    forall chosen | IsAllocation(m, needs, chosen) ensures !IsPlan(m, needs, chosen) {
      var need, next := needs[|done|], chosen[|done|];
      AllocationGoesOn(m, needs, done, chosen);
      if why == Unconfined {
        var b :| IsBest(m, LoadsOf(done), need, b) && !Permitted(m, need, b);
        BestIsUnique(m, LoadsOf(done), need, b, next);
      }
    }
  }

  // --------------------------------------------- identical members that don't care

  function CapableSet(m: Market, need: Need): set<string> {
    set backend | backend in m.ready && Capable(m, need, backend)
  }

  function LoadedAtLeast(all: set<string>, loads: Loads, n: nat): set<string> {
    set backend | backend in all && Load(loads, backend) >= n
  }

  predicate Alike(needs: seq<Need>, need: Need) {
    need.requested == AUTO && forall i :: 0 <= i < |needs| ==> needs[i] == need
  }

  predicate Balanced(all: set<string>, loads: Loads) {
    forall a, b :: a in all && b in all ==> Load(loads, a) <= Load(loads, b) + 1
  }

  predicate WithinLimit(all: set<string>, loads: Loads) {
    forall b :: b in all ==> Load(loads, b) <= MAX_PER_BACKEND
  }

  lemma SubsetIsSmaller(a: set<string>, b: set<string>)
    requires a <= b
    ensures |a| <= |b| && (|a| == |b| ==> a == b)
  {
    assert b == a + (b - a) && a !! (b - a);
  }

  /** The best capable backend has no more members than any other. */
  lemma BestIsLeastLoaded(m: Market, need: Need, loads: Loads, b: string)
    requires need.requested == AUTO && IsBest(m, loads, need, b)
    ensures forall x :: x in CapableSet(m, need) ==> Load(loads, b) <= Load(loads, x)
  {
    forall x | x in CapableSet(m, need) ensures Load(loads, b) <= Load(loads, x) {
      if Load(loads, x) < MAX_PER_BACKEND {
        assert Eligible(m, loads, need, x);
      }
    }
  }

  /** One backend has one more member, the others have what they had. */
  ghost predicate OneMore(before: Loads, after: Loads, b: string) {
    Load(after, b) == Load(before, b) + 1 && forall x :: x != b ==> Load(after, x) == Load(before, x)
  }

  /** Giving the least loaded backend one more member keeps the balance, */
  lemma OneMoreKeepsBalance(all: set<string>, before: Loads, after: Loads, b: string)
    requires b in all && Load(before, b) < MAX_PER_BACKEND && Balanced(all, before) && WithinLimit(all, before)
    requires (forall x :: x in all ==> Load(before, b) <= Load(before, x)) && OneMore(before, after, b)
    ensures Balanced(all, after) && WithinLimit(all, after)
  {
  }

  /** and fills one place. */
  lemma OneMoreFillsOnePlace(all: set<string>, before: Loads, after: Loads, b: string)
    requires b in all && Load(before, b) < MAX_PER_BACKEND && OneMore(before, after, b)
    ensures |LoadedAtLeast(all, after, 1)| + |LoadedAtLeast(all, after, 2)|
         == |LoadedAtLeast(all, before, 1)| + |LoadedAtLeast(all, before, 2)| + 1
  {
    var one, two := LoadedAtLeast(all, before, 1), LoadedAtLeast(all, before, 2);
    if Load(before, b) == 0 {
      assert LoadedAtLeast(all, after, 1) == one + {b};
      assert LoadedAtLeast(all, after, 2) == two;
    } else {
      assert LoadedAtLeast(all, after, 1) == one;
      assert LoadedAtLeast(all, after, 2) == two + {b};
    }
  }

  /** Identical `auto` members are spread evenly, and together fill exactly as many
      places as there are members. */
  lemma {:induction false} AlikeMembersSpread(m: Market, needs: seq<Need>, need: Need, chosen: seq<string>)
    requires Alike(needs, need) && IsAllocation(m, needs, chosen)
    ensures var all := CapableSet(m, need);
      var loads := LoadsOf(chosen);
      && Balanced(all, loads) && WithinLimit(all, loads)
      && |LoadedAtLeast(all, loads, 1)| + |LoadedAtLeast(all, loads, 2)| == |needs|
    decreases |chosen|
  {
    var all, after := CapableSet(m, need), LoadsOf(chosen);
    if chosen == [] {
      assert LoadedAtLeast(all, after, 1) == {} && LoadedAtLeast(all, after, 2) == {};
    } else {
      var k := |chosen| - 1;
      AlikeMembersSpread(m, needs[..k], need, chosen[..k]);
      BestIsLeastLoaded(m, need, LoadsOf(chosen[..k]), chosen[k]);
      OneMoreKeepsBalance(all, LoadsOf(chosen[..k]), after, chosen[k]);
      OneMoreFillsOnePlace(all, LoadsOf(chosen[..k]), after, chosen[k]);
    }
  }

  /** For identical `auto` members the loads differ by at most one, and there is no
      room left exactly when there are two members per capable backend. */
  lemma AlikeMembersFit(m: Market, needs: seq<Need>, need: Need, chosen: seq<string>)
    requires Alike(needs, need) && IsAllocation(m, needs, chosen)
    ensures |needs| <= MAX_PER_BACKEND * |CapableSet(m, need)|
    ensures Balanced(CapableSet(m, need), LoadsOf(chosen))
    ensures Full(m, LoadsOf(chosen), need) <==> |needs| == MAX_PER_BACKEND * |CapableSet(m, need)|
  {
    AlikeMembersSpread(m, needs, need, chosen);
    var loads := LoadsOf(chosen);
    var all := CapableSet(m, need);
    var one, two := LoadedAtLeast(all, loads, 1), LoadedAtLeast(all, loads, 2);
    SubsetIsSmaller(one, all);
    SubsetIsSmaller(two, all);
    if Full(m, loads, need) {
      assert one == all && two == all;
    } else {
      var b :| b in m.ready && Eligible(m, loads, need, b);
      assert b in all && b !in two;
    }
  }

  /** And as long as there are no more than that, they can be allocated. */
  lemma {:induction false} AlikeMembersSucceed(m: Market, needs: seq<Need>, need: Need) returns (chosen: seq<string>)
    requires Alike(needs, need) && |needs| <= MAX_PER_BACKEND * |CapableSet(m, need)|
    ensures IsAllocation(m, needs, chosen)
    decreases |needs|
  {
    if needs == [] {
      chosen := [];
    } else {
      var k := |needs| - 1;
      var done := AlikeMembersSucceed(m, needs[..k], need);
      AlikeMembersFit(m, needs[..k], need, done);
      var b := BestOf(m, LoadsOf(done), need);
      chosen := done + [b];
      assert chosen[..k] == done;
    }
  }

  ghost predicate CanAllocate(m: Market, needs: seq<Need>) {
    exists chosen :: IsAllocation(m, needs, chosen)
  }

  /** Allocation of identical `auto` members succeeds exactly when there are at most
      two for every capable backend. */
  lemma AlikeMembersSucceedIff(m: Market, needs: seq<Need>, need: Need)
    requires Alike(needs, need)
    ensures CanAllocate(m, needs) <==> |needs| <= MAX_PER_BACKEND * |CapableSet(m, need)|
  {
    if CanAllocate(m, needs) {
      var chosen :| IsAllocation(m, needs, chosen);
      AlikeMembersFit(m, needs, need, chosen);
    } else if |needs| <= MAX_PER_BACKEND * |CapableSet(m, need)| {
      var chosen := AlikeMembersSucceed(m, needs, need);
      assert false;
    }
  }

  /** With as many identical members as capable backends each of these is used. */
  lemma AlikeMembersReachAll(m: Market, needs: seq<Need>, need: Need, chosen: seq<string>)
    requires Alike(needs, need) && IsAllocation(m, needs, chosen) && |needs| >= |CapableSet(m, need)|
    ensures forall b :: b in CapableSet(m, need) ==> b in chosen
  {
    var all, loads := CapableSet(m, need), LoadsOf(chosen);
    AlikeMembersSpread(m, needs, need, chosen);
    forall b | b in all ensures b in chosen {
      LoadsCountUses(chosen, b);
      if Load(loads, b) == 0 {
        assert LoadedAtLeast(all, loads, 2) == {};
        SubsetIsSmaller(LoadedAtLeast(all, loads, 1), all);
      }
    }
  }

  /** The capable backends registered before this one. */
  function Earlier(m: Market, need: Need, backend: string): set<string>
    requires backend in m.ready
  {
    set b | b in CapableSet(m, need) && IndexIn(m.ready, b) < IndexIn(m.ready, backend)
  }

  function Used(chosen: seq<string>): set<string> {
    set b | b in chosen
  }

  /** Nothing in this set has an earlier capable backend outside it. */
  ghost predicate FromTheFirst(m: Market, need: Need, used: set<string>) {
    used <= CapableSet(m, need) && forall b :: b in used ==> Earlier(m, need, b) <= used
  }

  /** As long as they are no more than capable backends, identical members get one
      backend each, in registry order. */
  lemma {:induction false} AlikeMembersFillInOrder(m: Market, needs: seq<Need>, need: Need, chosen: seq<string>)
    requires Alike(needs, need) && IsAllocation(m, needs, chosen) && |needs| <= |CapableSet(m, need)|
    ensures FromTheFirst(m, need, Used(chosen)) && |Used(chosen)| == |needs|
    decreases |chosen|
  {
    if chosen == [] {
      assert Used(chosen) == {};
    } else {
      var k := |chosen| - 1;
      AlikeMembersFillInOrder(m, needs[..k], need, chosen[..k]);
      BestIsUnused(m, need, chosen[..k], chosen[k]);
      assert chosen == chosen[..k] + [chosen[k]];
      OneMoreFromTheFirst(m, need, Used(chosen[..k]), chosen[k]);
      assert Used(chosen) == Used(chosen[..k]) + {chosen[k]};
    }
  }

  lemma OneMoreFromTheFirst(m: Market, need: Need, used: set<string>, b: string)
    requires FromTheFirst(m, need, used) && b in CapableSet(m, need) && b !in used && Earlier(m, need, b) <= used
    ensures FromTheFirst(m, need, used + {b}) && |used + {b}| == |used| + 1
  {
  }

  /** With a capable backend unused, the best one is the first unused. */
  lemma BestIsUnused(m: Market, need: Need, done: seq<string>, b: string)
    requires need.requested == AUTO && IsBest(m, LoadsOf(done), need, b)
    requires FromTheFirst(m, need, Used(done)) && |Used(done)| < |CapableSet(m, need)|
    ensures b in CapableSet(m, need) && b !in Used(done) && Earlier(m, need, b) <= Used(done)
  {
    var all, loads := CapableSet(m, need), LoadsOf(done);
    BestIsLeastLoaded(m, need, loads, b);
    forall x ensures Load(loads, x) == 0 <==> x !in Used(done) {
      LoadsCountUses(done, x);
    }
    if all <= Used(done) {
      SubsetIsSmaller(all, Used(done));
      assert false;
    }
    forall x | x in all && x !in Used(done) ensures IndexIn(m.ready, b) <= IndexIn(m.ready, x) {
      assert Eligible(m, loads, need, x);
    }
  }

  /** Such a set is known by its size. */
  lemma SizeTellsWhichAreUsed(m: Market, need: Need, used: set<string>, b: string)
    requires FromTheFirst(m, need, used) && b in CapableSet(m, need)
    ensures b in used <==> |Earlier(m, need, b)| < |used|
  {
    if b in used {
      SubsetIsSmaller(Earlier(m, need, b) + {b}, used);
    } else {
      forall x | x in used ensures x in Earlier(m, need, b) {
        assert b !in Earlier(m, need, x);
      }
      SubsetIsSmaller(used, Earlier(m, need, b));
    }
  }

  /** Which backends identical members use: those with fewer earlier capable ones
      than there are members. */
  lemma AlikeMembersUse(m: Market, needs: seq<Need>, need: Need, chosen: seq<string>, b: string)
    requires Alike(needs, need) && IsAllocation(m, needs, chosen) && b in CapableSet(m, need)
    ensures b in chosen <==> |Earlier(m, need, b)| < |needs|
  {
    if |needs| >= |CapableSet(m, need)| {
      AlikeMembersReachAll(m, needs, need, chosen);
      SubsetIsSmaller(Earlier(m, need, b) + {b}, CapableSet(m, need));
    } else {
      AlikeMembersFillInOrder(m, needs, need, chosen);
      SizeTellsWhichAreUsed(m, need, Used(chosen), b);
    }
  }

  /** The members would all run where they are permitted to. */
  predicate AlikePermitted(m: Market, need: Need, n: nat) {
    forall b :: b in CapableSet(m, need) && |Earlier(m, need, b)| < n ==> Permitted(m, need, b)
  }

  /** A batch of identical `auto` members is planned exactly when there are at most
      two for every capable backend, and the first capable backends in registry
      order, as many as members, all are ones they may run on. */
  lemma AlikeMembersPlannedIff(m: Market, needs: seq<Need>, need: Need)
    requires Alike(needs, need)
    ensures CanPlan(m, needs) <==>
      |needs| <= MAX_PER_BACKEND * |CapableSet(m, need)| && AlikePermitted(m, need, |needs|)
  {
    AlikeMembersSucceedIff(m, needs, need);
    if CanAllocate(m, needs) {
      var chosen :| IsAllocation(m, needs, chosen);
      AllocationsHonourNeeds(m, needs, chosen);
      PlanIsTheAllocation(m, needs, chosen);
      forall b | b in CapableSet(m, need) ensures b in chosen <==> |Earlier(m, need, b)| < |needs| {
        AlikeMembersUse(m, needs, need, chosen, b);
      }
      assert AllPermitted(m, needs, chosen) <==> forall b :: b in chosen ==> Permitted(m, need, b);
    }
  }

  // ------------------------------------------------------- other ways to allocate

  /** Every member gets a capable backend, and none is used more than twice. */
  predicate IsAssignment(m: Market, needs: seq<Need>, chosen: seq<string>) {
    && |chosen| == |needs| && (forall i :: 0 <= i < |needs| ==> Capable(m, needs[i], chosen[i]))
    && forall backend :: backend in LoadsOf(chosen) ==> LoadsOf(chosen)[backend] <= MAX_PER_BACKEND
  }

  ghost predicate CanAssign(m: Market, needs: seq<Need>) {
    exists chosen :: IsAssignment(m, needs, chosen)
  }

  lemma {:induction false} AssignmentFillsPlaces(all: set<string>, chosen: seq<string>)
    requires forall i :: 0 <= i < |chosen| ==> chosen[i] in all
    requires forall backend :: backend in LoadsOf(chosen) ==> LoadsOf(chosen)[backend] <= MAX_PER_BACKEND
    ensures |LoadedAtLeast(all, LoadsOf(chosen), 1)| + |LoadedAtLeast(all, LoadsOf(chosen), 2)| == |chosen|
    decreases |chosen|
  {
    var after := LoadsOf(chosen);
    if chosen == [] {
      assert LoadedAtLeast(all, after, 1) == {} && LoadedAtLeast(all, after, 2) == {};
    } else {
      var k := |chosen| - 1;
      var before := LoadsOf(chosen[..k]);
      assert after[chosen[k]] <= MAX_PER_BACKEND;
      forall b | b in before ensures before[b] <= MAX_PER_BACKEND {
        assert after[b] <= MAX_PER_BACKEND;
      }
      AssignmentFillsPlaces(all, chosen[..k]);
      OneMoreFillsOnePlace(all, before, after, chosen[k]);
    }
  }

  /** For identical `auto` members the planner's order loses nothing: it allocates
      them whenever they can be assigned at all. */
  lemma AlikeMembersLoseNothing(m: Market, needs: seq<Need>, need: Need)
    requires Alike(needs, need)
    ensures CanAllocate(m, needs) <==> CanAssign(m, needs)
  {
    AlikeMembersSucceedIff(m, needs, need);
    if CanAllocate(m, needs) {
      var chosen :| IsAllocation(m, needs, chosen);
      AllocationsHonourNeeds(m, needs, chosen);
      assert IsAssignment(m, needs, chosen);
    } else if CanAssign(m, needs) {
      var chosen :| IsAssignment(m, needs, chosen);
      var all, loads := CapableSet(m, need), LoadsOf(chosen);
      AssignmentFillsPlaces(all, chosen);
      SubsetIsSmaller(LoadedAtLeast(all, loads, 1), all);
      SubsetIsSmaller(LoadedAtLeast(all, loads, 2), all);
      assert false;
    }
  }

  /** Two backends that both suit a member without a choice of its own. */
  predicate TwoSuit(m: Market, need: Need, a: string, b: string) {
    && m.ready == [a, b] && a != b && a != AUTO && need.requested == AUTO
    && Capable(m, need, a) && Capable(m, need, b)
  }

  /** Three such members, and one that asks for the first backend. */
  function FirstBackendLast(need: Need, a: string): seq<Need> {
    [need, need, need, need.(requested := a)]
  }

  lemma BestOfTwo(m: Market, need: Need, a: string, b: string, loads: Loads)
    requires TwoSuit(m, need, a, b)
    ensures Load(loads, a) <= Load(loads, b) && Load(loads, a) < MAX_PER_BACKEND ==> IsBest(m, loads, need, a)
    ensures Load(loads, b) < Load(loads, a) && Load(loads, b) < MAX_PER_BACKEND ==> IsBest(m, loads, need, b)
  {
    assert IndexIn(m.ready, a) == 0 && IndexIn(m.ready, b) == 1;
  }

  lemma LoadsGrow(done: seq<string>, b: string)
    ensures LoadsOf(done + [b]) == LoadsOf(done)[b := Load(LoadsOf(done), b) + 1]
  {
    assert (done + [b])[..|done|] == done;
  }

  lemma LoadsOfTwo(a: string, b: string)
    requires a != b
    ensures LoadsOf([a]) == map[a := 1] && LoadsOf([a, b]) == map[a := 1, b := 1]
  {
    LoadsGrow([], a);
    LoadsGrow([a], b);
    assert [] + [a] == [a] && [a] + [b] == [a, b];
  }

  lemma TwoAreServed(m: Market, need: Need, a: string, b: string)
    requires TwoSuit(m, need, a, b)
    ensures IsAllocation(m, FirstBackendLast(need, a)[..2], [a, b])
  {
    var needs := FirstBackendLast(need, a);
    LoadsOfTwo(a, b);
    BestOfTwo(m, need, a, b, map[]);
    AllocationGrows(m, needs, [], a);
    assert [] + [a] == [a] && [a] + [b] == [a, b];
    BestOfTwo(m, need, a, b, LoadsOf([a]));
    AllocationGrows(m, needs, [a], b);
  }

  /** The first three members use up the first backend. */
  lemma ThreeAreServed(m: Market, need: Need, a: string, b: string)
    requires TwoSuit(m, need, a, b)
    ensures IsAllocation(m, FirstBackendLast(need, a)[..3], [a, b, a]) && LoadsOf([a, b, a]) == map[a := 2, b := 1]
  {
    TwoAreServed(m, need, a, b);
    LoadsOfTwo(a, b);
    LoadsGrow([a, b], a);
    BestOfTwo(m, need, a, b, LoadsOf([a, b]));
    AllocationGrows(m, FirstBackendLast(need, a), [a, b], a);
    assert [a, b] + [a] == [a, b, a];
  }

  lemma FourCanBeAssigned(m: Market, need: Need, a: string, b: string)
    requires TwoSuit(m, need, a, b)
    ensures IsAssignment(m, FirstBackendLast(need, a), [a, b, b, a])
  {
    LoadsOfTwo(a, b);
    LoadsGrow([a, b], b);
    LoadsGrow([a, b, b], a);
    assert [a, b] + [b] == [a, b, b] && [a, b, b] + [a] == [a, b, b, a];
  }

  /** In general it does: members are served in their order, so three `auto` members
      leave no place for a fourth that asks for the first backend, although the
      four could be assigned. */
  lemma OrderCanLose(m: Market, need: Need, a: string, b: string)
    requires TwoSuit(m, need, a, b)
    ensures CanAssign(m, FirstBackendLast(need, a)) && !CanAllocate(m, FirstBackendLast(need, a))
  {
    FourCanBeAssigned(m, need, a, b);
    ThreeAreServed(m, need, a, b);
    forall chosen ensures !IsAllocation(m, FirstBackendLast(need, a), chosen) {
      if IsAllocation(m, FirstBackendLast(need, a), chosen) {
        AllocationGoesOn(m, FirstBackendLast(need, a), [a, b, a], chosen);
        assert false;
      }
    }
  }

  /** Whether there is a plan is decided by the one allocation there is. */
  lemma PlanIsTheAllocation(m: Market, needs: seq<Need>, chosen: seq<string>)
    requires IsAllocation(m, needs, chosen)
    ensures CanPlan(m, needs) <==> AllPermitted(m, needs, chosen)
  {
    if CanPlan(m, needs) {
      var plan :| IsPlan(m, needs, plan);
      AllocationIsUnique(m, needs, plan, chosen);
    } else {
      assert !IsPlan(m, needs, chosen);
    }
  }

  /** Some eligible backend is ranked before all others. */
  lemma BestOf(m: Market, loads: Loads, need: Need) returns (best: string)
    requires !Full(m, loads, need)
    ensures IsBest(m, loads, need, best)
  {
    best :| best in m.ready && Eligible(m, loads, need, best);
    for i := 0 to |m.ready|
      invariant Eligible(m, loads, need, best)
      invariant forall j :: 0 <= j < i && Eligible(m, loads, need, m.ready[j]) ==> Before(m, loads, best, m.ready[j])
    {
      if Eligible(m, loads, need, m.ready[i]) && !Before(m, loads, best, m.ready[i]) {
        best := m.ready[i];
      }
    }
  }
}
