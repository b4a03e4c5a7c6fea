/** Orchestration manifests: the persisted record of one batch start, printed to
    and parsed from a JSON mapping that repeats and re-checks its whole plan. */
module Manifests {
  import opened Common
  import opened BatchPlans

  datatype Member = Member(roleId: string, backend: string, runId: string, timeoutSeconds: real)

  datatype Manifest = Manifest(
    orchestrationId: string, requestId: string, planSha256: string, createdAt: real, updatedAt: real,
    revision: nat, cancelRequested: bool, members: seq<Member>, plan: BatchPlan)

  const MANIFEST_FIELDS := {"schema_version", "orchestration_id", "request_id", "plan_sha256", "created_at",
                            "updated_at", "revision", "cancel_requested", "members", "plan"}
  const MANIFEST_MEMBER_FIELDS := {"role_id", "backend", "run_id", "timeout_seconds"}

  // ---------------------------------------------------------- deterministic ids

  /** The first sixteen digits, as the store abbreviates a digest. */
  function Short(digest: string): string {
    if |digest| <= 16 then digest else digest[..16]
  }

  function OrchestrationIdFor(out: Outside, requestId: string, planSha256: string): string {
    "orch-" + Short(out.sha256(requestId + planSha256))
  }

  function RunIdFor(out: Outside, orchestrationId: string, index: nat): string {
    "run-" + Short(out.sha256(orchestrationId + Decimal(index)))
  }

  /** How the store derives its names: a plan's digest, an orchestration's id, a
      member run's id, and the file a request's tombstone lives in. */
  datatype Ids = Ids(plan: BatchPlan -> string, orchestration: (string, string) -> string,
                     run: (string, nat) -> string, request: string -> string)

  function IdsFrom(out: Outside): Ids {
    Ids((plan: BatchPlan) => PlanSha256(out, plan),
        (requestId: string, digest: string) => OrchestrationIdFor(out, requestId, digest),
        (orchestrationId: string, index: nat) => RunIdFor(out, orchestrationId, index),
        (requestId: string) => out.sha256(requestId))
  }

  predicate IsOrchestrationId(s: string) {
    "orch-" <= s && |s| == 21 && IsLowerHex(s[5..])
  }

  predicate IsRunId(s: string) {
    "run-" <= s && |s| == 20 && IsLowerHex(s[4..])
  }

  lemma DerivedIdsAreWellFormed(out: Outside, requestId: string, planSha256: string, orchestrationId: string,
      index: nat)
    requires Settled(out)
    ensures IsOrchestrationId(OrchestrationIdFor(out, requestId, planSha256))
    ensures IsRunId(RunIdFor(out, orchestrationId, index))
  {
    var a, b := out.sha256(requestId + planSha256), out.sha256(orchestrationId + Decimal(index));
    assert IsSha256(a) && IsSha256(b);
    assert ("orch-" + a[..16])[5..] == a[..16] && ("run-" + b[..16])[4..] == b[..16];
  }

  // ---------------------------------------------------------------- what is written

  function MembersOf(ids: Ids, orchestrationId: string, plan: BatchPlan): seq<Member> {
    seq(|plan.members|, i requires 0 <= i < |plan.members| =>
      Member(plan.members[i].roleId, plan.members[i].backend, ids.run(orchestrationId, i),
             plan.members[i].timeoutSeconds))
  }

  function NewManifest(ids: Ids, plan: BatchPlan, now: real): Manifest {
    var digest := ids.plan(plan);
    var id := ids.orchestration(plan.requestId, digest);
    Manifest(id, plan.requestId, digest, now, now, 0, false, MembersOf(ids, id, plan), plan)
  }

  function CancelledManifest(m: Manifest, now: real): Manifest {
    m.(updatedAt := now, revision := m.revision + 1, cancelRequested := true)
  }

  function MemberJson(m: Member): Mapping {
    map["role_id" := JStr(m.roleId), "backend" := JStr(m.backend), "run_id" := JStr(m.runId),
        "timeout_seconds" := JFloat(m.timeoutSeconds)]
  }

  function MemberList(members: seq<Member>): seq<Json> {
    seq(|members|, i requires 0 <= i < |members| => JObj(MemberJson(members[i])))
  }

  function ManifestMapping(out: Outside, m: Manifest): Mapping {
    map["schema_version" := JInt(1), "orchestration_id" := JStr(m.orchestrationId), "request_id" := JStr(m.requestId),
        "plan_sha256" := JStr(m.planSha256), "created_at" := JFloat(m.createdAt), "updated_at" := JFloat(m.updatedAt),
        "revision" := JInt(m.revision), "cancel_requested" := JBool(m.cancelRequested),
        "members" := JList(MemberList(m.members)), "plan" := JObj(PlanMapping(out, m.plan))]
  }

  // -------------------------------------------------------------------- what is read

  /** One stored member must repeat the planned member and the derived run id. */
  function MemberFrom(out: Outside, j: Json, planned: BatchMemberPlan, orchestrationId: string, index: nat):
    Result<Member, Problem>
  {
    if !(j.JObj? && j.fields.Keys == MANIFEST_MEMBER_FIELDS) then Err(BadFields) else
    var role :- SafeIdOf(Get(j.fields, "role_id"), MAX_ROLE_ID_LENGTH);
    :- Need(role == planned.roleId, Mismatch);
    :- Need(Get(j.fields, "backend") == JStr(planned.backend), Mismatch);
    var runId := Get(j.fields, "run_id");
    :- Need(runId.JStr? && IsRunId(runId.text) && runId.text == RunIdFor(out, orchestrationId, index), Mismatch);
    var timeout := NumberOf(Get(j.fields, "timeout_seconds"));
    :- Need(timeout == Some(planned.timeoutSeconds), Mismatch);
    Ok(Member(role, planned.backend, runId.text, planned.timeoutSeconds))
  }

  function ManifestMemberReader(out: Outside, planned: seq<BatchMemberPlan>, orchestrationId: string):
    (nat, Json) -> Result<Member, Problem>
  {
    (i: nat, j: Json) => if i < |planned| then MemberFrom(out, j, planned[i], orchestrationId, i) else Err(BadMembers)
  }

  function ManifestFromMapping(out: Outside, p: Mapping): Result<Manifest, Problem> {
    ManifestWith(out, p, if Get(p, "plan").JObj? then PlanFromMapping(out, Get(p, "plan").fields) else Err(BadFields))
  }

  /** `parsed` is what the embedded plan parsed to. */
  function ManifestWith(out: Outside, p: Mapping, parsed: Result<BatchPlan, Problem>): Result<Manifest, Problem> {
    var schema := Get(p, "schema_version");
    :- Need(p.Keys == MANIFEST_FIELDS, BadFields);
    :- Need(schema == JInt(1), BadSchema);
    var id := Get(p, "orchestration_id");
    :- Need(id.JStr? && IsOrchestrationId(id.text), BadId);
    var digest :- DigestOf(Get(p, "plan_sha256"));
    var created, updated := NumberOf(Get(p, "created_at")), NumberOf(Get(p, "updated_at"));
    :- Need(created.Some? && created.value >= 0.0, BadTime);
    :- Need(updated.Some? && updated.value >= created.value, BadTime);
    var revision := Get(p, "revision");
    :- Need(revision.JInt? && revision.number >= 0, BadRevision);
    var cancel :- FlagOf(Get(p, "cancel_requested"));
    var plan :- parsed;
    :- Need(Get(p, "request_id") == JStr(plan.requestId), Mismatch);
    :- Need(PlanSha256(out, plan) == digest, Mismatch);
    :- Need(OrchestrationIdFor(out, plan.requestId, digest) == id.text, Mismatch);
    var items := Get(p, "members");
    :- Need(items.JList? && |items.items| == |plan.members|, BadMembers);
    var members :- Traverse(ManifestMemberReader(out, plan.members, id.text), items.items, 0);
    Ok(Manifest(id.text, plan.requestId, digest, created.value, updated.value, revision.number, cancel, members, plan))
  }

  // ------------------------------------------------------------------- round trips

  lemma MemberJsonReads(m: Member)
    ensures var p := MemberJson(m);
      && p.Keys == MANIFEST_MEMBER_FIELDS && Get(p, "role_id") == JStr(m.roleId) && Get(p, "backend") == JStr(m.backend)
      && Get(p, "run_id") == JStr(m.runId) && Get(p, "timeout_seconds") == JFloat(m.timeoutSeconds)
  {
  }

  lemma ManifestMembersRoundTrip(out: Outside, planned: seq<BatchMemberPlan>, orchestrationId: string,
      members: seq<Member>)
    requires Settled(out) && |members| == |planned|
    requires forall i :: 0 <= i < |planned| ==>
      && IsSafeId(planned[i].roleId, MAX_ROLE_ID_LENGTH)
      && members[i] == Member(planned[i].roleId, planned[i].backend, RunIdFor(out, orchestrationId, i), planned[i].timeoutSeconds)
    ensures Traverse(ManifestMemberReader(out, planned, orchestrationId), MemberList(members), 0) == Ok(members)
  {
    var read := ManifestMemberReader(out, planned, orchestrationId);
    forall i | 0 <= i < |members| ensures read(i, MemberList(members)[i]) == Ok(members[i]) {
      DerivedIdsAreWellFormed(out, "", "", orchestrationId, i);
      MemberJsonReads(members[i]);
    }
    TraverseRoundTrip(read, MemberList(members), 0, members);
  }

  /** A manifest that repeats its own plan, whatever its clock readings. */
  ghost predicate Consistent(out: Outside, m: Manifest) {
    && ConstructiblePlan(out, m.plan)
    && m.requestId == m.plan.requestId && m.planSha256 == PlanSha256(out, m.plan)
    && m.orchestrationId == OrchestrationIdFor(out, m.requestId, m.planSha256)
    && m.members == MembersOf(IdsFrom(out), m.orchestrationId, m.plan)
  }

  lemma WrittenManifestsAreConsistent(out: Outside, plan: BatchPlan, now: real, m: Manifest, later: real)
    requires ConstructiblePlan(out, plan)
    ensures Consistent(out, NewManifest(IdsFrom(out), plan, now))
    ensures Consistent(out, m) ==> Consistent(out, CancelledManifest(m, later))
  {
  }

  predicate ReadsAsManifest(p: Mapping, m: Manifest, plan: Mapping) {
    && p.Keys == MANIFEST_FIELDS
    && Get(p, "schema_version") == JInt(1) && Get(p, "orchestration_id") == JStr(m.orchestrationId)
    && Get(p, "request_id") == JStr(m.requestId) && Get(p, "plan_sha256") == JStr(m.planSha256)
    && Get(p, "created_at") == JFloat(m.createdAt) && Get(p, "updated_at") == JFloat(m.updatedAt)
    && Get(p, "revision") == JInt(m.revision) && Get(p, "cancel_requested") == JBool(m.cancelRequested)
    && Get(p, "members") == JList(MemberList(m.members)) && Get(p, "plan") == JObj(plan)
  }

  lemma ManifestMappingReads(out: Outside, m: Manifest)
    ensures ReadsAsManifest(ManifestMapping(out, m), m, PlanMapping(out, m.plan))
  {
  }

  lemma ManifestReads(out: Outside, m: Manifest, p: Mapping, plan: Mapping)
    requires m.requestId == m.plan.requestId && m.planSha256 == PlanSha256(out, m.plan)
    requires m.orchestrationId == OrchestrationIdFor(out, m.requestId, m.planSha256)
    requires |m.members| == |m.plan.members| && ReadsAsManifest(p, m, plan)
    requires Traverse(ManifestMemberReader(out, m.plan.members, m.orchestrationId), MemberList(m.members), 0) == Ok(m.members)
    requires IsOrchestrationId(m.orchestrationId) && IsSha256(m.planSha256)
    ensures ManifestWith(out, p, Ok(m.plan)) == if 0.0 <= m.createdAt <= m.updatedAt then Ok(m) else Err(BadTime)
  {
    assert DigestOf(Get(p, "plan_sha256")) == Ok(m.planSha256) && FlagOf(Get(p, "cancel_requested")) == Ok(m.cancelRequested);
    assert NumberOf(Get(p, "created_at")) == Some(m.createdAt) && NumberOf(Get(p, "updated_at")) == Some(m.updatedAt);
    if !(0.0 <= m.createdAt <= m.updatedAt) {
      assert ManifestWith(out, p, Ok(m.plan)) == Err(BadTime);
    }
  }

  /** A manifest parses back to itself exactly when its clock readings are in
      order; otherwise the parser refuses it. In particular a cancellation stamped
      before the creation makes the store's own manifest unreadable. */
  lemma ManifestRoundTrip(out: Outside, m: Manifest)
    requires Settled(out) && Consistent(out, m)
    ensures ManifestFromMapping(out, ManifestMapping(out, m))
            == if 0.0 <= m.createdAt <= m.updatedAt then Ok(m) else Err(BadTime)
  {
    PlanRoundTrip(out, m.plan);
    MadePlanIsNormal(out, m.plan);
    forall i | 0 <= i < |m.plan.members| ensures IsSafeId(m.plan.members[i].roleId, MAX_ROLE_ID_LENGTH) {
      MemberRoundTrip(out, m.plan.members[i]);
    }
    ManifestMembersRoundTrip(out, m.plan.members, m.orchestrationId, m.members);
    DerivedIdsAreWellFormed(out, m.requestId, m.planSha256, "", 0);
    ManifestMappingReads(out, m);
    ManifestReads(out, m, ManifestMapping(out, m), PlanMapping(out, m.plan));
  }

  /** Every manifest the store writes, at its creation and at each cancellation,
      reads back unchanged if and only if the clock never ran backwards. */
  lemma StoreWritesRoundTrip(out: Outside, plan: BatchPlan, created: real, cancelled: real)
    requires Settled(out) && ConstructiblePlan(out, plan)
    ensures var m := NewManifest(IdsFrom(out), plan, created);
      var c := CancelledManifest(m, cancelled);
      && (ManifestFromMapping(out, ManifestMapping(out, m)) == Ok(m) <==> created >= 0.0)
      && (ManifestFromMapping(out, ManifestMapping(out, c)) == Ok(c) <==> 0.0 <= created <= cancelled)
  {
    var m := NewManifest(IdsFrom(out), plan, created);
    WrittenManifestsAreConsistent(out, plan, created, m, cancelled);
    ManifestRoundTrip(out, m);
    ManifestRoundTrip(out, CancelledManifest(m, cancelled));
  }
}
