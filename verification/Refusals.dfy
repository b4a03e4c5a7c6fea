/** What the parsers let through and what they refuse, said of the untrusted input
    itself: task contracts, batch requests, stored plans and manifests. */
module Refusals {
  import opened Common
  import opened BatchPlans
  import opened BatchRequests
  import opened Manifests

  // ------------------------------------------------------------------- white space

  predicate Blank(space: char -> bool, s: string) {
    forall i :: 0 <= i < |s| ==> space(s[i])
  }

  lemma {:induction false} LStripCuts(space: char -> bool, s: string) returns (head: string)
    ensures s == head + LStrip(space, s) && Blank(space, head)
  {
    if s != "" && space(s[0]) {
      var rest := LStripCuts(space, s[1..]);
      head := [s[0]] + rest;
    } else {
      head := "";
    }
  }

  lemma {:induction false} RStripCuts(space: char -> bool, s: string) returns (tail: string)
    ensures s == RStrip(space, s) + tail && Blank(space, tail)
  {
    if s != "" && space(s[|s| - 1]) {
      var rest := RStripCuts(space, s[..|s| - 1]);
      tail := rest + [s[|s| - 1]];
      assert s == s[..|s| - 1] + [s[|s| - 1]];
    } else {
      tail := "";
    }
  }

  /** Stripping cuts off white space at both ends, all of it and nothing else; so
      what is left is empty exactly for blank text. */
  lemma StripCutsOnlyWhiteSpace(space: char -> bool, s: string) returns (head: string, tail: string)
    ensures s == head + Strip(space, s) + tail && Blank(space, head) && Blank(space, tail)
    ensures Strip(space, s) != "" ==> !space(Strip(space, s)[0]) && !space(Strip(space, s)[|Strip(space, s)| - 1])
    ensures Strip(space, s) == "" <==> Blank(space, s)
  {
    head := LStripCuts(space, s);
    tail := RStripCuts(space, LStrip(space, s));
    StripIdempotent(space, s);
    if Strip(space, s) != "" {
      assert s[|head|] == Strip(space, s)[0];
    }
  }

  // ---------------------------------------------------------------- task contracts

  predicate NonBlank(out: Outside, j: Json) {
    j.JStr? && !Blank(out.space, j.text)
  }

  predicate GoodText(out: Outside, p: Mapping, name: string) {
    name in p && NonBlank(out, p[name]) && |p[name].text| <= 200000 && out.allowed(p[name].text)
  }

  predicate GoodPattern(out: Outside, j: Json) {
    NonBlank(out, j)
    && LStrip((c: char) => c == '!', Strip(out.space, j.text)) !in {"*", "**", "**/*", "*/**", "**/**"}
  }

  predicate GoodFiles(out: Outside, p: Mapping) {
    && "files" in p && p["files"].JList? && 1 <= |p["files"].items| <= 50
    && forall i :: 0 <= i < |p["files"].items| ==> GoodPattern(out, p["files"].items[i])
  }

  predicate GoodTask(out: Outside, p: Mapping) {
    && "task" in p && p["task"].JObj?
    && GoodText(out, p["task"].fields, "briefing") && GoodText(out, p["task"].fields, "locations")
    && GoodText(out, p["task"].fields, "objective") && GoodText(out, p["task"].fields, "constraints")
    && GoodText(out, p["task"].fields, "output_contract")
  }

  /** Everything a contract has to satisfy, on the mapping itself. */
  predicate GoodContract(out: Outside, p: Mapping) {
    && "schema_version" in p && p["schema_version"] in {JInt(1), JFloat(1.0), JBool(true)}
    && ("backend" in p ==> NonBlank(out, p["backend"]))
    && ("mode" in p ==> p["mode"] in {JStr("read-only"), JStr("edit")})
    && ("strict" in p ==> p["strict"].JBool?)
    && ("allow_unconfined_provider" in p ==> p["allow_unconfined_provider"].JBool?)
    && ("allow_offline_simulation" in p ==> p["allow_offline_simulation"].JBool?)
    && !("strict" in p && p["strict"] == JBool(true) && "mode" in p && p["mode"] == JStr("edit"))
    && GoodFiles(out, p) && GoodTask(out, p)
  }

  lemma NonBlankStrips(out: Outside, j: Json)
    ensures NonBlank(out, j) <==> j.JStr? && Strip(out.space, j.text) != ""
  {
    if j.JStr? {
      var _, _ := StripCutsOnlyWhiteSpace(out.space, j.text);
    }
  }

  lemma {:induction false} SameBang(c: char -> bool, d: char -> bool, s: string)
    requires forall x :: c(x) == d(x)
    ensures LStrip(c, s) == LStrip(d, s)
  {
    if s != "" && c(s[0]) {
      SameBang(c, d, s[1..]);
    }
  }

  lemma GoodFilesAreGoodPatterns(out: Outside, j: Json)
    ensures GoodFile(out, j) <==> GoodPattern(out, j)
  {
    NonBlankStrips(out, j);
    if j.JStr? {
      SameBang(Bang, (c: char) => c == '!', Strip(out.space, j.text));
    }
  }

  lemma FilesAreReadExactlyWhen(out: Outside, p: Mapping)
    ensures FilesOf(out, Get(p, "files")).Ok? <==> GoodFiles(out, p)
    ensures GoodFiles(out, p) ==>
      var files := FilesOf(out, Get(p, "files")).value;
      && |files| == |p["files"].items|
      && forall i :: 0 <= i < |files| ==> files[i] == Strip(out.space, p["files"].items[i].text)
  {
    var j := Get(p, "files");
    if j.JList? {
      forall i | 0 <= i < |j.items| ensures GoodFile(out, j.items[i]) <==> GoodPattern(out, j.items[i]) {
        GoodFilesAreGoodPatterns(out, j.items[i]);
      }
    }
  }

  lemma FieldIsReadExactlyWhen(out: Outside, p: Mapping, name: string)
    ensures FieldOf(out, p, name).Ok? <==> GoodText(out, p, name)
    ensures GoodText(out, p, name) ==> FieldOf(out, p, name) == Ok(p[name].text)
  {
    NonBlankStrips(out, Get(p, name));
  }

  lemma TaskIsReadExactlyWhen(out: Outside, p: Mapping)
    ensures Get(p, "task").JObj? && BodyOf(out, Get(p, "task").fields).Ok? <==> GoodTask(out, p)
    ensures GoodTask(out, p) ==>
      BodyOf(out, Get(p, "task").fields).value
      == TaskBody(p["task"].fields["briefing"].text, p["task"].fields["locations"].text,
                  p["task"].fields["objective"].text, p["task"].fields["constraints"].text,
                  p["task"].fields["output_contract"].text)
  {
    if Get(p, "task").JObj? {
      var t := Get(p, "task").fields;
      FieldIsReadExactlyWhen(out, t, "briefing");
      FieldIsReadExactlyWhen(out, t, "locations");
      FieldIsReadExactlyWhen(out, t, "objective");
      FieldIsReadExactlyWhen(out, t, "constraints");
      FieldIsReadExactlyWhen(out, t, "output_contract");
    }
  }

  /** A task contract is accepted exactly when it satisfies all of this, and then it
      is what it says: defaults for what is missing, stripped backend and patterns. */
  lemma ContractIsAcceptedExactlyWhen(out: Outside, p: Mapping)
    requires !Blank(out.space, "auto")
    ensures ParseTaskContract(out, p).Ok? <==> GoodContract(out, p)
    ensures GoodContract(out, p) ==>
      var t := ParseTaskContract(out, p).value;
      && t.backend == Strip(out.space, if "backend" in p then p["backend"].text else "auto")
      && t.mode == (if "mode" in p then p["mode"].text else "read-only")
      && (t.strict <==> "strict" in p && p["strict"] == JBool(true))
      && (t.allowUnconfined <==> "allow_unconfined_provider" in p && p["allow_unconfined_provider"] == JBool(true))
      && (t.allowOffline <==> "allow_offline_simulation" in p && p["allow_offline_simulation"] == JBool(true))
      && |t.files| == |p["files"].items|
      && (forall i :: 0 <= i < |t.files| ==> t.files[i] == Strip(out.space, p["files"].items[i].text))
      && t.task == TaskBody(p["task"].fields["briefing"].text, p["task"].fields["locations"].text,
                            p["task"].fields["objective"].text, p["task"].fields["constraints"].text,
                            p["task"].fields["output_contract"].text)
  {
    NonBlankStrips(out, GetOr(p, "backend", JStr("auto")));
    FilesAreReadExactlyWhen(out, p);
    TaskIsReadExactlyWhen(out, p);
  }

  /** A batch member's contract has exactly the known fields, says its schema version
      as the number 1, and may neither use the echo backend nor run offline. */
  lemma StrictContractIsAcceptedExactlyWhen(out: Outside, j: Json)
    requires !Blank(out.space, "auto")
    ensures StrictTaskContract(out, j).Ok? <==>
      && j.JObj? && GoodContract(out, j.fields)
      && j.fields.Keys == {"schema_version", "backend", "mode", "strict", "allow_unconfined_provider",
                           "allow_offline_simulation", "files", "task"}
      && j.fields["schema_version"] == JInt(1)
      && j.fields["task"].fields.Keys == {"briefing", "locations", "objective", "constraints", "output_contract"}
      && Strip(out.space, j.fields["backend"].text) != "echo"
      && j.fields["allow_offline_simulation"] == JBool(false)
    ensures StrictTaskContract(out, j).Ok? ==> StrictTaskContract(out, j) == ParseTaskContract(out, j.fields)
  {
    if j.JObj? {
      ContractIsAcceptedExactlyWhen(out, j.fields);
    }
  }

  // --------------------------------------------------------------- batch requests

  predicate IdChar(c: char) {
    'a' <= c <= 'z' || 'A' <= c <= 'Z' || '0' <= c <= '9'
  }

  /** Letters, digits, dots, underscores and hyphens, the first a letter or digit. */
  predicate PlainId(j: Json, maximum: nat) {
    && j.JStr? && 1 <= |j.text| <= maximum && IdChar(j.text[0])
    && forall i :: 0 <= i < |j.text| ==> IdChar(j.text[i]) || j.text[i] == '.' || j.text[i] == '_' || j.text[i] == '-'
  }

  function Seconds(j: Json): real {
    if j.JInt? then j.number as real else if j.JFloat? then j.float else 0.0
  }

  predicate PlainTimeout(j: Json) {
    (j.JInt? || j.JFloat?) && 0.0 < Seconds(j) <= 3600.0
  }

  lemma FieldsAreReadExactlyWhen(j: Json, maximum: nat)
    ensures SafeIdOf(j, maximum) == (if PlainId(j, maximum) then Ok(j.text) else Err(BadId))
    ensures TimeoutOf(j) == if PlainTimeout(j) then Ok(Seconds(j)) else Err(BadTimeout)
  {
    if j.JStr? && IsSafeId(j.text, maximum) {
      forall i | 0 <= i < |j.text| ensures IdChar(j.text[i]) || j.text[i] == '.' || j.text[i] == '_' || j.text[i] == '-' {
        assert IdLead(j.text[i]) || j.text[i] in {'.', '_', '-'};
      }
    }
    if PlainId(j, maximum) {
      forall i | 0 <= i < |j.text| ensures IdLead(j.text[i]) || j.text[i] in {'.', '_', '-'} {
        assert IdChar(j.text[i]) || j.text[i] == '.' || j.text[i] == '_' || j.text[i] == '-';
      }
    }
  }

  /** One member of a batch request, on the entry itself. */
  predicate EntrySays(out: Outside, j: Json, m: MemberRequest) {
    && j.JObj? && j.fields.Keys == {"role_id", "timeout_seconds", "contract"}
    && PlainId(j.fields["role_id"], 64) && m.roleId == j.fields["role_id"].text
    && PlainTimeout(j.fields["timeout_seconds"]) && m.timeoutSeconds == Seconds(j.fields["timeout_seconds"])
    && StrictTaskContract(out, j.fields["contract"]) == Ok(m.contract)
  }

  lemma EntriesAreReadExactlyWhen(out: Outside, j: Json, m: MemberRequest)
    ensures ReadsAs(out, j, m) <==> EntrySays(out, j, m)
  {
    if j.JObj? && j.fields.Keys == {"role_id", "timeout_seconds", "contract"} {
      FieldsAreReadExactlyWhen(j.fields["role_id"], 64);
      FieldsAreReadExactlyWhen(j.fields["timeout_seconds"], 64);
    }
  }

  /** A payload says a request exactly when it has the four fields, the schema version
      1, a plain id of at most 128 characters, the strategy, two to four members with
      different roles of which at most one edits, and no more than a mebibyte. */
  lemma RequestIsSaidExactlyWhen(out: Outside, p: Json, r: BatchRequest)
    ensures Says(out, p, r) <==>
      && p.JObj? && p.fields.Keys == {"schema_version", "request_id", "strategy", "members"}
      && p.fields["schema_version"] == JInt(1) && p.fields["strategy"] == JStr("independent")
      && PlainId(p.fields["request_id"], 128) && r.requestId == p.fields["request_id"].text
      && p.fields["members"].JList? && 2 <= |p.fields["members"].items| <= 4
      && |r.members| == |p.fields["members"].items|
      && (forall i :: 0 <= i < |r.members| ==> EntrySays(out, p.fields["members"].items[i], r.members[i]))
      && (forall i, j :: 0 <= i < j < |r.members| ==>
            && r.members[i].roleId != r.members[j].roleId
            && !(r.members[i].contract.mode == "edit" && r.members[j].contract.mode == "edit"))
      && |out.canonical(RequestMapping(r))| <= 1024 * 1024
  {
    if p.JObj? && p.fields.Keys == {"schema_version", "request_id", "strategy", "members"} {
      FieldsAreReadExactlyWhen(p.fields["request_id"], 128);
      if p.fields["members"].JList? && |r.members| == |p.fields["members"].items| {
        forall i | 0 <= i < |r.members|
          ensures ReadsAs(out, p.fields["members"].items[i], r.members[i])
                  <==> EntrySays(out, p.fields["members"].items[i], r.members[i])
        {
          EntriesAreReadExactlyWhen(out, p.fields["members"].items[i], r.members[i]);
        }
      }
    }
  }

  // ------------------------------------------------------------------- stored plans

  predicate HexDigits(s: string, n: nat) {
    |s| == n && forall i :: 0 <= i < n ==> '0' <= s[i] <= '9' || 'a' <= s[i] <= 'f'
  }

  /** A planned member as every stored plan has it. */
  predicate PlainMember(out: Outside, m: BatchMemberPlan) {
    && PlainId(JStr(m.roleId), 64) && PlainId(JStr(m.backend), 64) && m.backend != "auto" && m.backend != "echo"
    && HexDigits(m.contextSha256, 64) && 0.0 < m.timeoutSeconds <= 3600.0
    && 1 <= |m.profile| <= 16 && "backend" in m.profile && m.profile["backend"] == m.backend
    && (forall name :: name in m.profile ==>
          1 <= |name| <= 64 && |m.profile[name]| <= 4096 && out.allowed(m.profile[name]))
    && "mode" in m.contract
    && (m.contract["mode"] == JStr("read-only") <==> m.baseHead.None?)
    && (m.contract["mode"] == JStr("edit") <==> m.baseHead.Some?)
    && (m.baseHead.Some? ==> HexDigits(m.baseHead.value, 40) || HexDigits(m.baseHead.value, 64))
  }

  lemma PlainIdMeans(s: string, maximum: nat)
    ensures IsSafeId(s, maximum) <==> PlainId(JStr(s), maximum)
  {
    FieldsAreReadExactlyWhen(JStr(s), maximum);
  }

  lemma ModeIsOneOfTwo(out: Outside, j: Json)
    requires StrictTaskContract(out, j).Ok?
    ensures StrictTaskContract(out, j).value.mode in {"read-only", "edit"}
    ensures var m := ContractMapping(StrictTaskContract(out, j).value);
      "mode" in m && m["mode"] == JStr(StrictTaskContract(out, j).value.mode)
  {
  }

  lemma NormalMembersArePlain(out: Outside, m: BatchMemberPlan)
    requires NormalMember(out, m)
    ensures PlainMember(out, m)
  {
    PlainIdMeans(m.roleId, 64);
    PlainIdMeans(m.backend, 64);
    ModeIsOneOfTwo(out, JObj(m.contract));
    ProfilesArePlain(out, m.profile);
  }

  lemma ProfilesArePlain(out: Outside, profile: map<string, string>)
    requires ProfileOf(out, ProfileMapping(profile)).Ok?
    ensures 1 <= |profile| <= 16
    ensures forall name :: name in profile ==> 1 <= |name| <= 64 && |profile[name]| <= 4096 && out.allowed(profile[name])
  {
    var fields := ProfileMapping(profile).fields;
    assert fields.Keys == profile.Keys && |fields| == |fields.Keys| && |profile| == |profile.Keys|;
    forall name | name in profile ensures 1 <= |name| <= 64 && |profile[name]| <= 4096 && out.allowed(profile[name]) {
      assert GoodProfileEntry(out, name, fields[name]);
    }
  }

  lemma {:induction false} TraverseMeans<T>(read: (nat, Json) -> Result<T, Problem>, items: seq<Json>, at: nat)
    requires Traverse(read, items, at).Ok?
    ensures var values := Traverse(read, items, at).value;
      |values| == |items| && forall i :: 0 <= i < |items| ==> read(at + i, items[i]) == Ok(values[i])
    decreases |items|
  {
    if items != [] {
      TraverseMeans(read, items[1..], at + 1);
      var rest := Traverse(read, items[1..], at + 1).value;
      forall i | 1 <= i < |items| ensures read(at + i, items[i]) == Ok(([read(at, items[0]).value] + rest)[i]) {
        assert read(at + 1 + (i - 1), items[1..][i - 1]) == Ok(rest[i - 1]);
      }
    }
  }

  lemma MadeMembersRepeat(out: Outside, raw: RawMember, m: BatchMemberPlan)
    requires MadeFrom(out, raw, m)
    ensures raw.roleId == JStr(m.roleId) && raw.backend == JStr(m.backend) && raw.context == JStr(m.contextSha256)
    ensures raw.head == (if m.baseHead.Some? then JStr(m.baseHead.value) else JNull)
    ensures Seconds(raw.timeout) == m.timeoutSeconds
  {
  }

  lemma CountIsRepeated(out: Outside, raw: RawMember)
    requires MakeMember(out, raw).Ok?
    ensures raw.count == JInt(MakeMember(out, raw).value.contextFileCount)
  {
  }

  /** A stored member is read from exactly its fields. */
  lemma StoredMembersArePlain(out: Outside, j: Json, i: nat)
    requires MemberReader(out)(i, j).Ok?
    ensures var m := MemberReader(out)(i, j).value;
      && PlainMember(out, m)
      && j.JObj? && j.fields.Keys == {"role_id", "resolved_backend", "context_file_count", "context_sha256", "base_head",
                                      "execution_profile", "timeout_seconds", "normalized_contract"}
      && j.fields["role_id"] == JStr(m.roleId) && j.fields["resolved_backend"] == JStr(m.backend)
      && j.fields["context_file_count"] == JInt(m.contextFileCount) && j.fields["context_sha256"] == JStr(m.contextSha256)
      && j.fields["base_head"] == (if m.baseHead.Some? then JStr(m.baseHead.value) else JNull)
      && Seconds(j.fields["timeout_seconds"]) == m.timeoutSeconds
  {
    var p := j.fields;
    var raw := RawMember(Get(p, "role_id"), Get(p, "resolved_backend"), Get(p, "context_file_count"),
                         Get(p, "context_sha256"), Get(p, "base_head"), Get(p, "execution_profile"),
                         Get(p, "timeout_seconds"), Get(p, "normalized_contract"));
    MemberIsMade(out, p, raw);
    MakeMemberChecks(out, raw);
    MadeMemberIsNormal(out, raw, MakeMember(out, raw).value);
    NormalMembersArePlain(out, MakeMember(out, raw).value);
    MadeMembersRepeat(out, raw, MakeMember(out, raw).value);
    CountIsRepeated(out, raw);
  }

  lemma MemberIsMade(out: Outside, p: Mapping, raw: RawMember)
    requires MemberFromMapping(out, p).Ok?
    requires raw == RawMember(Get(p, "role_id"), Get(p, "resolved_backend"), Get(p, "context_file_count"),
                              Get(p, "context_sha256"), Get(p, "base_head"), Get(p, "execution_profile"),
                              Get(p, "timeout_seconds"), Get(p, "normalized_contract"))
    ensures MakeMember(out, raw) == MemberFromMapping(out, p)
    ensures p.Keys == {"role_id", "resolved_backend", "context_file_count", "context_sha256", "base_head",
                       "execution_profile", "timeout_seconds", "normalized_contract"}
  {
  }

  /** What a plan's mapping comes to, piece by piece. */
  lemma PlanPieces(out: Outside, p: Mapping)
    requires PlanFromMapping(out, p).Ok?
    ensures var plan := PlanFromMapping(out, p).value;
      && p.Keys == {"schema_version", "kind", "project_root", "request_id", "strategy", "effects", "members", "plan_sha256"}
      && p["kind"] == JStr("local-agent-dispatch-batch-plan") && p["members"].JList?
      && Traverse(MemberReader(out), p["members"].items, 0) == Ok(plan.members)
      && MakePlan(out, p["schema_version"], p["project_root"], p["request_id"], p["strategy"], p["effects"], plan.members)
         == Ok(plan)
      && p["plan_sha256"] == JStr(out.sha256(out.canonical(CanonicalMapping(plan))))
  {
  }

  /** What every plan that can be made is. */
  lemma MadePlansMean(out: Outside, schema: Json, root: Json, requestId: Json, strategy: Json, effects: Json,
      members: seq<BatchMemberPlan>)
    requires MakePlan(out, schema, root, requestId, strategy, effects, members).Ok?
    ensures var plan := MakePlan(out, schema, root, requestId, strategy, effects, members).value;
      && schema == JInt(1) && strategy == JStr("independent")
      && requestId == JStr(plan.requestId) && PlainId(JStr(plan.requestId), 128)
      && root.JStr? && !Blank(out.space, root.text) && plan.projectRoot == out.resolve(root.text)
      && plan.members == members && 2 <= |members| <= 4
      && (forall i, j :: 0 <= i < j < |members| ==>
            && members[i].roleId != members[j].roleId && !(IsEdit(members[i]) && IsEdit(members[j])))
      && effects == JObj(plan.effects)
      && plan.effects == map["creates_local_state" := JBool(true), "starts_provider_processes" := JInt(|members|),
                             "may_use_network_or_bill" := JBool(true), "writes_source_worktree" := JBool(false),
                             "returns_patch_only" := JBool(exists i :: 0 <= i < |members| && IsEdit(members[i]))]
  {
    FieldsAreReadExactlyWhen(requestId, 128);
    NonBlankStrips(out, root);
  }

  /** What every accepted plan is: two to four members with different roles, under a
      plain request id, with the effects its members imply and the digest of its own
      canonical form; */
  lemma AcceptedPlansArePlain(out: Outside, p: Mapping)
    requires PlanFromMapping(out, p).Ok?
    ensures var plan := PlanFromMapping(out, p).value;
      && p.Keys == {"schema_version", "kind", "project_root", "request_id", "strategy", "effects", "members", "plan_sha256"}
      && p["schema_version"] == JInt(1) && p["kind"] == JStr("local-agent-dispatch-batch-plan")
      && p["strategy"] == JStr("independent") && p["request_id"] == JStr(plan.requestId) && PlainId(JStr(plan.requestId), 128)
      && p["project_root"].JStr? && !Blank(out.space, p["project_root"].text)
      && plan.projectRoot == out.resolve(p["project_root"].text)
      && 2 <= |plan.members| <= 4
      && (forall i, j :: 0 <= i < j < |plan.members| ==> plan.members[i].roleId != plan.members[j].roleId)
      && p["effects"] == JObj(plan.effects) && plan.effects.Keys == {"creates_local_state", "starts_provider_processes",
           "may_use_network_or_bill", "writes_source_worktree", "returns_patch_only"}
      && plan.effects["starts_provider_processes"] == JInt(|plan.members|)
      && plan.effects["writes_source_worktree"] == JBool(false)
      && p["plan_sha256"] == JStr(out.sha256(out.canonical(CanonicalMapping(plan))))
  {
    PlanPieces(out, p);
    MadePlansMean(out, p["schema_version"], p["project_root"], p["request_id"], p["strategy"], p["effects"],
                  PlanFromMapping(out, p).value.members);
  }

  /** and its members are plain, one for each entry, and at most one of them edits. */
  lemma AcceptedPlanMembersArePlain(out: Outside, p: Mapping)
    requires PlanFromMapping(out, p).Ok?
    ensures var members := PlanFromMapping(out, p).value.members;
      && "members" in p && p["members"].JList? && |p["members"].items| == |members|
      && (forall i :: 0 <= i < |members| ==> PlainMember(out, members[i]))
      && (forall i, j :: 0 <= i < j < |members| ==>
            !(members[i].contract["mode"] == JStr("edit") && members[j].contract["mode"] == JStr("edit")))
  {
    PlanPieces(out, p);
    var items, members := p["members"].items, PlanFromMapping(out, p).value.members;
    MadePlansMean(out, p["schema_version"], p["project_root"], p["request_id"], p["strategy"], p["effects"], members);
    TraverseMeans(MemberReader(out), items, 0);
    forall i | 0 <= i < |members| ensures PlainMember(out, members[i]) {
      assert MemberReader(out)(0 + i, items[i]) == Ok(members[i]);
      StoredMembersArePlain(out, items[i], i);
    }
    forall i, j | 0 <= i < j < |members|
      ensures !(members[i].contract["mode"] == JStr("edit") && members[j].contract["mode"] == JStr("edit"))
    {
      assert !(IsEdit(members[i]) && IsEdit(members[j]));
    }
  }

  /** A plan under a digest that is not its own is refused, whatever it says. */
  lemma ForeignDigestsAreRefused(out: Outside, p: Mapping, plan: BatchPlan, digest: string)
    requires PlanFromMapping(out, p) == Ok(plan) && JStr(digest) != p["plan_sha256"]
    ensures PlanFromMapping(out, p["plan_sha256" := JStr(digest)]).Err?
  {
    var q := p["plan_sha256" := JStr(digest)];
    assert q.Keys == p.Keys;
    assert Get(q, "kind") == Get(p, "kind") && Get(q, "members") == Get(p, "members") && Get(q, "effects") == Get(p, "effects");
  }

  // ------------------------------------------------------- what a digest stands for

  /** No two canonical mappings have one digest. */
  ghost predicate DigestsIdentify(out: Outside) {
    forall a, b :: out.sha256(out.canonical(a)) == out.sha256(out.canonical(b)) ==> a == b
  }

  lemma MemberMappingsIdentify(a: BatchMemberPlan, b: BatchMemberPlan)
    requires MemberMapping(a) == MemberMapping(b)
    ensures a == b
  {
    MemberMappingReads(a);
    MemberMappingReads(b);
    var p, q := ProfileMapping(a.profile).fields, ProfileMapping(b.profile).fields;
    assert p == q;
    assert a.profile.Keys == p.Keys && b.profile.Keys == q.Keys;
    forall name | name in a.profile ensures a.profile[name] == b.profile[name] {
      assert p[name] == JStr(a.profile[name]) && q[name] == JStr(b.profile[name]);
    }
    assert a.profile == b.profile;
  }

  lemma CanonicalMappingsIdentify(a: BatchPlan, b: BatchPlan)
    requires CanonicalMapping(a) == CanonicalMapping(b)
    ensures a == b
  {
    var p, q := CanonicalMapping(a), CanonicalMapping(b);
    assert p["members"] == q["members"] && p["project_root"] == q["project_root"];
    assert p["request_id"] == q["request_id"] && p["effects"] == q["effects"];
    var m, n := MemberMappings(a.members), MemberMappings(b.members);
    assert |m| == |a.members| && |n| == |b.members|;
    forall i | 0 <= i < |a.members| ensures a.members[i] == b.members[i] {
      assert m[i] == JObj(MemberMapping(a.members[i])) && n[i] == JObj(MemberMapping(b.members[i]));
      MemberMappingsIdentify(a.members[i], b.members[i]);
    }
  }

  /** However a stored plan was altered under its digest, it is refused, or it still
      says the same plan. */
  lemma AlteredPlansAreRefused(out: Outside, plan: BatchPlan, p: Mapping)
    requires DigestsIdentify(out) && "plan_sha256" in p && p["plan_sha256"] == JStr(PlanSha256(out, plan))
    ensures PlanFromMapping(out, p).Ok? ==> PlanFromMapping(out, p) == Ok(plan)
  {
    if PlanFromMapping(out, p).Ok? {
      AcceptedPlansArePlain(out, p);
      CanonicalMappingsIdentify(PlanFromMapping(out, p).value, plan);
    }
  }

  // ---------------------------------------------------------------- stored manifests

  /** Ids are the first sixteen digits of digests, under their prefixes. */
  lemma IdsAreAbbreviatedDigests(out: Outside, requestId: string, digest: string, o: string, index: nat)
    requires Settled(out)
    ensures OrchestrationIdFor(out, requestId, digest) == "orch-" + out.sha256(requestId + digest)[..16]
    ensures RunIdFor(out, o, index) == "run-" + out.sha256(o + Decimal(index))[..16]
  {
    assert IsSha256(out.sha256(requestId + digest)) && IsSha256(out.sha256(o + Decimal(index)));
  }

  /** Decimal numbers are read back digit by digit. */
  function ReadDecimal(s: string): int {
    if s == "" then 0 else 10 * ReadDecimal(s[..|s| - 1]) + (s[|s| - 1] as int - '0' as int)
  }

  lemma {:induction false} DecimalsAreReadBack(n: nat)
    ensures Decimal(n) != "" && ReadDecimal(Decimal(n)) == n
    ensures n > 0 ==> Decimal(n)[0] != '0'
    decreases n
  {
    var s := Decimal(n);
    if n >= 10 {
      DecimalsAreReadBack(n / 10);
      assert s[..|s| - 1] == Decimal(n / 10);
    } else {
      assert s[..|s| - 1] == "";
    }
  }

  lemma ManifestHeadings(out: Outside, p: Mapping, parsed: Result<BatchPlan, BatchPlans.Problem>)
    requires ManifestWith(out, p, parsed).Ok?
    ensures var m := ManifestWith(out, p, parsed).value;
      && p.Keys == {"schema_version", "orchestration_id", "request_id", "plan_sha256", "created_at", "updated_at",
                    "revision", "cancel_requested", "members", "plan"}
      && p["schema_version"] == JInt(1) && parsed == Ok(m.plan)
      && p["revision"] == JInt(m.revision) && p["cancel_requested"] == JBool(m.cancelRequested)
      && 0.0 <= m.createdAt <= m.updatedAt
      && m.createdAt == Seconds(p["created_at"]) && m.updatedAt == Seconds(p["updated_at"])
  {
  }

  lemma ManifestNames(out: Outside, p: Mapping, parsed: Result<BatchPlan, BatchPlans.Problem>)
    requires ManifestWith(out, p, parsed).Ok?
    ensures var m := ManifestWith(out, p, parsed).value;
      && parsed == Ok(m.plan)
      && Get(p, "request_id") == JStr(m.requestId) && m.requestId == m.plan.requestId
      && Get(p, "plan_sha256") == JStr(m.planSha256) && m.planSha256 == PlanSha256(out, m.plan)
      && Get(p, "orchestration_id") == JStr(m.orchestrationId)
      && m.orchestrationId == OrchestrationIdFor(out, m.requestId, m.planSha256)
  {
  }

  lemma ManifestListing(out: Outside, p: Mapping, parsed: Result<BatchPlan, BatchPlans.Problem>)
    requires ManifestWith(out, p, parsed).Ok?
    ensures var m := ManifestWith(out, p, parsed).value;
      && Get(p, "members").JList? && |Get(p, "members").items| == |m.plan.members|
      && Traverse(ManifestMemberReader(out, m.plan.members, m.orchestrationId), Get(p, "members").items, 0) == Ok(m.members)
  {
  }

  lemma StoredMembersRepeatTheirPlan(out: Outside, j: Json, planned: BatchMemberPlan, o: string, i: nat)
    requires MemberFrom(out, j, planned, o, i).Ok?
    ensures var m := MemberFrom(out, j, planned, o, i).value;
      && m.roleId == planned.roleId && m.backend == planned.backend && m.timeoutSeconds == planned.timeoutSeconds
      && m.runId == RunIdFor(out, o, i)
      && j.JObj? && j.fields.Keys == {"role_id", "backend", "run_id", "timeout_seconds"}
      && j.fields["role_id"] == JStr(m.roleId) && j.fields["backend"] == JStr(m.backend)
      && j.fields["run_id"] == JStr(m.runId) && Seconds(j.fields["timeout_seconds"]) == m.timeoutSeconds
  {
  }

  /** What every accepted manifest is: under the id its request and plan digest come
      to, with its plan's own digest, clock readings in order, and one member for each
      planned one under the run id that its place comes to. */
  lemma AcceptedManifestsAreDerived(out: Outside, p: Mapping)
    requires ManifestFromMapping(out, p).Ok?
    ensures var m := ManifestFromMapping(out, p).value;
      && p.Keys == {"schema_version", "orchestration_id", "request_id", "plan_sha256", "created_at", "updated_at",
                    "revision", "cancel_requested", "members", "plan"}
      && p["schema_version"] == JInt(1) && p["plan"].JObj? && PlanFromMapping(out, p["plan"].fields) == Ok(m.plan)
      && p["request_id"] == JStr(m.requestId) && m.requestId == m.plan.requestId
      && p["plan_sha256"] == JStr(m.planSha256) && m.planSha256 == out.sha256(out.canonical(CanonicalMapping(m.plan)))
      && p["orchestration_id"] == JStr(m.orchestrationId)
      && m.orchestrationId == OrchestrationIdFor(out, m.requestId, m.planSha256)
      && p["revision"] == JInt(m.revision) && p["cancel_requested"] == JBool(m.cancelRequested)
      && 0.0 <= m.createdAt <= m.updatedAt
      && m.createdAt == Seconds(p["created_at"]) && m.updatedAt == Seconds(p["updated_at"])
      && |m.members| == |m.plan.members|
      && forall i :: 0 <= i < |m.members| ==>
           && m.members[i].roleId == m.plan.members[i].roleId && m.members[i].backend == m.plan.members[i].backend
           && m.members[i].timeoutSeconds == m.plan.members[i].timeoutSeconds
           && m.members[i].runId == RunIdFor(out, m.orchestrationId, i)
  {
    var parsed := if Get(p, "plan").JObj? then PlanFromMapping(out, Get(p, "plan").fields) else Err(BadFields);
    ManifestHeadings(out, p, parsed);
    ManifestNames(out, p, parsed);
    ManifestListing(out, p, parsed);
    var m, items := ManifestFromMapping(out, p).value, p["members"].items;
    var read := ManifestMemberReader(out, m.plan.members, m.orchestrationId);
    TraverseMeans(read, items, 0);
    forall i | 0 <= i < |m.members|
      ensures m.members[i].roleId == m.plan.members[i].roleId && m.members[i].backend == m.plan.members[i].backend
      ensures m.members[i].timeoutSeconds == m.plan.members[i].timeoutSeconds
      ensures m.members[i].runId == RunIdFor(out, m.orchestrationId, i)
    {
      assert read(0 + i, items[i]) == Ok(m.members[i]);
      StoredMembersRepeatTheirPlan(out, items[i], m.plan.members[i], m.orchestrationId, i);
    }
  }
}
