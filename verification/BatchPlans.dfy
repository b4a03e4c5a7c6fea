/** Task contracts and batch plans: strict parsing of JSON mappings into
    normalised values, and the mappings those values print back to. */
module BatchPlans {
  import opened Common

  // ------------------------------------------------------------ JSON, and checks

  datatype Json =
    | JNull | JBool(flag: bool) | JInt(number: int) | JFloat(float: real) | JNonFinite
    | JStr(text: string) | JList(items: seq<Json>) | JObj(fields: map<string, Json>)

  type Mapping = map<string, Json>

  /** What the parsers take from outside: the content guard, the set of white
      space characters, path resolution, canonical bytes and SHA-256. */
  datatype Outside = Outside(allowed: string -> bool, space: char -> bool, resolve: string -> string,
                             canonical: Mapping -> string, sha256: string -> string)

  datatype Problem =
    | BadSchema | BadBackend | BadMode | BadFlag | StrictEdit | BadFiles | BadTask | BadFields
    | BadId | BadTimeout | BadDigest | BadProfile | BadHead | BadStrategy | BadMembers | BadRoles
    | BadEffects | BadRoot | BadKind | BadTime | BadRevision | TooLarge | Mismatch

  function Get(m: Mapping, name: string): Json {
    if name in m then m[name] else JNull
  }

  function GetOr(m: Mapping, name: string, default: Json): Json {
    if name in m then m[name] else default
  }

  // ------------------------------------------------------------------- stripping

  function LStrip(space: char -> bool, s: string): string {
    if s != "" && space(s[0]) then LStrip(space, s[1..]) else s
  }

  function RStrip(space: char -> bool, s: string): string {
    if s != "" && space(s[|s| - 1]) then RStrip(space, s[..|s| - 1]) else s
  }

  function Strip(space: char -> bool, s: string): string {
    RStrip(space, LStrip(space, s))
  }

  predicate Stripped(space: char -> bool, s: string) {
    s != "" ==> !space(s[0]) && !space(s[|s| - 1])
  }

  lemma {:induction false} LStripLeads(space: char -> bool, s: string)
    ensures var t := LStrip(space, s); t != "" ==> !space(t[0])
  {
    if s != "" && space(s[0]) {
      LStripLeads(space, s[1..]);
    }
  }

  lemma {:induction false} RStripKeepsLead(space: char -> bool, s: string)
    requires s != "" ==> !space(s[0])
    ensures Stripped(space, RStrip(space, s))
  {
    if s != "" && space(s[|s| - 1]) {
      RStripKeepsLead(space, s[..|s| - 1]);
    }
  }

  /** Stripping leaves no white space at either end, and stripping again changes
      nothing. */
  lemma StripIdempotent(space: char -> bool, s: string)
    ensures Stripped(space, Strip(space, s))
    ensures Strip(space, Strip(space, s)) == Strip(space, s)
  {
    LStripLeads(space, s);
    RStripKeepsLead(space, LStrip(space, s));
  }

  // ------------------------------------------------------- reading lists of values

  /** Reads every item, each with its position, or fails with the first error. */
  function Traverse<T>(read: (nat, Json) -> Result<T, Problem>, items: seq<Json>, at: nat): Result<seq<T>, Problem>
    decreases |items|
  {
    if items == [] then Ok([])
    else
      var first :- read(at, items[0]);
      var rest :- Traverse(read, items[1..], at + 1);
      Ok([first] + rest)
  }

  /** The same, accumulating item by item. */
  method ReadAll<T>(read: (nat, Json) -> Result<T, Problem>, items: seq<Json>) returns (values: Result<seq<T>, Problem>)
    ensures values == Traverse(read, items, 0)
    ensures values.Ok? ==> && |values.value| == |items|
                           && forall i :: 0 <= i < |items| ==> read(i, items[i]) == Ok(values.value[i])
  {
    var built: seq<T> := [];
    ghost var whole := Traverse(read, items, 0);
    assert items[0..] == items && (whole.Ok? ==> built + whole.value == whole.value);
    for i := 0 to |items|
      invariant |built| == i && forall j :: 0 <= j < i ==> read(j, items[j]) == Ok(built[j])
      invariant Traverse(read, items, 0) == match Traverse(read, items[i..], i)
                case Ok(rest) => Ok(built + rest)
                case Err(e) => Err(e)
    {
      assert items[i..][0] == items[i] && items[i..][1..] == items[i + 1..];
      var value := read(i, items[i]);
      if value.Err? {
        return Err(value.error);
      }
      ghost var rest := Traverse(read, items[i + 1..], i + 1);
      assert rest.Ok? ==> built + ([value.value] + rest.value) == built + [value.value] + rest.value;
      built := built + [value.value];
    }
    assert items[|items|..] == [];
    assert built + [] == built;
    return Ok(built);
  }

  lemma {:induction false} TraverseRoundTrip<T>(read: (nat, Json) -> Result<T, Problem>, items: seq<Json>, at: nat,
      values: seq<T>)
    requires |items| == |values|
    requires forall i :: 0 <= i < |items| ==> read(at + i, items[i]) == Ok(values[i])
    ensures Traverse(read, items, at) == Ok(values)
    decreases |items|
  {
    if items != [] {
      assert read(at + 0, items[0]) == Ok(values[0]);
      forall i | 0 <= i < |items[1..]| ensures read(at + 1 + i, items[1..][i]) == Ok(values[1..][i]) {
        assert read(at + (i + 1), items[i + 1]) == Ok(values[i + 1]);
      }
      TraverseRoundTrip(read, items[1..], at + 1, values[1..]);
      assert [values[0]] + values[1..] == values;
    }
  }

  // --------------------------------------------------------------- task contracts

  datatype TaskBody = TaskBody(briefing: string, locations: string, objective: string,
                               constraints: string, outputContract: string)

  datatype TaskContract = TaskContract(backend: string, mode: string, strict: bool, allowUnconfined: bool,
                                       allowOffline: bool, files: seq<string>, task: TaskBody)

  const TASK_FIELDS := {"briefing", "locations", "objective", "constraints", "output_contract"}
  const CONTRACT_FIELDS := {"schema_version", "backend", "mode", "strict", "allow_unconfined_provider",
                            "allow_offline_simulation", "files", "task"}
  const UNRESTRICTED_GLOBS := {"*", "**", "**/*", "*/**", "**/**"}
  const MAX_FIELD_CHARS := 200000
  const MAX_FILES := 50

  /** Python's `value == 1`, which `true` and `1.0` satisfy too. */
  predicate EqualsOne(j: Json) {
    j == JInt(1) || j == JFloat(1.0) || j == JBool(true)
  }

  function FlagOf(j: Json): Result<bool, Problem> {
    if j.JBool? then Ok(j.flag) else Err(BadFlag)
  }

  function FieldOf(out: Outside, task: Mapping, name: string): Result<string, Problem> {
    var value := Get(task, name);
    if value.JStr? && Strip(out.space, value.text) != "" && |value.text| <= MAX_FIELD_CHARS && out.allowed(value.text)
    then Ok(value.text) else Err(BadTask)
  }

  function BodyOf(out: Outside, task: Mapping): Result<TaskBody, Problem> {
    var briefing :- FieldOf(out, task, "briefing");
    var locations :- FieldOf(out, task, "locations");
    var objective :- FieldOf(out, task, "objective");
    var constraints :- FieldOf(out, task, "constraints");
    var outputContract :- FieldOf(out, task, "output_contract");
    Ok(TaskBody(briefing, locations, objective, constraints, outputContract))
  }

  predicate Bang(c: char) {
    c == '!'
  }

  /** One file pattern: a string that is not blank and not an unrestricted glob. */
  predicate GoodFile(out: Outside, j: Json) {
    j.JStr? && Strip(out.space, j.text) != "" && LStrip(Bang, Strip(out.space, j.text)) !in UNRESTRICTED_GLOBS
  }

  function StripAll(out: Outside, items: seq<Json>): seq<string>
    requires forall i :: 0 <= i < |items| ==> items[i].JStr?
  {
    seq(|items|, i requires 0 <= i < |items| => Strip(out.space, items[i].text))
  }

  function FilesOf(out: Outside, j: Json): Result<seq<string>, Problem> {
    if j.JList? && 0 < |j.items| <= MAX_FILES && forall i :: 0 <= i < |j.items| ==> GoodFile(out, j.items[i])
    then Ok(StripAll(out, j.items)) else Err(BadFiles)
  }

  function ParseTaskContract(out: Outside, payload: Mapping): Result<TaskContract, Problem> {
    var version := Get(payload, "schema_version");
    :- Need(EqualsOne(version), BadSchema);
    var backend := GetOr(payload, "backend", JStr("auto"));
    :- Need(backend.JStr? && Strip(out.space, backend.text) != "", BadBackend);
    var mode := GetOr(payload, "mode", JStr("read-only"));
    :- Need(mode in {JStr("read-only"), JStr("edit")}, BadMode);
    var strict :- FlagOf(GetOr(payload, "strict", JBool(false)));
    :- Need(!(strict && mode.text == "edit"), StrictEdit);
    var unconfined :- FlagOf(GetOr(payload, "allow_unconfined_provider", JBool(false)));
    var offline :- FlagOf(GetOr(payload, "allow_offline_simulation", JBool(false)));
    var files :- FilesOf(out, Get(payload, "files"));
    var task := Get(payload, "task");
    :- Need(task.JObj?, BadTask);
    var body :- BodyOf(out, task.fields);
    Ok(TaskContract(Strip(out.space, backend.text), mode.text, strict, unconfined, offline, files, body))
  }

  function BodyMapping(t: TaskBody): Mapping {
    map["briefing" := JStr(t.briefing), "locations" := JStr(t.locations), "objective" := JStr(t.objective),
        "constraints" := JStr(t.constraints), "output_contract" := JStr(t.outputContract)]
  }

  function StringList(items: seq<string>): Json {
    JList(seq(|items|, i requires 0 <= i < |items| => JStr(items[i])))
  }

  function ContractMapping(t: TaskContract): Mapping {
    map["schema_version" := JInt(1), "backend" := JStr(t.backend), "mode" := JStr(t.mode),
        "strict" := JBool(t.strict), "allow_unconfined_provider" := JBool(t.allowUnconfined),
        "allow_offline_simulation" := JBool(t.allowOffline), "files" := StringList(t.files),
        "task" := JObj(BodyMapping(t.task))]
  }

  lemma FilesRoundTrip(out: Outside, j: Json)
    requires FilesOf(out, j).Ok?
    ensures FilesOf(out, StringList(FilesOf(out, j).value)) == FilesOf(out, j)
  {
    var files := FilesOf(out, j).value;
    forall i | 0 <= i < |files| ensures Strip(out.space, files[i]) == files[i] && GoodFile(out, JStr(files[i])) {
      assert GoodFile(out, j.items[i]);
      StripIdempotent(out.space, j.items[i].text);
    }
    assert StripAll(out, StringList(files).items) == files;
  }

  /** The mapping reads back, field by field, as this contract. */
  predicate ReadsAsContract(p: Mapping, t: TaskContract) {
    && p.Keys == CONTRACT_FIELDS
    && Get(p, "schema_version") == JInt(1) && GetOr(p, "backend", JStr("auto")) == JStr(t.backend)
    && GetOr(p, "mode", JStr("read-only")) == JStr(t.mode) && GetOr(p, "strict", JBool(false)) == JBool(t.strict)
    && GetOr(p, "allow_unconfined_provider", JBool(false)) == JBool(t.allowUnconfined)
    && GetOr(p, "allow_offline_simulation", JBool(false)) == JBool(t.allowOffline)
    && Get(p, "files") == StringList(t.files) && Get(p, "task") == JObj(BodyMapping(t.task))
  }

  lemma ContractMappingReads(t: TaskContract)
    ensures ReadsAsContract(ContractMapping(t), t)
  {
  }

  lemma BodyRoundTrip(out: Outside, task: Mapping)
    requires BodyOf(out, task).Ok?
    ensures BodyOf(out, BodyMapping(BodyOf(out, task).value)) == BodyOf(out, task)
    ensures BodyMapping(BodyOf(out, task).value).Keys == TASK_FIELDS
  {
  }

  lemma ParseReads(out: Outside, payload: Mapping, p: Mapping)
    requires ParseTaskContract(out, payload).Ok? && ReadsAsContract(p, ParseTaskContract(out, payload).value)
    ensures ParseTaskContract(out, p) == ParseTaskContract(out, payload)
  {
    FilesRoundTrip(out, Get(payload, "files"));
    StripIdempotent(out.space, GetOr(payload, "backend", JStr("auto")).text);
    BodyRoundTrip(out, Get(payload, "task").fields);
  }

  /** Parsing is idempotent through printing: what one parse normalised, a second
      parse of the printed mapping reads back unchanged. */
  lemma ParseAfterPrint(out: Outside, payload: Mapping)
    requires ParseTaskContract(out, payload).Ok?
    ensures ParseTaskContract(out, ContractMapping(ParseTaskContract(out, payload).value)) == ParseTaskContract(out, payload)
  {
    var t := ParseTaskContract(out, payload).value;
    ContractMappingReads(t);
    ParseReads(out, payload, ContractMapping(t));
  }

  function StrictTaskContract(out: Outside, j: Json): Result<TaskContract, Problem> {
    var shaped := j.JObj? && j.fields.Keys == CONTRACT_FIELDS;
    :- Need(shaped, BadFields);
    :- Need(Get(j.fields, "schema_version") == JInt(1), BadSchema);
    var task := Get(j.fields, "task");
    :- Need(task.JObj? && task.fields.Keys == TASK_FIELDS, BadFields);
    var contract :- ParseTaskContract(out, j.fields);
    :- Need(contract.backend != "echo", BadBackend);
    :- Need(!contract.allowOffline, BadFlag);
    Ok(contract)
  }

  lemma StrictAfterPrint(out: Outside, j: Json)
    requires StrictTaskContract(out, j).Ok?
    ensures StrictTaskContract(out, JObj(ContractMapping(StrictTaskContract(out, j).value))) == StrictTaskContract(out, j)
  {
    var t := StrictTaskContract(out, j).value;
    ContractMappingReads(t);
    ParseReads(out, j.fields, ContractMapping(t));
    BodyRoundTrip(out, Get(j.fields, "task").fields);
    assert ParseTaskContract(out, j.fields) == Ok(t) && t.backend != "echo" && !t.allowOffline;
  }

  // ------------------------------------------------------------- field validators

  const MAX_TIMEOUT_SECONDS := 3600.0
  const MAX_REQUEST_ID_LENGTH := 128
  const MAX_ROLE_ID_LENGTH := 64
  const MAX_BACKEND_LENGTH := 64
  const MAX_BATCH_REQUEST_BYTES := 1048576
  const PLAN_KIND := "local-agent-dispatch-batch-plan"

  predicate IdLead(c: char) {
    'A' <= c <= 'Z' || 'a' <= c <= 'z' || '0' <= c <= '9'
  }

  predicate IsSafeId(s: string, maximum: nat) {
    && 0 < |s| <= maximum && IdLead(s[0])
    && forall i :: 0 <= i < |s| ==> IdLead(s[i]) || s[i] in {'.', '_', '-'}
  }

  function SafeIdOf(j: Json, maximum: nat): Result<string, Problem> {
    if j.JStr? && IsSafeId(j.text, maximum) then Ok(j.text) else Err(BadId)
  }

  /** Integers are read as floats; booleans are not numbers. */
  function NumberOf(j: Json): Option<real> {
    if j.JInt? then Some(j.number as real) else if j.JFloat? then Some(j.float) else None
  }

  function TimeoutOf(j: Json): Result<real, Problem> {
    var number := NumberOf(j);
    if number.Some? && 0.0 < number.value <= MAX_TIMEOUT_SECONDS then Ok(number.value) else Err(BadTimeout)
  }

  function DigestOf(j: Json): Result<string, Problem> {
    if j.JStr? && IsSha256(j.text) then Ok(j.text) else Err(BadDigest)
  }

  predicate IsGitHead(s: string) {
    |s| in {40, 64} && IsLowerHex(s)
  }

  predicate GoodProfileEntry(out: Outside, name: string, value: Json) {
    0 < |name| <= 64 && value.JStr? && |value.text| <= 4096 && out.allowed(value.text)
  }

  function ProfileOf(out: Outside, j: Json): Result<map<string, string>, Problem> {
    if j.JObj? && 0 < |j.fields| <= 16 && forall name :: name in j.fields ==> GoodProfileEntry(out, name, j.fields[name])
    then Ok(map name | name in j.fields :: j.fields[name].text) else Err(BadProfile)
  }

  function ProfileMapping(profile: map<string, string>): Json {
    JObj(map name | name in profile :: JStr(profile[name]))
  }

  lemma ProfileRoundTrip(out: Outside, j: Json)
    requires ProfileOf(out, j).Ok?
    ensures ProfileMapping(ProfileOf(out, j).value) == j
  {
  }

  // ----------------------------------------------------------------- plan members

  datatype BatchMemberPlan = BatchMemberPlan(
    roleId: string, backend: string, contextFileCount: nat, contextSha256: string, baseHead: Option<string>,
    profile: map<string, string>, timeoutSeconds: real, contract: Mapping)

  const MEMBER_FIELDS := {"role_id", "resolved_backend", "context_file_count", "context_sha256", "base_head",
                          "execution_profile", "timeout_seconds", "normalized_contract"}

  function HeadOf(j: Json, mode: string): Result<Option<string>, Problem> {
    if mode == "read-only" then (if j == JNull then Ok(None) else Err(BadHead))
    else if j.JStr? && IsGitHead(j.text) then Ok(Some(j.text)) else Err(BadHead)
  }

  /** Untyped constructor arguments. */
  datatype RawMember = RawMember(roleId: Json, backend: Json, count: Json, context: Json, head: Json,
                                 profile: Json, timeout: Json, contract: Json)

  /** Builds and normalises one plan member. */
  function MakeMember(out: Outside, raw: RawMember): Result<BatchMemberPlan, Problem> {
    var role :- SafeIdOf(raw.roleId, MAX_ROLE_ID_LENGTH);
    var resolved :- SafeIdOf(raw.backend, MAX_BACKEND_LENGTH);
    :- Need(resolved !in {"auto", "echo"}, BadBackend);
    :- Need(raw.count.JInt? && raw.count.number >= 0, BadFields);
    var digest :- DigestOf(raw.context);
    var fields :- ProfileOf(out, raw.profile);
    :- Need("backend" in fields && fields["backend"] == resolved, BadProfile);
    var seconds :- TimeoutOf(raw.timeout);
    var task :- StrictTaskContract(out, raw.contract);
    var base :- HeadOf(raw.head, task.mode);
    Ok(BatchMemberPlan(role, resolved, raw.count.number, digest, base, fields, seconds, ContractMapping(task)))
  }

  function MemberMapping(m: BatchMemberPlan): Mapping {
    map["role_id" := JStr(m.roleId), "resolved_backend" := JStr(m.backend),
        "context_file_count" := JInt(m.contextFileCount), "context_sha256" := JStr(m.contextSha256),
        "base_head" := (if m.baseHead.None? then JNull else JStr(m.baseHead.value)),
        "execution_profile" := ProfileMapping(m.profile), "timeout_seconds" := JFloat(m.timeoutSeconds),
        "normalized_contract" := JObj(m.contract)]
  }

  function MemberFromMapping(out: Outside, p: Mapping): Result<BatchMemberPlan, Problem> {
    if p.Keys != MEMBER_FIELDS then Err(BadFields) else
    MakeMember(out, RawMember(Get(p, "role_id"), Get(p, "resolved_backend"), Get(p, "context_file_count"),
                              Get(p, "context_sha256"), Get(p, "base_head"), Get(p, "execution_profile"),
                              Get(p, "timeout_seconds"), Get(p, "normalized_contract")))
  }

  /** Some arguments construct this member. */
  ghost predicate ConstructibleMember(out: Outside, m: BatchMemberPlan) {
    exists raw :: MakeMember(out, raw) == Ok(m)
  }

  /** A member's own fields pass every check its constructor makes. */
  predicate NormalMember(out: Outside, m: BatchMemberPlan) {
    && IsSafeId(m.roleId, MAX_ROLE_ID_LENGTH) && IsSafeId(m.backend, MAX_BACKEND_LENGTH) && m.backend !in {"auto", "echo"}
    && IsSha256(m.contextSha256) && ProfileOf(out, ProfileMapping(m.profile)) == Ok(m.profile)
    && "backend" in m.profile && m.profile["backend"] == m.backend
    && 0.0 < m.timeoutSeconds <= MAX_TIMEOUT_SECONDS
    && var task := StrictTaskContract(out, JObj(m.contract));
       task.Ok? && ContractMapping(task.value) == m.contract
       && HeadOf(if m.baseHead.None? then JNull else JStr(m.baseHead.value), task.value.mode) == Ok(m.baseHead)
  }

  /** Every check of the constructor, flattened. */
  predicate MadeFrom(out: Outside, raw: RawMember, m: BatchMemberPlan) {
    && SafeIdOf(raw.roleId, MAX_ROLE_ID_LENGTH) == Ok(m.roleId) && SafeIdOf(raw.backend, MAX_BACKEND_LENGTH) == Ok(m.backend)
    && m.backend !in {"auto", "echo"} && DigestOf(raw.context) == Ok(m.contextSha256)
    && ProfileOf(out, raw.profile) == Ok(m.profile) && "backend" in m.profile && m.profile["backend"] == m.backend
    && TimeoutOf(raw.timeout) == Ok(m.timeoutSeconds)
    && StrictTaskContract(out, raw.contract).Ok?
    && m.contract == ContractMapping(StrictTaskContract(out, raw.contract).value)
    && HeadOf(raw.head, StrictTaskContract(out, raw.contract).value.mode) == Ok(m.baseHead)
  }

  lemma MakeMemberChecks(out: Outside, raw: RawMember)
    requires MakeMember(out, raw).Ok?
    ensures MadeFrom(out, raw, MakeMember(out, raw).value)
  {
  }

  lemma MadeMemberIsNormal(out: Outside, raw: RawMember, m: BatchMemberPlan)
    requires MadeFrom(out, raw, m)
    ensures NormalMember(out, m)
  {
    StrictAfterPrint(out, raw.contract);
    ProfileRoundTrip(out, raw.profile);
  }

  predicate ReadsAsMember(p: Mapping, m: BatchMemberPlan) {
    && p.Keys == MEMBER_FIELDS
    && Get(p, "role_id") == JStr(m.roleId) && Get(p, "resolved_backend") == JStr(m.backend)
    && Get(p, "context_file_count") == JInt(m.contextFileCount) && Get(p, "context_sha256") == JStr(m.contextSha256)
    && Get(p, "base_head") == (if m.baseHead.None? then JNull else JStr(m.baseHead.value))
    && Get(p, "execution_profile") == ProfileMapping(m.profile)
    && Get(p, "timeout_seconds") == JFloat(m.timeoutSeconds) && Get(p, "normalized_contract") == JObj(m.contract)
  }

  lemma MemberMappingReads(m: BatchMemberPlan)
    ensures ReadsAsMember(MemberMapping(m), m)
  {
  }

  lemma MemberReads(out: Outside, m: BatchMemberPlan, p: Mapping)
    requires NormalMember(out, m) && ReadsAsMember(p, m)
    ensures MemberFromMapping(out, p) == Ok(m)
  {
    assert SafeIdOf(Get(p, "role_id"), MAX_ROLE_ID_LENGTH) == Ok(m.roleId);
    assert SafeIdOf(Get(p, "resolved_backend"), MAX_BACKEND_LENGTH) == Ok(m.backend);
    assert DigestOf(Get(p, "context_sha256")) == Ok(m.contextSha256);
    assert ProfileOf(out, Get(p, "execution_profile")) == Ok(m.profile);
    assert TimeoutOf(Get(p, "timeout_seconds")) == Ok(m.timeoutSeconds);
    var task := StrictTaskContract(out, Get(p, "normalized_contract"));
    assert task.Ok? && ContractMapping(task.value) == m.contract;
    assert HeadOf(Get(p, "base_head"), task.value.mode) == Ok(m.baseHead);
  }

  /** Every constructible member prints to a mapping that parses back to it. */
  lemma MemberRoundTrip(out: Outside, m: BatchMemberPlan)
    requires ConstructibleMember(out, m)
    ensures MemberFromMapping(out, MemberMapping(m)) == Ok(m) && NormalMember(out, m)
  {
    var raw :| MakeMember(out, raw) == Ok(m);
    MakeMemberChecks(out, raw);
    MadeMemberIsNormal(out, raw, m);
    MemberMappingReads(m);
    MemberReads(out, m, MemberMapping(m));
  }

  // ------------------------------------------------------------------ whole plans

  datatype BatchPlan = BatchPlan(projectRoot: string, requestId: string, effects: Mapping, members: seq<BatchMemberPlan>)

  const PLAN_FIELDS := {"schema_version", "kind", "project_root", "request_id", "strategy", "effects", "members",
                        "plan_sha256"}

  predicate IsEdit(m: BatchMemberPlan) {
    Get(m.contract, "mode") == JStr("edit")
  }

  function EffectsFor(members: seq<BatchMemberPlan>): Mapping {
    map["creates_local_state" := JBool(true), "starts_provider_processes" := JInt(|members|),
        "may_use_network_or_bill" := JBool(true), "writes_source_worktree" := JBool(false),
        "returns_patch_only" := JBool(exists i :: 0 <= i < |members| && IsEdit(members[i]))]
  }

  predicate UniqueRoles(members: seq<BatchMemberPlan>) {
    forall i, j :: 0 <= i < j < |members| ==> members[i].roleId != members[j].roleId
  }

  predicate AtMostOneEdit(members: seq<BatchMemberPlan>) {
    forall i, j :: 0 <= i < j < |members| ==> !(IsEdit(members[i]) && IsEdit(members[j]))
  }

  /** Builds and normalises a plan from untyped arguments and built members. */
  function MakePlan(out: Outside, schema: Json, root: Json, requestId: Json, strategy: Json, effects: Json,
                    members: seq<BatchMemberPlan>): Result<BatchPlan, Problem>
  {
    if schema != JInt(1) then Err(BadSchema) else
    :- Need(root.JStr? && Strip(out.space, root.text) != "", BadRoot);
    var id :- SafeIdOf(requestId, MAX_REQUEST_ID_LENGTH);
    :- Need(strategy == JStr("independent"), BadStrategy);
    :- Need(2 <= |members| <= 4, BadMembers);
    :- Need(UniqueRoles(members), BadRoles);
    :- Need(AtMostOneEdit(members), BadMembers);
    :- Need(effects == JObj(EffectsFor(members)), BadEffects);
    Ok(BatchPlan(out.resolve(root.text), id, EffectsFor(members), members))
  }

  function MemberMappings(members: seq<BatchMemberPlan>): seq<Json> {
    seq(|members|, i requires 0 <= i < |members| => JObj(MemberMapping(members[i])))
  }

  function CanonicalMapping(plan: BatchPlan): Mapping {
    map["schema_version" := JInt(1), "kind" := JStr(PLAN_KIND), "project_root" := JStr(plan.projectRoot),
        "request_id" := JStr(plan.requestId), "strategy" := JStr("independent"),
        "effects" := JObj(plan.effects), "members" := JList(MemberMappings(plan.members))]
  }

  function PlanSha256(out: Outside, plan: BatchPlan): string {
    out.sha256(out.canonical(CanonicalMapping(plan)))
  }

  function PlanMapping(out: Outside, plan: BatchPlan): Mapping {
    CanonicalMapping(plan)["plan_sha256" := JStr(PlanSha256(out, plan))]
  }

  /** One stored plan member. */
  function MemberReader(out: Outside): (nat, Json) -> Result<BatchMemberPlan, Problem> {
    (i: nat, j: Json) => if j.JObj? then MemberFromMapping(out, j.fields) else Err(BadMembers)
  }

  function PlanFromMapping(out: Outside, p: Mapping): Result<BatchPlan, Problem> {
    if p.Keys != PLAN_FIELDS then Err(BadFields) else
    :- Need(Get(p, "kind") == JStr(PLAN_KIND), BadKind);
    var raw := Get(p, "members");
    :- Need(raw.JList?, BadMembers);
    var members :- Traverse(MemberReader(out), raw.items, 0);
    :- Need(Get(p, "effects").JObj?, BadEffects);
    var plan :- MakePlan(out, Get(p, "schema_version"), Get(p, "project_root"), Get(p, "request_id"),
                         Get(p, "strategy"), Get(p, "effects"), members);
    var digest :- DigestOf(Get(p, "plan_sha256"));
    :- Need(digest == PlanSha256(out, plan), BadDigest);
    Ok(plan)
  }

  /** Path resolution gives non-blank paths that resolve to themselves, and
      SHA-256 gives 64 lower-case hexadecimal digits. */
  ghost predicate Settled(out: Outside) {
    && (forall s :: out.resolve(out.resolve(s)) == out.resolve(s))
    && (forall s :: Strip(out.space, s) != "" ==> Strip(out.space, out.resolve(s)) != "")
    && (forall s :: IsSha256(out.sha256(s)))
  }

  /** Some arguments, and constructible members, construct this plan. */
  ghost predicate ConstructiblePlan(out: Outside, plan: BatchPlan) {
    && (forall i :: 0 <= i < |plan.members| ==> ConstructibleMember(out, plan.members[i]))
    && exists schema, root, requestId, strategy, effects ::
         MakePlan(out, schema, root, requestId, strategy, effects, plan.members) == Ok(plan)
  }

  /** A plan whose fields pass every check its constructor makes. */
  predicate NormalPlan(out: Outside, plan: BatchPlan) {
    && IsSafeId(plan.requestId, MAX_REQUEST_ID_LENGTH) && 2 <= |plan.members| <= 4
    && UniqueRoles(plan.members) && AtMostOneEdit(plan.members) && plan.effects == EffectsFor(plan.members)
    && out.resolve(plan.projectRoot) == plan.projectRoot && Strip(out.space, plan.projectRoot) != ""
  }

  lemma MadePlanIsNormal(out: Outside, plan: BatchPlan)
    requires Settled(out) && ConstructiblePlan(out, plan)
    ensures NormalPlan(out, plan)
  {
  }

  lemma MembersRoundTrip(out: Outside, members: seq<BatchMemberPlan>)
    requires forall i :: 0 <= i < |members| ==> ConstructibleMember(out, members[i])
    ensures Traverse(MemberReader(out), MemberMappings(members), 0) == Ok(members)
  {
    forall i | 0 <= i < |members| ensures MemberReader(out)(i, MemberMappings(members)[i]) == Ok(members[i]) {
      MemberRoundTrip(out, members[i]);
    }
    TraverseRoundTrip(MemberReader(out), MemberMappings(members), 0, members);
  }

  predicate ReadsAsPlan(p: Mapping, plan: BatchPlan, digest: string) {
    && p.Keys == PLAN_FIELDS
    && Get(p, "schema_version") == JInt(1) && Get(p, "kind") == JStr(PLAN_KIND)
    && Get(p, "project_root") == JStr(plan.projectRoot) && Get(p, "request_id") == JStr(plan.requestId)
    && Get(p, "strategy") == JStr("independent") && Get(p, "effects") == JObj(plan.effects)
    && Get(p, "members") == JList(MemberMappings(plan.members)) && Get(p, "plan_sha256") == JStr(digest)
  }

  lemma PlanMappingReads(out: Outside, plan: BatchPlan)
    ensures ReadsAsPlan(PlanMapping(out, plan), plan, PlanSha256(out, plan))
  {
  }

  lemma PlanReads(out: Outside, plan: BatchPlan, p: Mapping)
    requires NormalPlan(out, plan) && ReadsAsPlan(p, plan, PlanSha256(out, plan)) && IsSha256(PlanSha256(out, plan))
    requires Traverse(MemberReader(out), MemberMappings(plan.members), 0) == Ok(plan.members)
    ensures PlanFromMapping(out, p) == Ok(plan)
  {
  }

  /** Every constructible batch plan prints to a mapping that parses back to it. */
  lemma PlanRoundTrip(out: Outside, plan: BatchPlan)
    requires Settled(out) && ConstructiblePlan(out, plan)
    ensures PlanFromMapping(out, PlanMapping(out, plan)) == Ok(plan)
  {
    MadePlanIsNormal(out, plan);
    MembersRoundTrip(out, plan.members);
    PlanMappingReads(out, plan);
    PlanReads(out, plan, PlanMapping(out, plan));
  }
}
