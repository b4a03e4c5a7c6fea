/** Batch requests: the untrusted input a plan is made from, parsed strictly and
    printed back. */
module BatchRequests {
  import opened Common
  import opened BatchPlans

  datatype MemberRequest = MemberRequest(roleId: string, timeoutSeconds: real, contract: TaskContract)

  datatype BatchRequest = BatchRequest(requestId: string, members: seq<MemberRequest>)

  const REQUEST_FIELDS := {"schema_version", "request_id", "strategy", "members"}
  const REQUEST_MEMBER_FIELDS := {"role_id", "timeout_seconds", "contract"}

  function RequestMemberMapping(m: MemberRequest): Mapping {
    map["role_id" := JStr(m.roleId), "timeout_seconds" := JFloat(m.timeoutSeconds),
        "contract" := JObj(ContractMapping(m.contract))]
  }

  function RequestMembers(members: seq<MemberRequest>): seq<Json> {
    seq(|members|, i requires 0 <= i < |members| => JObj(RequestMemberMapping(members[i])))
  }

  function RequestMapping(r: BatchRequest): Mapping {
    map["schema_version" := JInt(1), "request_id" := JStr(r.requestId), "strategy" := JStr("independent"),
        "members" := JList(RequestMembers(r.members))]
  }

  // ---------------------------------------------------------- what is accepted

  /** This entry reads as this member. */
  predicate ReadsAs(out: Outside, j: Json, m: MemberRequest) {
    && j.JObj? && j.fields.Keys == REQUEST_MEMBER_FIELDS
    && SafeIdOf(Get(j.fields, "role_id"), MAX_ROLE_ID_LENGTH) == Ok(m.roleId)
    && TimeoutOf(Get(j.fields, "timeout_seconds")) == Ok(m.timeoutSeconds)
    && StrictTaskContract(out, Get(j.fields, "contract")) == Ok(m.contract)
  }

  predicate RolesDiffer(members: seq<MemberRequest>) {
    forall i, j :: 0 <= i < j < |members| ==> members[i].roleId != members[j].roleId
  }

  predicate OneEditor(members: seq<MemberRequest>) {
    forall i, j :: 0 <= i < j < |members| ==> !(members[i].contract.mode == "edit" && members[j].contract.mode == "edit")
  }

  predicate Shaped(p: Json, requestId: string) {
    && p.JObj? && p.fields.Keys == REQUEST_FIELDS && Get(p.fields, "schema_version") == JInt(1)
    && SafeIdOf(Get(p.fields, "request_id"), MAX_REQUEST_ID_LENGTH) == Ok(requestId)
    && Get(p.fields, "strategy") == JStr("independent") && Get(p.fields, "members").JList?
    && 2 <= |Get(p.fields, "members").items| <= 4
  }

  /** The payload is a valid request, and this is the one it says. */
  predicate Says(out: Outside, p: Json, r: BatchRequest) {
    && Shaped(p, r.requestId) && |r.members| == |Get(p.fields, "members").items|
    && (forall i :: 0 <= i < |r.members| ==> ReadsAs(out, Get(p.fields, "members").items[i], r.members[i]))
    && RolesDiffer(r.members) && OneEditor(r.members)
    && |out.canonical(RequestMapping(r))| <= MAX_BATCH_REQUEST_BYTES
  }

  /** A payload says at most one request. */
  lemma SaysOneRequest(out: Outside, p: Json, a: BatchRequest, b: BatchRequest)
    requires Says(out, p, a) && Says(out, p, b)
    ensures a == b
  {
    forall i | 0 <= i < |a.members| ensures a.members[i] == b.members[i] {
      assert ReadsAs(out, Get(p.fields, "members").items[i], a.members[i]);
      assert ReadsAs(out, Get(p.fields, "members").items[i], b.members[i]);
    }
  }

  // ------------------------------------------------------------------ the parser

  method ReadMember(out: Outside, j: Json) returns (reply: Result<MemberRequest, Problem>)
    ensures reply.Ok? ==> ReadsAs(out, j, reply.value)
    ensures reply.Err? ==> forall m :: !ReadsAs(out, j, m)
  {
    if !j.JObj? || j.fields.Keys != REQUEST_MEMBER_FIELDS {
      return Err(BadFields);
    }
    var role := SafeIdOf(Get(j.fields, "role_id"), MAX_ROLE_ID_LENGTH);
    if role.Err? {
      return Err(role.error);
    }
    var timeout := TimeoutOf(Get(j.fields, "timeout_seconds"));
    if timeout.Err? {
      return Err(timeout.error);
    }
    var contract := StrictTaskContract(out, Get(j.fields, "contract"));
    if contract.Err? {
      return Err(contract.error);
    }
    return Ok(MemberRequest(role.value, timeout.value, contract.value));
  }

  ghost predicate Unsaid(out: Outside, p: Json) {
    forall r :: !Says(out, p, r)
  }

  /** No allowed list of members is what these entries read as. */
  ghost predicate NoReading(out: Outside, items: seq<Json>) {
    forall members: seq<MemberRequest> | |members| == |items| && RolesDiffer(members) && OneEditor(members) ::
      exists i :: 0 <= i < |items| && !ReadsAs(out, items[i], members[i])
  }

  lemma UnreadableEntry(out: Outside, items: seq<Json>, i: nat)
    requires i < |items| && forall m :: !ReadsAs(out, items[i], m)
    ensures NoReading(out, items)
  {
    forall members: seq<MemberRequest> | |members| == |items|
      ensures exists k :: 0 <= k < |items| && !ReadsAs(out, items[k], members[k])
    {
      assert !ReadsAs(out, items[i], members[i]);
    }
  }

  /** Entries read one way only, so two that clash clash in every reading. */
  lemma ClashesAreSeen(out: Outside, items: seq<Json>, members: seq<MemberRequest>, next: MemberRequest, j: nat)
    requires j < |members| < |items| && ReadsAs(out, items[j], members[j]) && ReadsAs(out, items[|members|], next)
    requires members[j].roleId == next.roleId || (members[j].contract.mode == "edit" && next.contract.mode == "edit")
    ensures NoReading(out, items)
  {
    forall others: seq<MemberRequest> | |others| == |items| && RolesDiffer(others) && OneEditor(others)
      ensures exists k :: 0 <= k < |items| && !ReadsAs(out, items[k], others[k])
    {
      if ReadsAs(out, items[j], others[j]) && ReadsAs(out, items[|members|], others[|members|]) {
        assert false;
      }
    }
  }

  predicate ReadSoFar(out: Outside, items: seq<Json>, members: seq<MemberRequest>) {
    |members| <= |items| && forall j :: 0 <= j < |members| ==> ReadsAs(out, items[j], members[j])
  }

  ghost predicate RolesSoFar(members: seq<MemberRequest>, roles: set<string>) {
    RolesDiffer(members) && forall role :: role in roles <==> exists j :: 0 <= j < |members| && members[j].roleId == role
  }

  predicate EditsSoFar(members: seq<MemberRequest>, edits: nat) {
    && OneEditor(members) && edits <= 1
    && (edits == 0 <==> forall j :: 0 <= j < |members| ==> members[j].contract.mode != "edit")
  }

  /** What the loop has gathered from the first entries. */
  ghost predicate Gathered(out: Outside, items: seq<Json>, members: seq<MemberRequest>, roles: set<string>,
      edits: nat) {
    ReadSoFar(out, items, members) && RolesSoFar(members, roles) && EditsSoFar(members, edits)
  }

  lemma OneMoreRole(members: seq<MemberRequest>, roles: set<string>, next: MemberRequest)
    requires RolesSoFar(members, roles) && next.roleId !in roles
    ensures RolesSoFar(members + [next], roles + {next.roleId})
  {
    var more := members + [next];
    forall role ensures role in roles + {next.roleId} <==> exists j :: 0 <= j < |more| && more[j].roleId == role {
      if role in roles {
        var j :| 0 <= j < |members| && members[j].roleId == role;
        assert more[j].roleId == role;
      }
      if role == next.roleId {
        assert more[|members|].roleId == role;
      }
    }
  }

  lemma OneMoreEdit(members: seq<MemberRequest>, edits: nat, next: MemberRequest)
    requires EditsSoFar(members, edits) && (next.contract.mode == "edit" ==> edits == 0)
    ensures EditsSoFar(members + [next], if next.contract.mode == "edit" then edits + 1 else edits)
  {
    var more := members + [next];
    assert more[|members|] == next;
    assert forall j :: 0 <= j < |members| ==> more[j] == members[j];
  }

  lemma OneMoreRead(out: Outside, items: seq<Json>, members: seq<MemberRequest>, next: MemberRequest)
    requires ReadSoFar(out, items, members) && |members| < |items| && ReadsAs(out, items[|members|], next)
    ensures ReadSoFar(out, items, members + [next])
  {
    var more := members + [next];
    forall j | 0 <= j < |more| ensures ReadsAs(out, items[j], more[j]) {
      if j < |members| {
        assert more[j] == members[j] && ReadsAs(out, items[j], members[j]);
      } else {
        assert more[j] == next;
      }
    }
  }

  lemma GatherOne(out: Outside, items: seq<Json>, members: seq<MemberRequest>, roles: set<string>, edits: nat,
      next: MemberRequest)
    requires Gathered(out, items, members, roles, edits) && |members| < |items| && ReadsAs(out, items[|members|], next)
    requires next.roleId !in roles && (next.contract.mode == "edit" ==> edits == 0)
    ensures Gathered(out, items, members + [next], roles + {next.roleId}, if next.contract.mode == "edit" then edits + 1 else edits)
  {
    OneMoreRead(out, items, members, next);
    OneMoreRole(members, roles, next);
    OneMoreEdit(members, edits, next);
  }

  lemma GatherClash(out: Outside, items: seq<Json>, members: seq<MemberRequest>, roles: set<string>, edits: nat,
      next: MemberRequest)
    requires Gathered(out, items, members, roles, edits) && |members| < |items| && ReadsAs(out, items[|members|], next)
    requires next.roleId in roles || (next.contract.mode == "edit" && edits == 1)
    ensures NoReading(out, items)
  {
    var j :| 0 <= j < |members|
             && (members[j].roleId == next.roleId || (members[j].contract.mode == "edit" && next.contract.mode == "edit"));
    ClashesAreSeen(out, items, members, next, j);
  }

  /** Reads the members one by one, and refuses a repeated role or a second editor
      as soon as it meets one. */
  method ReadMembers(out: Outside, items: seq<Json>) returns (reply: Result<seq<MemberRequest>, Problem>)
    ensures reply.Ok? ==> && |reply.value| == |items| && RolesDiffer(reply.value) && OneEditor(reply.value)
                          && forall i :: 0 <= i < |items| ==> ReadsAs(out, items[i], reply.value[i])
    ensures reply.Err? ==> NoReading(out, items)
  {
    var members: seq<MemberRequest> := [];
    var roles: set<string> := {};
    var edits: nat := 0;
    for i := 0 to |items|
      invariant |members| == i && Gathered(out, items, members, roles, edits)
    {
      var member := ReadMember(out, items[i]);
      if member.Err? {
        UnreadableEntry(out, items, i);
        return Err(member.error);
      }
      var next := member.value;
      if next.roleId in roles {
        GatherClash(out, items, members, roles, edits, next);
        return Err(BadRoles);
      }
      ghost var before, met := edits, roles;
      roles := roles + {next.roleId};
      if next.contract.mode == "edit" {
        edits := edits + 1;
        if edits > 1 {
          GatherClash(out, items, members, met, before, next);
          return Err(BadMembers);
        }
      }
      GatherOne(out, items, members, met, before, next);
      members := members + [next];
    }
    return Ok(members);
  }

  /** Accepts exactly valid requests, and returns what they say. */
  method ParseBatchRequest(out: Outside, p: Json) returns (reply: Result<BatchRequest, Problem>)
    ensures reply.Ok? ==> Says(out, p, reply.value)
    ensures reply.Err? ==> Unsaid(out, p)
  {
    if !p.JObj? || p.fields.Keys != REQUEST_FIELDS {
      return Err(BadFields);
    }
    if Get(p.fields, "schema_version") != JInt(1) {
      return Err(BadSchema);
    }
    var id := SafeIdOf(Get(p.fields, "request_id"), MAX_REQUEST_ID_LENGTH);
    if id.Err? {
      return Err(id.error);
    }
    if Get(p.fields, "strategy") != JStr("independent") {
      return Err(BadStrategy);
    }
    var items := Get(p.fields, "members");
    if !items.JList? || !(2 <= |items.items| <= 4) {
      return Err(BadMembers);
    }
    var members := ReadMembers(out, items.items);
    if members.Err? {
      return Err(members.error);
    }
    var request := BatchRequest(id.value, members.value);
    if |out.canonical(RequestMapping(request))| > MAX_BATCH_REQUEST_BYTES {
      forall r ensures !Says(out, p, r) {
        if Says(out, p, r) {
          OnlyReading(out, p, r, request);
        }
      }
      return Err(TooLarge);
    }
    return Ok(request);
  }

  lemma OnlyReading(out: Outside, p: Json, r: BatchRequest, request: BatchRequest)
    requires Says(out, p, r) && Shaped(p, request.requestId) && |request.members| == |Get(p.fields, "members").items|
    requires forall i :: 0 <= i < |request.members| ==> ReadsAs(out, Get(p.fields, "members").items[i], request.members[i])
    ensures r == request
  {
    forall i | 0 <= i < |r.members| ensures r.members[i] == request.members[i] {
      assert ReadsAs(out, Get(p.fields, "members").items[i], r.members[i]);
    }
  }

  // ------------------------------------------------------------------ round trip

  lemma MemberReadsBack(out: Outside, j: Json, m: MemberRequest)
    requires ReadsAs(out, j, m)
    ensures ReadsAs(out, JObj(RequestMemberMapping(m)), m)
  {
    StrictAfterPrint(out, Get(j.fields, "contract"));
    var printed := RequestMemberMapping(m);
    assert printed.Keys == REQUEST_MEMBER_FIELDS;
    assert Get(printed, "role_id") == JStr(m.roleId) && Get(printed, "timeout_seconds") == JFloat(m.timeoutSeconds);
    assert Get(printed, "contract") == JObj(ContractMapping(m.contract));
  }

  /** An accepted request prints to a payload that says the same request. */
  lemma RequestRoundTrip(out: Outside, p: Json, r: BatchRequest)
    requires Says(out, p, r)
    ensures Says(out, JObj(RequestMapping(r)), r)
  {
    var printed := RequestMapping(r);
    assert printed.Keys == REQUEST_FIELDS && Get(printed, "request_id") == JStr(r.requestId);
    assert Get(printed, "members") == JList(RequestMembers(r.members));
    forall i | 0 <= i < |r.members| ensures ReadsAs(out, RequestMembers(r.members)[i], r.members[i]) {
      MemberReadsBack(out, Get(p.fields, "members").items[i], r.members[i]);
    }
  }
}
