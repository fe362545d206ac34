/** An access right of a user or group: a default or resource-specific
    right, or an administrative one. */
module AccessRight {
  import opened Values
  import opened Outcomes
  import opened BcUtil
  import opened Compare

  datatype Params = Params(
    state: State,
    kind: string,
    userScopeName: string,
    userScopeType: string,
    resource: Option<string>,
    resourceType: Option<string>,
    configuration: Option<string>,
    defaultAccessLevel: string,
    adminEventRight: string,
    adminLogRight: string,
    adminReportRight: string,
    deploymentsAllowed: bool,
    quickDeploymentsAllowed: bool,
    selectiveDeploymentsAllowed: bool,
    workflowLevel: string,
    accessOverrides: seq<Json>)

  const Administrative := "AdministrativeAccessRight"

  /** The message of a failed resource lookup; the two parts are joined
      without a space. */
  function NotFound(what: string, p: Params): string {
    "Could not find " + what + " " + ShowOpt(p.resource) + "in configuration " + ShowOpt(p.configuration)
  }

  /** Resolves the resource a non-administrative right applies to. With no
      configuration, or a resource type other than the three known ones,
      the right applies to no resource (id None). */
  function ResourceId(api: Query -> Response, p: Params): (r: Flow<Json>)
    ensures !Given(p.configuration) ==> r == Go(Null)
    ensures (Given(p.configuration) && p.resourceType == Some("networks") &&
             GetNetworkByRange(api, p.configuration.value, ShowOpt(p.resource)) == Go(None)) ==>
      r == Stop(Fail(NotFound("network with range", p)))
    ensures (Given(p.configuration) && p.resourceType == Some("blocks") &&
             GetBlockByRange(api, p.configuration.value, ShowOpt(p.resource)) == Go(None)) ==>
      r == Stop(Fail(NotFound("block with range", p)))
    ensures (Given(p.configuration) && p.resourceType == Some("zones") &&
             GetZoneByFqdn(api, p.configuration.value, ShowOpt(p.resource)) == Go(None)) ==>
      r == Stop(Fail(NotFound("zone with FQDN", p)))
    ensures (Given(p.configuration) && p.resourceType == Some("networks") &&
             GetNetworkByRange(api, p.configuration.value, ShowOpt(p.resource)).Go? &&
             GetNetworkByRange(api, p.configuration.value, ShowOpt(p.resource)).value.Some?) ==>
      r == Go(Get(GetNetworkByRange(api, p.configuration.value, ShowOpt(p.resource)).value.value, "id"))
    ensures (Given(p.configuration) && p.resourceType == Some("blocks") &&
             GetBlockByRange(api, p.configuration.value, ShowOpt(p.resource)).Go? &&
             GetBlockByRange(api, p.configuration.value, ShowOpt(p.resource)).value.Some?) ==>
      r == Go(Get(GetBlockByRange(api, p.configuration.value, ShowOpt(p.resource)).value.value, "id"))
    ensures (Given(p.configuration) && p.resourceType == Some("zones") &&
             GetZoneByFqdn(api, p.configuration.value, ShowOpt(p.resource)).Go? &&
             GetZoneByFqdn(api, p.configuration.value, ShowOpt(p.resource)).value.Some?) ==>
      r == Go(Get(GetZoneByFqdn(api, p.configuration.value, ShowOpt(p.resource)).value.value, "id"))
    ensures Given(p.configuration) && p.resourceType !in {Some("networks"), Some("blocks"), Some("zones")} ==>
      r == Go(Null)
  {
    if !Given(p.configuration) then Go(Null)
    else
      var configuration := p.configuration.value;
      var resource := ShowOpt(p.resource);
      var (lookup, what) :=
        if p.resourceType == Some("networks") then (GetNetworkByRange(api, configuration, resource), "network with range")
        else if p.resourceType == Some("blocks") then (GetBlockByRange(api, configuration, resource), "block with range")
        else if p.resourceType == Some("zones") then (GetZoneByFqdn(api, configuration, resource), "zone with FQDN")
        else (Go(Some(map[])), "");
      match lookup
      case Stop(o) => Stop(o)
      case Go(found) =>
        if found.None? then Stop(Fail(NotFound(what, p))) else Go(Get(found.value, "id"))
  }

  /** The id of the user or group receiving the right; the run fails when
      there is none. A type other than User and UserGroup leaves
      `userScope` unbound. */
  function UserScopeId(api: Query -> Response, p: Params): (r: Flow<Json>)
    ensures p.userScopeType != "User" && p.userScopeType != "UserGroup" ==> r == Stop(Crash(NameError("userScope")))
    ensures p.userScopeType == "User" && GetUserByName(api, p.userScopeName) == Go(None) ==>
      r == Stop(Fail("Could not find UserScope with name " + p.userScopeName + "and type " + p.userScopeType))
    ensures p.userScopeType == "UserGroup" && GetGroupByName(api, p.userScopeName) == Go(None) ==>
      r == Stop(Fail("Could not find UserScope with name " + p.userScopeName + "and type " + p.userScopeType))
    ensures p.userScopeType == "User" && GetUserByName(api, p.userScopeName).Go? &&
            GetUserByName(api, p.userScopeName).value.Some? ==>
      r == Go(Get(GetUserByName(api, p.userScopeName).value.value, "id"))
    ensures p.userScopeType == "UserGroup" && GetGroupByName(api, p.userScopeName).Go? &&
            GetGroupByName(api, p.userScopeName).value.Some? ==>
      r == Go(Get(GetGroupByName(api, p.userScopeName).value.value, "id"))
  {
    var lookup :=
      if p.userScopeType == "User" then GetUserByName(api, p.userScopeName)
      else if p.userScopeType == "UserGroup" then GetGroupByName(api, p.userScopeName)
      else Stop(Crash(NameError("userScope")));
    match lookup
    case Stop(o) => Stop(o)
    case Go(found) =>
      if found.None? then Stop(Fail("Could not find UserScope with name " + p.userScopeName + "and type " + p.userScopeType))
      else Go(Get(found.value, "id"))
  }

  /** One administrative right entry. */
  function AdminRight(level: string, resourceType: string): Json {
    Object(map["accessLevel" := Str(level), "resourceType" := Str(resourceType)])
  }

  /** `build_data`: type and user scope; the three administrative rights
      for an administrative right, the six resource settings otherwise; the
      resource reference when its id is truthy. */
  function BuildData(p: Params, userScopeId: Json, resourceId: Json): (d: Payload)
    ensures |d| >= 2 && Keys(d)[..2] == ["type", "userScope"]
    ensures d[0].1 == Str(p.kind)
    ensures d[1].1 == Object(map["id" := userScopeId, "type" := Str(p.userScopeType)])
    ensures p.kind == Administrative ==>
      (|d| >= 3 && Keys(d)[2] == "administrativeAccessRights" &&
       d[2].1 == List([AdminRight(p.adminEventRight, "Event"), AdminRight(p.adminLogRight, "Log"),
                       AdminRight(p.adminReportRight, "Report")]))
    ensures p.kind != Administrative ==> |d| >= 8 && Keys(d)[2..8] == ["defaultAccessLevel", "deploymentsAllowed",
      "quickDeploymentsAllowed", "selectiveDeploymentsAllowed", "workflowLevel", "accessOverrides"]
    ensures p.kind != Administrative ==>
      (|d| >= 8 && d[2].1 == Str(p.defaultAccessLevel) && d[3].1 == Bool(p.deploymentsAllowed) &&
       d[4].1 == Bool(p.quickDeploymentsAllowed) && d[5].1 == Bool(p.selectiveDeploymentsAllowed) &&
       d[6].1 == Str(p.workflowLevel) && d[7].1 == List(p.accessOverrides))
    ensures Keys(d)[|d| - 1] == "resource" <==> Truthy(resourceId)
    ensures Truthy(resourceId) ==> d[|d| - 1].1 == Object(map["id" := resourceId])
  {
    var head := [("type", Str(p.kind)),
                 ("userScope", Object(map["id" := userScopeId, "type" := Str(p.userScopeType)]))];
    var rights :=
      if p.kind == Administrative then
        [("administrativeAccessRights",
          List([AdminRight(p.adminEventRight, "Event"), AdminRight(p.adminLogRight, "Log"),
                AdminRight(p.adminReportRight, "Report")]))]
      else
        [("defaultAccessLevel", Str(p.defaultAccessLevel)),
         ("deploymentsAllowed", Bool(p.deploymentsAllowed)),
         ("quickDeploymentsAllowed", Bool(p.quickDeploymentsAllowed)),
         ("selectiveDeploymentsAllowed", Bool(p.selectiveDeploymentsAllowed)),
         ("workflowLevel", Str(p.workflowLevel)),
         ("accessOverrides", List(p.accessOverrides))];
    var tail := if Truthy(resourceId) then [("resource", Object(map["id" := resourceId]))] else [];
    KeysAppend(head, rights);
    KeysAppend(head + rights, tail);
    head + rights + tail
  }

  /** The key `compare_data` skips. */
  const Skipped: set<string> := {"userScope"}

  /** `compare_data`: strict on every key but the user scope. */
  function CompareData(right: Record, data: Payload): (r: Flow<bool>)
    ensures r == Go(false) <==> forall i | 0 <= i < |data| && data[i].0 != "userScope" ::
      data[i].0 in right && right[data[i].0] == data[i].1
  {
    SkipNoDiff(Skipped, data, right);
    Scan(data, SkipRule(Skipped, right))
  }

  /** Everything `exec_module` resolves before deciding. */
  datatype Observed = Observed(resourceId: Json, userScopeId: Json, right: Option<Record>)

  function Observe(api: Query -> Response, p: Params): (r: Flow<Observed>)
    ensures ResourceId(api, p).Stop? ==> r == Stop(ResourceId(api, p).outcome)
    ensures ResourceId(api, p).Go? && UserScopeId(api, p).Stop? ==> r == Stop(UserScopeId(api, p).outcome)
    ensures r.Go? ==>
      ResourceId(api, p) == Go(r.value.resourceId) && UserScopeId(api, p) == Go(r.value.userScopeId)
    ensures r.Go? && p.kind == Administrative ==>
      GetAdministrativeAccessRight(api, r.value.userScopeId) == Go(r.value.right)
    ensures r.Go? && p.kind != Administrative ==>
      GetAccessRightByResourceId(api, r.value.resourceId, r.value.userScopeId) == Go(r.value.right)
    ensures ResourceId(api, p).Go? && UserScopeId(api, p).Go? && p.kind == Administrative &&
            GetAdministrativeAccessRight(api, UserScopeId(api, p).value).Stop? ==>
      r == Stop(GetAdministrativeAccessRight(api, UserScopeId(api, p).value).outcome)
    ensures ResourceId(api, p).Go? && UserScopeId(api, p).Go? && p.kind != Administrative &&
            GetAccessRightByResourceId(api, ResourceId(api, p).value, UserScopeId(api, p).value).Stop? ==>
      r == Stop(GetAccessRightByResourceId(api, ResourceId(api, p).value, UserScopeId(api, p).value).outcome)
  {
    match ResourceId(api, p)
    case Stop(o) => Stop(o)
    case Go(resourceId) =>
      match UserScopeId(api, p)
      case Stop(o) => Stop(o)
      case Go(userScopeId) =>
        var lookup :=
          if p.kind == Administrative then GetAdministrativeAccessRight(api, userScopeId)
          else GetAccessRightByResourceId(api, resourceId, userScopeId);
        match lookup
        case Stop(o) => Stop(o)
        case Go(right) => Go(Observed(resourceId, userScopeId, right))
  }

  /** The id of the existing right, None when there is none. */
  function RightId(seen: Observed): Json {
    if Found(seen.right) then Get(seen.right.value, "id") else Null
  }

  /** `exec_module`. */
  function Exec(p: Params, env: Env): (r: Outcome)
    ensures Observe(env.api, p).Stop? ==> r == Observe(env.api, p).outcome
    ensures r.Exit? && r.call.Some? ==> !env.checkMode && r.changed
    ensures r.Exit? && r.call.Some? && !r.call.value.Delete? ==>
      var seen := Observe(env.api, p).value;
      p.state == Present && r.call.value.body == BuildData(p, seen.userScopeId, seen.resourceId) &&
      (r.call.value.Post? <==> !Truthy(RightId(seen)))
    ensures r.Exit? && r.call.Some? && r.call.value.Delete? ==>
      p.state == Absent && Truthy(RightId(Observe(env.api, p).value)) && r.call.value.sent == Some(BaseHeaders)
    ensures r.Exit? && r.call.Some? ==>
      r.call.value.path ==
        if r.call.value.Post? then "/accessRights" else "/accessRights/" + Show(RightId(Observe(env.api, p).value))
  {
    var seen :- Observe(env.api, p);
    var rightId := RightId(seen);
    match p.state
    case Present =>
      var data := BuildData(p, seen.userScopeId, seen.resourceId);
      if Truthy(rightId) then
        var differs :- CompareData(seen.right.value, data);
        if differs then Send(env, PUT, "/accessRights/" + Show(rightId), Go(data), BaseHeaders) else NoChange
      else Send(env, POST, "/accessRights", Go(data), BaseHeaders)
    case Absent =>
      if Truthy(rightId) then Mutate(env, Delete("/accessRights/" + Show(rightId), Some(BaseHeaders)))
      else NoChange
  }

  /** An existing right is left alone exactly when it stores every payload
      item except the user scope. */
  lemma Idempotent(p: Params, env: Env)
    requires p.state == Present
    requires Observe(env.api, p).Go? && Truthy(RightId(Observe(env.api, p).value))
    ensures var seen := Observe(env.api, p).value;
      var data := BuildData(p, seen.userScopeId, seen.resourceId);
      Exec(p, env) == NoChange <==>
        forall i | 0 <= i < |data| && data[i].0 != "userScope" ::
          data[i].0 in seen.right.value && seen.right.value[data[i].0] == data[i].1
  {
    var seen := Observe(env.api, p).value;
    var data := BuildData(p, seen.userScopeId, seen.resourceId);
    SkipNoDiff(Skipped, data, seen.right.value);
    if Exec(p, env) == NoChange {
      ScanOutcomes(data, SkipRule(Skipped, seen.right.value));
    }
  }

  /** With no existing right, `present` posts the built body to
      `/accessRights`. */
  lemma PresentMissing(p: Params, env: Env)
    requires p.state == Present
    requires Observe(env.api, p).Go? && !Truthy(RightId(Observe(env.api, p).value))
    ensures var seen := Observe(env.api, p).value;
      Exec(p, env) == Send(env, POST, "/accessRights", Go(BuildData(p, seen.userScopeId, seen.resourceId)), BaseHeaders)
  {
  }

  /** With an existing right, `present` puts the built body to its id
      exactly when the comparison reports a difference. */
  lemma PresentFound(p: Params, env: Env)
    requires p.state == Present
    requires Observe(env.api, p).Go? && Truthy(RightId(Observe(env.api, p).value))
    ensures var seen := Observe(env.api, p).value;
      var data := BuildData(p, seen.userScopeId, seen.resourceId);
      match CompareData(seen.right.value, data)
      case Go(true) => Exec(p, env) == Send(env, PUT, "/accessRights/" + Show(RightId(seen)), Go(data), BaseHeaders)
      case Go(false) => Exec(p, env) == NoChange
      case Stop(o) => Exec(p, env) == o
  {
  }

  /** `absent` deletes an existing right by its id, with the headers, and
      otherwise changes nothing. */
  lemma AbsentDeletes(p: Params, env: Env)
    requires p.state == Absent && Observe(env.api, p).Go?
    ensures var rightId := RightId(Observe(env.api, p).value);
      Exec(p, env) == if Truthy(rightId) then Mutate(env, Delete("/accessRights/" + Show(rightId), Some(BaseHeaders)))
        else NoChange
  {
  }
}
