/** A user group, local to Address Manager or backed by an LDAP authenticator. */
module Group {
  import opened Values
  import opened Outcomes
  import opened BcUtil
  import opened Compare

  datatype Params = Params(
    state: State,
    name: string,
    groupType: string,
    authenticatorName: Option<string>,
    administratorPrivilege: bool)

  const LdapAuthenticator := "LDAPAuthenticator"

  /** The authenticator of an LDAP group as `(id, type)`; both None for any
      other group type. An LDAP group whose authenticator is not found
      fails the run. */
  function ResolveAuthenticator(api: Query -> Response, p: Params): (r: Flow<(Json, Json)>)
    ensures p.groupType != "LDAP" ==> r == Go((Null, Null))
    ensures r.Go? && p.groupType == "LDAP" ==> r.value.1 == Str(LdapAuthenticator)
    ensures p.groupType == "LDAP" && GetAuthenticatorByName(api, ShowOpt(p.authenticatorName)).Go? ==>
      (r.Stop? <==> !Found(GetAuthenticatorByName(api, ShowOpt(p.authenticatorName)).value))
    ensures p.groupType == "LDAP" && GetAuthenticatorByName(api, ShowOpt(p.authenticatorName)).Go? &&
            Found(GetAuthenticatorByName(api, ShowOpt(p.authenticatorName)).value) ==>
      r == Go((Get(GetAuthenticatorByName(api, ShowOpt(p.authenticatorName)).value.value, "id"), Str(LdapAuthenticator)))
    ensures p.groupType == "LDAP" && GetAuthenticatorByName(api, ShowOpt(p.authenticatorName)).Go? &&
            !Found(GetAuthenticatorByName(api, ShowOpt(p.authenticatorName)).value) ==>
      r == Stop(Fail("Could not find authenticator " + ShowOpt(p.authenticatorName) + "of type " + LdapAuthenticator))
    ensures p.groupType == "LDAP" && GetAuthenticatorByName(api, ShowOpt(p.authenticatorName)).Stop? ==>
      r == Stop(GetAuthenticatorByName(api, ShowOpt(p.authenticatorName)).outcome)
  {
    if p.groupType != "LDAP" then Go((Null, Null))
    else
      match GetAuthenticatorByName(api, ShowOpt(p.authenticatorName))
      case Stop(o) => Stop(o)
      case Go(authenticator) =>
        if !Found(authenticator) then
          Stop(Fail("Could not find authenticator " + ShowOpt(p.authenticatorName) + "of type " + LdapAuthenticator))
        else Go((Get(authenticator.value, "id"), Str(LdapAuthenticator)))
  }

  /** `build_data`: name, type and privilege, and the authenticator
      reference only when its id is truthy. */
  function BuildData(p: Params, authenticatorId: Json, authenticatorType: Json): (d: Payload)
    ensures |d| >= 3 && Keys(d)[..3] == ["name", "groupType", "administratorPrivilege"]
    ensures |d| == 4 <==> Truthy(authenticatorId)
    ensures |d| == 4 ==> d[3] == ("authenticator",
      Object(map["id" := authenticatorId, "type" := authenticatorType]))
  {
    [("name", Str(p.name)), ("groupType", Str(p.groupType)), ("administratorPrivilege", Bool(p.administratorPrivilege))]
    + if Truthy(authenticatorId)
      then [("authenticator", Object(map["id" := authenticatorId, "type" := authenticatorType]))]
      else []
  }

  /** The key `compare_data` skips. */
  const Skipped: set<string> := {"authenticator"}

  /** `compare_data`: strict on every key but the authenticator. */
  function CompareData(group: Record, data: Payload): (r: Flow<bool>)
    ensures r == Go(false) <==> forall i | 0 <= i < |data| && data[i].0 != "authenticator" ::
      data[i].0 in group && group[data[i].0] == data[i].1
  {
    SkipNoDiff(Skipped, data, group);
    Scan(data, SkipRule(Skipped, group))
  }

  /** A change of authenticator alone is never detected: the comparison of
      a payload with the authenticator reference equals the comparison of
      the same payload without it. */
  lemma AuthenticatorIgnored(p: Params, group: Record, id: Json, kind: Json)
    ensures CompareData(group, BuildData(p, id, kind)) == CompareData(group, BuildData(p, Null, Null))
  {
    var d := BuildData(p, id, kind);
    var base := BuildData(p, Null, Null);
    if Truthy(id) {
      assert d == base + [d[3]];
      ScanAppendSame(base, [d[3]], SkipRule(Skipped, group));
    }
  }

  /** `exec_module`. A group that does not exist is never created: the
      create branch passes `data`, which only the update branch binds. */
  function Exec(p: Params, env: Env): (r: Outcome)
    ensures r.Exit? && r.call.Some? ==> !env.checkMode && r.changed
    ensures r.Exit? && r.call.Some? ==> r.call.value.Put? || r.call.value.Delete?
    ensures r.Exit? && r.call.Some? && r.call.value.Put? ==> p.state == Present
    ensures r.Exit? && r.call.Some? && r.call.value.Delete? ==>
      p.state == Absent && r.call.value.sent == Some(BaseHeaders)
    ensures ResolveAuthenticator(env.api, p).Stop? ==> r == ResolveAuthenticator(env.api, p).outcome
    ensures r.Exit? && r.call.Some? ==>
      GetGroupByName(env.api, p.name).Go? && Found(GetGroupByName(env.api, p.name).value) &&
      r.call.value.path == "/groups/" + Show(Get(GetGroupByName(env.api, p.name).value.value, "id"))
  {
    var (authenticatorId, authenticatorType) :- ResolveAuthenticator(env.api, p);
    var group :- GetGroupByName(env.api, p.name);
    var groupId := if Found(group) then Get(group.value, "id") else Null;
    match p.state
    case Present =>
      if Truthy(groupId) then
        var data := BuildData(p, authenticatorId, authenticatorType);
        var differs :- CompareData(group.value, data);
        if differs then Send(env, PUT, "/groups/" + Show(groupId), Go(data), BaseHeaders) else NoChange
      else Crash(NameError("data"))
    case Absent =>
      if Truthy(groupId) then Mutate(env, Delete("/groups/" + Show(groupId), Some(BaseHeaders)))
      else NoChange
  }

  /** With the authenticator resolved and the group found, `present` puts
      the built body to the group's id exactly when the comparison reports
      a difference. */
  lemma PresentFound(p: Params, env: Env)
    requires p.state == Present && ResolveAuthenticator(env.api, p).Go?
    requires GetGroupByName(env.api, p.name).Go? && Found(GetGroupByName(env.api, p.name).value)
    requires Truthy(Get(GetGroupByName(env.api, p.name).value.value, "id"))
    ensures var group := GetGroupByName(env.api, p.name).value.value;
      var (id, kind) := ResolveAuthenticator(env.api, p).value;
      match CompareData(group, BuildData(p, id, kind))
      case Go(true) => Exec(p, env) ==
        Send(env, PUT, "/groups/" + Show(Get(group, "id")), Go(BuildData(p, id, kind)), BaseHeaders)
      case Go(false) => Exec(p, env) == NoChange
      case Stop(o) => Exec(p, env) == o
  {
  }

  /** `absent` deletes a group with a truthy id, with the headers, and
      leaves anything else alone. */
  lemma AbsentDeletes(p: Params, env: Env)
    requires p.state == Absent && ResolveAuthenticator(env.api, p).Go?
    requires GetGroupByName(env.api, p.name).Go?
    ensures var group := GetGroupByName(env.api, p.name).value;
      var id := if Found(group) then Get(group.value, "id") else Null;
      Exec(p, env) == if Truthy(id) then Mutate(env, Delete("/groups/" + Show(id), Some(BaseHeaders)))
        else NoChange
  {
  }

  /** An existing group is left alone exactly when it holds name, type and
      privilege as given; its authenticator, LDAP or not, plays no part. */
  lemma Idempotent(p: Params, env: Env)
    requires p.state == Present && ResolveAuthenticator(env.api, p).Go?
    requires GetGroupByName(env.api, p.name).Go? && Found(GetGroupByName(env.api, p.name).value)
    requires Truthy(Get(GetGroupByName(env.api, p.name).value.value, "id"))
    ensures Holds(GetGroupByName(env.api, p.name).value.value, BuildData(p, Null, Null)) <==> Exec(p, env) == NoChange
  {
    var group := GetGroupByName(env.api, p.name).value.value;
    var data := BuildData(p, Null, Null);
    var (id, kind) := ResolveAuthenticator(env.api, p).value;
    AuthenticatorIgnored(p, group, id, kind);
    SkipAbsentKeys(Skipped, data, group);
    StrictNoDiff(data, group);
    if !Holds(group, data) {
      ScanOutcomes(data, StrictRule(group));
    }
  }

  /** `present` for a group that does not exist raises instead of creating it. */
  lemma MissingGroupRaises(p: Params, env: Env)
    requires p.state == Present && ResolveAuthenticator(env.api, p).Go?
    requires env.api(GroupByNameQuery(p.name)).count == 0
    ensures Exec(p, env) == Crash(NameError("data"))
  {
  }
}
