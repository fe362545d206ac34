/** The base class every module extends: filter construction, first-match
    lookups, the argument spec merge, and the login / exec / logout order. */
module BcUtil {
  import opened Values
  import opened Outcomes

  // ---------------------------------------------------------------------
  // Filters: `field:op(argument)` predicates joined by " and ". A string
  // argument is double-quoted; an id argument is written bare.

  function Quoted(field: string, op: string, value: string): string {
    field + ":" + op + "(\"" + value + "\")"
  }

  function Bare(field: string, op: string, value: string): string {
    field + ":" + op + "(" + value + ")"
  }

  function And(a: string, b: string): string {
    a + " and " + b
  }

  /** A GET with a filter and a page size, no `fields` and no ordering. */
  function Lookup(path: string, filter: string, limit: int): (q: Query)
    ensures q.path == path && q.filter == Some(filter) && q.limit == Some(limit)
    ensures q.fields.None? && q.orderBy.None?
  {
    Query(path, Some(filter), Some(limit), None, None)
  }

  // ---------------------------------------------------------------------
  // First-match selection over a `{count, data}` response.

  /** `None if resp['count'] == 0 else resp['data'][0]`. */
  function First(resp: Response): (r: Flow<Option<Record>>)
    ensures r == Go(None) <==> resp.count == 0
    ensures resp.count != 0 && resp.data != [] ==> r == Go(Some(resp.data[0]))
    ensures resp.count != 0 && resp.data == [] ==> r == Stop(Crash(IndexError))
  {
    if resp.count == 0 then Go(None)
    else if resp.data == [] then Stop(Crash(IndexError))
    else Go(Some(resp.data[0]))
  }

  /** `get_x() or dict()`: the first match, or the empty record when there is none. */
  function FirstOrEmpty(resp: Response): (r: Flow<Record>)
    ensures resp.count == 0 ==> r == Go(map[])
    ensures resp.count != 0 && resp.data != [] ==> r == Go(resp.data[0])
    ensures resp.count != 0 && resp.data == [] ==> r == Stop(Crash(IndexError))
  {
    match First(resp)
    case Stop(o) => Stop(o)
    case Go(found) => Go(OrEmpty(found))
  }

  /** `None if resp['count'] == 0 else resp['data'][0]['id']`. */
  function FirstId(resp: Response): (r: Flow<Json>)
    ensures resp.count == 0 ==> r == Go(Null)
    ensures resp.count != 0 && resp.data != [] && "id" in resp.data[0] ==> r == Go(resp.data[0]["id"])
    ensures resp.count != 0 && resp.data != [] && "id" !in resp.data[0] ==> r == Stop(Crash(KeyError("id")))
    ensures resp.count != 0 && resp.data == [] ==> r == Stop(Crash(IndexError))
  {
    if resp.count == 0 then Go(Null)
    else if resp.data == [] then Stop(Crash(IndexError))
    else Field(resp.data[0], "id")
  }

  /** `None if resp['count'] == 0 else resp['data'][-1]['id']`. */
  function LastId(resp: Response): (r: Flow<Json>)
    ensures resp.count == 0 ==> r == Go(Null)
    ensures resp.count != 0 && resp.data != [] && "id" in resp.data[|resp.data| - 1] ==>
      r == Go(resp.data[|resp.data| - 1]["id"])
    ensures resp.count != 0 && resp.data == [] ==> r == Stop(Crash(IndexError))
  {
    if resp.count == 0 then Go(Null)
    else if resp.data == [] then Stop(Crash(IndexError))
    else Field(resp.data[|resp.data| - 1], "id")
  }

  // ---------------------------------------------------------------------
  // The shared `get_*` helpers: each builds one query and keeps the first match.

  function AdministrativeAccessRightQuery(userscopeId: Json): Query {
    Lookup("/accessRights",
           And(Quoted("type", "eq", "AdministrativeAccessRight"), Bare("userScope.id", "eq", Show(userscopeId))),
           10000)
  }

  function GetAdministrativeAccessRight(api: Query -> Response, userscopeId: Json): (r: Flow<Option<Record>>)
    ensures r == Go(None) <==> api(AdministrativeAccessRightQuery(userscopeId)).count == 0
    ensures r.Go? && r.value.Some? ==>
      api(AdministrativeAccessRightQuery(userscopeId)).data != [] && r.value.value == api(AdministrativeAccessRightQuery(userscopeId)).data[0]
  {
    First(api(AdministrativeAccessRightQuery(userscopeId)))
  }

  /** A missing resource id is written as the literal `null`. */
  function ResourceIdArgument(resourceId: Json): (s: string)
    ensures resourceId == Null ==> s == "null"
    ensures resourceId != Null ==> s == Show(resourceId)
  {
    if resourceId == Null then "null" else Show(resourceId)
  }

  function AccessRightByResourceQuery(resourceId: Json, userscopeId: Json): Query {
    Lookup("/accessRights",
           And(Bare("resource.id", "eq", ResourceIdArgument(resourceId)), Bare("userScope.id", "eq", Show(userscopeId))),
           10000)
  }

  function GetAccessRightByResourceId(api: Query -> Response, resourceId: Json, userscopeId: Json): (r: Flow<Option<Record>>)
    ensures r == Go(None) <==> api(AccessRightByResourceQuery(resourceId, userscopeId)).count == 0
    ensures r.Go? && r.value.Some? ==>
      api(AccessRightByResourceQuery(resourceId, userscopeId)).data != [] && r.value.value == api(AccessRightByResourceQuery(resourceId, userscopeId)).data[0]
  {
    First(api(AccessRightByResourceQuery(resourceId, userscopeId)))
  }

  function AuthenticatorQuery(name: string): Query {
    Lookup("/authenticators", Quoted("name", "eq", name), 1)
  }

  function GetAuthenticatorByName(api: Query -> Response, name: string): (r: Flow<Option<Record>>)
    ensures r == Go(None) <==> api(AuthenticatorQuery(name)).count == 0
    ensures r.Go? && r.value.Some? ==>
      api(AuthenticatorQuery(name)).data != [] && r.value.value == api(AuthenticatorQuery(name)).data[0]
  {
    First(api(AuthenticatorQuery(name)))
  }

  function BlockByRangeQuery(configuration: string, range: string): Query {
    Lookup("/blocks", And(Quoted("configuration.name", "eq", configuration), Quoted("range", "eq", range)), 1)
  }

  function GetBlockByRange(api: Query -> Response, configuration: string, range: string): (r: Flow<Option<Record>>)
    ensures r == Go(None) <==> api(BlockByRangeQuery(configuration, range)).count == 0
    ensures r.Go? && r.value.Some? ==>
      api(BlockByRangeQuery(configuration, range)).data != [] && r.value.value == api(BlockByRangeQuery(configuration, range)).data[0]
  {
    First(api(BlockByRangeQuery(configuration, range)))
  }

  function ConfigurationByNameQuery(name: string): Query {
    Lookup("/configurations", Quoted("name", "eq", name), 1)
  }

  function GetConfigurationByName(api: Query -> Response, name: string): (r: Flow<Option<Record>>)
    ensures r == Go(None) <==> api(ConfigurationByNameQuery(name)).count == 0
    ensures r.Go? && r.value.Some? ==>
      api(ConfigurationByNameQuery(name)).data != [] && r.value.value == api(ConfigurationByNameQuery(name)).data[0]
  {
    First(api(ConfigurationByNameQuery(name)))
  }

  /** `get_configuration_id` of the block and view modules: the id of the
      named configuration, failing the run when there is none. */
  function RequireConfigurationId(api: Query -> Response, name: string): (r: Flow<Json>)
    ensures api(ConfigurationByNameQuery(name)).count == 0 <==>
      r == Stop(Fail("No configuration with name " + name + " found!"))
    ensures api(ConfigurationByNameQuery(name)).count != 0 ==> r == FirstId(api(ConfigurationByNameQuery(name)))
  {
    var resp := api(ConfigurationByNameQuery(name));
    if resp.count == 0 then Stop(Fail("No configuration with name " + name + " found!"))
    else FirstId(resp)
  }

  function NetworkByRangeQuery(configuration: string, range: string): Query {
    Lookup("/networks", And(Quoted("configuration.name", "eq", configuration), Quoted("range", "eq", range)), 1)
  }

  function GetNetworkByRange(api: Query -> Response, configuration: string, range: string): (r: Flow<Option<Record>>)
    ensures r == Go(None) <==> api(NetworkByRangeQuery(configuration, range)).count == 0
    ensures r.Go? && r.value.Some? ==>
      api(NetworkByRangeQuery(configuration, range)).data != [] && r.value.value == api(NetworkByRangeQuery(configuration, range)).data[0]
  {
    First(api(NetworkByRangeQuery(configuration, range)))
  }

  function ZoneByFqdnQuery(configuration: string, fqdn: string): Query {
    Lookup("/zones", And(Quoted("configuration.name", "eq", configuration), Quoted("absoluteName", "eq", fqdn)), 1)
  }

  function GetZoneByFqdn(api: Query -> Response, configuration: string, fqdn: string): (r: Flow<Option<Record>>)
    ensures r == Go(None) <==> api(ZoneByFqdnQuery(configuration, fqdn)).count == 0
    ensures r.Go? && r.value.Some? ==>
      api(ZoneByFqdnQuery(configuration, fqdn)).data != [] && r.value.value == api(ZoneByFqdnQuery(configuration, fqdn)).data[0]
  {
    First(api(ZoneByFqdnQuery(configuration, fqdn)))
  }

  function TagQuery(name: string): Query {
    Lookup("/tags", Quoted("name", "eq", name), 1)
  }

  function GetTag(api: Query -> Response, name: string): (r: Flow<Option<Record>>)
    ensures r == Go(None) <==> api(TagQuery(name)).count == 0
    ensures r.Go? && r.value.Some? ==>
      api(TagQuery(name)).data != [] && r.value.value == api(TagQuery(name)).data[0]
  {
    First(api(TagQuery(name)))
  }

  /** `get_tag_in_tag` and `get_tag_in_tag_group` (under `/tags` and
      `/tagGroups`) both format their path with `parent_id`, a name bound
      nowhere, so every call raises before any request. */
  function GetTagUnderParent(api: Query -> Response, collection: string, name: string, parent: Json)
    : (r: Flow<Option<Record>>)
    ensures r.Stop? && r.outcome == Crash(NameError("parent_id"))
  {
    Stop(Crash(NameError("parent_id")))
  }

  function TagGroupQuery(name: string): Query {
    Lookup("/tagGroups", Quoted("name", "eq", name), 1)
  }

  function GetTagGroup(api: Query -> Response, name: string): (r: Flow<Option<Record>>)
    ensures r == Go(None) <==> api(TagGroupQuery(name)).count == 0
    ensures r.Go? && r.value.Some? ==>
      api(TagGroupQuery(name)).data != [] && r.value.value == api(TagGroupQuery(name)).data[0]
  {
    First(api(TagGroupQuery(name)))
  }

  function GroupByNameQuery(name: string): Query {
    Lookup("/groups", Quoted("name", "eq", name), 1)
  }

  function GetGroupByName(api: Query -> Response, name: string): (r: Flow<Option<Record>>)
    ensures r == Go(None) <==> api(GroupByNameQuery(name)).count == 0
    ensures r.Go? && r.value.Some? ==>
      api(GroupByNameQuery(name)).data != [] && r.value.value == api(GroupByNameQuery(name)).data[0]
  {
    First(api(GroupByNameQuery(name)))
  }

  function UserByNameQuery(name: string): Query {
    Lookup("/users", Quoted("name", "eq", name), 1)
  }

  function GetUserByName(api: Query -> Response, name: string): (r: Flow<Option<Record>>)
    ensures r == Go(None) <==> api(UserByNameQuery(name)).count == 0
    ensures r.Go? && r.value.Some? ==>
      api(UserByNameQuery(name)).data != [] && r.value.value == api(UserByNameQuery(name)).data[0]
  {
    First(api(UserByNameQuery(name)))
  }

  function ViewByNameQuery(configuration: string, name: string): Query {
    Lookup("/views", And(Quoted("configuration.name", "eq", configuration), Quoted("name", "eq", name)), 1)
  }

  function GetViewByName(api: Query -> Response, configuration: string, name: string): (r: Flow<Option<Record>>)
    ensures r == Go(None) <==> api(ViewByNameQuery(configuration, name)).count == 0
    ensures r.Go? && r.value.Some? ==>
      api(ViewByNameQuery(configuration, name)).data != [] && r.value.value == api(ViewByNameQuery(configuration, name)).data[0]
  {
    First(api(ViewByNameQuery(configuration, name)))
  }

  /** Moves the closing piece of a joined filter out of its right half. */
  lemma Regroup(p: string, x: string, m: string, y: string, e: string)
    ensures (p + x) + m + (y + e) == ((p + x) + m + y) + e
  {
  }

  /** The name lookups filter on one double-quoted name. */
  lemma NameFilters(name: string)
    ensures var f := Some("name:eq(\"" + name + "\")");
      AuthenticatorQuery(name).filter == f && ConfigurationByNameQuery(name).filter == f &&
      TagQuery(name).filter == f && TagGroupQuery(name).filter == f &&
      GroupByNameQuery(name).filter == f && UserByNameQuery(name).filter == f
  {
    assert Quoted("name", "eq", name) == "name:eq(\"" + name + "\")";
  }

  /** Joins a filter with one more quoted condition. */
  lemma QuotedJoin(head: string, field: string, op: string, value: string)
    ensures And(head, Quoted(field, op, value)) == head + " and " + field + ":" + op + "(\"" + value + "\")"
  {
    Regroup(head, "", " and ", field + ":" + op + "(\"" + value, "\")");
  }

  /** A filter scoped to a configuration, whatever its second field. */
  lemma ConfigurationJoin(configuration: string, field: string, value: string)
    ensures And(Quoted("configuration.name", "eq", configuration), Quoted(field, "eq", value))
         == "configuration.name:eq(\"" + configuration + "\") and " + field + ":eq(\"" + value + "\")"
  {
    assert Quoted("configuration.name", "eq", configuration) == "configuration.name:eq(\"" + configuration + "\")";
  }

  /** The range lookups scoped to a configuration quote both the
      configuration name and the range. */
  lemma RangeFilters(configuration: string, range: string)
    ensures var f := Some("configuration.name:eq(\"" + configuration + "\") and range:eq(\"" + range + "\")");
      BlockByRangeQuery(configuration, range).filter == f && NetworkByRangeQuery(configuration, range).filter == f
  {
    ConfigurationJoin(configuration, "range", range);
    var head := "configuration.name:eq(\"" + configuration;
    assert head + "\") and " + "range" + ":eq(\"" == head + "\") and range:eq(\"";
  }

  /** The zone lookup quotes the configuration name and the absolute name. */
  lemma ZoneFilter(configuration: string, fqdn: string)
    ensures ZoneByFqdnQuery(configuration, fqdn).filter
         == Some("configuration.name:eq(\"" + configuration + "\") and absoluteName:eq(\"" + fqdn + "\")")
  {
    ConfigurationJoin(configuration, "absoluteName", fqdn);
    var head := "configuration.name:eq(\"" + configuration;
    assert head + "\") and " + "absoluteName" + ":eq(\"" == head + "\") and absoluteName:eq(\"";
  }

  /** The view lookup quotes the configuration name and the view name. */
  lemma ViewFilter(configuration: string, name: string)
    ensures ViewByNameQuery(configuration, name).filter
         == Some("configuration.name:eq(\"" + configuration + "\") and name:eq(\"" + name + "\")")
  {
    ConfigurationJoin(configuration, "name", name);
    var head := "configuration.name:eq(\"" + configuration;
    assert head + "\") and " + "name" + ":eq(\"" == head + "\") and name:eq(\"";
  }

  /** Joins a filter with a bare user id. */
  lemma UserScopeJoin(head: string, uid: string)
    ensures And(head, Bare("userScope.id", "eq", uid)) == head + " and userScope.id:eq(" + uid + ")"
  {
    assert Bare("userScope.id", "eq", uid) == "userScope.id:eq(" + uid + ")";
    Regroup(head, "", " and ", "userScope.id:eq(" + uid, ")");
    assert head + " and " + "userScope.id:eq(" + uid == head + " and userScope.id:eq(" + uid;
  }

  /** A type filter joined with a user id: the type quoted, the id bare. */
  lemma TypeScopeJoin(kind: string, uid: string)
    ensures And(Quoted("type", "eq", kind), Bare("userScope.id", "eq", uid))
         == "type:eq(\"" + kind + "\") and userScope.id:eq(" + uid + ")"
  {
    assert Quoted("type", "eq", kind) == "type:eq(\"" + kind + "\")";
    UserScopeJoin("type:eq(\"" + kind + "\")", uid);
    assert "type:eq(\"" + kind + "\")" + " and userScope.id:eq(" == "type:eq(\"" + kind + "\") and userScope.id:eq(";
  }

  /** The administrative access-right lookup quotes the type name and
      writes the user id bare. */
  lemma AdministrativeFilter(uid: Json)
    ensures AdministrativeAccessRightQuery(uid).filter
         == Some("type:eq(\"" + "AdministrativeAccessRight" + "\") and userScope.id:eq(" + Show(uid) + ")")
  {
    TypeScopeJoin("AdministrativeAccessRight", Show(uid));
  }

  /** A resource filter joined with a user id, both written bare. */
  lemma ResourceScopeJoin(rid: string, uid: string)
    ensures And(Bare("resource.id", "eq", rid), Bare("userScope.id", "eq", uid))
         == "resource.id:eq(" + rid + ") and userScope.id:eq(" + uid + ")"
  {
    UserScopeJoin("resource.id:eq(" + rid + ")", uid);
    var head := "resource.id:eq(" + rid;
    assert head + ")" + " and userScope.id:eq(" == head + ") and userScope.id:eq(";
  }

  /** The access-right lookup by resource writes both ids bare. */
  lemma ResourceFilter(resourceId: Json, uid: Json)
    requires resourceId != Null
    ensures AccessRightByResourceQuery(resourceId, uid).filter
         == Some("resource.id:eq(" + Show(resourceId) + ") and userScope.id:eq(" + Show(uid) + ")")
  {
    ResourceScopeJoin(Show(resourceId), Show(uid));
  }

  /** Without a resource the access-right filter reads `resource.id:eq(null)`. */
  lemma NullResourceFilter(uid: Json)
    ensures AccessRightByResourceQuery(Null, uid).filter
         == Some("resource.id:eq(null) and userScope.id:eq(" + Show(uid) + ")")
  {
    assert Bare("resource.id", "eq", "null") == "resource.id:eq(null)";
    assert Bare("userScope.id", "eq", Show(uid)) == "userScope.id:eq(" + Show(uid) + ")";
    var f := And("resource.id:eq(null)", "userScope.id:eq(" + Show(uid) + ")");
    assert f == ("resource.id:eq(null)" + " and " + "userScope.id:eq(") + Show(uid) + ")";
    assert "resource.id:eq(null)" + " and " + "userScope.id:eq(" == "resource.id:eq(null) and userScope.id:eq(";
  }

  // ---------------------------------------------------------------------
  // The argument spec handed to AnsibleModule.

  datatype ArgSpec = ArgSpec(kind: string, required: bool, default: Json, noLog: bool)

  const ConnectionArgs: map<string, ArgSpec> := map[
    "bc_address" := ArgSpec("str", false, Null, false),
    "bc_api_username" := ArgSpec("str", false, Null, false),
    "bc_api_password" := ArgSpec("str", false, Null, true)]

  const FactArgs: map<string, ArgSpec> := map[
    "filter" := ArgSpec("str", true, Null, false),
    "fields" := ArgSpec("str", false, Null, false),
    "limit" := ArgSpec("int", false, Int(100), false)]

  /** The connection arguments, then (for fact modules) `filter`, `fields`
      and `limit`, then the module's own arguments, each overriding the
      earlier ones. */
  function ArgumentSpec(moduleArgs: map<string, ArgSpec>, isFact: bool): (spec: map<string, ArgSpec>)
    ensures spec.Keys == ConnectionArgs.Keys + (if isFact then FactArgs.Keys else {}) + moduleArgs.Keys
    ensures forall k | k in moduleArgs :: spec[k] == moduleArgs[k]
    ensures isFact ==> forall k | k in FactArgs && k !in moduleArgs :: spec[k] == FactArgs[k]
    ensures forall k | k in ConnectionArgs && k !in moduleArgs && (!isFact || k !in FactArgs) ::
      spec[k] == ConnectionArgs[k]
  {
    (if isFact then ConnectionArgs + FactArgs else ConnectionArgs) + moduleArgs
  }

  /** A fact module that does not redeclare them requires `filter` and
      defaults `limit` to 100. */
  lemma FactDefaults(moduleArgs: map<string, ArgSpec>)
    requires "filter" !in moduleArgs && "limit" !in moduleArgs
    ensures ArgumentSpec(moduleArgs, true)["filter"].required
    ensures ArgumentSpec(moduleArgs, true)["limit"].default == Int(100)
  {
  }

  // ---------------------------------------------------------------------
  // One run: login, exec_module, and exit_json or fail_json, each of which
  // logs out before handing control to Ansible.

  datatype Event =
    | Login(address: Option<string>, username: Option<string>)
    | Request(call: Call)
    | Logout
    | Exited(changed: bool)
    | Failed(msg: string)
    | Raised(error: PyError)

  /** What follows the login for a run that ends with `o`. */
  function Ending(o: Outcome): seq<Event> {
    match o
    case Exit(changed, call) =>
      (if call.Some? then [Request(call.value)] else []) + [Logout, Exited(changed)]
    case Fail(msg) => [Logout, Failed(msg)]
    case Crash(e) => [Raised(e)]
  }

  /** The events of a whole run. */
  function Lifecycle(address: Option<string>, username: Option<string>, o: Outcome): (events: seq<Event>)
    ensures |events| >= 2 && events[0] == Login(address, username)
  {
    [Login(address, username)] + Ending(o)
  }

  /** Every exit and every failure is preceded immediately by a logout, at
      most one request is issued and it comes before that logout, and an
      exception leaves the session logged in. */
  lemma LifecycleOrder(address: Option<string>, username: Option<string>, o: Outcome)
    ensures var ev := Lifecycle(address, username, o);
      forall i | 0 <= i < |ev| && (ev[i].Exited? || ev[i].Failed?) :: i > 0 && ev[i - 1] == Logout
    ensures var ev := Lifecycle(address, username, o);
      forall i, j | 0 <= i < j < |ev| :: !(ev[i].Request? && ev[j].Request?)
    ensures var ev := Lifecycle(address, username, o);
      forall i, j | 0 <= i < |ev| && 0 <= j < |ev| && ev[i].Request? && ev[j] == Logout :: i < j
    ensures o.Crash? <==> Logout !in Lifecycle(address, username, o)
  {
    var ev := Lifecycle(address, username, o);
    match o
    case Exit(changed, call) =>
      if call.Some? {
        assert ev == [Login(address, username), Request(call.value), Logout, Exited(changed)];
      } else {
        assert ev == [Login(address, username), Logout, Exited(changed)];
      }
    case Fail(msg) =>
      assert ev == [Login(address, username), Logout, Failed(msg)];
    case Crash(e) =>
      assert ev == [Login(address, username), Raised(e)];
  }

  /** The session a module run holds: the client's login state, the headers
      it sends, and the events so far. */
  class Session {
    var loggedIn: bool
    var headers: Headers
    var events: seq<Event>

    /** `__init__`: log in with the connection parameters, run `exec_module`
        (whose outcome is given) and end the run as it says. */
    constructor Run(address: Option<string>, username: Option<string>, outcome: Outcome)
      ensures events == Lifecycle(address, username, outcome)
      ensures loggedIn <==> outcome.Crash?
      ensures headers == BaseHeaders
    {
      headers := BaseHeaders;
      loggedIn := true;
      events := [Login(address, username)];
      new;
      Finish(outcome);
    }

    method Logout()
      requires loggedIn
      modifies this
      ensures !loggedIn && events == old(events) + [Event.Logout] && headers == old(headers)
    {
      loggedIn := false;
      events := events + [Event.Logout];
    }

    /** `fail_json`: log out, then report the failure. */
    method FailJson(msg: string)
      requires loggedIn
      modifies this
      ensures !loggedIn && events == old(events) + [Event.Logout, Failed(msg)] && headers == old(headers)
    {
      Logout();
      events := events + [Failed(msg)];
    }

    /** `exit_json`: log out, then report the result. */
    method ExitJson(changed: bool)
      requires loggedIn
      modifies this
      ensures !loggedIn && events == old(events) + [Event.Logout, Exited(changed)] && headers == old(headers)
    {
      Logout();
      events := events + [Exited(changed)];
    }

    method Finish(outcome: Outcome)
      requires loggedIn
      modifies this
      ensures events == old(events) + Ending(outcome)
      ensures loggedIn <==> outcome.Crash?
      ensures headers == old(headers)
    {
      match outcome
      case Exit(changed, call) =>
        if call.Some? {
          events := events + [Request(call.value)];
        }
        ExitJson(changed);
      case Fail(msg) =>
        FailJson(msg);
      case Crash(e) =>
        events := events + [Raised(e)];
    }
  }
}
