/** A deployment role: a DNS, DHCP or TFTP service role that binds a server
    interface to a block, a network or a zone. */
module DeploymentRole {
  import opened Values
  import opened Outcomes
  import opened BcUtil

  /** The `collection` parameter; Ansible admits only these three. */
  datatype Collection = Blocks | Networks | Zones

  /** `kind` is the `type` parameter (DNSDeploymentRole, DHCPDeploymentRole
      or TFTPDeploymentRole); `resource` is a range or an absolute name. */
  datatype Params = Params(
    state: State,
    kind: string,
    roleType: string,
    collection: Collection,
    resource: string,
    interface: string,
    configuration: string)

  function CollectionName(c: Collection): string {
    match c
    case Blocks => "blocks"
    case Networks => "networks"
    case Zones => "zones"
  }

  /** `get_block_id`, `get_network_id` and `get_zone_id`: the resource by
      range or by absolute name. */
  function ResourceQuery(p: Params): (q: Query)
    ensures q.path == "/" + CollectionName(p.collection) && q.limit == Some(1)
    ensures p.collection == Zones ==> q == ZoneByFqdnQuery(p.configuration, p.resource)
  {
    var inConfiguration := Quoted("configuration.name", "eq", p.configuration);
    match p.collection
    case Blocks =>
      Query("/blocks", Some(And(inConfiguration, Quoted("range", "eq", p.resource))), Some(1),
            Some("embed(defaultZones)"), None)
    case Networks =>
      Query("/networks", Some(And(inConfiguration, Quoted("range", "eq", p.resource))), Some(1),
            Some("embed(userDefinedLinks)"), None)
    case Zones =>
      ZoneByFqdnQuery(p.configuration, p.resource)
  }

  /** `get_interface_id`. */
  function InterfaceQuery(p: Params): Query {
    Lookup("/interfaces", And(Quoted("configuration.name", "eq", p.configuration), Quoted("name", "eq", p.interface)), 1)
  }

  /** `get_deployment_roles`: the roles set directly on or inherited by the
      resource, their interfaces embedded. */
  function RolesQuery(p: Params, collectionId: Json): (q: Query)
    ensures q.path == "/" + CollectionName(p.collection) + "/" + Show(collectionId) + "/deploymentRoles"
    ensures q.limit == Some(100) && q.fields == Some("embed(interfaces)")
  {
    Query("/" + CollectionName(p.collection) + "/" + Show(collectionId) + "/deploymentRoles",
          Some(Quoted("configuration.name", "eq", p.configuration)), Some(100), Some("embed(interfaces)"), None)
  }

  /** An empty list when the count is zero, otherwise the whole page. */
  function Roles(resp: Response): (roles: seq<Record>)
    ensures resp.count == 0 ==> roles == []
    ensures resp.count != 0 ==> roles == resp.data
  {
    if resp.count == 0 then [] else resp.data
  }

  /** `build_data`: the role's type and role type and the one interface it
      binds, by id. */
  function BuildData(p: Params, interfaceId: Json): (d: Payload)
    ensures Keys(d) == ["type", "roleType", "interfaces"]
    ensures d[0].1 == Str(p.kind) && d[1].1 == Str(p.roleType)
    ensures d[2].1 == List([Object(map["id" := interfaceId, "type" := Str("NetworkInterface")])])
  {
    [("type", Str(p.kind)), ("roleType", Str(p.roleType)),
     ("interfaces", List([Object(map["id" := interfaceId, "type" := Str("NetworkInterface")])]))]
  }

  // ---------------------------------------------------------------------
  // The searches of `compare_data` and `find_deployment_role_id`.

  /** A role inherited from a parent resource: `_inheritedFrom` is set. */
  predicate Inherited(role: Record) {
    "_inheritedFrom" in role && Truthy(role["_inheritedFrom"])
  }

  /** A role the searches can read without raising. */
  predicate WellFormed(role: Record) {
    "type" in role && "roleType" in role && "id" in role && "_embedded" in role &&
    role["_embedded"].Object? && "interfaces" in role["_embedded"].fields &&
    role["_embedded"].fields["interfaces"].List? &&
    forall j | 0 <= j < |role["_embedded"].fields["interfaces"].items| ::
      role["_embedded"].fields["interfaces"].items[j].Object? &&
      "id" in role["_embedded"].fields["interfaces"].items[j].fields
  }

  /** The interfaces of a well-formed role. */
  function Interfaces(role: Record): seq<Json>
    requires WellFormed(role)
  {
    role["_embedded"].fields["interfaces"].items
  }

  /** A well-formed role has the wanted type and role type and lists the
      wanted interface. */
  predicate Matches(p: Params, role: Record, interfaceId: Json)
    requires WellFormed(role)
  {
    role["type"] == Str(p.kind) && role["roleType"] == Str(p.roleType) &&
    exists j | 0 <= j < |Interfaces(role)| :: Interfaces(role)[j].fields["id"] == interfaceId
  }

  /** The inner loop: true at the first interface whose id is the wanted
      one, raising at an entry without an id before that. */
  function InterfaceListed(interfaces: seq<Json>, interfaceId: Json): (r: Flow<bool>)
    ensures (forall j | 0 <= j < |interfaces| :: interfaces[j].Object? && "id" in interfaces[j].fields) ==>
      r == Go(exists j | 0 <= j < |interfaces| :: interfaces[j].fields["id"] == interfaceId)
    decreases |interfaces|
  {
    if interfaces == [] then Go(false)
    else match Index(interfaces[0], "id")
      case Stop(o) => Stop(o)
      case Go(id) =>
        if id == interfaceId then Go(true)
        else
          assert forall j | 1 <= j < |interfaces| :: interfaces[j] == interfaces[1..][j - 1];
          InterfaceListed(interfaces[1..], interfaceId)
  }

  /** `role['_embedded']['interfaces']`, which must be a list to iterate. */
  function RoleInterfaces(role: Record): (r: Flow<seq<Json>>)
    ensures WellFormed(role) ==> r == Go(Interfaces(role))
  {
    match Field(role, "_embedded")
    case Stop(o) => Stop(o)
    case Go(embedded) =>
      match Index(embedded, "interfaces")
      case Stop(o) => Stop(o)
      case Go(interfaces) => if interfaces.List? then Go(interfaces.items) else Stop(Crash(TypeError))
  }

  /** The body of both searches for one role: type first, then role type
      (each read only when the one before matched), then the interfaces. */
  function RoleMatches(p: Params, role: Record, interfaceId: Json): (r: Flow<bool>)
    ensures WellFormed(role) ==> r == Go(Matches(p, role, interfaceId))
  {
    match Field(role, "type")
    case Stop(o) => Stop(o)
    case Go(kind) =>
      if Str(p.kind) != kind then Go(false)
      else match Field(role, "roleType")
        case Stop(o) => Stop(o)
        case Go(roleType) =>
          if Str(p.roleType) != roleType then Go(false)
          else match RoleInterfaces(role)
            case Stop(o) => Stop(o)
            case Go(interfaces) => InterfaceListed(interfaces, interfaceId)
  }

  /** `compare_data`: True unless some role that is not inherited already
      binds the interface with the wanted type and role type. */
  function CompareRoles(p: Params, roles: seq<Record>, interfaceId: Json): (r: Flow<bool>)
    ensures (forall i | 0 <= i < |roles| :: WellFormed(roles[i])) ==>
      r == Go(!exists i | 0 <= i < |roles| :: !Inherited(roles[i]) && Matches(p, roles[i], interfaceId))
    decreases |roles|
  {
    if roles == [] then Go(true)
    else
      assert forall i | 1 <= i < |roles| :: roles[i] == roles[1..][i - 1];
      if Inherited(roles[0]) then CompareRoles(p, roles[1..], interfaceId)
      else match RoleMatches(p, roles[0], interfaceId)
        case Stop(o) => Stop(o)
        case Go(m) => if m then Go(false) else CompareRoles(p, roles[1..], interfaceId)
  }

  /** `find_deployment_role_id`: the id of the first matching role,
      inherited or not; None when there is none. */
  function FindRoleId(p: Params, roles: seq<Record>, interfaceId: Json): (r: Flow<Json>)
    ensures ((forall i | 0 <= i < |roles| :: WellFormed(roles[i])) &&
             (forall i | 0 <= i < |roles| :: !Matches(p, roles[i], interfaceId))) ==> r == Go(Null)
    ensures forall k | 0 <= k < |roles| && (forall i | 0 <= i < |roles| :: WellFormed(roles[i])) &&
      Matches(p, roles[k], interfaceId) && (forall i | 0 <= i < k :: !Matches(p, roles[i], interfaceId)) ::
      r == Go(roles[k]["id"])
    decreases |roles|
  {
    if roles == [] then Go(Null)
    else
      assert forall i | 1 <= i < |roles| :: roles[i] == roles[1..][i - 1];
      match RoleMatches(p, roles[0], interfaceId)
      case Stop(o) => Stop(o)
      case Go(m) => if m then Field(roles[0], "id") else FindRoleId(p, roles[1..], interfaceId)
  }

  // ---------------------------------------------------------------------
  // The searches as written: nested loops with early returns.

  /** One role: the type tests and the inner loop over its interfaces. */
  method MatchRole(p: Params, role: Record, interfaceId: Json) returns (r: Flow<bool>)
    ensures r == RoleMatches(p, role, interfaceId)
  {
    var kind := Field(role, "type");
    if kind.Stop? {
      return Stop(kind.outcome);
    }
    if Str(p.kind) != kind.value {
      return Go(false);
    }
    var roleType := Field(role, "roleType");
    if roleType.Stop? {
      return Stop(roleType.outcome);
    }
    if Str(p.roleType) != roleType.value {
      return Go(false);
    }
    var interfaces := RoleInterfaces(role);
    if interfaces.Stop? {
      return Stop(interfaces.outcome);
    }
    var items := interfaces.value;
    var j := 0;
    while j < |items|
      invariant 0 <= j <= |items|
      invariant InterfaceListed(items[j..], interfaceId) == InterfaceListed(items, interfaceId)
    {
      assert items[j..][1..] == items[j + 1..];
      var id := Index(items[j], "id");
      if id.Stop? {
        return Stop(id.outcome);
      }
      if id.value == interfaceId {
        return Go(true);
      }
      j := j + 1;
    }
    return Go(false);
  }

  /** The loop of `compare_data`. */
  method CompareData(p: Params, roles: seq<Record>, interfaceId: Json) returns (r: Flow<bool>)
    ensures r == CompareRoles(p, roles, interfaceId)
  {
    var i := 0;
    while i < |roles|
      invariant 0 <= i <= |roles|
      invariant CompareRoles(p, roles[i..], interfaceId) == CompareRoles(p, roles, interfaceId)
    {
      assert roles[i..][1..] == roles[i + 1..];
      if !Inherited(roles[i]) {
        var m := MatchRole(p, roles[i], interfaceId);
        if m.Stop? {
          return Stop(m.outcome);
        }
        if m.value {
          return Go(false);
        }
      }
      i := i + 1;
    }
    return Go(true);
  }

  /** The loop of `find_deployment_role_id`. */
  method FindDeploymentRoleId(p: Params, roles: seq<Record>, interfaceId: Json) returns (r: Flow<Json>)
    ensures r == FindRoleId(p, roles, interfaceId)
  {
    var i := 0;
    while i < |roles|
      invariant 0 <= i <= |roles|
      invariant FindRoleId(p, roles[i..], interfaceId) == FindRoleId(p, roles, interfaceId)
    {
      assert roles[i..][1..] == roles[i + 1..];
      var m := MatchRole(p, roles[i], interfaceId);
      if m.Stop? {
        return Stop(m.outcome);
      }
      if m.value {
        return Field(roles[i], "id");
      }
      i := i + 1;
    }
    return Go(Null);
  }

  // ---------------------------------------------------------------------
  // exec_module

  /** `exec_module`: resolve the resource (failing when it is not found),
      the interface and the roles; `present` creates a role when none
      matches, `absent` deletes the first match or fails. */
  function Exec(p: Params, env: Env): (r: Outcome)
    ensures r.Exit? && r.changed ==>
      (FirstId(env.api(ResourceQuery(p))).Go? && FirstId(env.api(ResourceQuery(p))).value != Null)
    ensures r.Exit? && r.call.Some? ==> !env.checkMode && r.changed
    ensures r.Exit? && r.call.Some? && !r.call.value.Delete? ==>
      (p.state == Present && FirstId(env.api(InterfaceQuery(p))).Go? &&
       r.call.value == Post("/" + CollectionName(p.collection) + "/" + Show(FirstId(env.api(ResourceQuery(p))).value) +
                            "/deploymentRoles", BuildData(p, FirstId(env.api(InterfaceQuery(p))).value), BaseHeaders))
    ensures r.Exit? && r.call.Some? && r.call.value.Delete? ==> p.state == Absent && r.call.value.sent.None?
  {
    var collectionId :- FirstId(env.api(ResourceQuery(p)));
    if collectionId == Null then Fail("Could not find resource!")
    else
      var interfaceId :- FirstId(env.api(InterfaceQuery(p)));
      var roles := Roles(env.api(RolesQuery(p, collectionId)));
      match p.state
      case Present =>
        var missing :- CompareRoles(p, roles, interfaceId);
        if missing then
          Send(env, POST, "/" + CollectionName(p.collection) + "/" + Show(collectionId) + "/deploymentRoles",
               Go(BuildData(p, interfaceId)), BaseHeaders)
        else NoChange
      case Absent =>
        var roleId :- FindRoleId(p, roles, interfaceId);
        if Truthy(roleId) then Mutate(env, Delete("/deploymentRoles/" + Show(roleId), None))
        else Fail("Could not find a matching deployment role to delete!")
  }

  /** A resource that is not found fails before any role is looked at. */
  lemma MissingResourceFails(p: Params, env: Env)
    requires env.api(ResourceQuery(p)).count == 0
    ensures Exec(p, env) == Fail("Could not find resource!")
  {
  }

  /** With readable roles, `present` changes nothing exactly when a role
      that is not inherited already binds the interface with the wanted
      type and role type. */
  lemma Idempotent(p: Params, env: Env, collectionId: Json, interfaceId: Json)
    requires p.state == Present
    requires FirstId(env.api(ResourceQuery(p))) == Go(collectionId) && collectionId != Null
    requires FirstId(env.api(InterfaceQuery(p))) == Go(interfaceId)
    requires var roles := Roles(env.api(RolesQuery(p, collectionId)));
      forall i | 0 <= i < |roles| :: WellFormed(roles[i])
    ensures var roles := Roles(env.api(RolesQuery(p, collectionId)));
      Exec(p, env) == NoChange <==>
      exists i | 0 <= i < |roles| :: !Inherited(roles[i]) && Matches(p, roles[i], interfaceId)
  {
  }

  /** When no role that is not inherited binds the interface (in particular
      when every role is readable and none matches), `present` posts the
      built role under the resource; in check mode it only reports the
      change. */
  lemma PresentMissingCreates(p: Params, env: Env, collectionId: Json, interfaceId: Json)
    requires p.state == Present
    requires FirstId(env.api(ResourceQuery(p))) == Go(collectionId) && collectionId != Null
    requires FirstId(env.api(InterfaceQuery(p))) == Go(interfaceId)
    requires CompareRoles(p, Roles(env.api(RolesQuery(p, collectionId))), interfaceId) == Go(true)
    ensures env.checkMode ==> Exec(p, env) == Exit(true, None)
    ensures !env.checkMode ==>
      Exec(p, env) == Exit(true, Some(Post("/" + CollectionName(p.collection) + "/" + Show(collectionId) + "/deploymentRoles",
                                           BuildData(p, interfaceId), BaseHeaders)))
  {
  }

  /** With readable roles, `absent` deletes the first matching role, by id
      and without headers, when that id is truthy. */
  lemma AbsentDeletesFirstMatch(p: Params, env: Env, collectionId: Json, interfaceId: Json, k: nat)
    requires p.state == Absent && !env.checkMode
    requires FirstId(env.api(ResourceQuery(p))) == Go(collectionId) && collectionId != Null
    requires FirstId(env.api(InterfaceQuery(p))) == Go(interfaceId)
    requires var roles := Roles(env.api(RolesQuery(p, collectionId)));
      (forall i | 0 <= i < |roles| :: WellFormed(roles[i])) &&
      k < |roles| && Matches(p, roles[k], interfaceId) &&
      (forall i | 0 <= i < k :: !Matches(p, roles[i], interfaceId)) &&
      Truthy(roles[k]["id"])
    ensures var roles := Roles(env.api(RolesQuery(p, collectionId)));
      Exec(p, env) == Exit(true, Some(Delete("/deploymentRoles/" + Show(roles[k]["id"]), None)))
  {
  }

  /** With readable roles and none matching, `absent` fails. */
  lemma AbsentWithoutMatchFails(p: Params, env: Env, collectionId: Json, interfaceId: Json)
    requires p.state == Absent
    requires FirstId(env.api(ResourceQuery(p))) == Go(collectionId) && collectionId != Null
    requires FirstId(env.api(InterfaceQuery(p))) == Go(interfaceId)
    requires var roles := Roles(env.api(RolesQuery(p, collectionId)));
      (forall i | 0 <= i < |roles| :: WellFormed(roles[i])) &&
      (forall i | 0 <= i < |roles| :: !Matches(p, roles[i], interfaceId))
    ensures Exec(p, env) == Fail("Could not find a matching deployment role to delete!")
  {
  }

  /** The two searches disagree about inherited roles: a role that exists
      only by inheritance does not stop `present` from creating a new one,
      yet it is what `absent` would delete. */
  lemma InheritedRoleSeenOnlyByFind(p: Params, role: Record, interfaceId: Json)
    requires WellFormed(role) && Inherited(role) && Matches(p, role, interfaceId)
    ensures CompareRoles(p, [role], interfaceId) == Go(true)
    ensures FindRoleId(p, [role], interfaceId) == Go(role["id"])
  {
  }
}
