/** A DNS zone of a view, created under its parent zone when one is named
    and at the top of the view otherwise. */
module Zone {
  import opened Values
  import opened Outcomes
  import opened BcUtil
  import opened Compare

  datatype Params = Params(
    state: State,
    name: string,
    configuration: string,
    view: string,
    zone: Option<string>,
    deploymentEnabled: bool,
    dynamicUpdateEnabled: bool,
    signed: bool)

  /** The fully qualified name: `name.zone` under a parent zone. */
  function AbsoluteName(p: Params): (n: string)
    ensures Given(p.zone) ==> n == p.name + "." + p.zone.value
    ensures !Given(p.zone) ==> n == p.name
  {
    if Given(p.zone) then p.name + "." + p.zone.value else p.name
  }

  /** `get_zone`. */
  function GetZone(api: Query -> Response, p: Params): Flow<Record> {
    FirstOrEmpty(api(ZoneByFqdnQuery(p.configuration, AbsoluteName(p))))
  }

  /** `get_view_id`: None when the view is unknown. */
  function GetViewId(api: Query -> Response, p: Params): Flow<Json> {
    FirstId(api(ViewByNameQuery(p.configuration, p.view)))
  }

  /** `get_parent_id`: the id of the zone named by the `zone` parameter. */
  function GetParentId(api: Query -> Response, p: Params): Flow<Json> {
    FirstId(api(ZoneByFqdnQuery(p.configuration, ShowOpt(p.zone))))
  }

  /** `build_data`: four settings and the type, never the
      `move_dotted_resource_records` flag. */
  function BuildData(p: Params): (d: Payload)
    ensures Keys(d) == ["name", "deploymentEnabled", "dynamicUpdateEnabled", "signed", "type"]
    ensures d[0].1 == Str(p.name) && d[|d| - 1].1 == Str("Zone")
  {
    [("name", Str(p.name)),
     ("deploymentEnabled", Bool(p.deploymentEnabled)),
     ("dynamicUpdateEnabled", Bool(p.dynamicUpdateEnabled)),
     ("signed", Bool(p.signed)),
     ("type", Str("Zone"))]
  }

  /** The key `compare_data` skips. */
  const Skipped: set<string> := {"move_dotted_resource_records"}

  /** `compare_data`. */
  function CompareData(p: Params, zone: Record): Flow<bool> {
    Scan(BuildData(p), SkipRule(Skipped, zone))
  }

  /** The skipped key never occurs in the payload, so the comparison is
      strict on every key; it reports no difference exactly when the zone
      holds the payload, and it raises only for a key the zone lacks. */
  lemma CompareIsStrict(p: Params, zone: Record)
    ensures CompareData(p, zone) == Scan(BuildData(p), StrictRule(zone))
    ensures CompareData(p, zone) == Go(false) <==> Holds(zone, BuildData(p))
  {
    SkipAbsentKeys(Skipped, BuildData(p), zone);
    StrictNoDiff(BuildData(p), zone);
  }

  function UpdateZone(env: Env, p: Params, id: Json): Outcome {
    Send(env, PUT, "/zones/" + Show(id), Go(BuildData(p)), BaseHeaders)
  }

  function CreateSubZone(env: Env, p: Params, parentId: Json): Outcome {
    Send(env, POST, "/zones/" + Show(parentId) + "/zones", Go(BuildData(p)), BaseHeaders)
  }

  /** `create_top_zone` looks the view up before the check-mode test, so a
      broken view lookup ends the run even in check mode; otherwise it posts
      the built body under the view's id (None when no view is found). */
  function CreateTopZone(env: Env, p: Params): (r: Outcome)
    ensures GetViewId(env.api, p).Stop? ==> r == GetViewId(env.api, p).outcome
    ensures GetViewId(env.api, p).Go? && env.checkMode ==> r == Exit(true, None)
    ensures GetViewId(env.api, p).Go? && !env.checkMode ==>
      r == Exit(true, Some(Post("/views/" + Show(GetViewId(env.api, p).value) + "/zones", BuildData(p), BaseHeaders)))
  {
    var viewId :- GetViewId(env.api, p);
    Send(env, POST, "/views/" + Show(viewId) + "/zones", Go(BuildData(p)), BaseHeaders)
  }

  /** `exec_module`: outside check mode it sends the built payload; it
      deletes only for `absent` and writes only for `present`. */
  function Exec(p: Params, env: Env): (r: Outcome)
    ensures r.Exit? && r.call.Some? ==> !env.checkMode && r.changed
    ensures r.Exit? && r.call.Some? && !r.call.value.Delete? ==>
      p.state == Present && r.call.value.body == BuildData(p)
    ensures r.Exit? && r.call.Some? && r.call.value.Delete? ==> p.state == Absent
    ensures r.Exit? && r.call.Some? && (r.call.value.Put? || r.call.value.Delete?) ==>
      GetZone(env.api, p).Go? && r.call.value.path == "/zones/" + Show(Get(GetZone(env.api, p).value, "id"))
    ensures r.Exit? && r.call.Some? && r.call.value.Post? ==> GetZone(env.api, p) == Go(map[])
  {
    var zone :- GetZone(env.api, p);
    var zoneId := Get(zone, "id");
    match p.state
    case Present =>
      if zone != map[] then
        var differs :- CompareData(p, zone);
        if differs then UpdateZone(env, p, zoneId) else NoChange
      else if Given(p.zone) then
        var parentId :- GetParentId(env.api, p);
        CreateSubZone(env, p, parentId)
      else CreateTopZone(env, p)
    case Absent =>
      Mutate(env, Delete("/zones/" + Show(zoneId), None))
  }

  /** With the zone found, `present` puts the built body to that zone's id
      exactly when the comparison reports a difference. */
  lemma PresentFound(p: Params, env: Env)
    requires p.state == Present
    requires GetZone(env.api, p).Go? && GetZone(env.api, p).value != map[]
    ensures var zone := GetZone(env.api, p).value;
      match CompareData(p, zone)
      case Go(true) => Exec(p, env) == Send(env, PUT, "/zones/" + Show(Get(zone, "id")), Go(BuildData(p)), BaseHeaders)
      case Go(false) => Exec(p, env) == NoChange
      case Stop(o) => Exec(p, env) == o
  {
  }

  /** `absent` deletes the looked-up zone by its id, found or not. */
  lemma AbsentDeletes(p: Params, env: Env)
    requires p.state == Absent && GetZone(env.api, p).Go?
    ensures Exec(p, env) == Mutate(env, Delete("/zones/" + Show(Get(GetZone(env.api, p).value, "id")), None))
  {
  }

  /** With no zone found, `present` creates one: under the parent zone's id
      when a parent is named (a failing parent lookup ends the run), at the
      top of the view otherwise. */
  lemma PresentMissing(p: Params, env: Env)
    requires p.state == Present
    requires env.api(ZoneByFqdnQuery(p.configuration, AbsoluteName(p))).count == 0
    ensures Given(p.zone) && GetParentId(env.api, p).Stop? ==> Exec(p, env) == GetParentId(env.api, p).outcome
    ensures Given(p.zone) && GetParentId(env.api, p).Go? ==>
      Exec(p, env) == Send(env, POST, "/zones/" + Show(GetParentId(env.api, p).value) + "/zones", Go(BuildData(p)), BaseHeaders)
    ensures !Given(p.zone) ==> Exec(p, env) == CreateTopZone(env, p)
  {
    assert GetZone(env.api, p) == Go(map[]);
  }

  /** A zone stored as the module would send it is left alone, and a zone
      that is left alone holds every payload item. */
  lemma Idempotent(p: Params, env: Env)
    requires p.state == Present
    requires GetZone(env.api, p).Go? && GetZone(env.api, p).value != map[]
    ensures Holds(GetZone(env.api, p).value, BuildData(p)) <==> Exec(p, env) == NoChange
  {
    var zone := GetZone(env.api, p).value;
    CompareIsStrict(p, zone);
    if !Holds(zone, BuildData(p)) {
      ScanOutcomes(BuildData(p), StrictRule(zone));
    }
  }

  /** A missing parent zone is not an error: the sub-zone is posted under
      the id None. */
  lemma MissingParentPostsUnderNone(p: Params, env: Env)
    requires p.state == Present && !env.checkMode && Given(p.zone)
    requires env.api(ZoneByFqdnQuery(p.configuration, AbsoluteName(p))).count == 0
    requires env.api(ZoneByFqdnQuery(p.configuration, p.zone.value)).count == 0
    ensures Exec(p, env) == Exit(true, Some(Post("/zones/None/zones", BuildData(p), BaseHeaders)))
  {
    assert GetParentId(env.api, p) == Go(Null);
    assert "/zones/" + Show(Null) + "/zones" == "/zones/None/zones";
  }

  /** `absent` deletes even when no zone was found. */
  lemma AbsentDeletesUnfound(p: Params, env: Env)
    requires p.state == Absent && !env.checkMode
    requires env.api(ZoneByFqdnQuery(p.configuration, AbsoluteName(p))).count == 0
    ensures Exec(p, env) == Exit(true, Some(Delete("/zones/None", None)))
  {
    AbsentDeletes(p, env);
    assert "/zones/" + Show(Get(map[], "id")) == "/zones/None";
  }
}
