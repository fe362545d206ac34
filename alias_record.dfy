/** An alias (CNAME) record in a zone, linked to another resource record. */
module AliasRecord {
  import opened Values
  import opened Outcomes
  import opened BcUtil
  import opened Compare

  datatype Params = Params(
    state: State,
    name: string,
    configuration: string,
    view: string,
    zone: string,
    linkedRecord: string)

  /** `get_zone_id`: the zone of that name in the view, or None. */
  function ZoneQuery(p: Params): Query {
    Lookup("/zones",
           And(And(Quoted("configuration.name", "eq", p.configuration), Quoted("view.name", "eq", p.view)),
               Quoted("absoluteName", "eq", p.zone)),
           1)
  }

  /** `get_resource_record`: the record of that name in the zone. */
  function RecordQuery(p: Params, zoneId: Json): (q: Query)
    ensures q.path == "/zones/" + Show(zoneId) + "/resourceRecords"
  {
    Lookup("/zones/" + Show(zoneId) + "/resourceRecords", Quoted("name", "eq", p.name), 1)
  }

  function LinkedQuery(p: Params): Query {
    Lookup("/resourceRecords", Quoted("absoluteName", "eq", p.linkedRecord), 1)
  }

  /** `get_host_record`: a reference `{id, type}` to the linked record,
      failing the run when it does not exist. */
  function GetLinkedRecord(api: Query -> Response, p: Params): (r: Flow<Json>)
    ensures api(LinkedQuery(p)).count == 0 <==> r == Stop(Fail("Did not find " + p.linkedRecord))
    ensures r.Go? ==> r.value.Object? && r.value.fields.Keys == {"id", "type"}
    ensures r.Go? ==>
      (api(LinkedQuery(p)).data != [] &&
       var found := api(LinkedQuery(p)).data[0];
       "id" in found && "type" in found &&
       r.value.fields["id"] == found["id"] && r.value.fields["type"] == found["type"])
  {
    var resp := api(LinkedQuery(p));
    if resp.count == 0 then Stop(Fail("Did not find " + p.linkedRecord))
    else if resp.data == [] then Stop(Crash(IndexError))
    else
      match Field(resp.data[0], "id")
      case Stop(o) => Stop(o)
      case Go(id) =>
        match Field(resp.data[0], "type")
        case Stop(o) => Stop(o)
        case Go(kind) => Go(Object(map["id" := id, "type" := kind]))
  }

  /** `build_data`: name, type and the linked-record reference. */
  function BuildData(api: Query -> Response, p: Params): (r: Flow<Payload>)
    ensures r.Go? <==> GetLinkedRecord(api, p).Go?
    ensures r.Go? ==>
      (Keys(r.value) == ["name", "type", "linkedRecord"] &&
       r.value[0].1 == Str(p.name) && r.value[1].1 == Str("AliasRecord") &&
       r.value[2].1 == GetLinkedRecord(api, p).value)
  {
    match GetLinkedRecord(api, p)
    case Stop(o) => Stop(o)
    case Go(linked) => Go([("name", Str(p.name)), ("type", Str("AliasRecord")), ("linkedRecord", linked)])
  }

  /** One iteration of `compare_data`: the linked record is compared by id
      only; every other key strictly. */
  function AliasItem(rr: Record, key: string, value: Json): (v: Verdict)
    ensures key != "linkedRecord" ==> v == StrictItem(rr, key, value)
    ensures key == "linkedRecord" && value.Object? && "id" in value.fields ==>
      (v == Same <==> key in rr && rr[key].Object? && "id" in rr[key].fields &&
                      rr[key].fields["id"] == value.fields["id"])
  {
    if key != "linkedRecord" then StrictItem(rr, key, value)
    else if key !in rr then Raises(KeyError(key))
    else if !rr[key].Object? then Raises(TypeError)
    else if "id" !in rr[key].fields then Raises(KeyError("id"))
    else if !value.Object? then Raises(TypeError)
    else if "id" !in value.fields then Raises(KeyError("id"))
    else if rr[key].fields["id"] != value.fields["id"] then Differs
    else Same
  }

  function AliasRule(rr: Record): Rule {
    (k, v) => AliasItem(rr, k, v)
  }

  /** `compare_data`, which builds the payload and so looks the linked
      record up. */
  function CompareData(api: Query -> Response, p: Params, rr: Record): (r: Flow<bool>)
    ensures BuildData(api, p).Stop? ==> r == Stop(BuildData(api, p).outcome)
    ensures r.Stop? && BuildData(api, p).Go? ==> r.outcome.Crash?
  {
    match BuildData(api, p)
    case Stop(o) => Stop(o)
    case Go(data) => Scan(data, AliasRule(rr))
  }

  /** `exec_module`. */
  function Exec(p: Params, env: Env): (r: Outcome)
    ensures r.Exit? && r.call.Some? ==> !env.checkMode && r.changed
    ensures r.Exit? && r.call.Some? && !r.call.value.Delete? ==>
      p.state == Present && BuildData(env.api, p) == Go(r.call.value.body)
    ensures r.Exit? && r.call.Some? && r.call.value.Delete? ==>
      p.state == Absent && r.call.value.sent == Some(BaseHeaders)
    ensures r.Exit? && r.call.Some? ==>
      FirstId(env.api(ZoneQuery(p))).Go? &&
      var zoneId := FirstId(env.api(ZoneQuery(p))).value;
      FirstOrEmpty(env.api(RecordQuery(p, zoneId))).Go? &&
      var rr := FirstOrEmpty(env.api(RecordQuery(p, zoneId))).value;
      r.call.value.path ==
        if r.call.value.Post? then "/zones/" + Show(zoneId) + "/resourceRecords"
        else "/resourceRecords/" + Show(Get(rr, "id"))
    ensures r.Exit? && r.call.Some? && r.call.value.Post? ==>
      FirstOrEmpty(env.api(RecordQuery(p, FirstId(env.api(ZoneQuery(p))).value))) == Go(map[])
  {
    var zoneId :- FirstId(env.api(ZoneQuery(p)));
    var rr :- FirstOrEmpty(env.api(RecordQuery(p, zoneId)));
    var rrId := Get(rr, "id");
    match p.state
    case Present =>
      if rr != map[] then
        var differs :- CompareData(env.api, p, rr);
        if differs then Send(env, PUT, "/resourceRecords/" + Show(rrId), BuildData(env.api, p), BaseHeaders)
        else NoChange
      else Send(env, POST, "/zones/" + Show(zoneId) + "/resourceRecords", BuildData(env.api, p), BaseHeaders)
    case Absent =>
      Mutate(env, Delete("/resourceRecords/" + Show(rrId), Some(BaseHeaders)))
  }

  /** With the record found, `present` puts the built body to the record's
      id exactly when the comparison reports a difference. */
  lemma PresentFound(p: Params, env: Env, zoneId: Json, rr: Record)
    requires p.state == Present
    requires FirstId(env.api(ZoneQuery(p))) == Go(zoneId)
    requires FirstOrEmpty(env.api(RecordQuery(p, zoneId))) == Go(rr) && rr != map[]
    ensures match CompareData(env.api, p, rr)
      case Go(true) => Exec(p, env) ==
        Send(env, PUT, "/resourceRecords/" + Show(Get(rr, "id")), BuildData(env.api, p), BaseHeaders)
      case Go(false) => Exec(p, env) == NoChange
      case Stop(o) => Exec(p, env) == o
  {
  }

  /** With no record found, `present` outside check mode builds the body,
      which looks the linked record up: it posts the alias under the zone
      when the linked record exists and fails with "Did not find" when it
      does not. */
  lemma PresentMissing(p: Params, env: Env, zoneId: Json)
    requires p.state == Present && !env.checkMode
    requires FirstId(env.api(ZoneQuery(p))) == Go(zoneId)
    requires env.api(RecordQuery(p, zoneId)).count == 0
    ensures GetLinkedRecord(env.api, p).Go? ==>
      Exec(p, env) == Exit(true, Some(Post("/zones/" + Show(zoneId) + "/resourceRecords",
        [("name", Str(p.name)), ("type", Str("AliasRecord")), ("linkedRecord", GetLinkedRecord(env.api, p).value)],
        BaseHeaders)))
    ensures env.api(LinkedQuery(p)).count == 0 ==> Exec(p, env) == Fail("Did not find " + p.linkedRecord)
    ensures GetLinkedRecord(env.api, p).Stop? ==> Exec(p, env) == GetLinkedRecord(env.api, p).outcome
  {
    assert FirstOrEmpty(env.api(RecordQuery(p, zoneId))) == Go(map[]);
  }

  /** `absent` deletes the looked-up record by its id, found or not, with
      the headers. */
  lemma AbsentDeletes(p: Params, env: Env, zoneId: Json, rr: Record)
    requires p.state == Absent
    requires FirstId(env.api(ZoneQuery(p))) == Go(zoneId)
    requires FirstOrEmpty(env.api(RecordQuery(p, zoneId))) == Go(rr)
    ensures Exec(p, env) == Mutate(env, Delete("/resourceRecords/" + Show(Get(rr, "id")), Some(BaseHeaders)))
  {
  }

  /** An existing alias is left alone exactly when its name and type match
      and it links to a record with the same id; the linked record's type
      plays no part. */
  lemma Idempotent(p: Params, env: Env, zoneId: Json, rr: Record)
    requires p.state == Present
    requires FirstId(env.api(ZoneQuery(p))) == Go(zoneId)
    requires FirstOrEmpty(env.api(RecordQuery(p, zoneId))) == Go(rr) && rr != map[]
    requires GetLinkedRecord(env.api, p).Go?
    ensures var linked := GetLinkedRecord(env.api, p).value;
      Exec(p, env) == NoChange <==>
        "name" in rr && rr["name"] == Str(p.name) && "type" in rr && rr["type"] == Str("AliasRecord") &&
        "linkedRecord" in rr && rr["linkedRecord"].Object? && "id" in rr["linkedRecord"].fields &&
        rr["linkedRecord"].fields["id"] == linked.fields["id"]
  {
    var data := BuildData(env.api, p).value;
    ScanSame(data, AliasRule(rr));
    if Exec(p, env) == NoChange {
      assert CompareData(env.api, p, rr) == Go(false) by {
        ScanOutcomes(data, AliasRule(rr));
      }
      assert AliasItem(rr, data[0].0, data[0].1) == Same;
      assert AliasItem(rr, data[1].0, data[1].1) == Same;
      assert AliasItem(rr, data[2].0, data[2].1) == Same;
    }
  }

  /** A missing linked record fails the run only where the payload is
      built: always when comparing, never in check mode when creating. */
  lemma CheckModeCreateSkipsLink(p: Params, env: Env)
    requires p.state == Present && env.checkMode
    requires FirstId(env.api(ZoneQuery(p))).Go?
    requires env.api(RecordQuery(p, FirstId(env.api(ZoneQuery(p))).value)).count == 0
    ensures Exec(p, env) == Exit(true, None)
  {
  }

  /** `absent` deletes even when no record was found. */
  lemma AbsentDeletesUnfound(p: Params, env: Env)
    requires p.state == Absent && !env.checkMode
    requires FirstId(env.api(ZoneQuery(p))).Go?
    requires env.api(RecordQuery(p, FirstId(env.api(ZoneQuery(p))).value)).count == 0
    ensures Exec(p, env) == Exit(true, Some(Delete("/resourceRecords/None", Some(BaseHeaders))))
  {
    AbsentDeletes(p, env, FirstId(env.api(ZoneQuery(p))).value, map[]);
    assert "/resourceRecords/" + Show(Get(map[], "id")) == "/resourceRecords/None";
  }
}
