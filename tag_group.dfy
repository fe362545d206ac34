/** A tag group: a named set of tags with user-defined fields. */
module TagGroup {
  import opened Values
  import opened Outcomes
  import opened BcUtil
  import opened Compare

  datatype Params = Params(state: State, name: string, userDefinedFields: Option<Payload>)

  /** `build_data`: the name and the user-defined fields, None when not given. */
  function BuildData(p: Params): (d: Payload)
    ensures Keys(d) == ["name", "userDefinedFields"]
    ensures d[0].1 == Str(p.name) && (d[1].1 == Null <==> p.userDefinedFields.None?)
  {
    [("name", Str(p.name)),
     ("userDefinedFields", if p.userDefinedFields.Some? then ItemsToObject(p.userDefinedFields.value) else Null)]
  }

  /** `compare_data`: a missing key counts as a difference, so it never raises. */
  function CompareData(p: Params, group: Record): (r: Flow<bool>)
    ensures r == Go(!Holds(group, BuildData(p)))
  {
    PresentEqualDiff(BuildData(p), group);
    Scan(BuildData(p), PresentEqualRule(group))
  }

  /** `exec_module`. The lookup yields None when no group matches, and the
      following `.get('id')` raises: only a matching but empty record
      reaches the create branch. */
  function Exec(p: Params, env: Env): (r: Outcome)
    ensures r.Exit? && r.call.Some? ==> !env.checkMode && r.changed
    ensures r.Exit? && r.call.Some? && !r.call.value.Delete? ==>
      p.state == Present && r.call.value.body == BuildData(p)
    ensures r.Exit? && r.call.Some? && r.call.value.Delete? ==>
      p.state == Absent && r.call.value.sent == Some(BaseHeaders)
    ensures env.api(TagGroupQuery(p.name)).count == 0 ==> r == Crash(AttributeError("get"))
    ensures r.Exit? && r.call.Some? && (r.call.value.Put? || r.call.value.Delete?) ==>
      GetTagGroup(env.api, p.name).Go? && Found(GetTagGroup(env.api, p.name).value) &&
      r.call.value.path == "/tagGroups/" + Show(Get(GetTagGroup(env.api, p.name).value.value, "id"))
    ensures r.Exit? && r.call.Some? && r.call.value.Post? ==>
      GetTagGroup(env.api, p.name) == Go(Some(map[])) && r.call.value.path == "/tagGroups/"
  {
    var found :- GetTagGroup(env.api, p.name);
    if found.None? then Crash(AttributeError("get"))
    else
      var group := found.value;
      var groupId := Get(group, "id");
      match p.state
      case Present =>
        if group != map[] then
          var differs := CompareData(p, group).value;
          if differs then Send(env, PUT, "/tagGroups/" + Show(groupId), Go(BuildData(p)), BaseHeaders)
          else NoChange
        else Send(env, POST, "/tagGroups/", Go(BuildData(p)), BaseHeaders)
      case Absent =>
        if group != map[] then Mutate(env, Delete("/tagGroups/" + Show(groupId), Some(BaseHeaders)))
        else NoChange
  }

  /** A group that holds the payload is left alone, and conversely; the
      comparison never raises, so `present` on a found group always ends. */
  lemma Idempotent(p: Params, env: Env)
    requires p.state == Present
    requires GetTagGroup(env.api, p.name).Go? && Found(GetTagGroup(env.api, p.name).value)
    ensures Holds(GetTagGroup(env.api, p.name).value.value, BuildData(p)) <==> Exec(p, env) == NoChange
  {
  }

  /** With the group found, `present` puts the built body to its id exactly
      when it does not hold the payload. */
  lemma PresentFound(p: Params, env: Env)
    requires p.state == Present
    requires GetTagGroup(env.api, p.name).Go? && Found(GetTagGroup(env.api, p.name).value)
    ensures var group := GetTagGroup(env.api, p.name).value.value;
      Exec(p, env) == if Holds(group, BuildData(p)) then NoChange
        else Send(env, PUT, "/tagGroups/" + Show(Get(group, "id")), Go(BuildData(p)), BaseHeaders)
  {
  }

  /** `absent` deletes a found group by its id, with the headers, and
      leaves an empty match alone. */
  lemma AbsentDeletes(p: Params, env: Env)
    requires p.state == Absent && GetTagGroup(env.api, p.name).Go? && GetTagGroup(env.api, p.name).value.Some?
    ensures var group := GetTagGroup(env.api, p.name).value.value;
      Exec(p, env) == if group != map[] then Mutate(env, Delete("/tagGroups/" + Show(Get(group, "id")), Some(BaseHeaders)))
        else NoChange
  {
  }
}
