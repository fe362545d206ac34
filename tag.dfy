/** A tag, created inside a parent tag or a tag group. */
module Tag {
  import opened Values
  import opened Outcomes
  import opened BcUtil

  datatype Params = Params(state: State, name: string, tagGroup: Option<string>, tag: Option<string>)

  /** `build_data`: the name alone. */
  function BuildData(p: Params): Payload {
    NameBody(p.name)
  }

  /** The parent lookup of `exec_module`: the tag named by `tag` when given,
      else the tag group named by `tagGroup`; with neither, `parent` is
      never bound. */
  function GetParent(api: Query -> Response, p: Params): (r: Flow<Option<Record>>)
    ensures Given(p.tag) ==> r == GetTag(api, p.tag.value)
    ensures !Given(p.tag) && Given(p.tagGroup) ==> r == GetTagGroup(api, p.tagGroup.value)
    ensures !Given(p.tag) && !Given(p.tagGroup) ==> r == Stop(Crash(NameError("parent")))
  {
    if Given(p.tag) then GetTag(api, p.tag.value)
    else if Given(p.tagGroup) then GetTagGroup(api, p.tagGroup.value)
    else Stop(Crash(NameError("parent")))
  }

  /** `create_tag`: the collection follows the `tag` parameter. */
  function CreateTag(env: Env, p: Params, parentId: Json): (r: Outcome)
    ensures r.Exit? && r.call.Some? ==> r.call.value.Post? && r.call.value.body == BuildData(p)
    ensures r.Exit? && r.call.Some? && Given(p.tag) ==> r.call.value.path == "/tags/" + Show(parentId) + "/tags"
    ensures r.Exit? && r.call.Some? && !Given(p.tag) ==> r.call.value.path == "/tagGroups/" + Show(parentId) + "/tags"
  {
    if Given(p.tag) then Send(env, POST, "/tags/" + Show(parentId) + "/tags", Go(BuildData(p)), BaseHeaders)
    else Send(env, POST, "/tagGroups/" + Show(parentId) + "/tags", Go(BuildData(p)), BaseHeaders)
  }

  /** `exec_module`: an existing tag is never updated; a missing one is
      created under its parent, raising when the parent is not found. */
  function Exec(p: Params, env: Env): (r: Outcome)
    ensures r.Exit? && r.call.Some? ==> !env.checkMode && r.changed
    ensures r.Exit? && r.call.Some? && !r.call.value.Delete? ==>
      p.state == Present && (GetTag(env.api, p.name) == Go(None) || GetTag(env.api, p.name) == Go(Some(map[]))) &&
      r.call.value.body == BuildData(p)
    ensures r.Exit? && r.call.Some? && r.call.value.Delete? ==>
      p.state == Absent && GetTag(env.api, p.name).Go? && Found(GetTag(env.api, p.name).value) &&
      r.call.value == Delete("/tags/" + Show(Get(GetTag(env.api, p.name).value.value, "id")), Some(BaseHeaders))
    ensures p.state == Present && GetTag(env.api, p.name).Go? && Found(GetTag(env.api, p.name).value) ==> r == NoChange
  {
    var tag :- GetTag(env.api, p.name);
    match p.state
    case Present =>
      if !Found(tag) then
        var parent :- GetParent(env.api, p);
        if parent.None? then Crash(AttributeError("get"))
        else CreateTag(env, p, Get(parent.value, "id"))
      else NoChange
    case Absent =>
      if Found(tag) then Mutate(env, Delete("/tags/" + Show(Get(tag.value, "id")), Some(BaseHeaders)))
      else NoChange
  }

  /** Creating a tag whose parent tag or tag group does not exist raises
      before any request. */
  lemma MissingParentRaises(p: Params, env: Env)
    requires p.state == Present && GetTag(env.api, p.name).Go? && !Found(GetTag(env.api, p.name).value)
    requires if Given(p.tag) then env.api(TagQuery(p.tag.value)).count == 0
             else Given(p.tagGroup) && env.api(TagGroupQuery(p.tagGroup.value)).count == 0
    ensures Exec(p, env) == Crash(AttributeError("get"))
  {
    assert GetParent(env.api, p) == Go(None);
  }

  /** A parent tag puts the new tag under `/tags/{id}/tags`; the tag group
      is not looked at, even when one is named. */
  lemma CreateUnderTag(p: Params, env: Env)
    requires p.state == Present && !env.checkMode
    requires GetTag(env.api, p.name).Go? && !Found(GetTag(env.api, p.name).value)
    requires Given(p.tag)
    requires GetTag(env.api, p.tag.value).Go? && GetTag(env.api, p.tag.value).value.Some?
    ensures var parentId := Get(GetTag(env.api, p.tag.value).value.value, "id");
      Exec(p, env) == Exit(true, Some(Post("/tags/" + Show(parentId) + "/tags", BuildData(p), BaseHeaders)))
  {
  }

  /** A tag group parent puts the new tag under `/tagGroups/{id}/tags`. */
  lemma CreateInTagGroup(p: Params, env: Env)
    requires p.state == Present && !env.checkMode
    requires GetTag(env.api, p.name).Go? && !Found(GetTag(env.api, p.name).value)
    requires !Given(p.tag) && Given(p.tagGroup)
    requires GetTagGroup(env.api, p.tagGroup.value).Go? && GetTagGroup(env.api, p.tagGroup.value).value.Some?
    ensures var parentId := Get(GetTagGroup(env.api, p.tagGroup.value).value.value, "id");
      Exec(p, env) == Exit(true, Some(Post("/tagGroups/" + Show(parentId) + "/tags", BuildData(p), BaseHeaders)))
  {
  }

  /** `absent` deletes a found tag by its id, with the headers, and leaves
      a missing one alone. */
  lemma AbsentDeletes(p: Params, env: Env)
    requires p.state == Absent && GetTag(env.api, p.name).Go?
    ensures var tag := GetTag(env.api, p.name).value;
      Exec(p, env) == if Found(tag) then Mutate(env, Delete("/tags/" + Show(Get(tag.value, "id")), Some(BaseHeaders)))
        else NoChange
  {
  }
}
