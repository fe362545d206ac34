/** The link between a tag and a network or block. */
module CollectionTag {
  import opened Values
  import opened Outcomes
  import opened BcUtil

  datatype Params = Params(
    state: State,
    resource: string,
    collection: string,
    configuration: string,
    name: string,
    tag: Option<string>,
    tagGroup: Option<string>)

  /** The parent must exist: the tag named by `tag` when given, else the
      tag group named by `tagGroup`. */
  function CheckParent(api: Query -> Response, p: Params): (r: Flow<Record>)
    ensures Given(p.tag) && GetTag(api, p.tag.value) == Go(None) ==> r == Stop(Fail("Could not find parent of tag!"))
    ensures !Given(p.tag) && GetTagGroup(api, ShowOpt(p.tagGroup)) == Go(None) ==>
      r == Stop(Fail("Could not find parent of tag!"))
    ensures r.Go? ==>
      (Given(p.tag) && GetTag(api, p.tag.value) == Go(Some(r.value))) ||
      (!Given(p.tag) && GetTagGroup(api, ShowOpt(p.tagGroup)) == Go(Some(r.value)))
  {
    match if Given(p.tag) then GetTag(api, p.tag.value) else GetTagGroup(api, ShowOpt(p.tagGroup))
    case Stop(o) => Stop(o)
    case Go(parent) =>
      if parent.None? then Stop(Fail("Could not find parent of tag!")) else Go(parent.value)
  }

  /** The id of the tagged resource: the network or block with that range.
      Any other collection leaves the id None. */
  function CollectionId(api: Query -> Response, p: Params): (r: Flow<Json>)
    ensures p.collection == "networks" && GetNetworkByRange(api, p.configuration, p.resource) == Go(None) ==>
      r == Stop(Fail("Could not find network resource!"))
    ensures p.collection == "blocks" && GetBlockByRange(api, p.configuration, p.resource) == Go(None) ==>
      r == Stop(Fail("Could not find block resource!"))
    ensures p.collection != "networks" && p.collection != "blocks" ==> r == Go(Null)
    ensures p.collection == "networks" && GetNetworkByRange(api, p.configuration, p.resource).Go? &&
            GetNetworkByRange(api, p.configuration, p.resource).value.Some? ==>
      r == Go(Get(GetNetworkByRange(api, p.configuration, p.resource).value.value, "id"))
    ensures p.collection == "blocks" && GetBlockByRange(api, p.configuration, p.resource).Go? &&
            GetBlockByRange(api, p.configuration, p.resource).value.Some? ==>
      r == Go(Get(GetBlockByRange(api, p.configuration, p.resource).value.value, "id"))
  {
    if p.collection == "networks" then
      match GetNetworkByRange(api, p.configuration, p.resource)
      case Stop(o) => Stop(o)
      case Go(network) =>
        if network.None? then Stop(Fail("Could not find network resource!")) else Go(Get(network.value, "id"))
    else if p.collection == "blocks" then
      match GetBlockByRange(api, p.configuration, p.resource)
      case Stop(o) => Stop(o)
      case Go(block) =>
        if block.None? then Stop(Fail("Could not find block resource!")) else Go(Get(block.value, "id"))
    else Go(Null)
  }

  /** `get_linked_tags` sends no query parameters. */
  function LinkedTagsQuery(collection: string, collectionId: Json): Query {
    Query("/" + collection + "/" + Show(collectionId) + "/tags", None, None, None, None)
  }

  /** The ids of the tags linked to the resource, in the order returned;
      empty when there are none. */
  function LinkedTagIds(resp: Response): (ids: seq<Json>)
    ensures resp.count == 0 ==> ids == []
    ensures resp.count != 0 ==>
      (|ids| == |resp.data| && forall i | 0 <= i < |ids| :: ids[i] == Get(resp.data[i], "id"))
  {
    if resp.count == 0 then []
    else seq(|resp.data|, i requires 0 <= i < |resp.data| => Get(resp.data[i], "id"))
  }

  /** `build_data`: the tag reference. */
  function BuildData(tagId: Json): (d: Payload)
    ensures Keys(d) == ["id"] && d[0].1 == tagId
  {
    [("id", tagId)]
  }

  /** Everything `exec_module` looks up before deciding: the collection id,
      the linked tag ids and the tag id. */
  datatype Observed = Observed(collectionId: Json, linked: seq<Json>, tagId: Json)

  function Observe(api: Query -> Response, p: Params): (r: Flow<Observed>)
    ensures CheckParent(api, p).Stop? ==> r == Stop(CheckParent(api, p).outcome)
    ensures CheckParent(api, p).Go? && CollectionId(api, p).Stop? ==> r == Stop(CollectionId(api, p).outcome)
    ensures CheckParent(api, p).Go? && CollectionId(api, p).Go? && GetTag(api, p.name) == Go(None) ==>
      r == Stop(Fail("Tag does not exist!"))
    ensures r.Go? ==>
      CollectionId(api, p) == Go(r.value.collectionId) &&
      r.value.linked == LinkedTagIds(api(LinkedTagsQuery(p.collection, r.value.collectionId))) &&
      GetTag(api, p.name).Go? && GetTag(api, p.name).value.Some? &&
      r.value.tagId == Get(GetTag(api, p.name).value.value, "id")
  {
    match CheckParent(api, p)
    case Stop(o) => Stop(o)
    case Go(_) =>
      match CollectionId(api, p)
      case Stop(o) => Stop(o)
      case Go(collectionId) =>
        var linked := LinkedTagIds(api(LinkedTagsQuery(p.collection, collectionId)));
        match GetTag(api, p.name)
        case Stop(o) => Stop(o)
        case Go(tag) =>
          if tag.None? then Stop(Fail("Tag does not exist!"))
          else Go(Observed(collectionId, linked, Get(tag.value, "id")))
  }

  /** `exec_module`: link when `present` and not linked yet, unlink when
      `absent` and linked, otherwise change nothing. */
  function Exec(p: Params, env: Env): (r: Outcome)
    ensures Observe(env.api, p).Stop? ==> r == Observe(env.api, p).outcome
    ensures Observe(env.api, p).Go? ==>
      var seen := Observe(env.api, p).value;
      r.Exit? && (r.changed <==> (p.state == Present <==> seen.tagId !in seen.linked)) &&
      (r.call.Some? ==> !env.checkMode) &&
      (r.call.Some? && r.call.value.Post? ==>
        r.call.value.path == "/" + p.collection + "/" + Show(seen.collectionId) + "/tags" &&
        r.call.value.body == BuildData(seen.tagId)) &&
      (r.call.Some? && r.call.value.Delete? ==>
        r.call.value.path == "/" + p.collection + "/" + Show(seen.collectionId) + "/tags/" + Show(seen.tagId))
    ensures r.Exit? && r.call.Some? ==> !r.call.value.Put?
    ensures Observe(env.api, p).Go? && p.state == Present &&
            Observe(env.api, p).value.tagId !in Observe(env.api, p).value.linked ==>
      var seen := Observe(env.api, p).value;
      r == Mutate(env, Post("/" + p.collection + "/" + Show(seen.collectionId) + "/tags", BuildData(seen.tagId), BaseHeaders))
    ensures Observe(env.api, p).Go? && p.state == Absent &&
            Observe(env.api, p).value.tagId in Observe(env.api, p).value.linked ==>
      var seen := Observe(env.api, p).value;
      r == Mutate(env, Delete("/" + p.collection + "/" + Show(seen.collectionId) + "/tags/" + Show(seen.tagId), None))
  {
    var seen :- Observe(env.api, p);
    var base := "/" + p.collection + "/" + Show(seen.collectionId) + "/tags";
    match p.state
    case Present =>
      if seen.tagId !in seen.linked then Mutate(env, Post(base, BuildData(seen.tagId), BaseHeaders))
      else NoChange
    case Absent =>
      if seen.tagId in seen.linked then Mutate(env, Delete(base + "/" + Show(seen.tagId), None))
      else NoChange
  }

  /** Linking is idempotent: once the server lists the tag among the
      resource's tags, `present` changes nothing, and once it no longer
      lists it, `absent` changes nothing. */
  lemma Idempotent(p: Params, env: Env)
    requires Observe(env.api, p).Go?
    ensures var seen := Observe(env.api, p).value;
      (p.state == Present && seen.tagId in seen.linked ==> Exec(p, env) == NoChange) &&
      (p.state == Absent && seen.tagId !in seen.linked ==> Exec(p, env) == NoChange)
  {
  }
}
