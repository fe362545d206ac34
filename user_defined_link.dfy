/** A user-defined link from one network to another. */
module UserDefinedLink {
  import opened Values
  import opened Outcomes
  import opened BcUtil

  datatype Params = Params(
    name: string,
    state: State,
    description: Option<string>,
    source: string,
    sourceType: string,
    destination: string,
    destinationType: string,
    configuration: string)

  /** `get_udl_definition_id`. */
  function DefinitionQuery(p: Params): Query {
    Lookup("/userDefinedLinkDefinitions", Quoted("displayName", "eq", p.name), 1)
  }

  /** `get_network_id`: the network with exactly this range, its links embedded. */
  function NetworkQuery(p: Params, range: string): (q: Query)
    ensures q.fields == Some("embed(userDefinedLinks)") && q.limit == Some(1)
  {
    Query("/networks", Some(And(Quoted("configuration.name", "eq", p.configuration), Quoted("range", "eq", range))),
          Some(1), Some("embed(userDefinedLinks)"), None)
  }

  /** Only networks can be linked; any other end fails the run. */
  function EndId(api: Query -> Response, p: Params, kind: string, range: string): (r: Flow<Json>)
    ensures kind != "networks" ==> r == Stop(Fail(kind + " not yet implemented."))
    ensures kind == "networks" ==> r == FirstId(api(NetworkQuery(p, range)))
  {
    if kind == "networks" then FirstId(api(NetworkQuery(p, range)))
    else Stop(Fail(kind + " not yet implemented."))
  }

  /** `get_udl`: the link from the source whose id is the destination's. */
  function LinkQuery(p: Params, sourceId: Json, destinationId: Json): Query {
    Lookup("/" + p.sourceType + "/" + Show(sourceId) + "/userDefinedLinks", Bare("id", "eq", Show(destinationId)), 1)
  }

  /** `build_data`: the destination, the description or None, and the
      definition reference. */
  function BuildData(p: Params, definitionId: Json, destinationId: Json): (d: Payload)
    ensures Keys(d) == ["id", "linkDescription", "linkDefinition"]
    ensures d[0].1 == destinationId && (d[1].1 == Null <==> !Given(p.description))
    ensures d[2].1 == Object(map["id" := definitionId, "type" := Str("UserDefinedLinkDefinition")])
  {
    [("id", destinationId),
     ("linkDescription", if Given(p.description) then Str(p.description.value) else Null),
     ("linkDefinition", Object(map["id" := definitionId, "type" := Str("UserDefinedLinkDefinition")]))]
  }

  /** `compare_data`, which `exec_module` never calls: the link differs when
      its target id or its definition id differs; the description is not
      compared. */
  function CompareData(udl: Record, definitionId: Json, destinationId: Json): (r: Flow<bool>)
    ensures r == Go(false) <==>
      "id" in udl && udl["id"] == destinationId && "linkDefinition" in udl &&
      udl["linkDefinition"].Object? && "id" in udl["linkDefinition"].fields &&
      udl["linkDefinition"].fields["id"] == definitionId
  {
    if "id" !in udl || destinationId != udl["id"] then Go(true)
    else if "linkDefinition" !in udl then Go(true)
    else
      match Index(udl["linkDefinition"], "id")
      case Stop(o) => Stop(o)
      case Go(stored) => Go(definitionId != stored)
  }

  /** A link stored as the module would create it compares equal. */
  lemma CompareBuilt(p: Params, definitionId: Json, destinationId: Json, udl: Record)
    requires Holds(udl, BuildData(p, definitionId, destinationId))
    ensures CompareData(udl, definitionId, destinationId) == Go(false)
  {
    var d := BuildData(p, definitionId, destinationId);
    assert d[0].0 in udl && udl[d[0].0] == d[0].1;
    assert d[2].0 in udl && udl[d[2].0] == d[2].1;
  }

  /** Everything `exec_module` resolves before deciding. */
  datatype Observed = Observed(definitionId: Json, sourceId: Json, destinationId: Json, link: Option<Record>)

  function Observe(api: Query -> Response, p: Params): (r: Flow<Observed>)
    ensures FirstId(api(DefinitionQuery(p))).Stop? ==> r == Stop(FirstId(api(DefinitionQuery(p))).outcome)
    ensures FirstId(api(DefinitionQuery(p))).Go? && EndId(api, p, p.sourceType, p.source).Stop? ==>
      r == Stop(EndId(api, p, p.sourceType, p.source).outcome)
    ensures FirstId(api(DefinitionQuery(p))).Go? && EndId(api, p, p.sourceType, p.source).Go? &&
            EndId(api, p, p.destinationType, p.destination).Stop? ==>
      r == Stop(EndId(api, p, p.destinationType, p.destination).outcome)
    ensures FirstId(api(DefinitionQuery(p))).Go? && EndId(api, p, p.sourceType, p.source).Go? &&
            EndId(api, p, p.destinationType, p.destination).Go? ==>
      var link := First(api(LinkQuery(p, EndId(api, p, p.sourceType, p.source).value,
                                         EndId(api, p, p.destinationType, p.destination).value)));
      (link.Stop? ==> r == Stop(link.outcome)) &&
      (link.Go? ==> r.Go? && r.value.link == link.value)
    ensures r.Go? ==>
      FirstId(api(DefinitionQuery(p))) == Go(r.value.definitionId) &&
      EndId(api, p, p.sourceType, p.source) == Go(r.value.sourceId) &&
      EndId(api, p, p.destinationType, p.destination) == Go(r.value.destinationId) &&
      First(api(LinkQuery(p, r.value.sourceId, r.value.destinationId))) == Go(r.value.link)
  {
    match FirstId(api(DefinitionQuery(p)))
    case Stop(o) => Stop(o)
    case Go(definitionId) =>
      match EndId(api, p, p.sourceType, p.source)
      case Stop(o) => Stop(o)
      case Go(sourceId) =>
        match EndId(api, p, p.destinationType, p.destination)
        case Stop(o) => Stop(o)
        case Go(destinationId) =>
          match First(api(LinkQuery(p, sourceId, destinationId)))
          case Stop(o) => Stop(o)
          case Go(link) => Go(Observed(definitionId, sourceId, destinationId, link))
  }

  /** `exec_module`: `present` creates the link when none exists and never
      updates one; `absent` always fails. The body is built even in check
      mode. */
  function Exec(p: Params, env: Env): (r: Outcome)
    ensures Observe(env.api, p).Stop? ==> r == Observe(env.api, p).outcome
    ensures Observe(env.api, p).Go? && p.state == Absent ==> r == Fail("Deletion can not yet be implemented")
    ensures Observe(env.api, p).Go? && p.state == Present ==>
      var seen := Observe(env.api, p).value;
      r.Exit? && (r.changed <==> !Found(seen.link)) &&
      (r.call.Some? <==> r.changed && !env.checkMode) &&
      (r.call.Some? ==> r.call.value == Post("/" + p.sourceType + "/" + Show(seen.sourceId) + "/userDefinedLinks",
                                             BuildData(p, seen.definitionId, seen.destinationId), BaseHeaders))
  {
    var seen :- Observe(env.api, p);
    match p.state
    case Present =>
      if !Found(seen.link) then
        var data := BuildData(p, seen.definitionId, seen.destinationId);
        Mutate(env, Post("/" + p.sourceType + "/" + Show(seen.sourceId) + "/userDefinedLinks", data, BaseHeaders))
      else NoChange
    case Absent =>
      Fail("Deletion can not yet be implemented")
  }

  /** With the definition and both ends resolved, `present` posts the
      built link under the source exactly when the link lookup under the
      source, by the destination's id, finds nothing (or an empty record). */
  lemma PresentCreatesUnlinked(p: Params, env: Env, definitionId: Json, sourceId: Json, destinationId: Json)
    requires p.state == Present && !env.checkMode
    requires FirstId(env.api(DefinitionQuery(p))) == Go(definitionId)
    requires EndId(env.api, p, p.sourceType, p.source) == Go(sourceId)
    requires EndId(env.api, p, p.destinationType, p.destination) == Go(destinationId)
    requires First(env.api(LinkQuery(p, sourceId, destinationId))).Go?
    ensures var link := First(env.api(LinkQuery(p, sourceId, destinationId))).value;
      Exec(p, env) == if Found(link) then NoChange
        else Exit(true, Some(Post("/" + p.sourceType + "/" + Show(sourceId) + "/userDefinedLinks",
                                  BuildData(p, definitionId, destinationId), BaseHeaders)))
    ensures env.api(LinkQuery(p, sourceId, destinationId)).count == 0 ==>
      Exec(p, env) == Exit(true, Some(Post("/" + p.sourceType + "/" + Show(sourceId) + "/userDefinedLinks",
                                           BuildData(p, definitionId, destinationId), BaseHeaders)))
  {
  }

  /** Both ends must be networks: any other source type fails before the
      destination is looked at. */
  lemma OnlyNetworks(p: Params, env: Env)
    requires FirstId(env.api(DefinitionQuery(p))).Go? && p.sourceType != "networks"
    ensures Exec(p, env) == Fail(p.sourceType + " not yet implemented.")
  {
  }
}
