/** An IPv4 or IPv6 block, created under the block that contains it or at
    the top of its configuration. */
module Block {
  import opened Values
  import opened Outcomes
  import opened BcUtil
  import opened Compare

  datatype Params = Params(
    state: State,
    name: Option<string>,
    range: string,
    configuration: string,
    defaultZonesInherited: bool,
    restrictedZonesInherited: bool,
    reverseZoneSigned: bool,
    userDefinedFields: Option<Payload>)

  /** `get_block` asks for the block with this exact range in the configuration. */
  function GetBlock(api: Query -> Response, p: Params): Flow<Record> {
    FirstOrEmpty(api(BlockByRangeQuery(p.configuration, p.range)))
  }

  /** `find_parent_id`: the first block of the configuration whose range
      contains the network address, in whatever order the server returns. */
  function ParentQuery(p: Params): (q: Query)
    ensures q.limit == Some(100) && q.orderBy.None?
  {
    Lookup("/blocks",
           And(Quoted("configuration.name", "eq", p.configuration),
               Quoted("range", "contains", BeforeSlash(p.range))),
           100)
  }

  /** The parent lookup quotes the configuration name and the network
      address, the range up to its slash. */
  lemma ParentFilter(p: Params)
    ensures ParentQuery(p).filter ==
      Some("configuration.name:eq(\"" + p.configuration + "\") and range:contains(\"" + BeforeSlash(p.range) + "\")")
  {
    var head := "configuration.name:eq(\"" + p.configuration;
    assert Quoted("configuration.name", "eq", p.configuration) == head + "\")";
    QuotedJoin(head + "\")", "range", "contains", BeforeSlash(p.range));
    assert head + "\")" + " and " + "range" + ":" + "contains" + "(\"" == head + "\") and range:contains(\"";
  }

  function FindParentId(api: Query -> Response, p: Params): (r: Flow<Json>)
    ensures api(ParentQuery(p)).count == 0 ==> r == Go(Null)
    ensures var resp := api(ParentQuery(p));
      resp.count != 0 && resp.data != [] && "id" in resp.data[0] ==> r == Go(resp.data[0]["id"])
  {
    FirstId(api(ParentQuery(p)))
  }

  /** The three zone flags only an IPv4 block carries. */
  function ZoneFlags(p: Params, v4: bool): (f: Values.Payload)
    ensures Keys(f) == if v4 then ["defaultZonesInherited", "restrictedZonesInherited", "reverseZoneSigned"] else []
  {
    if v4 then
      var f := [("defaultZonesInherited", Bool(p.defaultZonesInherited)),
                ("restrictedZonesInherited", Bool(p.restrictedZonesInherited)),
                ("reverseZoneSigned", Bool(p.reverseZoneSigned))];
      assert Keys(f) == ["defaultZonesInherited", "restrictedZonesInherited", "reverseZoneSigned"];
      f
    else []
  }

  /** The body `build_data` produces once the range's IP version is known:
      name and range first, the user-defined fields when given, the three
      zone flags only for IPv4, and the type last. */
  function Payload(p: Params, v4: bool): (d: Values.Payload)
    ensures Keys(d) == ["name", "range"]
      + (if p.userDefinedFields.Some? && p.userDefinedFields.value != [] then ["userDefinedFields"] else [])
      + (if v4 then ["defaultZonesInherited", "restrictedZonesInherited", "reverseZoneSigned"] else [])
      + ["type"]
    ensures d[0].1 == EmptyAsNone(p.name) && d[1].1 == Str(p.range)
    ensures d[|d| - 1].1 == Str(if v4 then "IPv4Block" else "IPv6Block")
  {
    var head := [("name", EmptyAsNone(p.name)), ("range", Str(p.range))];
    var udf := if p.userDefinedFields.Some? && p.userDefinedFields.value != []
      then [("userDefinedFields", ItemsToObject(p.userDefinedFields.value))] else [];
    var flags := ZoneFlags(p, v4);
    var tail := [("type", Str(if v4 then "IPv4Block" else "IPv6Block"))];
    assert Keys(head) == ["name", "range"];
    assert Keys(udf) == if p.userDefinedFields.Some? && p.userDefinedFields.value != [] then ["userDefinedFields"] else [];
    assert Keys(tail) == ["type"];
    KeysAppend(head + udf + flags, tail);
    KeysAppend(head + udf, flags);
    KeysAppend(head, udf);
    head + udf + flags + tail
  }

  /** `build_data`, which parses the range and raises on a bad one. */
  function BuildData(env: Env, p: Params): (r: Flow<Values.Payload>)
    ensures env.ipNetwork(p.range).Some? ==> r == Go(Payload(p, env.ipNetwork(p.range).value.version == 4))
    ensures env.ipNetwork(p.range).None? ==> r == Stop(Crash(ValueError(p.range)))
  {
    match IsV4Network(env, p.range)
    case Stop(o) => Stop(o)
    case Go(v4) => Go(Payload(p, v4))
  }

  /** `compare_data`: strict equality on every payload key. */
  function CompareData(env: Env, p: Params, block: Record): (r: Flow<bool>)
    ensures BuildData(env, p).Stop? ==> r == Stop(BuildData(env, p).outcome)
    ensures r == Go(false) <==> BuildData(env, p).Go? && Holds(block, BuildData(env, p).value)
  {
    match BuildData(env, p)
    case Stop(o) => Stop(o)
    case Go(data) => StrictNoDiff(data, block); Scan(data, StrictRule(block))
  }

  /** The three mutating helpers: none builds its body in check mode. */
  function UpdateBlock(env: Env, p: Params, id: Json): (r: Outcome)
    ensures r.Exit? && r.call.Some? ==> r.call.value.Put? && r.call.value.path == "/blocks/" + Show(id)
    ensures env.checkMode ==> r == Exit(true, None)
    ensures !env.checkMode && BuildData(env, p).Go? ==>
      r == Exit(true, Some(Put("/blocks/" + Show(id), BuildData(env, p).value, BaseHeaders)))
    ensures !env.checkMode && BuildData(env, p).Stop? ==> r == BuildData(env, p).outcome
  {
    Send(env, PUT, "/blocks/" + Show(id), BuildData(env, p), BaseHeaders)
  }

  function CreateSubBlock(env: Env, p: Params, parentId: Json): (r: Outcome)
    ensures r.Exit? && r.call.Some? ==> r.call.value.Post? && r.call.value.path == "/blocks/" + Show(parentId) + "/blocks"
    ensures env.checkMode ==> r == Exit(true, None)
    ensures !env.checkMode && BuildData(env, p).Go? ==>
      r == Exit(true, Some(Post("/blocks/" + Show(parentId) + "/blocks", BuildData(env, p).value, BaseHeaders)))
    ensures !env.checkMode && BuildData(env, p).Stop? ==> r == BuildData(env, p).outcome
  {
    Send(env, POST, "/blocks/" + Show(parentId) + "/blocks", BuildData(env, p), BaseHeaders)
  }

  /** `create_top_block` looks the configuration up before the check-mode
      test, so a missing configuration fails the run even in check mode. */
  function CreateTopBlock(env: Env, p: Params): (r: Outcome)
    ensures RequireConfigurationId(env.api, p.configuration).Stop? ==>
      r == RequireConfigurationId(env.api, p.configuration).outcome
    ensures env.api(ConfigurationByNameQuery(p.configuration)).count == 0 ==>
      r == Fail("No configuration with name " + p.configuration + " found!")
    ensures RequireConfigurationId(env.api, p.configuration).Go? && env.checkMode ==> r == Exit(true, None)
    ensures RequireConfigurationId(env.api, p.configuration).Go? && !env.checkMode && BuildData(env, p).Go? ==>
      r == Exit(true, Some(Post("/configurations/" + Show(RequireConfigurationId(env.api, p.configuration).value) + "/blocks",
                                BuildData(env, p).value, BaseHeaders)))
    ensures RequireConfigurationId(env.api, p.configuration).Go? && !env.checkMode && BuildData(env, p).Stop? ==>
      r == BuildData(env, p).outcome
  {
    var configId :- RequireConfigurationId(env.api, p.configuration);
    Send(env, POST, "/configurations/" + Show(configId) + "/blocks", BuildData(env, p), BaseHeaders)
  }

  /** `exec_module`: whatever it sends outside check mode is the built
      payload; it deletes only for `absent` and writes only for `present`. */
  function Exec(p: Params, env: Env): (r: Outcome)
    ensures r.Exit? && r.call.Some? ==> !env.checkMode && r.changed
    ensures r.Exit? && r.call.Some? && !r.call.value.Delete? ==>
      p.state == Present && BuildData(env, p) == Go(r.call.value.body)
    ensures r.Exit? && r.call.Some? && r.call.value.Delete? ==> p.state == Absent
    ensures r.Exit? && r.call.Some? && (r.call.value.Put? || r.call.value.Delete?) ==>
      GetBlock(env.api, p).Go? && r.call.value.path == "/blocks/" + Show(Get(GetBlock(env.api, p).value, "id"))
    ensures r.Exit? && r.call.Some? && r.call.value.Post? ==> GetBlock(env.api, p) == Go(map[])
  {
    var block :- GetBlock(env.api, p);
    var blockId := Get(block, "id");
    match p.state
    case Present =>
      if block != map[] then
        var differs :- CompareData(env, p, block);
        if differs then UpdateBlock(env, p, blockId) else NoChange
      else
        var parentId :- FindParentId(env.api, p);
        if Truthy(parentId) then CreateSubBlock(env, p, parentId) else CreateTopBlock(env, p)
    case Absent =>
      Mutate(env, Delete("/blocks/" + Show(blockId), None))
  }

  /** With the block found, `present` updates exactly when the comparison
      reports a difference. */
  lemma PresentFound(p: Params, env: Env)
    requires p.state == Present
    requires GetBlock(env.api, p).Go? && GetBlock(env.api, p).value != map[]
    ensures var block := GetBlock(env.api, p).value;
      match CompareData(env, p, block)
      case Go(true) => Exec(p, env) == UpdateBlock(env, p, Get(block, "id"))
      case Go(false) => Exec(p, env) == NoChange
      case Stop(o) => Exec(p, env) == o
  {
  }

  /** With no block of that range, `present` creates it under the first
      containing block when there is one, and at the top otherwise. */
  lemma PresentMissing(p: Params, env: Env)
    requires p.state == Present
    requires env.api(BlockByRangeQuery(p.configuration, p.range)).count == 0
    requires FindParentId(env.api, p).Go?
    ensures var parentId := FindParentId(env.api, p).value;
      Exec(p, env) == if Truthy(parentId) then CreateSubBlock(env, p, parentId) else CreateTopBlock(env, p)
  {
  }

  /** A block the server stores as the module would send it compares equal,
      so a second `present` run changes nothing; conversely a run that
      changes nothing saw every payload item stored. */
  lemma Idempotent(p: Params, env: Env)
    requires p.state == Present
    requires GetBlock(env.api, p).Go? && GetBlock(env.api, p).value != map[]
    requires env.ipNetwork(p.range).Some?
    ensures var data := Payload(p, env.ipNetwork(p.range).value.version == 4);
      Holds(GetBlock(env.api, p).value, data) <==> Exec(p, env) == NoChange
  {
    var data := Payload(p, env.ipNetwork(p.range).value.version == 4);
    var block := GetBlock(env.api, p).value;
    StrictNoDiff(data, block);
    PresentFound(p, env);
    if !Holds(block, data) {
      ScanOutcomes(data, StrictRule(block));
    }
  }

  /** `absent` deletes the looked-up block by its id, found or not. */
  lemma AbsentDeletes(p: Params, env: Env)
    requires p.state == Absent && GetBlock(env.api, p).Go?
    ensures Exec(p, env) == Mutate(env, Delete("/blocks/" + Show(Get(GetBlock(env.api, p).value, "id")), None))
  {
  }

  /** `absent` deletes without checking that a block was found: with no
      match the request targets `/blocks/None`. */
  lemma AbsentDeletesUnfound(p: Params, env: Env)
    requires p.state == Absent && !env.checkMode
    requires env.api(BlockByRangeQuery(p.configuration, p.range)).count == 0
    ensures Exec(p, env) == Exit(true, Some(Delete("/blocks/None", None)))
  {
    assert GetBlock(env.api, p) == Go(map[]);
    AbsentDeletes(p, env);
    assert "/blocks/" + Show(Get(map[], "id")) == "/blocks/None";
  }

  /** In check mode nothing is sent, yet creating a top-level block still
      needs the configuration to exist. */
  lemma CheckModeTopBlockNeedsConfiguration(p: Params, env: Env)
    requires p.state == Present && env.checkMode
    requires env.api(BlockByRangeQuery(p.configuration, p.range)).count == 0
    requires env.api(ParentQuery(p)).count == 0
    ensures env.api(ConfigurationByNameQuery(p.configuration)).count == 0 ==>
      Exec(p, env) == Fail("No configuration with name " + p.configuration + " found!")
    ensures env.api(ConfigurationByNameQuery(p.configuration)).count != 0 &&
            FirstId(env.api(ConfigurationByNameQuery(p.configuration))).Go? ==>
      Exec(p, env) == Exit(true, None)
  {
    PresentMissing(p, env);
  }
}
