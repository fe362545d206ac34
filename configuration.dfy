/** A configuration, the top-level container of every other entity. */
module Configuration {
  import opened Values
  import opened Outcomes
  import opened BcUtil
  import opened Compare

  datatype Params = Params(
    state: State,
    name: string,
    description: Option<string>,
    dnsFeedEnabled: bool,
    dnsConfigurationValidationEnabled: bool,
    dnsZoneValidationEnabled: bool,
    checkIntegrityValidation: string,
    checkMxCnameValidation: string,
    checkMxValidation: string,
    checkNamesValidation: string,
    checkWildcardValidation: string,
    dhcpConfigurationValidationEnabled: bool,
    checkNsValidation: string,
    dnsOptionInheritanceEnabled: bool,
    checkSrvCnameValidation: string,
    keyAutoRegenerationEnabled: bool,
    dataCheckerEnabled: bool,
    serverMonitoringEnabled: bool)

  /** `get_configuration` pages up to 100000 matches and keeps the first. */
  function ConfigurationQuery(p: Params): (q: Query)
    ensures q.path == "/configurations" && q.limit == Some(100000)
  {
    Lookup("/configurations", Quoted("name", "eq", p.name), 100000)
  }

  function GetConfiguration(api: Query -> Response, p: Params): Flow<Record> {
    FirstOrEmpty(api(ConfigurationQuery(p)))
  }

  /** The first eight settings, name and description first. */
  function Settings(p: Params): (d: Payload)
    ensures Keys(d) == ["name", "description", "dnsFeedEnabled", "dnsConfigurationValidationEnabled",
      "dnsZoneValidationEnabled", "checkIntegrityValidation", "checkMxCnameValidation", "checkMxValidation"]
    ensures d[0].1 == Str(p.name) && (d[1].1 == Null <==> p.description.None?)
  {
    var d := [("name", Str(p.name)),
        ("description", OptStr(p.description)),
        ("dnsFeedEnabled", Bool(p.dnsFeedEnabled)),
        ("dnsConfigurationValidationEnabled", Bool(p.dnsConfigurationValidationEnabled)),
        ("dnsZoneValidationEnabled", Bool(p.dnsZoneValidationEnabled)),
        ("checkIntegrityValidation", Str(p.checkIntegrityValidation)),
        ("checkMxCnameValidation", Str(p.checkMxCnameValidation)),
        ("checkMxValidation", Str(p.checkMxValidation))];
    assert Keys(d) == ["name", "description", "dnsFeedEnabled", "dnsConfigurationValidationEnabled",
      "dnsZoneValidationEnabled", "checkIntegrityValidation", "checkMxCnameValidation", "checkMxValidation"];
    d
  }

  /** The remaining nine settings. */
  function Checks(p: Params): (d: Payload)
    ensures Keys(d) == ["checkNamesValidation", "checkWildcardValidation", "dhcpConfigurationValidationEnabled",
      "checkNsValidation", "dnsOptionInheritanceEnabled", "checkSrvCnameValidation", "keyAutoRegenerationEnabled",
      "dataCheckerEnabled", "serverMonitoringEnabled"]
  {
    var d := [("checkNamesValidation", Str(p.checkNamesValidation)),
        ("checkWildcardValidation", Str(p.checkWildcardValidation)),
        ("dhcpConfigurationValidationEnabled", Bool(p.dhcpConfigurationValidationEnabled)),
        ("checkNsValidation", Str(p.checkNsValidation)),
        ("dnsOptionInheritanceEnabled", Bool(p.dnsOptionInheritanceEnabled)),
        ("checkSrvCnameValidation", Str(p.checkSrvCnameValidation)),
        ("keyAutoRegenerationEnabled", Bool(p.keyAutoRegenerationEnabled)),
        ("dataCheckerEnabled", Bool(p.dataCheckerEnabled)),
        ("serverMonitoringEnabled", Bool(p.serverMonitoringEnabled))];
    assert Keys(d) == ["checkNamesValidation", "checkWildcardValidation", "dhcpConfigurationValidationEnabled",
      "checkNsValidation", "dnsOptionInheritanceEnabled", "checkSrvCnameValidation", "keyAutoRegenerationEnabled",
      "dataCheckerEnabled", "serverMonitoringEnabled"];
    d
  }

  /** `build_data`: all seventeen settings in declaration order, with no
      `type` key. */
  function BuildData(p: Params): (d: Payload)
    ensures Keys(d) == ["name", "description", "dnsFeedEnabled", "dnsConfigurationValidationEnabled",
      "dnsZoneValidationEnabled", "checkIntegrityValidation", "checkMxCnameValidation", "checkMxValidation",
      "checkNamesValidation", "checkWildcardValidation", "dhcpConfigurationValidationEnabled", "checkNsValidation",
      "dnsOptionInheritanceEnabled", "checkSrvCnameValidation", "keyAutoRegenerationEnabled", "dataCheckerEnabled",
      "serverMonitoringEnabled"]
    ensures d[0].1 == Str(p.name) && (d[1].1 == Null <==> p.description.None?)
  {
    var front := Settings(p);
    var back := Checks(p);
    KeysAppend(front, back);
    front + back
  }

  /** The values of the first eight settings. */
  lemma SettingsValues(p: Params)
    ensures var d := Settings(p);
      d[0].1 == Str(p.name) && d[1].1 == OptStr(p.description) && d[2].1 == Bool(p.dnsFeedEnabled)
      && d[3].1 == Bool(p.dnsConfigurationValidationEnabled) && d[4].1 == Bool(p.dnsZoneValidationEnabled)
      && d[5].1 == Str(p.checkIntegrityValidation) && d[6].1 == Str(p.checkMxCnameValidation)
      && d[7].1 == Str(p.checkMxValidation)
  {
  }

  /** The values of the remaining nine settings. */
  lemma ChecksValues(p: Params)
    ensures var d := Checks(p);
      d[0].1 == Str(p.checkNamesValidation) && d[1].1 == Str(p.checkWildcardValidation)
      && d[2].1 == Bool(p.dhcpConfigurationValidationEnabled) && d[3].1 == Str(p.checkNsValidation)
      && d[4].1 == Bool(p.dnsOptionInheritanceEnabled) && d[5].1 == Str(p.checkSrvCnameValidation)
      && d[6].1 == Bool(p.keyAutoRegenerationEnabled) && d[7].1 == Bool(p.dataCheckerEnabled)
      && d[8].1 == Bool(p.serverMonitoringEnabled)
  {
  }

  /** Each of the seventeen settings `build_data` sends is the module
      parameter of the same name, unchanged. */
  lemma BuildDataValues(p: Params)
    ensures var d := BuildData(p);
      d[0].1 == Str(p.name) && d[1].1 == OptStr(p.description)
    ensures var d := BuildData(p);
      d[2].1 == Bool(p.dnsFeedEnabled) && d[3].1 == Bool(p.dnsConfigurationValidationEnabled)
      && d[4].1 == Bool(p.dnsZoneValidationEnabled)
    ensures var d := BuildData(p);
      d[5].1 == Str(p.checkIntegrityValidation) && d[6].1 == Str(p.checkMxCnameValidation)
      && d[7].1 == Str(p.checkMxValidation)
    ensures var d := BuildData(p);
      d[8].1 == Str(p.checkNamesValidation) && d[9].1 == Str(p.checkWildcardValidation)
      && d[10].1 == Bool(p.dhcpConfigurationValidationEnabled) && d[11].1 == Str(p.checkNsValidation)
    ensures var d := BuildData(p);
      d[12].1 == Bool(p.dnsOptionInheritanceEnabled) && d[13].1 == Str(p.checkSrvCnameValidation)
      && d[14].1 == Bool(p.keyAutoRegenerationEnabled) && d[15].1 == Bool(p.dataCheckerEnabled)
      && d[16].1 == Bool(p.serverMonitoringEnabled)
  {
    var front, back := Settings(p), Checks(p);
    SettingsValues(p);
    ChecksValues(p);
    assert |front| == 8 && BuildData(p) == front + back;
  }

  /** `compare_data`: strict on every key. */
  function CompareData(p: Params, config: Record): (r: Flow<bool>)
    ensures r == Go(false) <==> Holds(config, BuildData(p))
  {
    StrictNoDiff(BuildData(p), config);
    Scan(BuildData(p), StrictRule(config))
  }

  function CreateConfiguration(env: Env, p: Params): (r: Outcome)
    ensures env.checkMode ==> r == Exit(true, None)
    ensures !env.checkMode ==> r == Exit(true, Some(Post("/configurations", BuildData(p), BaseHeaders)))
  {
    Send(env, POST, "/configurations", Go(BuildData(p)), BaseHeaders)
  }

  function UpdateConfiguration(env: Env, p: Params, id: Json): Outcome {
    Send(env, PUT, "/configurations/" + Show(id), Go(BuildData(p)), BaseHeaders)
  }

  /** `exec_module`: a configuration without an id is created; one with an
      id is updated when it differs. */
  function Exec(p: Params, env: Env): (r: Outcome)
    ensures r.Exit? && r.call.Some? ==> !env.checkMode && r.changed
    ensures r.Exit? && r.call.Some? && !r.call.value.Delete? ==>
      p.state == Present && r.call.value.body == BuildData(p)
    ensures r.Exit? && r.call.Some? && r.call.value.Post? ==>
      GetConfiguration(env.api, p).Go? && Get(GetConfiguration(env.api, p).value, "id") == Null
    ensures r.Exit? && r.call.Some? && r.call.value.Delete? ==> p.state == Absent
    ensures r.Exit? && r.call.Some? && (r.call.value.Put? || r.call.value.Delete?) ==>
      GetConfiguration(env.api, p).Go? &&
      r.call.value.path == "/configurations/" + Show(Get(GetConfiguration(env.api, p).value, "id"))
    ensures r.Exit? && r.call.Some? && r.call.value.Post? ==> r.call.value.path == "/configurations"
  {
    var config :- GetConfiguration(env.api, p);
    var id := Get(config, "id");
    match p.state
    case Present =>
      if id == Null then CreateConfiguration(env, p)
      else
        var differs :- CompareData(p, config);
        if differs then UpdateConfiguration(env, p, id) else NoChange
    case Absent =>
      Mutate(env, Delete("/configurations/" + Show(id), None))
  }

  /** With a configuration that has an id, `present` puts the built body
      to that id exactly when the comparison reports a difference. */
  lemma PresentFound(p: Params, env: Env)
    requires p.state == Present
    requires GetConfiguration(env.api, p).Go? && Get(GetConfiguration(env.api, p).value, "id") != Null
    ensures var config := GetConfiguration(env.api, p).value;
      match CompareData(p, config)
      case Go(true) => Exec(p, env) ==
        Send(env, PUT, "/configurations/" + Show(Get(config, "id")), Go(BuildData(p)), BaseHeaders)
      case Go(false) => Exec(p, env) == NoChange
      case Stop(o) => Exec(p, env) == o
  {
  }

  /** `absent` deletes the looked-up configuration by its id, found or not. */
  lemma AbsentDeletes(p: Params, env: Env)
    requires p.state == Absent && GetConfiguration(env.api, p).Go?
    ensures Exec(p, env) ==
      Mutate(env, Delete("/configurations/" + Show(Get(GetConfiguration(env.api, p).value, "id")), None))
  {
  }

  /** A configuration stored as the module would send it is left alone,
      and one that is left alone holds every payload item. */
  lemma Idempotent(p: Params, env: Env)
    requires p.state == Present
    requires GetConfiguration(env.api, p).Go? && Get(GetConfiguration(env.api, p).value, "id") != Null
    ensures Holds(GetConfiguration(env.api, p).value, BuildData(p)) <==> Exec(p, env) == NoChange
  {
    var config := GetConfiguration(env.api, p).value;
    StrictNoDiff(BuildData(p), config);
    if !Holds(config, BuildData(p)) {
      ScanOutcomes(BuildData(p), StrictRule(config));
    }
  }

  /** A found record whose id is null counts as missing: `present` posts a
      new configuration instead of comparing. */
  lemma NullIdCreates(p: Params, env: Env)
    requires p.state == Present && !env.checkMode
    requires GetConfiguration(env.api, p).Go? && Get(GetConfiguration(env.api, p).value, "id") == Null
    ensures Exec(p, env) == Exit(true, Some(Post("/configurations", BuildData(p), BaseHeaders)))
  {
  }

  /** `absent` deletes even when no configuration was found. */
  lemma AbsentDeletesUnfound(p: Params, env: Env)
    requires p.state == Absent && !env.checkMode
    requires env.api(ConfigurationQuery(p)).count == 0
    ensures Exec(p, env) == Exit(true, Some(Delete("/configurations/None", None)))
  {
    AbsentDeletes(p, env);
    assert "/configurations/" + Show(Get(map[], "id")) == "/configurations/None";
  }
}
