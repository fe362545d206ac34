/** A DNS view of a configuration. */
module View {
  import opened Values
  import opened Outcomes
  import opened BcUtil
  import opened Compare

  datatype Params = Params(state: State, name: string, configuration: string)

  /** `get_view`. */
  function GetView(api: Query -> Response, p: Params): Flow<Record> {
    FirstOrEmpty(api(ViewByNameQuery(p.configuration, p.name)))
  }

  /** `build_data`: the name alone. */
  function BuildData(p: Params): Payload {
    NameBody(p.name)
  }

  /** `compare_data`: strict on the name. */
  function CompareData(p: Params, view: Record): Flow<bool> {
    Scan(BuildData(p), StrictRule(view))
  }

  /** `exec_module`. For `absent` it calls `delete_network`, which the view
      module does not define, so every `absent` run raises after the lookup. */
  function Exec(p: Params, env: Env): (r: Outcome)
    ensures r.Exit? && r.call.Some? ==> !env.checkMode && r.changed && p.state == Present
    ensures r.Exit? && r.call.Some? ==> !r.call.value.Delete? && r.call.value.body == BuildData(p)
    ensures p.state == Absent && GetView(env.api, p).Go? ==> r == Crash(AttributeError("delete_network"))
    ensures r.Exit? && r.call.Some? && r.call.value.Put? ==>
      GetView(env.api, p).Go? && GetView(env.api, p).value != map[] &&
      r.call.value.path == "/views/" + Show(Get(GetView(env.api, p).value, "id"))
    ensures r.Exit? && r.call.Some? && r.call.value.Post? ==> GetView(env.api, p) == Go(map[])
  {
    var view :- GetView(env.api, p);
    var viewId := Get(view, "id");
    match p.state
    case Present =>
      if view != map[] then
        var differs :- CompareData(p, view);
        if differs then Send(env, PUT, "/views/" + Show(viewId), Go(BuildData(p)), BaseHeaders)
        else NoChange
      else
        var configId :- RequireConfigurationId(env.api, p.configuration);
        Send(env, POST, "/configurations/" + Show(configId) + "/views", Go(BuildData(p)), BaseHeaders)
    case Absent =>
      Crash(AttributeError("delete_network"))
  }

  /** With the view found, `present` puts the name to that view's id
      exactly when the comparison reports a difference. */
  lemma PresentFound(p: Params, env: Env)
    requires p.state == Present
    requires GetView(env.api, p).Go? && GetView(env.api, p).value != map[]
    ensures var view := GetView(env.api, p).value;
      match CompareData(p, view)
      case Go(true) => Exec(p, env) == Send(env, PUT, "/views/" + Show(Get(view, "id")), Go(BuildData(p)), BaseHeaders)
      case Go(false) => Exec(p, env) == NoChange
      case Stop(o) => Exec(p, env) == o
  {
  }

  /** A view whose name is stored is left alone, and a view left alone
      stores the name. */
  lemma Idempotent(p: Params, env: Env)
    requires p.state == Present
    requires GetView(env.api, p).Go? && GetView(env.api, p).value != map[]
    ensures Holds(GetView(env.api, p).value, BuildData(p)) <==> Exec(p, env) == NoChange
  {
    var view := GetView(env.api, p).value;
    StrictNoDiff(BuildData(p), view);
    if !Holds(view, BuildData(p)) {
      ScanOutcomes(BuildData(p), StrictRule(view));
    }
  }

  /** A missing view is created only inside an existing configuration. */
  lemma CreateNeedsConfiguration(p: Params, env: Env)
    requires p.state == Present
    requires env.api(ViewByNameQuery(p.configuration, p.name)).count == 0
    ensures env.api(ConfigurationByNameQuery(p.configuration)).count == 0 ==>
      Exec(p, env) == Fail("No configuration with name " + p.configuration + " found!")
    ensures !env.checkMode && env.api(ConfigurationByNameQuery(p.configuration)).count != 0 &&
            FirstId(env.api(ConfigurationByNameQuery(p.configuration))).Go? ==>
      var configId := FirstId(env.api(ConfigurationByNameQuery(p.configuration))).value;
      Exec(p, env) == Exit(true, Some(Post("/configurations/" + Show(configId) + "/views", BuildData(p), BaseHeaders)))
  {
  }
}
