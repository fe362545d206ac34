/** A deployment of one service to one server. */
module ServerDeployment {
  import opened Values
  import opened Outcomes
  import opened BcUtil

  datatype Params = Params(
    name: string,
    configuration: string,
    deploymentType: string,
    service: string,
    forceZoneRetransfer: string)

  /** `get_server_id`: None when the server is unknown. */
  function ServerQuery(p: Params): (q: Query)
    ensures q.path == "/servers" && q.limit == Some(1)
  {
    Lookup("/servers", And(Quoted("configuration.name", "eq", p.configuration), Quoted("name", "eq", p.name)), 1)
  }

  /** `build_data`: the deployment type and the service. */
  function BuildData(p: Params): (d: Payload)
    ensures Keys(d) == ["type", "service"] && d[0].1 == Str(p.deploymentType) && d[1].1 == Str(p.service)
  {
    [("type", Str(p.deploymentType)), ("service", Str(p.service))]
  }

  /** The request headers: the JSON content type and the retransfer flag. */
  function DeploymentHeaders(p: Params): (h: Headers)
    ensures h.Keys == {"Content-Type", "x-bcn-force-zone-retransfer"}
    ensures h["Content-Type"] == JsonMediaType && h["x-bcn-force-zone-retransfer"] == p.forceZoneRetransfer
  {
    BaseHeaders["x-bcn-force-zone-retransfer" := p.forceZoneRetransfer]
  }

  /** `exec_module`. The module does not support check mode, so Ansible
      skips it there before it runs; otherwise it always posts a deployment,
      to `/servers/None/deployments` when the server is unknown. */
  function Exec(p: Params, env: Env): (r: Outcome)
    ensures env.checkMode ==> r == NoChange
    ensures !env.checkMode && p.deploymentType == "DifferentialDeployment" && p.service != "DNS" ==>
      r == Fail("DHCP services do not allow Differential Deployments!")
    ensures r.Exit? && r.call.Some? ==>
      r.changed && r.call.value.Post? && r.call.value.body == BuildData(p) &&
      r.call.value.headers == DeploymentHeaders(p)
    ensures r.Exit? && r.call.Some? ==>
      FirstId(env.api(ServerQuery(p))).Go? &&
      r.call.value.path == "/servers/" + Show(FirstId(env.api(ServerQuery(p))).value) + "/deployments"
    ensures (!env.checkMode && (p.deploymentType != "DifferentialDeployment" || p.service == "DNS") &&
             FirstId(env.api(ServerQuery(p))).Go?) ==> r.Exit? && r.call.Some?
    ensures (!env.checkMode && (p.deploymentType != "DifferentialDeployment" || p.service == "DNS") &&
             FirstId(env.api(ServerQuery(p))).Stop?) ==> r == FirstId(env.api(ServerQuery(p))).outcome
  {
    if env.checkMode then NoChange
    else if p.deploymentType == "DifferentialDeployment" && p.service != "DNS" then
      Fail("DHCP services do not allow Differential Deployments!")
    else
      var serverId :- FirstId(env.api(ServerQuery(p)));
      Exit(true, Some(Post("/servers/" + Show(serverId) + "/deployments", BuildData(p), DeploymentHeaders(p))))
  }
}
