/** An IPv4 or IPv6 address assigned inside a network. */
module Address {
  import opened Values
  import opened Outcomes
  import opened BcUtil
  import opened Compare

  datatype Params = Params(
    state: State,
    configuration: string,
    address: string,
    name: Option<string>,
    network: Option<string>,
    addressState: string,
    macAddress: Option<string>)

  /** `get_address`. */
  function AddressQuery(p: Params): Query {
    Lookup("/addresses", And(Quoted("configuration.name", "eq", p.configuration), Quoted("address", "eq", p.address)), 1)
  }

  /** `get_network_id` and `find_network_id` send this same query: the
      first network of the configuration that contains the address. */
  function NetworkQuery(p: Params): Query {
    Lookup("/networks", And(Quoted("configuration.name", "eq", p.configuration), Quoted("range", "contains", p.address)), 1)
  }

  /** The MAC address object, or None when no MAC address is given. */
  function MacValue(p: Params): (j: Json)
    ensures Given(p.macAddress) <==> j.Object?
    ensures j.Object? ==> j.fields == map["type" := Str("MACAddress"), "address" := Str(p.macAddress.value)]
  {
    if Given(p.macAddress) then Object(map["type" := Str("MACAddress"), "address" := Str(p.macAddress.value)])
    else Null
  }

  /** The body once the address's IP version is known. */
  function Payload(p: Params, v4: bool): (d: Values.Payload)
    ensures Keys(d) == ["address", "name", "state", "macAddress", "type"]
    ensures d[0].1 == Str(p.address) && d[2].1 == Str(p.addressState) && d[3].1 == MacValue(p)
    ensures d[4].1 == Str(if v4 then "IPv4Address" else "IPv6Address")
  {
    [("address", Str(p.address)),
     ("name", OptStr(p.name)),
     ("state", Str(p.addressState)),
     ("macAddress", MacValue(p)),
     ("type", Str(if v4 then "IPv4Address" else "IPv6Address"))]
  }

  /** `build_data`, which parses the address and raises on a bad one. */
  function BuildData(env: Env, p: Params): (r: Flow<Values.Payload>)
    ensures env.ipAddressVersion(p.address).None? ==> r == Stop(Crash(ValueError(p.address)))
    ensures env.ipAddressVersion(p.address).Some? ==>
      r == Go(Payload(p, env.ipAddressVersion(p.address).value == 4))
  {
    match IsV4Address(env, p.address)
    case Stop(o) => Stop(o)
    case Go(v4) => Go(Payload(p, v4))
  }

  /** `mac['address']` on a decoded value. */
  function AddressOf(mac: Json): (r: Flow<Json>)
    ensures r.Go? <==> mac.Object? && "address" in mac.fields
  {
    match mac
    case Object(fields) => if "address" in fields then Go(fields["address"]) else Stop(Crash(KeyError("address")))
    case _ => Stop(Crash(TypeError))
  }

  /** The MAC address matches when the stored object carries the same
      address string, whatever else it holds. */
  predicate MacMatches(stored: Json, value: Json) {
    Truthy(stored) && Truthy(value) && AddressOf(stored).Go? && AddressOf(value).Go? &&
    AddressOf(stored).value == AddressOf(value).value
  }

  /** One iteration of `compare_data`. */
  function AddressItem(record: Record, key: string, value: Json): (v: Verdict)
    ensures key != "macAddress" ==> v == StrictItem(record, key, value)
    ensures key == "macAddress" && key in record && MacMatches(record[key], value) ==> v == Same
    ensures key == "macAddress" && key in record && value.Object? && "address" in value.fields ==>
      (v == Same <==> MacMatches(record[key], value) || record[key] == value)
  {
    if key != "macAddress" then StrictItem(record, key, value)
    else if key !in record then Raises(KeyError(key))
    else if Truthy(record[key]) && Truthy(value) then
      match AddressOf(record[key])
      case Stop(o) => Raises(o.error)
      case Go(stored) =>
        match AddressOf(value)
        case Stop(o) => Raises(o.error)
        case Go(given) =>
          if stored == given then Same
          else if record[key] != value then Differs
          else Same
    else if record[key] != value then Differs
    else Same
  }

  function AddressRule(record: Record): Rule {
    (k, v) => AddressItem(record, k, v)
  }

  /** `compare_data`. */
  function CompareData(env: Env, p: Params, record: Record): (r: Flow<bool>)
    ensures BuildData(env, p).Stop? ==> r == Stop(BuildData(env, p).outcome)
    ensures r.Stop? && BuildData(env, p).Go? ==> r.outcome.Crash?
  {
    match BuildData(env, p)
    case Stop(o) => Stop(o)
    case Go(data) => Scan(data, AddressRule(record))
  }

  /** The RESERVED-state check: it parses the address only for that state. */
  function ReservedCheck(env: Env, p: Params): (r: Flow<bool>)
    ensures p.addressState != "RESERVED" ==> r == Go(true)
    ensures p.addressState == "RESERVED" && env.ipAddressVersion(p.address) == Some(6) ==>
      r == Stop(Fail("IPv6 address cannot have state RESERVED"))
  {
    if p.addressState != "RESERVED" then Go(true)
    else match env.ipAddressVersion(p.address)
      case None => Stop(Crash(ValueError(p.address)))
      case Some(version) =>
        if version == 6 then Stop(Fail("IPv6 address cannot have state RESERVED")) else Go(true)
  }

  /** `exec_module`. The RESERVED check runs after the address lookup and
      before any change. */
  function Exec(p: Params, env: Env): (r: Outcome)
    ensures r.Exit? && r.call.Some? ==> !env.checkMode && r.changed && ReservedCheck(env, p).Go?
    ensures r.Exit? && r.call.Some? && !r.call.value.Delete? ==>
      p.state == Present && BuildData(env, p) == Go(r.call.value.body)
    ensures r.Exit? && r.call.Some? && r.call.value.Delete? ==> p.state == Absent
    ensures FirstOrEmpty(env.api(AddressQuery(p))).Go? && ReservedCheck(env, p).Stop? ==>
      r == ReservedCheck(env, p).outcome
    ensures r.Exit? && r.call.Some? && (r.call.value.Put? || r.call.value.Delete?) ==>
      FirstOrEmpty(env.api(AddressQuery(p))).Go? &&
      r.call.value.path == "/addresses/" + Show(Get(FirstOrEmpty(env.api(AddressQuery(p))).value, "id"))
    ensures r.Exit? && r.call.Some? && r.call.value.Post? ==>
      FirstOrEmpty(env.api(AddressQuery(p))) == Go(map[]) && FirstId(env.api(NetworkQuery(p))).Go? &&
      r.call.value.path == "/networks/" + Show(FirstId(env.api(NetworkQuery(p))).value) + "/addresses"
  {
    var address :- FirstOrEmpty(env.api(AddressQuery(p)));
    var addressId := Get(address, "id");
    var _ :- ReservedCheck(env, p);
    match p.state
    case Present =>
      if address != map[] then
        var differs :- CompareData(env, p, address);
        if differs then Send(env, PUT, "/addresses/" + Show(addressId), BuildData(env, p), BaseHeaders)
        else NoChange
      else
        var networkId :- FirstId(env.api(NetworkQuery(p)));
        Send(env, POST, "/networks/" + Show(networkId) + "/addresses", BuildData(env, p), BaseHeaders)
    case Absent =>
      Mutate(env, Delete("/addresses/" + Show(addressId), None))
  }

  /** An existing address is left alone exactly when every item but the
      MAC address is stored as built and the MAC address is stored either
      as built or as an object with the same address string. */
  lemma Idempotent(p: Params, env: Env, record: Record)
    requires p.state == Present && record != map[]
    requires FirstOrEmpty(env.api(AddressQuery(p))) == Go(record)
    requires ReservedCheck(env, p).Go? && env.ipAddressVersion(p.address).Some?
    ensures var data := Payload(p, env.ipAddressVersion(p.address).value == 4);
      Exec(p, env) == NoChange <==>
        (forall i | 0 <= i < |data| && i != 3 :: data[i].0 in record && record[data[i].0] == data[i].1) &&
        "macAddress" in record && (record["macAddress"] == MacValue(p) || MacMatches(record["macAddress"], MacValue(p)))
  {
    var data := Payload(p, env.ipAddressVersion(p.address).value == 4);
    var rule := AddressRule(record);
    ScanSame(data, rule);
    if Exec(p, env) == NoChange {
      ScanOutcomes(data, rule);
      assert rule(data[3].0, data[3].1) == Same;
      if !MacValue(p).Object? {
        assert record["macAddress"] == MacValue(p);
      }
    } else {
      ScanOutcomes(data, rule);
    }
  }

  /** For the RESERVED state an IPv6 address fails the run, whatever the
      requested state, once the address lookup has succeeded. */
  lemma ReservedIpv6Fails(p: Params, env: Env)
    requires p.addressState == "RESERVED" && env.ipAddressVersion(p.address) == Some(6)
    requires FirstOrEmpty(env.api(AddressQuery(p))).Go?
    ensures Exec(p, env) == Fail("IPv6 address cannot have state RESERVED")
  {
  }

  /** With the address found and the RESERVED check passed, `present` puts
      the built body to the address's id exactly when the comparison
      reports a difference. */
  lemma PresentFound(p: Params, env: Env, record: Record)
    requires p.state == Present && record != map[]
    requires FirstOrEmpty(env.api(AddressQuery(p))) == Go(record)
    requires ReservedCheck(env, p).Go?
    ensures match CompareData(env, p, record)
      case Go(true) => Exec(p, env) ==
        Send(env, PUT, "/addresses/" + Show(Get(record, "id")), BuildData(env, p), BaseHeaders)
      case Go(false) => Exec(p, env) == NoChange
      case Stop(o) => Exec(p, env) == o
  {
  }

  /** With no address found and the RESERVED check passed, `present`
      creates it under the network holding the address (None when no
      network holds it): outside check mode it posts the built body, or
      ends the run with the exception building it raised. */
  lemma PresentMissing(p: Params, env: Env)
    requires p.state == Present && ReservedCheck(env, p).Go?
    requires env.api(AddressQuery(p)).count == 0
    ensures FirstId(env.api(NetworkQuery(p))).Stop? ==> Exec(p, env) == FirstId(env.api(NetworkQuery(p))).outcome
    ensures FirstId(env.api(NetworkQuery(p))).Go? ==>
      Exec(p, env) == Send(env, POST, "/networks/" + Show(FirstId(env.api(NetworkQuery(p))).value) + "/addresses",
                           BuildData(env, p), BaseHeaders)
    ensures FirstId(env.api(NetworkQuery(p))).Go? && !env.checkMode && BuildData(env, p).Go? ==>
      Exec(p, env) == Exit(true, Some(Post("/networks/" + Show(FirstId(env.api(NetworkQuery(p))).value) + "/addresses",
                                           BuildData(env, p).value, BaseHeaders)))
    ensures FirstId(env.api(NetworkQuery(p))).Go? && !env.checkMode && BuildData(env, p).Stop? ==>
      Exec(p, env) == BuildData(env, p).outcome
  {
    assert FirstOrEmpty(env.api(AddressQuery(p))) == Go(map[]);
  }

  /** Once the RESERVED check passes, `absent` deletes the looked-up
      address by its id, found or not. */
  lemma AbsentDeletes(p: Params, env: Env)
    requires p.state == Absent && FirstOrEmpty(env.api(AddressQuery(p))).Go? && ReservedCheck(env, p).Go?
    ensures Exec(p, env) ==
      Mutate(env, Delete("/addresses/" + Show(Get(FirstOrEmpty(env.api(AddressQuery(p))).value, "id")), None))
  {
  }

  /** `absent` deletes even when no address was found. */
  lemma AbsentDeletesUnfound(p: Params, env: Env)
    requires p.state == Absent && !env.checkMode && ReservedCheck(env, p).Go?
    requires env.api(AddressQuery(p)).count == 0
    ensures Exec(p, env) == Exit(true, Some(Delete("/addresses/None", None)))
  {
    AbsentDeletes(p, env);
    assert "/addresses/" + Show(Get(map[], "id")) == "/addresses/None";
  }
}
