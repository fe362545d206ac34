/** An IPv4 or IPv6 network, created inside the innermost block that
    contains it. */
module Network {
  import opened Values
  import opened Outcomes
  import opened BcUtil
  import opened Compare

  datatype Params = Params(
    state: State,
    name: Option<string>,
    range: string,
    configuration: string,
    defaultZonesInherited: bool,
    defaultZones: seq<string>,
    restrictedZonesInherited: bool,
    reverseZoneSigned: bool,
    dynamicUpdateEnabled: bool,
    gateway: Option<string>,
    userDefinedFields: Option<Payload>)

  /** `get_network`: the network with this exact range, its default zones
      embedded. It runs before the range is lower-cased. */
  function NetworkQuery(configuration: string, range: string): (q: Query)
    ensures q.path == "/networks" && q.limit == Some(1) && q.fields == Some("embed(defaultZones)")
  {
    Query("/networks",
          Some(And(Quoted("configuration.name", "eq", configuration), Quoted("range", "eq", range))),
          Some(1), Some("embed(defaultZones)"), None)
  }

  /** `get_block_id`: the blocks at or above the range that contain its
      network address, ordered by range; the last one is taken. */
  function BlockQuery(configuration: string, range: string): (q: Query)
    ensures q.path == "/blocks" && q.limit == Some(100) && q.orderBy == Some("range")
  {
    Query("/blocks",
          Some(And(And(Quoted("configuration.name", "eq", configuration), Quoted("range", "ge", range)),
                   Quoted("range", "contains", BeforeSlash(range)))),
          Some(100), None, Some("range"))
  }

  /** The block filter over plain strings. */
  lemma BlockFilterJoin(configuration: string, range: string, address: string)
    ensures And(And(Quoted("configuration.name", "eq", configuration), Quoted("range", "ge", range)),
                Quoted("range", "contains", address)) ==
      "configuration.name:eq(\"" + configuration + "\") and range:ge(\"" + range +
      "\") and range:contains(\"" + address + "\")"
  {
    var head := "configuration.name:eq(\"" + configuration;
    var mid := head + "\") and range:ge(\"" + range;
    LowerBoundJoin(head, range);
    ContainsJoin(mid, address);
  }

  /** Appends the quoted lower bound on the range. */
  lemma LowerBoundJoin(head: string, range: string)
    ensures And(head + "\")", Quoted("range", "ge", range)) == head + "\") and range:ge(\"" + range + "\")"
  {
    QuotedJoin(head + "\")", "range", "ge", range);
    assert head + "\")" + " and " + "range" + ":" + "ge" + "(\"" == head + "\") and range:ge(\"";
  }

  /** Appends the quoted address the range must contain. */
  lemma ContainsJoin(mid: string, address: string)
    ensures And(mid + "\")", Quoted("range", "contains", address)) == mid + "\") and range:contains(\"" + address + "\")"
  {
    QuotedJoin(mid + "\")", "range", "contains", address);
    assert mid + "\")" + " and " + "range" + ":" + "contains" + "(\"" == mid + "\") and range:contains(\"";
  }

  /** The block lookup quotes the configuration name, the range as the
      lower bound, and the network address the block must contain. */
  lemma BlockFilter(configuration: string, range: string)
    ensures BlockQuery(configuration, range).filter ==
      Some("configuration.name:eq(\"" + configuration + "\") and range:ge(\"" + range +
           "\") and range:contains(\"" + BeforeSlash(range) + "\")")
  {
    BlockFilterJoin(configuration, range, BeforeSlash(range));
  }

  /** The message `exec_module` fails with for an IPv6 range wider than /64,
      stray quote and parenthesis included. */
  function PrefixMessage(range: string): string {
    range + " prefix length must be between /64 and /128')"
  }

  // ---------------------------------------------------------------------
  // build_data

  /** One iteration of the default-zone loop: look the zone up by absolute
      name and refer to it by type, id and name. */
  function ZoneEntry(api: Query -> Response, configuration: string, zone: string): (r: Flow<Json>)
    ensures r.Go? <==> FirstId(api(ZoneByFqdnQuery(configuration, zone))).Go?
    ensures r.Stop? ==> r == FirstId(api(ZoneByFqdnQuery(configuration, zone)))
    ensures r.Go? ==>
      (r.value.Object? && r.value.fields.Keys == {"type", "id", "absoluteName"} &&
       r.value.fields["type"] == Str("Zone") && r.value.fields["absoluteName"] == Str(zone) &&
       r.value.fields["id"] == FirstId(api(ZoneByFqdnQuery(configuration, zone))).value)
  {
    match FirstId(api(ZoneByFqdnQuery(configuration, zone)))
    case Stop(o) => Stop(o)
    case Go(id) => Go(Object(map["type" := Str("Zone"), "id" := id, "absoluteName" := Str(zone)]))
  }

  /** The whole loop: one entry per zone name, in order, or the first exception. */
  function ZoneEntries(api: Query -> Response, configuration: string, zones: seq<string>): (r: Flow<seq<Json>>)
    ensures r.Go? ==> |r.value| == |zones|
    ensures r.Go? ==> forall i | 0 <= i < |zones| :: ZoneEntry(api, configuration, zones[i]) == Go(r.value[i])
    decreases |zones|
  {
    if zones == [] then Go([])
    else
      var k := |zones| - 1;
      match ZoneEntries(api, configuration, zones[..k])
      case Stop(o) => Stop(o)
      case Go(entries) =>
        match ZoneEntry(api, configuration, zones[k])
        case Stop(o) => Stop(o)
        case Go(entry) => Go(entries + [entry])
  }

  /** Once a prefix of the zones raises, the whole loop raises the same. */
  lemma {:induction false} ZoneStopPropagates(api: Query -> Response, configuration: string, zones: seq<string>, k: nat)
    requires k <= |zones| && ZoneEntries(api, configuration, zones[..k]).Stop?
    ensures ZoneEntries(api, configuration, zones) == ZoneEntries(api, configuration, zones[..k])
    decreases |zones| - k
  {
    if k < |zones| {
      var n := |zones| - 1;
      assert zones[..n][..k] == zones[..k];
      ZoneStopPropagates(api, configuration, zones[..n], k);
      assert zones[..|zones|] == zones;
    } else {
      assert zones[..k] == zones;
    }
  }

  /** The default-zone loop of `build_data` as written. */
  method BuildDefaultZones(api: Query -> Response, configuration: string, zones: seq<string>)
    returns (r: Flow<seq<Json>>)
    ensures r == ZoneEntries(api, configuration, zones)
  {
    var entries: seq<Json> := [];
    var i := 0;
    while i < |zones|
      invariant 0 <= i <= |zones|
      invariant ZoneEntries(api, configuration, zones[..i]) == Go(entries)
    {
      assert zones[..i + 1][..i] == zones[..i];
      var entry := ZoneEntry(api, configuration, zones[i]);
      if entry.Stop? {
        ZoneStopPropagates(api, configuration, zones, i + 1);
        return Stop(entry.outcome);
      }
      entries := entries + [entry.value];
      i := i + 1;
    }
    assert zones[..i] == zones;
    return Go(entries);
  }

  /** The user-defined fields as sent: only when given and not empty. */
  function UdfItems(p: Params): (u: Payload)
    ensures u != [] <==> p.userDefinedFields.Some? && p.userDefinedFields.value != []
  {
    if p.userDefinedFields.Some? then p.userDefinedFields.value else []
  }

  /** The five keys every network body starts with; the type slot is
      written before the IPv4 keys. */
  function Head(p: Params, range: string, v4: bool): (h: Values.Payload)
    ensures Keys(h) == ["name", "range", "restrictedZonesInherited", "reverseZoneSigned", "type"]
    ensures h[0].1 == EmptyAsNone(p.name) && h[1].1 == Str(range)
    ensures h[4].1 == Str(if v4 then "IPv4Network" else "IPv6Network")
  {
    var h := [("name", EmptyAsNone(p.name)), ("range", Str(range)),
              ("restrictedZonesInherited", Bool(p.restrictedZonesInherited)),
              ("reverseZoneSigned", Bool(p.reverseZoneSigned)),
              ("type", Str(if v4 then "IPv4Network" else "IPv6Network"))];
    assert Keys(h) == ["name", "range", "restrictedZonesInherited", "reverseZoneSigned", "type"];
    h
  }

  /** The keys only an IPv4 network carries. */
  function V4Items(p: Params, v4: bool): (v: Values.Payload)
    ensures Keys(v) == if v4 then ["gateway", "dynamicUpdateEnabled", "defaultZonesInherited"] else []
    ensures v4 ==> v[0].1 == EmptyAsNone(p.gateway)
  {
    if v4 then
      var v := [("gateway", EmptyAsNone(p.gateway)),
                ("dynamicUpdateEnabled", Bool(p.dynamicUpdateEnabled)),
                ("defaultZonesInherited", Bool(p.defaultZonesInherited))];
      assert Keys(v) == ["gateway", "dynamicUpdateEnabled", "defaultZonesInherited"];
      v
    else []
  }

  /** The body `build_data` produces once the IP version and the default
      zones are known. The type slot is written before the IPv4 keys, and
      the user-defined fields come last. */
  function Payload(p: Params, range: string, v4: bool, zones: seq<Json>): (d: Values.Payload)
    ensures Keys(d) == ["name", "range", "restrictedZonesInherited", "reverseZoneSigned", "type"]
      + (if v4 then ["gateway", "dynamicUpdateEnabled", "defaultZonesInherited"] else [])
      + (if v4 && p.defaultZones != [] then ["defaultZones"] else [])
      + (if UdfItems(p) != [] then ["userDefinedFields"] else [])
    ensures |d| >= 5 && d[0].1 == EmptyAsNone(p.name) && d[1].1 == Str(range)
    ensures |d| >= 5 && d[4].1 == Str(if v4 then "IPv4Network" else "IPv6Network")
    ensures v4 ==> |d| >= 8 && d[5].1 == EmptyAsNone(p.gateway)
    ensures v4 && p.defaultZones != [] ==> |d| >= 9 && d[8].1 == List(zones)
  {
    var head := Head(p, range, v4);
    var v4Keys := V4Items(p, v4);
    var zoneKey := if v4 && p.defaultZones != [] then [("defaultZones", List(zones))] else [];
    var udf := if UdfItems(p) != [] then [("userDefinedFields", ItemsToObject(UdfItems(p)))] else [];
    assert Keys(zoneKey) == if v4 && p.defaultZones != [] then ["defaultZones"] else [];
    assert Keys(udf) == if UdfItems(p) != [] then ["userDefinedFields"] else [];
    KeysAppend(head + v4Keys + zoneKey, udf);
    KeysAppend(head + v4Keys, zoneKey);
    KeysAppend(head, v4Keys);
    head + v4Keys + zoneKey + udf
  }

  /** `build_data`: parses the range (raising on a bad one) and, for IPv4
      with default zones, looks every zone up. */
  function BuildData(env: Env, p: Params, range: string): (r: Flow<Values.Payload>)
    ensures env.ipNetwork(range).None? ==> r == Stop(Crash(ValueError(range)))
    ensures (env.ipNetwork(range).Some? && env.ipNetwork(range).value.version != 4) ==>
      r == Go(Payload(p, range, false, []))
    ensures (env.ipNetwork(range).Some? && env.ipNetwork(range).value.version == 4 && p.defaultZones == []) ==>
      r == Go(Payload(p, range, true, []))
    ensures (env.ipNetwork(range).Some? && env.ipNetwork(range).value.version == 4 && p.defaultZones != []) ==>
      match ZoneEntries(env.api, p.configuration, p.defaultZones)
      case Go(zones) => r == Go(Payload(p, range, true, zones))
      case Stop(o) => r == Stop(o)
  {
    match IsV4Network(env, range)
    case Stop(o) => Stop(o)
    case Go(v4) =>
      if v4 && p.defaultZones != [] then
        match ZoneEntries(env.api, p.configuration, p.defaultZones)
        case Stop(o) => Stop(o)
        case Go(zones) => Go(Payload(p, range, true, zones))
      else Go(Payload(p, range, v4, []))
  }

  /** The headers after `build_data`: an IPv4 network without a gateway
      adds the header that tells the server not to assign one. */
  function RequestHeaders(env: Env, p: Params, range: string): (h: Headers)
    ensures "Content-Type" in h && h["Content-Type"] == JsonMediaType
    ensures "x-bcn-no-gateway" in h <==> IsV4Network(env, range) == Go(true) && !Given(p.gateway)
    ensures "x-bcn-no-gateway" in h ==> h["x-bcn-no-gateway"] == "true"
  {
    if IsV4Network(env, range) == Go(true) && !Given(p.gateway) then BaseHeaders["x-bcn-no-gateway" := "true"]
    else BaseHeaders
  }

  /** The gateway header and the gateway value go together: the header is
      sent exactly when the body carries a null gateway. */
  lemma GatewayHeaderMatchesBody(env: Env, p: Params, range: string)
    requires BuildData(env, p, range).Go?
    ensures var d := BuildData(env, p, range).value;
      ("x-bcn-no-gateway" in RequestHeaders(env, p, range)) <==>
      (|d| >= 6 && d[5].0 == "gateway" && d[5].1 == Null)
  {
    var d := BuildData(env, p, range).value;
    var v4 := IsV4Network(env, range).value;
    if v4 && p.defaultZones != [] {
      assert d == Payload(p, range, true, ZoneEntries(env.api, p.configuration, p.defaultZones).value);
    } else {
      assert d == Payload(p, range, v4, []);
    }
    assert Keys(d)[5] == d[5].0 <== |d| >= 6;
  }

  // ---------------------------------------------------------------------
  // compare_data

  /** `needle in s` for two strings. */
  predicate Substring(needle: string, s: string)
    decreases |s|
  {
    needle <= s || (s != [] && Substring(needle, s[1..]))
  }

  /** `key in value` for a decoded JSON value; None where Python raises
      TypeError (None, booleans and numbers are not containers). */
  function Contains(value: Json, key: string): (r: Option<bool>)
    ensures r.None? <==> value.Null? || value.Bool? || value.Int?
    ensures value.Object? ==> r == Some(key in value.fields)
  {
    match value
    case Object(fields) => Some(key in fields)
    case List(items) => Some(Str(key) in items)
    case Str(s) => Some(Substring(key, s))
    case _ => None
  }

  /** `[x.get('id') for x in zones]`: AttributeError at an entry that is
      not a dict. */
  function ZoneIds(zones: seq<Json>): (r: Option<seq<Json>>)
    ensures r.Some? <==> forall i | 0 <= i < |zones| :: zones[i].Object?
    ensures r.Some? ==> |r.value| == |zones|
    ensures r.Some? ==> forall i | 0 <= i < |zones| :: r.value[i] == Get(zones[i].fields, "id")
    decreases |zones|
  {
    if zones == [] then Some([])
    else if !zones[0].Object? then None
    else match ZoneIds(zones[1..])
      case None => None
      case Some(rest) => Some([Get(zones[0].fields, "id")] + rest)
  }

  /** The `defaultZones` iteration: the ids stored under `_embedded`,
      computed first, against the ids of the built entries, in order. */
  function ZonesItem(network: Record, value: Json): (v: Verdict)
    ensures v == Same <==> ZonesStored(network, value)
    ensures v == Differs ==> !ZonesStored(network, value) && value.List? && ZoneIds(value.items).Some?
  {
    if "_embedded" !in network then Raises(KeyError("_embedded"))
    else
      var embedded := network["_embedded"];
      if !embedded.Object? then Raises(TypeError)
      else if "defaultZones" !in embedded.fields then Raises(KeyError("defaultZones"))
      else if !embedded.fields["defaultZones"].List? || !value.List? then Raises(TypeError)
      else match ZoneIds(embedded.fields["defaultZones"].items)
        case None => Raises(AttributeError("get"))
        case Some(stored) =>
          match ZoneIds(value.items)
          case None => Raises(AttributeError("get"))
          case Some(wanted) => if wanted != stored then Differs else Same
  }

  /** One iteration of the inner user-defined-field loop: the value under
      `network['userDefinedFields'][key]`. */
  function UdfRule(network: Record): (r: Rule)
    ensures forall k, v :: r(k, v) == Same <==>
      "userDefinedFields" in network && network["userDefinedFields"].Object? &&
      k in network["userDefinedFields"].fields && network["userDefinedFields"].fields[k] == v
  {
    (k, v) =>
      if "userDefinedFields" !in network then Raises(KeyError("userDefinedFields"))
      else match network["userDefinedFields"]
        case Object(stored) => StrictItem(stored, k, v)
        case _ => Raises(TypeError)
  }

  /** One iteration of `compare_data`: a key that neither the network nor
      its `_embedded` part mentions is skipped; default zones compare by
      id, user-defined fields field by field, anything else strictly
      against the network itself. */
  function NetworkItem(network: Record, udf: Values.Payload, key: string, value: Json): (v: Verdict)
    ensures key in network && key != "defaultZones" && key != "userDefinedFields" ==>
      !v.Raises? && (v == Same <==> network[key] == value)
    ensures key in network && key == "defaultZones" ==> (v == Same <==> ZonesStored(network, value))
    ensures key !in network && "_embedded" !in network ==> v == Raises(KeyError("_embedded"))
    ensures (key !in network && "_embedded" in network && network["_embedded"].Object? &&
             key !in network["_embedded"].fields) ==> v == Same
  {
    if key !in network && "_embedded" !in network then Raises(KeyError("_embedded"))
    else
      var mentioned := if key in network then Some(true) else Contains(network["_embedded"], key);
      if mentioned.None? then Raises(TypeError)
      else if !mentioned.value then Same
      else if key == "defaultZones" then ZonesItem(network, value)
      else if key == "userDefinedFields" then Inner(udf, UdfRule(network))
      else StrictItem(network, key, value)
  }

  function NetworkRule(network: Record, udf: Values.Payload): Rule {
    (k, v) => NetworkItem(network, udf, k, v)
  }

  /** `compare_data`: builds the payload (with its zone lookups) and runs
      the loop. */
  function CompareData(env: Env, p: Params, range: string, network: Record): (r: Flow<bool>)
    ensures BuildData(env, p, range).Stop? ==> r == Stop(BuildData(env, p, range).outcome)
    ensures BuildData(env, p, range).Go? && StoredAsBuilt(network, UdfItems(p), BuildData(env, p, range).value) ==>
      r == Go(false)
  {
    match BuildData(env, p, range)
    case Stop(o) => Stop(o)
    case Go(data) =>
      assert StoredAsBuilt(network, UdfItems(p), data) ==> Scan(data, NetworkRule(network, UdfItems(p))) == Go(false) by {
        if StoredAsBuilt(network, UdfItems(p), data) {
          ScanStoredAsBuilt(network, UdfItems(p), data);
        }
      }
      Scan(data, NetworkRule(network, UdfItems(p)))
  }

  /** A plain key the network lacks but its `_embedded` part has is looked
      up on the network itself and raises KeyError. */
  lemma EmbeddedOnlyKeyRaises(network: Record, udf: Values.Payload, key: string, value: Json)
    requires key != "defaultZones" && key != "userDefinedFields"
    requires key !in network && "_embedded" in network
    requires network["_embedded"].Object? && key in network["_embedded"].fields
    ensures NetworkItem(network, udf, key, value) == Raises(KeyError(key))
  {
  }

  // ---------------------------------------------------------------------
  // exec_module

  /** `exec_module`. The lookup uses the range as given; everything after it
      uses the lower-cased range, which must parse and, for IPv6, be at least
      a /64. */
  function Exec(p: Params, env: Env): (r: Outcome)
    ensures r.Exit? && r.call.Some? ==> !env.checkMode && r.changed
    ensures r.Exit? && r.call.Some? && !r.call.value.Delete? ==>
      (p.state == Present && BuildData(env, p, Lower(p.range)) == Go(r.call.value.body) &&
       r.call.value.headers == RequestHeaders(env, p, Lower(p.range)))
    ensures r.Exit? && r.call.Some? && r.call.value.Delete? ==> p.state == Absent && r.call.value.sent.None?
    ensures r.Exit? && r.changed ==>
      (env.ipNetwork(Lower(p.range)).Some? &&
       (env.ipNetwork(Lower(p.range)).value.version == 6 ==> env.ipNetwork(Lower(p.range)).value.prefixLen >= 64))
    ensures r.Exit? && r.call.Some? && (r.call.value.Put? || r.call.value.Delete?) ==>
      FirstOrEmpty(env.api(NetworkQuery(p.configuration, p.range))).Go? &&
      r.call.value.path == "/networks/" + Show(Get(FirstOrEmpty(env.api(NetworkQuery(p.configuration, p.range))).value, "id"))
    ensures r.Exit? && r.call.Some? && r.call.value.Post? ==>
      FirstOrEmpty(env.api(NetworkQuery(p.configuration, p.range))) == Go(map[]) &&
      LastId(env.api(BlockQuery(p.configuration, Lower(p.range)))).Go? &&
      r.call.value.path == "/blocks/" + Show(LastId(env.api(BlockQuery(p.configuration, Lower(p.range)))).value) + "/networks"
  {
    var network :- FirstOrEmpty(env.api(NetworkQuery(p.configuration, p.range)));
    var range := Lower(p.range);
    match env.ipNetwork(range)
    case None => Crash(ValueError(range))
    case Some(net) =>
      if net.version == 6 && net.prefixLen < 64 then Fail(PrefixMessage(range))
      else match p.state
        case Present =>
          if network != map[] then
            var differs :- CompareData(env, p, range, network);
            if differs then
              Send(env, PUT, "/networks/" + Show(Get(network, "id")), BuildData(env, p, range), RequestHeaders(env, p, range))
            else NoChange
          else
            var parentId :- LastId(env.api(BlockQuery(p.configuration, range)));
            Send(env, POST, "/blocks/" + Show(parentId) + "/networks", BuildData(env, p, range), RequestHeaders(env, p, range))
        case Absent =>
          Mutate(env, Delete("/networks/" + Show(Get(network, "id")), None))
  }

  /** With the network found and a valid range, `present` puts the built
      body to the network's id exactly when the comparison reports a
      difference. */
  lemma PresentFound(p: Params, env: Env, network: Record)
    requires p.state == Present && network != map[]
    requires FirstOrEmpty(env.api(NetworkQuery(p.configuration, p.range))) == Go(network)
    requires env.ipNetwork(Lower(p.range)).Some?
    requires env.ipNetwork(Lower(p.range)).value.version != 6 || env.ipNetwork(Lower(p.range)).value.prefixLen >= 64
    ensures match CompareData(env, p, Lower(p.range), network)
      case Go(true) => Exec(p, env) ==
        Send(env, PUT, "/networks/" + Show(Get(network, "id")), BuildData(env, p, Lower(p.range)),
             RequestHeaders(env, p, Lower(p.range)))
      case Go(false) => Exec(p, env) == NoChange
      case Stop(o) => Exec(p, env) == o
  {
  }

  /** With a valid range, `absent` deletes the looked-up network by its id,
      found or not, without headers. */
  lemma AbsentDeletes(p: Params, env: Env)
    requires p.state == Absent && FirstOrEmpty(env.api(NetworkQuery(p.configuration, p.range))).Go?
    requires env.ipNetwork(Lower(p.range)).Some?
    requires env.ipNetwork(Lower(p.range)).value.version != 6 || env.ipNetwork(Lower(p.range)).value.prefixLen >= 64
    ensures Exec(p, env) == Mutate(env, Delete("/networks/" +
      Show(Get(FirstOrEmpty(env.api(NetworkQuery(p.configuration, p.range))).value, "id")), None))
  {
  }

  /** An IPv6 range wider than /64 fails, whatever the state, before any
      change is made. */
  lemma ShortIpv6PrefixFails(p: Params, env: Env)
    requires FirstOrEmpty(env.api(NetworkQuery(p.configuration, p.range))).Go?
    requires env.ipNetwork(Lower(p.range)).Some?
    requires env.ipNetwork(Lower(p.range)).value.version == 6 && env.ipNetwork(Lower(p.range)).value.prefixLen < 64
    ensures Exec(p, env) == Fail(PrefixMessage(Lower(p.range)))
  {
  }

  /** The network's embedded default zones carry, in order, the ids of the
      zone entries in `value`. */
  predicate ZonesStored(network: Record, value: Json) {
    "_embedded" in network && network["_embedded"].Object? && "defaultZones" in network["_embedded"].fields &&
    network["_embedded"].fields["defaultZones"].List? && value.List? &&
    ZoneIds(network["_embedded"].fields["defaultZones"].items).Some? &&
    ZoneIds(network["_embedded"].fields["defaultZones"].items) == ZoneIds(value.items)
  }

  /** The record stores every plain item of `data` as given, its embedded
      default zones carry the same ids in order, and its user-defined
      fields hold the requested ones. */
  predicate StoredAsBuilt(network: Record, udf: Values.Payload, data: Values.Payload) {
    (forall i | 0 <= i < |data| && data[i].0 != "defaultZones" && data[i].0 != "userDefinedFields" ::
      data[i].0 in network && network[data[i].0] == data[i].1) &&
    (forall i | 0 <= i < |data| && data[i].0 == "defaultZones" :: ZonesStored(network, data[i].1)) &&
    (forall i | 0 <= i < |data| && data[i].0 == "userDefinedFields" ::
      ("userDefinedFields" in network && network["userDefinedFields"].Object? &&
       Holds(network["userDefinedFields"].fields, udf)))
  }

  /** The comparison loop finds no difference in a record stored as built. */
  lemma ScanStoredAsBuilt(network: Record, udf: Values.Payload, data: Values.Payload)
    requires StoredAsBuilt(network, udf, data)
    ensures Scan(data, NetworkRule(network, udf)) == Go(false)
  {
    var rule := NetworkRule(network, udf);
    forall i | 0 <= i < |data| ensures rule(data[i].0, data[i].1) == Same {
      if data[i].0 == "userDefinedFields" && data[i].0 in network {
        ScanSame(udf, UdfRule(network));
      }
    }
    ScanSame(data, rule);
  }

  /** A network whose record stores every plain item as built, whose
      embedded default zones carry the built ids in order and whose
      user-defined fields hold the requested ones is left alone. */
  lemma UnchangedWhenStored(p: Params, env: Env, network: Record, data: Values.Payload)
    requires p.state == Present && network != map[]
    requires FirstOrEmpty(env.api(NetworkQuery(p.configuration, p.range))) == Go(network)
    requires env.ipNetwork(Lower(p.range)).Some?
    requires env.ipNetwork(Lower(p.range)).value.version != 6 || env.ipNetwork(Lower(p.range)).value.prefixLen >= 64
    requires BuildData(env, p, Lower(p.range)) == Go(data)
    requires StoredAsBuilt(network, UdfItems(p), data)
    ensures Exec(p, env) == NoChange
  {
    ScanStoredAsBuilt(network, UdfItems(p), data);
    assert CompareData(env, p, Lower(p.range), network) == Go(false);
  }

  /** When no item differs, every plain item the record has is stored as built. */
  lemma PlainStoredWhenScanSame(network: Record, udf: Values.Payload, data: Values.Payload)
    requires Scan(data, NetworkRule(network, udf)) == Go(false)
    ensures forall i | 0 <= i < |data| && data[i].0 != "defaultZones" && data[i].0 != "userDefinedFields" &&
      data[i].0 in network :: network[data[i].0] == data[i].1
  {
    ScanSame(data, NetworkRule(network, udf));
  }

  /** When no item differs, default zones the record mentions carry the
      built ids in the same order. */
  lemma ZonesStoredWhenScanSame(network: Record, udf: Values.Payload, data: Values.Payload)
    requires Scan(data, NetworkRule(network, udf)) == Go(false)
    ensures forall i | 0 <= i < |data| && data[i].0 == "defaultZones" &&
      ("defaultZones" in network ||
       ("_embedded" in network && network["_embedded"].Object? && "defaultZones" in network["_embedded"].fields)) ::
      ZonesStored(network, data[i].1)
  {
    ScanSame(data, NetworkRule(network, udf));
  }

  /** When no item differs, stored user-defined fields hold the requested ones. */
  lemma UdfStoredWhenScanSame(network: Record, udf: Values.Payload, data: Values.Payload)
    requires Scan(data, NetworkRule(network, udf)) == Go(false)
    ensures forall i | 0 <= i < |data| && data[i].0 == "userDefinedFields" && "userDefinedFields" in network ::
      (udf == [] || (network["userDefinedFields"].Object? && Holds(network["userDefinedFields"].fields, udf)))
  {
    var rule := NetworkRule(network, udf);
    ScanSame(data, rule);
    forall i | 0 <= i < |data| && data[i].0 == "userDefinedFields" && "userDefinedFields" in network
      ensures udf == [] || (network["userDefinedFields"].Object? && Holds(network["userDefinedFields"].fields, udf))
    {
      assert rule(data[i].0, data[i].1) == Same;
      ScanSame(udf, UdfRule(network));
      if udf != [] {
        assert UdfRule(network)(udf[0].0, udf[0].1) == Same;
      }
    }
  }

  /** Conversely, a run that changes nothing saw every plain item the
      network record has stored as built, the default zones in the built
      order and the requested user-defined fields. */
  lemma NoChangeMeansStored(p: Params, env: Env, network: Record, data: Values.Payload)
    requires p.state == Present && network != map[]
    requires FirstOrEmpty(env.api(NetworkQuery(p.configuration, p.range))) == Go(network)
    requires BuildData(env, p, Lower(p.range)) == Go(data)
    requires Exec(p, env) == NoChange
    ensures forall i | 0 <= i < |data| && data[i].0 != "defaultZones" && data[i].0 != "userDefinedFields" &&
      data[i].0 in network :: network[data[i].0] == data[i].1
    ensures forall i | 0 <= i < |data| && data[i].0 == "defaultZones" &&
      ("defaultZones" in network ||
       ("_embedded" in network && network["_embedded"].Object? && "defaultZones" in network["_embedded"].fields)) ::
      ZonesStored(network, data[i].1)
    ensures forall i | 0 <= i < |data| && data[i].0 == "userDefinedFields" && "userDefinedFields" in network ::
      (UdfItems(p) == [] ||
       (network["userDefinedFields"].Object? && Holds(network["userDefinedFields"].fields, UdfItems(p))))
  {
    assert CompareData(env, p, Lower(p.range), network) == Go(false);
    PlainStoredWhenScanSame(network, UdfItems(p), data);
    ZonesStoredWhenScanSame(network, UdfItems(p), data);
    UdfStoredWhenScanSame(network, UdfItems(p), data);
  }

  /** The default zones compare as an ordered list: a network storing the
      same two zones in the other order differs. */
  lemma ZoneOrderMatters(network: Record, a: Json, b: Json)
    requires a.Object? && b.Object? && Get(a.fields, "id") != Get(b.fields, "id")
    requires "_embedded" in network && network["_embedded"].Object?
    requires "defaultZones" in network["_embedded"].fields
    requires network["_embedded"].fields["defaultZones"] == List([a, b])
    ensures ZonesItem(network, List([b, a])) == Differs
  {
    var stored := ZoneIds([a, b]).value;
    var wanted := ZoneIds([b, a]).value;
    assert stored[0] != wanted[0];
  }

  /** With no network of that exact range, `present` creates it under the
      last block of the range-ordered lookup, with the lower-cased range in
      the body. */
  lemma PresentMissingCreates(p: Params, env: Env)
    requires p.state == Present && !env.checkMode
    requires env.api(NetworkQuery(p.configuration, p.range)).count == 0
    requires env.ipNetwork(Lower(p.range)).Some?
    requires env.ipNetwork(Lower(p.range)).value.version != 6 || env.ipNetwork(Lower(p.range)).value.prefixLen >= 64
    requires LastId(env.api(BlockQuery(p.configuration, Lower(p.range)))).Go?
    requires BuildData(env, p, Lower(p.range)).Go?
    ensures var parentId := LastId(env.api(BlockQuery(p.configuration, Lower(p.range)))).value;
      Exec(p, env) == Exit(true, Some(Post("/blocks/" + Show(parentId) + "/networks",
                                           BuildData(env, p, Lower(p.range)).value,
                                           RequestHeaders(env, p, Lower(p.range)))))
    ensures BuildData(env, p, Lower(p.range)).value[1].1 == Str(Lower(p.range))
  {
  }

  /** `absent` deletes without checking that a network was found: with no
      match the request targets `/networks/None`, without headers. */
  lemma AbsentDeletesUnfound(p: Params, env: Env)
    requires p.state == Absent && !env.checkMode
    requires env.api(NetworkQuery(p.configuration, p.range)).count == 0
    requires env.ipNetwork(Lower(p.range)).Some?
    requires env.ipNetwork(Lower(p.range)).value.version != 6 || env.ipNetwork(Lower(p.range)).value.prefixLen >= 64
    ensures Exec(p, env) == Exit(true, Some(Delete("/networks/None", None)))
  {
    AbsentDeletes(p, env);
    assert "/networks/" + Show(Get(map[], "id")) == "/networks/None";
  }
}
