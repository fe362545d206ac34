/** A host record: a name in a zone bound to one or more addresses. */
module HostRecord {
  import opened Values
  import opened Outcomes
  import opened BcUtil
  import opened Compare

  datatype Params = Params(
    state: State,
    name: string,
    configuration: string,
    view: string,
    zone: string,
    reverseRecord: bool,
    addresses: Option<seq<string>>)

  /** `get_resource_record`: the record `name.zone`, its addresses embedded. */
  function RecordQuery(p: Params): (q: Query)
    ensures q.path == "/resourceRecords" && q.fields == Some("embed(addresses)") && q.limit == Some(1)
  {
    Query("/resourceRecords",
          Some(And(And(Quoted("configuration.name", "eq", p.configuration), Quoted("view.name", "eq", p.view)),
                   Quoted("absoluteName", "eq", p.name + "." + p.zone))),
          Some(1), Some("embed(addresses)"), None)
  }

  /** The record lookup quotes the configuration, the view and the
      absolute name `name.zone`. */
  lemma RecordFilter(p: Params)
    ensures RecordQuery(p).filter ==
      Some("configuration.name:eq(\"" + p.configuration + "\") and view.name:eq(\"" + p.view +
           "\") and absoluteName:eq(\"" + (p.name + "." + p.zone) + "\")")
  {
    var head := "configuration.name:eq(\"" + p.configuration;
    var mid := head + "\") and view.name:eq(\"" + p.view;
    assert Quoted("configuration.name", "eq", p.configuration) == head + "\")";
    ViewJoin(head, p.view);
    assert And(And(Quoted("configuration.name", "eq", p.configuration), Quoted("view.name", "eq", p.view)),
               Quoted("absoluteName", "eq", p.name + "." + p.zone))
        == And(mid + "\")", Quoted("absoluteName", "eq", p.name + "." + p.zone));
    AbsoluteNameJoin(mid, p.name + "." + p.zone);
  }

  /** Appends the quoted view name. */
  lemma ViewJoin(head: string, view: string)
    ensures And(head + "\")", Quoted("view.name", "eq", view)) == head + "\") and view.name:eq(\"" + view + "\")"
  {
    QuotedJoin(head + "\")", "view.name", "eq", view);
    assert head + "\")" + " and " + "view.name" + ":" + "eq" + "(\"" == head + "\") and view.name:eq(\"";
  }

  /** Appends the quoted absolute name. */
  lemma AbsoluteNameJoin(mid: string, name: string)
    ensures And(mid + "\")", Quoted("absoluteName", "eq", name)) == mid + "\") and absoluteName:eq(\"" + name + "\")"
  {
    QuotedJoin(mid + "\")", "absoluteName", "eq", name);
    assert mid + "\")" + " and " + "absoluteName" + ":" + "eq" + "(\"" == mid + "\") and absoluteName:eq(\"";
  }

  /** `get_zone_id`. */
  function ZoneQuery(p: Params): Query {
    Lookup("/zones",
           And(And(Quoted("configuration.name", "eq", p.configuration), Quoted("view.name", "eq", p.view)),
               Quoted("absoluteName", "eq", p.zone)),
           1)
  }

  /** `get_address_id`. */
  function AddressQuery(p: Params, address: string): Query {
    Lookup("/addresses", And(Quoted("configuration.name", "eq", p.configuration), Quoted("address", "eq", address)), 1)
  }

  /** The path `delete_host_record` formats: it interpolates Python's
      built-in `id` function, not the record id. */
  const DeletePath := "/resourceRecords/<built-in function id>"

  // ---------------------------------------------------------------------
  // build_data

  /** One iteration of the address loop of `build_data`: parse the address,
      look up its id, and refer to the address by id when it has one. */
  function AddressEntry(env: Env, p: Params, address: string): (r: Flow<Json>)
    ensures env.ipAddressVersion(address).None? ==> r == Stop(Crash(ValueError(address)))
    ensures r.Go? ==>
      (r.value.Object? && "type" in r.value.fields &&
       r.value.fields["type"] == Str(if env.ipAddressVersion(address) == Some(4) then "IPv4Address" else "IPv6Address"))
    ensures r.Go? ==> ("id" in r.value.fields <==> "address" !in r.value.fields)
    ensures r.Go? && "address" in r.value.fields ==> r.value.fields["address"] == Str(address)
    ensures env.ipAddressVersion(address).Some? && FirstId(env.api(AddressQuery(p, address))).Stop? ==>
      r == Stop(FirstId(env.api(AddressQuery(p, address))).outcome)
    ensures r.Go? ==> FirstId(env.api(AddressQuery(p, address))).Go?
    ensures r.Go? && Truthy(FirstId(env.api(AddressQuery(p, address))).value) ==>
      r.value.fields.Keys == {"type", "id"} && r.value.fields["id"] == FirstId(env.api(AddressQuery(p, address))).value
    ensures r.Go? && !Truthy(FirstId(env.api(AddressQuery(p, address))).value) ==>
      r.value.fields.Keys == {"type", "address"}
  {
    match IsV4Address(env, address)
    case Stop(o) => Stop(o)
    case Go(v4) =>
      var kind := Str(if v4 then "IPv4Address" else "IPv6Address");
      match FirstId(env.api(AddressQuery(p, address)))
      case Stop(o) => Stop(o)
      case Go(id) =>
        if Truthy(id) then Go(Object(map["type" := kind, "id" := id]))
        else Go(Object(map["type" := kind, "address" := Str(address)]))
  }

  /** The whole loop: the entries in order, or the first exception. */
  function AddressEntries(env: Env, p: Params, addresses: seq<string>): (r: Flow<seq<Json>>)
    ensures r.Go? ==> |r.value| == |addresses|
    ensures r.Go? ==> forall i | 0 <= i < |addresses| :: AddressEntry(env, p, addresses[i]) == Go(r.value[i])
    decreases |addresses|
  {
    if addresses == [] then Go([])
    else
      var k := |addresses| - 1;
      match AddressEntries(env, p, addresses[..k])
      case Stop(o) => Stop(o)
      case Go(entries) =>
        match AddressEntry(env, p, addresses[k])
        case Stop(o) => Stop(o)
        case Go(entry) => Go(entries + [entry])
  }

  /** Once a prefix of the addresses raises, the whole loop raises the same. */
  lemma {:induction false} EntriesStopPropagates(env: Env, p: Params, addresses: seq<string>, k: nat)
    requires k <= |addresses| && AddressEntries(env, p, addresses[..k]).Stop?
    ensures AddressEntries(env, p, addresses) == AddressEntries(env, p, addresses[..k])
    decreases |addresses| - k
  {
    if k < |addresses| {
      var n := |addresses| - 1;
      assert addresses[..n][..k] == addresses[..k];
      EntriesStopPropagates(env, p, addresses[..n], k);
      assert addresses[..|addresses|] == addresses;
    } else {
      assert addresses[..k] == addresses;
    }
  }

  /** The loop of `build_data` as written. */
  method BuildAddresses(env: Env, p: Params, addresses: seq<string>) returns (r: Flow<seq<Json>>)
    ensures r == AddressEntries(env, p, addresses)
  {
    var entries: seq<Json> := [];
    var i := 0;
    while i < |addresses|
      invariant 0 <= i <= |addresses|
      invariant AddressEntries(env, p, addresses[..i]) == Go(entries)
    {
      assert addresses[..i + 1][..i] == addresses[..i];
      var entry := AddressEntry(env, p, addresses[i]);
      if entry.Stop? {
        EntriesStopPropagates(env, p, addresses, i + 1);
        return Stop(entry.outcome);
      }
      entries := entries + [entry.value];
      i := i + 1;
    }
    assert addresses[..i] == addresses;
    return Go(entries);
  }

  /** `build_data`: name, type, reverse flag and the address entries. No
      address list at all raises TypeError. */
  function BuildData(env: Env, p: Params): (r: Flow<Payload>)
    ensures p.addresses.None? ==> r == Stop(Crash(TypeError))
    ensures r.Go? ==> Keys(r.value) == ["name", "type", "reverseRecord", "addresses"]
    ensures r.Go? ==>
      (r.value[0].1 == Str(p.name) && r.value[1].1 == Str("HostRecord") && r.value[2].1 == Bool(p.reverseRecord))
    ensures r.Go? ==>
      (p.addresses.Some? && AddressEntries(env, p, p.addresses.value).Go? &&
       r.value[3].1 == List(AddressEntries(env, p, p.addresses.value).value))
  {
    if p.addresses.None? then Stop(Crash(TypeError))
    else
      match AddressEntries(env, p, p.addresses.value)
      case Stop(o) => Stop(o)
      case Go(entries) =>
        Go([("name", Str(p.name)), ("type", Str("HostRecord")), ("reverseRecord", Bool(p.reverseRecord)),
            ("addresses", List(entries))])
  }

  // ---------------------------------------------------------------------
  // compare_data

  /** The inner loop of `compare_data` over the embedded addresses: the
      record differs at the first one whose address string is not among the
      requested addresses. Addresses requested but not stored go unnoticed. */
  function EmbeddedVerdict(embedded: seq<Json>, wanted: seq<string>): (v: Verdict)
    ensures v == Same <==> forall i | 0 <= i < |embedded| ::
      embedded[i].Object? && Get(embedded[i].fields, "address").Str? &&
      Get(embedded[i].fields, "address").s in wanted
    ensures v.Raises? ==> v.error == AttributeError("get")
    decreases |embedded|
  {
    if embedded == [] then Same
    else if !embedded[0].Object? then Raises(AttributeError("get"))
    else
      var ip := Get(embedded[0].fields, "address");
      if !(ip.Str? && ip.s in wanted) then Differs
      else
        var rest := EmbeddedVerdict(embedded[1..], wanted);
        assert forall i | 1 <= i < |embedded| :: embedded[i] == embedded[1..][i - 1];
        rest
  }

  /** The inner loop as written. */
  method CheckEmbedded(embedded: seq<Json>, wanted: seq<string>) returns (v: Verdict)
    ensures v == EmbeddedVerdict(embedded, wanted)
  {
    var i := 0;
    while i < |embedded|
      invariant 0 <= i <= |embedded|
      invariant EmbeddedVerdict(embedded[i..], wanted) == EmbeddedVerdict(embedded, wanted)
    {
      assert embedded[i..][1..] == embedded[i + 1..];
      if !embedded[i].Object? {
        return Raises(AttributeError("get"));
      }
      var ip := Get(embedded[i].fields, "address");
      if !(ip.Str? && ip.s in wanted) {
        return Differs;
      }
      i := i + 1;
    }
    return Same;
  }

  /** The `addresses` iteration: `rr.get('_embedded').get('addresses')`. */
  function AddressesItem(rr: Record, wanted: seq<string>): (v: Verdict)
    ensures v == Same <==>
      (Get(rr, "_embedded").Object? && Get(Get(rr, "_embedded").fields, "addresses").List? &&
       var stored := Get(Get(rr, "_embedded").fields, "addresses").items;
       forall i | 0 <= i < |stored| ::
         stored[i].Object? && Get(stored[i].fields, "address").Str? && Get(stored[i].fields, "address").s in wanted)
  {
    var embedded := Get(rr, "_embedded");
    if !embedded.Object? then Raises(AttributeError("get"))
    else
      var stored := Get(embedded.fields, "addresses");
      if stored.List? then EmbeddedVerdict(stored.items, wanted) else Raises(TypeError)
  }

  function HostRule(rr: Record, wanted: seq<string>): Rule {
    (k, v) => if k == "addresses" then AddressesItem(rr, wanted) else StrictItem(rr, k, v)
  }

  /** `compare_data`: builds the payload (with its lookups), then compares
      name, type and reverse flag strictly and the stored addresses against
      the requested ones. */
  function CompareData(env: Env, p: Params, rr: Record): (r: Flow<bool>)
    ensures BuildData(env, p).Stop? ==> r == Stop(BuildData(env, p).outcome)
    ensures r.Stop? && BuildData(env, p).Go? ==> r.outcome.Crash?
  {
    match BuildData(env, p)
    case Stop(o) => Stop(o)
    case Go(data) => Scan(data, HostRule(rr, p.addresses.value))
  }

  // ---------------------------------------------------------------------
  // exec_module

  /** `exec_module`. */
  function Exec(p: Params, env: Env): (r: Outcome)
    ensures r.Exit? && r.call.Some? ==> !env.checkMode && r.changed
    ensures r.Exit? && r.call.Some? && !r.call.value.Delete? ==>
      p.state == Present && BuildData(env, p) == Go(r.call.value.body)
    ensures r.Exit? && r.call.Some? && r.call.value.Delete? ==>
      p.state == Absent && r.call.value == Delete(DeletePath, None)
    ensures r.Exit? && r.call.Some? && r.call.value.Put? ==>
      FirstOrEmpty(env.api(RecordQuery(p))).Go? &&
      r.call.value.path == "/resourceRecords/" + Show(Get(FirstOrEmpty(env.api(RecordQuery(p))).value, "id"))
    ensures r.Exit? && r.call.Some? && r.call.value.Post? ==>
      FirstOrEmpty(env.api(RecordQuery(p))) == Go(map[]) && FirstId(env.api(ZoneQuery(p))).Go? &&
      r.call.value.path == "/zones/" + Show(FirstId(env.api(ZoneQuery(p))).value) + "/resourceRecords"
  {
    var rr :- FirstOrEmpty(env.api(RecordQuery(p)));
    match p.state
    case Present =>
      if rr != map[] then
        var differs :- CompareData(env, p, rr);
        if differs then Send(env, PUT, "/resourceRecords/" + Show(Get(rr, "id")), BuildData(env, p), BaseHeaders)
        else NoChange
      else
        var zoneId :- FirstId(env.api(ZoneQuery(p)));
        Send(env, POST, "/zones/" + Show(zoneId) + "/resourceRecords", BuildData(env, p), BaseHeaders)
    case Absent =>
      Mutate(env, Delete(DeletePath, None))
  }

  /** With the record found, `present` puts the built body to the record's
      id exactly when the comparison reports a difference. */
  lemma PresentFound(p: Params, env: Env, rr: Record)
    requires p.state == Present && rr != map[]
    requires FirstOrEmpty(env.api(RecordQuery(p))) == Go(rr)
    ensures match CompareData(env, p, rr)
      case Go(true) => Exec(p, env) ==
        Send(env, PUT, "/resourceRecords/" + Show(Get(rr, "id")), BuildData(env, p), BaseHeaders)
      case Go(false) => Exec(p, env) == NoChange
      case Stop(o) => Exec(p, env) == o
  {
  }

  /** With no record of that name, `present` posts the built body under the
      zone, whose id is None when the zone is not found. */
  lemma PresentMissing(p: Params, env: Env)
    requires p.state == Present
    requires env.api(RecordQuery(p)).count == 0
    requires FirstId(env.api(ZoneQuery(p))).Go?
    ensures Exec(p, env) == Send(env, POST, "/zones/" + Show(FirstId(env.api(ZoneQuery(p))).value) + "/resourceRecords",
                                 BuildData(env, p), BaseHeaders)
  {
  }

  /** An existing record is left alone exactly when name, type and reverse
      flag are stored as built and every stored address is among the
      requested ones. */
  lemma Idempotent(p: Params, env: Env, rr: Record)
    requires p.state == Present && rr != map[]
    requires FirstOrEmpty(env.api(RecordQuery(p))) == Go(rr)
    requires BuildData(env, p).Go?
    requires "_embedded" in rr && rr["_embedded"].Object? && "addresses" in rr["_embedded"].fields
    requires rr["_embedded"].fields["addresses"].List?
    ensures Exec(p, env) == NoChange <==>
      "name" in rr && rr["name"] == Str(p.name) && "type" in rr && rr["type"] == Str("HostRecord") &&
      "reverseRecord" in rr && rr["reverseRecord"] == Bool(p.reverseRecord) &&
      EmbeddedVerdict(rr["_embedded"].fields["addresses"].items, p.addresses.value) == Same
  {
    var data := BuildData(env, p).value;
    var rule := HostRule(rr, p.addresses.value);
    ScanSame(data, rule);
    ScanOutcomes(data, rule);
    assert Keys(data)[0] == "name" && Keys(data)[1] == "type";
    assert Keys(data)[2] == "reverseRecord" && Keys(data)[3] == "addresses";
    assert rule(data[3].0, data[3].1) == AddressesItem(rr, p.addresses.value);
    if Exec(p, env) == NoChange {
      assert CompareData(env, p, rr) == Go(false);
      assert rule(data[0].0, data[0].1) == Same;
      assert rule(data[1].0, data[1].1) == Same;
      assert rule(data[2].0, data[2].1) == Same;
      assert rule(data[3].0, data[3].1) == Same;
    } else if "name" in rr && rr["name"] == Str(p.name) && "type" in rr && rr["type"] == Str("HostRecord") &&
              "reverseRecord" in rr && rr["reverseRecord"] == Bool(p.reverseRecord) &&
              EmbeddedVerdict(rr["_embedded"].fields["addresses"].items, p.addresses.value) == Same {
      forall i | 0 <= i < |data| ensures rule(data[i].0, data[i].1) == Same {
        assert i == 0 || i == 1 || i == 2 || i == 3;
      }
    }
  }

  /** An address requested but not yet bound to the record is not noticed:
      a record whose stored addresses are a subset of the requested ones is
      left alone. */
  lemma NewAddressUnnoticed(p: Params, env: Env, rr: Record)
    requires p.state == Present && rr != map[]
    requires FirstOrEmpty(env.api(RecordQuery(p))) == Go(rr)
    requires BuildData(env, p).Go?
    requires rr == map["name" := Str(p.name), "type" := Str("HostRecord"), "reverseRecord" := Bool(p.reverseRecord),
                       "_embedded" := Object(map["addresses" := List([])])]
    ensures Exec(p, env) == NoChange
  {
    Idempotent(p, env, rr);
  }

  /** `absent` never targets the record: it always deletes the same
      nonsensical path, found or not. */
  lemma AbsentPathIgnoresRecord(p: Params, env: Env)
    requires p.state == Absent && !env.checkMode
    requires FirstOrEmpty(env.api(RecordQuery(p))).Go?
    ensures Exec(p, env) == Exit(true, Some(Delete(DeletePath, None)))
  {
  }
}
