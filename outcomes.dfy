/** How a module run ends, what it may observe, and what it may change.
    The REST client is an oracle from a query to a `{count, data}` response;
    a mutating request is a `Call` value carried by the outcome. */
module Outcomes {
  import opened Values

  /** The Python exceptions a module run can raise past its own code. None of
      them is caught, so each one ends the run with a traceback. */
  datatype PyError =
    | KeyError(key: string)
    | IndexError
    | NameError(name: string)
    | AttributeError(attribute: string)
    | TypeError
    | ValueError(input: string)

  type Headers = map<string, string>

  /** The media type the client library names `MediaType.JSON`. */
  const JsonMediaType := "application/json"

  /** The headers every module starts with. */
  const BaseHeaders: Headers := map["Content-Type" := JsonMediaType]

  /** One mutating request. A delete issued without `headers=` carries None. */
  datatype Call =
    | Post(path: string, body: Payload, headers: Headers)
    | Put(path: string, body: Payload, headers: Headers)
    | Delete(path: string, sent: Option<Headers>)

  /** How a run of `exec_module` ends: `exit_json` with the changed flag and
      the request issued just before it (none in check mode), `fail_json`
      with its message, or an uncaught exception. */
  datatype Outcome =
    | Exit(changed: bool, call: Option<Call>)
    | Fail(msg: string)
    | Crash(error: PyError)

  /** An ending that is not a normal exit: `fail_json` or an exception. */
  type Halt = o: Outcome | !o.Exit? witness Fail("")

  /** A step of a run that computes a value: it either yields the value and
      the run goes on, or it has already ended the run with `fail_json` or
      an exception. */
  datatype Flow<+T> = Go(value: T) | Stop(outcome: Halt) {
    predicate IsFailure() { Stop? }
    function PropagateFailure(): Outcome requires Stop? { outcome }
    function Extract(): T requires Go? { value }
  }

  datatype State = Present | Absent

  /** A GET request: path and query parameters. */
  datatype Query = Query(path: string, filter: Option<string>, limit: Option<int>,
                         fields: Option<string>, orderBy: Option<string>)

  /** The decoded body of a GET: `{count, data}`. */
  datatype Response = Response(count: int, data: seq<Record>)

  /** What `ipaddress.ip_network` reports about a range it accepts. */
  datatype IpNetwork = IpNetwork(version: int, prefixLen: int)

  /** What one run can observe: the API (read only), Python's `ipaddress`
      parsers (None where they raise ValueError), and whether Ansible runs
      the module in check mode. */
  datatype Env = Env(
    api: Query -> Response,
    ipNetwork: string -> Option<IpNetwork>,
    ipAddressVersion: string -> Option<int>,
    checkMode: bool)

  /** The tail of every `create_*`, `update_*` and `delete_*` helper:
      `changed=True`, and the request only when not in check mode. */
  function Mutate(env: Env, call: Call): (o: Outcome)
    ensures o.Exit? && o.changed
    ensures o.call.Some? <==> !env.checkMode
    ensures o.call.Some? ==> o.call.value == call
  {
    Exit(true, if env.checkMode then None else Some(call))
  }

  datatype Verb = POST | PUT

  /** The tail of a `create_*` or `update_*` helper that builds its body only
      outside check mode: in check mode nothing is built or sent; otherwise
      the body is built (which may end the run) and sent. */
  function Send(env: Env, verb: Verb, path: string, data: Flow<Payload>, headers: Headers): (o: Outcome)
    ensures env.checkMode ==> o == Exit(true, None)
    ensures !env.checkMode && data.Stop? ==> o == data.outcome
    ensures o.Exit? ==> o.changed
    ensures o.Exit? && o.call.Some? ==>
      !env.checkMode && !o.call.value.Delete? && data == Go(o.call.value.body) &&
      o.call.value.path == path && o.call.value.headers == headers && (o.call.value.Post? <==> verb == POST)
    ensures !env.checkMode && data.Go? ==> o.Exit? && o.call.Some?
  {
    if env.checkMode then Exit(true, None)
    else match data
      case Stop(o) => o
      case Go(body) => Exit(true, Some(if verb == POST then Post(path, body, headers) else Put(path, body, headers)))
  }

  /** The fall-through at the end of every `exec_module`. */
  const NoChange := Exit(false, None)

  /** `ipaddress.ip_network(range).version == 4`, raising on a bad range. */
  function IsV4Network(env: Env, range: string): (r: Flow<bool>)
    ensures env.ipNetwork(range).None? <==> r == Stop(Crash(ValueError(range)))
    ensures env.ipNetwork(range).Some? ==> r == Go(env.ipNetwork(range).value.version == 4)
  {
    match env.ipNetwork(range)
    case None => Stop(Crash(ValueError(range)))
    case Some(n) => Go(n.version == 4)
  }

  /** `ipaddress.ip_address(address).version == 4`, raising on a bad address. */
  function IsV4Address(env: Env, address: string): (r: Flow<bool>)
    ensures env.ipAddressVersion(address).None? <==> r == Stop(Crash(ValueError(address)))
    ensures env.ipAddressVersion(address).Some? ==> r == Go(env.ipAddressVersion(address).value == 4)
  {
    match env.ipAddressVersion(address)
    case None => Stop(Crash(ValueError(address)))
    case Some(v) => Go(v == 4)
  }

  /** `record[key]` on a decoded JSON value: KeyError when missing,
      TypeError when the value is not a dict. */
  function Index(j: Json, key: string): (r: Flow<Json>)
    ensures r.Go? <==> j.Object? && key in j.fields
    ensures r.Go? ==> r.value == j.fields[key]
  {
    match j
    case Object(fields) => if key in fields then Go(fields[key]) else Stop(Crash(KeyError(key)))
    case _ => Stop(Crash(TypeError))
  }

  /** `record[key]` on a record. */
  function Field(r: Record, key: string): (v: Flow<Json>)
    ensures v.Go? <==> key in r
    ensures v.Go? ==> v.value == r[key]
    ensures v.Stop? ==> v.outcome == Crash(KeyError(key))
  {
    if key in r then Go(r[key]) else Stop(Crash(KeyError(key)))
  }
}
