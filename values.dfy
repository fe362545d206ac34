/** Python values as the modules handle them: decoded JSON, the records the
    API returns, the dictionaries built as request bodies, and the few
    built-ins the modules apply to them (truthiness, `dict.get`, `str`). */
module Values {

  datatype Option<+T> = None | Some(value: T)

  /** A decoded JSON value: None, bool, int, str, list or dict. Objects are
      maps because Python compares two dicts without regard to key order. */
  datatype Json =
    | Null
    | Bool(b: bool)
    | Int(i: int)
    | Str(s: string)
    | List(items: seq<Json>)
    | Object(fields: map<string, Json>)

  /** One entity as the API returns it: a decoded JSON object. */
  type Record = map<string, Json>

  /** A request body under construction: a Python dict, whose items are
      visited in insertion order by every `for key, value in data.items()`. */
  type Payload = seq<(string, Json)>

  /** Python truthiness: None, False, 0, "", [] and {} are false. */
  predicate Truthy(j: Json) {
    match j
    case Null => false
    case Bool(b) => b
    case Int(i) => i != 0
    case Str(s) => s != ""
    case List(items) => items != []
    case Object(fields) => fields != map[]
  }

  /** `record.get(key)`: the value under `key`, or None when it is missing. */
  function Get(r: Record, key: string): (v: Json)
    ensures key !in r ==> v == Null
    ensures key in r ==> v == r[key]
  {
    if key in r then r[key] else Null
  }

  /** `found or dict()`: a lookup that found nothing becomes the empty record. */
  function OrEmpty(found: Option<Record>): (r: Record)
    ensures found.None? ==> r == map[]
    ensures found.Some? ==> r == found.value
  {
    if found.Some? then found.value else map[]
  }

  /** Truthiness of a lookup result: a record was found and it is not empty. */
  predicate Found(o: Option<Record>) {
    o.Some? && o.value != map[]
  }

  /** An optional string parameter as a JSON value: None becomes null. */
  function OptStr(o: Option<string>): (j: Json)
    ensures o.None? <==> j == Null
  {
    if o.Some? then Str(o.value) else Null
  }

  /** An optional string parameter sent as None when it is unset or empty. */
  function EmptyAsNone(o: Option<string>): (j: Json)
    ensures j == Null <==> !Given(o)
    ensures Given(o) ==> j == Str(o.value)
  {
    if Given(o) then Str(o.value) else Null
  }

  /** Truthiness of an optional string parameter: set and not empty. */
  predicate Given(o: Option<string>) {
    o.Some? && o.value != ""
  }

  /** The keys of a payload, in insertion order. */
  function Keys(d: Payload): (ks: seq<string>)
    ensures |ks| == |d|
    ensures forall i | 0 <= i < |d| :: ks[i] == d[i].0
  {
    seq(|d|, i requires 0 <= i < |d| => d[i].0)
  }

  /** The keys of two payloads written one after the other. */
  lemma KeysAppend(a: Payload, b: Payload)
    ensures Keys(a + b) == Keys(a) + Keys(b)
  {
  }

  /** The body `{'name': name}` that tags and views send. */
  function NameBody(name: string): (d: Payload)
    ensures Keys(d) == ["name"] && d[0].1 == Str(name)
  {
    [("name", Str(name))]
  }

  /** The record `r` stores every item of `d` under the same key. */
  predicate Holds(r: Record, d: Payload) {
    forall i | 0 <= i < |d| :: d[i].0 in r && r[d[i].0] == d[i].1
  }

  /** A dict parameter given as its ordered items, as a JSON object. Later
      items win, as they do when Python builds a dict. */
  function ItemsToObject(d: Payload): (j: Json)
    ensures j.Object?
    ensures forall i | 0 <= i < |d| :: d[i].0 in j.fields
  {
    if d == [] then Object(map[])
    else
      var rest := ItemsToObject(d[..|d| - 1]);
      assert forall i | 0 <= i < |d| - 1 :: d[i] == d[..|d| - 1][i];
      Object(rest.fields[d[|d| - 1].0 := d[|d| - 1].1])
  }

  /** Decimal digits of a natural number. */
  function NatToString(n: nat): (s: string)
    ensures |s| >= 1
    ensures forall i | 0 <= i < |s| :: '0' <= s[i] <= '9'
  {
    var d := ['0', '1', '2', '3', '4', '5', '6', '7', '8', '9'][n % 10];
    if n < 10 then [d] else NatToString(n / 10) + [d]
  }

  /** `str(value)` as used in f-strings and `str.format`: the value as it
      appears in a request path or an unquoted filter argument. Lists and
      dicts are never ids; they render as a placeholder. */
  function Show(j: Json): string {
    match j
    case Null => "None"
    case Bool(b) => if b then "True" else "False"
    case Int(i) => if i < 0 then "-" + NatToString(-i) else NatToString(i)
    case Str(s) => s
    case List(_) => "[...]"
    case Object(_) => "{...}"
  }

  /** `str(value)` of an optional string parameter. */
  function ShowOpt(o: Option<string>): string {
    if o.Some? then o.value else "None"
  }

  /** `s.lower()` over ASCII letters. */
  function Lower(s: string): (r: string)
    ensures |r| == |s|
    ensures forall i | 0 <= i < |s| :: r[i] == LowerChar(s[i])
  {
    seq(|s|, i requires 0 <= i < |s| => LowerChar(s[i]))
  }

  function LowerChar(c: char): char {
    if 'A' <= c <= 'Z' then (c as int - 'A' as int + 'a' as int) as char else c
  }

  /** `s.split('/')[0]`: everything before the first slash. */
  function BeforeSlash(s: string): (r: string)
    ensures |r| <= |s| && r == s[..|r|]
    ensures '/' !in r
    ensures |r| < |s| ==> s[|r|] == '/'
  {
    if s == [] || s[0] == '/' then [] else [s[0]] + BeforeSlash(s[1..])
  }
}
