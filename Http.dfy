// The slice of axios that the services use: a decoded JSON value, the
// request config they assemble, and the outcome of handing it to the
// transport. The transport itself is outside the model: its outcome is an
// input of every operation that sends a request.
module Http {
  import opened Common

  /** A decoded JSON value (what `JSON.parse` or axios hands back). */
  datatype Json =
    | JNull
    | JBool(b: bool)
    | JNum(n: int)
    | JStr(s: string)
    | JArr(items: seq<Json>)
    | JObj(fields: map<string, Json>)

  /** Optional chaining `j?.name`. */
  function Member(j: Option<Json>, name: string): (r: Option<Json>)
    ensures r.Some? ==> j.Some? && j.value.JObj? && name in j.value.fields
    ensures j.Some? && j.value.JObj? && name in j.value.fields ==> r == Some(j.value.fields[name])
  {
    if j.Some? && j.value.JObj? && name in j.value.fields then Some(j.value.fields[name]) else None
  }

  /** Stands for the TypeError thrown when a field of `null` is read. */
  const NULL_FIELD := "TypeError: cannot read properties of null"

  /** Plain field access `j.name`: reading a field of `null` throws, and any
      other value without that field gives `undefined` (None). */
  function Dot(j: Json, name: string): (r: Result<Option<Json>>)
    ensures r.Err? <==> j.JNull?
    ensures r.Ok? ==> r.value == Member(Some(j), name)
  {
    if j.JNull? then Err(NULL_FIELD) else Ok(Member(Some(j), name))
  }

  /** Optional chaining `j?.[i]` on an array. */
  function Element(j: Option<Json>, i: nat): (r: Option<Json>)
    ensures r.Some? ==> j.Some? && j.value.JArr? && i < |j.value.items|
    ensures j.Some? && j.value.JArr? && i < |j.value.items| ==> r == Some(j.value.items[i])
  {
    if j.Some? && j.value.JArr? && i < |j.value.items| then Some(j.value.items[i]) else None
  }

  /** A string value read through optional chaining, with `|| ''`. */
  function StringOr(j: Option<Json>, fallback: string): (r: string)
    ensures j.Some? && j.value.JStr? && j.value.s != "" ==> r == j.value.s
    ensures !(j.Some? && j.value.JStr? && j.value.s != "") ==> r == fallback
  {
    if j.Some? && j.value.JStr? && j.value.s != "" then j.value.s else fallback
  }

  datatype Method = Get | Post

  datatype Protocol = HttpProtocol | HttpsProtocol | Socks5

  datatype Auth = Auth(username: string, password: string)

  /** axios' `proxy` option. */
  datatype ProxySetting = ProxySetting(host: string, port: int, protocol: Protocol, auth: Option<Auth>)

  type Headers = map<string, string>

  /** The axios request config the services assemble. */
  datatype RequestConfig = RequestConfig(
    verb: Method,
    url: string,
    headers: Headers,
    timeout: int,
    data: Option<string>,
    proxy: Option<ProxySetting>)

  datatype Response = Response(status: int, data: Json, headers: Headers)

  /** What the transport did with a request: answered it, or threw an error
      with a message (and, for an HTTP error status, the decoded body). */
  datatype Transport =
    | Delivered(response: Response)
    | Failed(message: string, responseData: Option<Json>)

  const USER_AGENT := "User-Agent"

  /** `{ [name]: value, ...overrides }`: the caller's headers win. */
  function WithDefaultHeader(name: string, value: string, overrides: Headers): (h: Headers)
    ensures h.Keys == overrides.Keys + {name}
    ensures forall k :: k in overrides ==> h[k] == overrides[k]
    ensures name !in overrides ==> h[name] == value
  {
    map[name := value] + overrides
  }

  /** `t || fallback` on an optional timeout: absent and 0 both fall back. */
  function TimeoutOr(t: Option<int>, fallback: int): (r: int)
    ensures t.Some? && t.value != 0 ==> r == t.value
    ensures t.None? || t.value == 0 ==> r == fallback
  {
    if t.Some? && t.value != 0 then t.value else fallback
  }
}
