// WebScraperService: a user-maintained proxy list with a round-robin
// cursor over its active entries, and `scrape`, which routes one request
// through Tor, the next active proxy, or directly, and logs it.
module WebScraper {
  import opened Common
  import opened BoundedLog
  import opened Http

  datatype ProxyConfig = ProxyConfig(
    host: string,
    port: int,
    protocol: Protocol,
    username: Option<string>,
    password: Option<string>,
    active: bool)

  datatype ScrapingLog = ScrapingLog(
    id: string,
    url: string,
    timestamp: int,
    success: bool,
    proxyUsed: Option<string>,
    responseTime: int,
    error: Option<string>)

  /** The caller's options; an absent `useProxy` / `useTor` is false. */
  datatype ScrapingOptions = ScrapingOptions(
    url: string,
    verb: Option<Method>,
    headers: Headers,
    data: Option<string>,
    useProxy: bool,
    useTor: bool,
    timeout: Option<int>)

  datatype ScrapeReply = ScrapeReply(data: Json, status: int, headers: Headers, responseTime: int)

  /** How `scrape` sends a request. */
  datatype Route = ViaTor | ViaProxy(proxy: ProxyConfig) | Direct

  const LOG_LIMIT: nat := 100
  const DEFAULT_TIMEOUT := 30000
  const SCRAPER_USER_AGENT := "Mozilla/5.0 (Windows NT 10.0; Win64; x64) AppleWebKit/537.36 (KHTML, like Gecko) Chrome/120.0.0.0 Safari/537.36"
  const TOR_PROXY := ProxySetting("127.0.0.1", 9050, Socks5, None)
  const TOR_DESCRIPTOR := "Tor (127.0.0.1:9050)"
  const IP_ECHO_URL := "https://api.ipify.org?format=json"

  /** The list used when nothing is stored yet: two inactive examples. */
  function DefaultProxyList(): (r: seq<ProxyConfig>)
    ensures |r| == 2 && ActiveProxies(r) == []
  {
    [ ProxyConfig("proxy1.example.com", 8080, HttpProtocol, None, None, false),
      ProxyConfig("proxy2.example.com", 3128, HttpProtocol, None, None, false) ]
  }

  /** `proxyList.filter(p => p.active)`. */
  function ActiveProxies(list: seq<ProxyConfig>): (r: seq<ProxyConfig>)
    ensures |r| <= |list|
    ensures forall i :: 0 <= i < |r| ==> r[i].active && r[i] in list
    ensures forall i :: 0 <= i < |list| && list[i].active ==> list[i] in r
    ensures (forall i :: 0 <= i < |list| ==> list[i].active) ==> r == list
  {
    if list == [] then []
    else if list[0].active then [list[0]] + ActiveProxies(list[1..])
    else ActiveProxies(list[1..])
  }

  /** The filter keeps list order and multiplicity: it distributes over
      concatenation, and a single entry passes exactly when it is active. */
  lemma {:induction false} ActiveProxiesConcat(a: seq<ProxyConfig>, b: seq<ProxyConfig>)
    ensures ActiveProxies(a + b) == ActiveProxies(a) + ActiveProxies(b)
    ensures forall p :: ActiveProxies([p]) == if p.active then [p] else []
    decreases |a|
  {
    forall p ensures ActiveProxies([p]) == if p.active then [p] else [] {
      assert [p][1..] == [];
    }
    if a == [] {
      assert a + b == b;
    } else {
      assert (a + b)[1..] == a[1..] + b;
      ActiveProxiesConcat(a[1..], b);
    }
  }

  /** The entry the cursor designates among the active ones. */
  function PickAt(active: seq<ProxyConfig>, cursor: nat): ProxyConfig
    requires |active| > 0
  {
    active[cursor % |active|]
  }

  /** What n consecutive `getNextProxy` calls return against a stable list,
      the first one made with the cursor at `cursor`. */
  function Rotation(active: seq<ProxyConfig>, cursor: nat, n: nat): (r: seq<ProxyConfig>)
    requires |active| > 0
    ensures |r| == n
    decreases n
  {
    if n == 0 then [] else [PickAt(active, cursor)] + Rotation(active, cursor + 1, n - 1)
  }

  lemma {:induction false} RotationAt(active: seq<ProxyConfig>, cursor: nat, n: nat, j: nat)
    requires |active| > 0 && j < n
    ensures Rotation(active, cursor, n)[j] == PickAt(active, cursor + j)
    decreases n
  {
    if j > 0 {
      RotationAt(active, cursor + 1, n - 1, j - 1);
    }
  }

  lemma {:induction false} MulAtLeast(a: int, k: int)
    requires a >= 1 && k > 0
    ensures a * k >= k
    decreases a
  {
    if a > 1 {
      MulAtLeast(a - 1, k);
      assert a * k == (a - 1) * k + k;
    }
  }

  lemma ModUnique(x: int, q: int, m: int, k: int)
    requires k > 0 && 0 <= m < k && x == q * k + m
    ensures x % k == m
  {
    var d, r := x / k, x % k;
    assert x == d * k + r;
    assert (d - q) * k == m - r;
    if d - q >= 1 {
      MulAtLeast(d - q, k);
    } else if q - d >= 1 {
      assert (q - d) * k == r - m;
      MulAtLeast(q - d, k);
    }
  }

  /** Advancing the cursor by j < k moves its position by j, wrapping once. */
  lemma ModShift(c: nat, j: nat, k: nat)
    requires k > 0 && j < k
    ensures (c + j) % k == if c % k + j < k then c % k + j else c % k + j - k
  {
    var q := c / k;
    assert c == q * k + c % k;
    if c % k + j < k {
      ModUnique(c + j, q, c % k + j, k);
    } else {
      assert c + j == (q + 1) * k + (c % k + j - k);
      ModUnique(c + j, q + 1, c % k + j - k, k);
    }
  }

  /** K consecutive picks over K active entries visit them in list order,
      starting at the cursor's position: a rotation of the active list. */
  lemma RotationCoversActive(active: seq<ProxyConfig>, cursor: nat)
    requires |active| > 0
    ensures Rotation(active, cursor, |active|)
         == active[cursor % |active|..] + active[..cursor % |active|]
  {
    var k := |active|;
    var s := cursor % k;
    var r := Rotation(active, cursor, k);
    var t := active[s..] + active[..s];
    forall j | 0 <= j < k
      ensures r[j] == t[j]
    {
      RotationAt(active, cursor, k, j);
      ModShift(cursor, j, k);
    }
  }

  /** Hence each active entry is returned exactly as often as it occurs among them. */
  lemma RotationIsPermutation(active: seq<ProxyConfig>, cursor: nat)
    requires |active| > 0
    ensures multiset(Rotation(active, cursor, |active|)) == multiset(active)
  {
    var s := cursor % |active|;
    RotationCoversActive(active, cursor);
    assert active == active[..s] + active[s..];
  }

  /** `buildProxyConfig`: credentials only when both are present and non-empty. */
  function BuildProxyConfig(p: ProxyConfig): (s: ProxySetting)
    ensures s.host == p.host && s.port == p.port && s.protocol == p.protocol
    ensures s.auth.Some? <==> Truthy(p.username) && Truthy(p.password)
    ensures s.auth.Some? ==> s.auth.value == Auth(p.username.value, p.password.value)
  {
    ProxySetting(p.host, p.port, p.protocol,
      if Truthy(p.username) && Truthy(p.password) then Some(Auth(p.username.value, p.password.value)) else None)
  }

  /** The routing decision of `scrape`: Tor when asked for and switched on,
      else the next active proxy when asked for, else direct. */
  function ChooseRoute(o: ScrapingOptions, torEnabled: bool, list: seq<ProxyConfig>, cursor: nat): (r: Route)
    ensures r.ViaTor? <==> o.useTor && torEnabled
    ensures r.ViaProxy? <==> !(o.useTor && torEnabled) && o.useProxy && |ActiveProxies(list)| > 0
    ensures r.ViaProxy? ==> r.proxy == PickAt(ActiveProxies(list), cursor) && r.proxy.active && r.proxy in list
  {
    var active := ActiveProxies(list);
    if o.useTor && torEnabled then ViaTor
    else if o.useProxy && |active| > 0 then ViaProxy(PickAt(active, cursor))
    else Direct
  }

  /** The `proxy` option a route puts on the request. */
  function RouteProxy(r: Route): (p: Option<ProxySetting>)
    ensures p.None? <==> r.Direct?
    ensures r.ViaTor? ==> p.value.host == "127.0.0.1" && p.value.port == 9050 && p.value.protocol == Socks5 && p.value.auth.None?
    ensures r.ViaProxy? ==> p == Some(BuildProxyConfig(r.proxy))
  {
    match r
    case ViaTor => Some(TOR_PROXY)
    case ViaProxy(p) => Some(BuildProxyConfig(p))
    case Direct => None
  }

  /** The `proxyUsed` descriptor logged for a route. */
  function RouteDescriptor(r: Route): (d: Option<string>)
    ensures d.None? <==> r.Direct?
    ensures r.ViaTor? ==> d == Some(TOR_DESCRIPTOR)
    ensures r.ViaProxy? ==>
      (StartsWith(d.value, r.proxy.host + ":") && ParseInt(d.value[|r.proxy.host| + 1..]) == Some(r.proxy.port))
  {
    match r
    case ViaTor => Some(TOR_DESCRIPTOR)
    case ViaProxy(p) =>
      var d := p.host + ":" + IntToString(p.port);
      assert d[..|p.host| + 1] == p.host + ":";
      assert d[|p.host| + 1..] == IntToString(p.port);
      ParseIntRoundTrip(p.port);
      Some(d)
    case Direct => None
  }

  /** The config `scrape` hands to axios before routing. */
  function BaseRequest(o: ScrapingOptions): (c: RequestConfig)
    ensures c.verb == o.verb.GetOr(Get) && c.url == o.url && c.data == o.data
    ensures c.timeout == TimeoutOr(o.timeout, DEFAULT_TIMEOUT)
    ensures c.headers == WithDefaultHeader(USER_AGENT, SCRAPER_USER_AGENT, o.headers)
    ensures c.proxy.None?
  {
    RequestConfig(o.verb.GetOr(Get), o.url, WithDefaultHeader(USER_AGENT, SCRAPER_USER_AGENT, o.headers),
      TimeoutOr(o.timeout, DEFAULT_TIMEOUT), o.data, None)
  }

  /** `error.message || 'Unknown error'`. */
  function FailureMessage(t: Transport): (r: string)
    requires t.Failed?
    ensures r != ""
    ensures t.message != "" ==> r == t.message
    ensures t.message == "" ==> r == "Unknown error"
  {
    if t.message == "" then "Unknown error" else t.message
  }

  /** The list after `proxyList.splice(index, 1)` for a non-negative index. */
  function Removed(list: seq<ProxyConfig>, index: nat): (r: seq<ProxyConfig>)
    ensures index < |list| ==> |r| == |list| - 1
    ensures index >= |list| ==> r == list
    ensures forall j :: 0 <= j < |r| ==> r[j] == if j < index then list[j] else list[j + 1]
  {
    if index < |list| then list[..index] + list[index + 1..] else list
  }

  /** The list after `toggleProxy(index)`: only entry index flips, when it exists. */
  function Toggled(list: seq<ProxyConfig>, index: int): (r: seq<ProxyConfig>)
    ensures |r| == |list|
    ensures forall j :: 0 <= j < |list| && j != index ==> r[j] == list[j]
    ensures 0 <= index < |list| ==> r[index] == list[index].(active := !list[index].active)
  {
    if 0 <= index < |list| then list[index := list[index].(active := !list[index].active)] else list
  }

  lemma ToggleTwice(list: seq<ProxyConfig>, index: int)
    ensures Toggled(Toggled(list, index), index) == list
  {
  }

  class WebScraperService {
    var proxyList: seq<ProxyConfig>
    var currentProxyIndex: nat
    var scrapingLogs: seq<ScrapingLog>
    var torEnabled: bool
    // What the key-value store holds under the proxy-list and log keys.
    var storedProxyList: Option<seq<ProxyConfig>>
    var storedLogs: Option<seq<ScrapingLog>>

    /** The service once its two loads have completed. Each load has its own
        try block: a stored list is used as is, a missing one becomes the
        default list (not persisted), and a failed read of either key leaves
        that field's empty initial value without affecting the other. */
    constructor (proxies: Option<seq<ProxyConfig>>, logs: Option<seq<ScrapingLog>>, listReadOk: bool, logsReadOk: bool)
      ensures proxyList == (if !listReadOk then [] else if proxies.Some? then proxies.value else DefaultProxyList())
      ensures scrapingLogs == (if logsReadOk && logs.Some? then logs.value else [])
      ensures currentProxyIndex == 0 && !torEnabled
      ensures storedProxyList == proxies && storedLogs == logs
    {
      proxyList := if !listReadOk then [] else if proxies.Some? then proxies.value else DefaultProxyList();
      scrapingLogs := if logsReadOk && logs.Some? then logs.value else [];
      currentProxyIndex := 0;
      torEnabled := false;
      storedProxyList := proxies;
      storedLogs := logs;
    }

    /** Round-robin over the currently active entries; the cursor only grows. */
    method GetNextProxy() returns (p: Option<ProxyConfig>)
      modifies this`currentProxyIndex
      ensures var active := ActiveProxies(proxyList);
        if |active| == 0 then p == None && currentProxyIndex == old(currentProxyIndex)
        else p == Some(PickAt(active, old(currentProxyIndex))) && currentProxyIndex == old(currentProxyIndex) + 1
      ensures p.None? <==> forall i :: 0 <= i < |proxyList| ==> !proxyList[i].active
      ensures p.Some? ==> p.value.active && p.value in proxyList
    {
      var active := ActiveProxies(proxyList);
      if |active| == 0 {
        return None;
      }
      assert active[0] in proxyList;
      p := Some(active[currentProxyIndex % |active|]);
      currentProxyIndex := currentProxyIndex + 1;
    }

    /** Persists the newest LOG_LIMIT entries; the in-memory list is not
        trimmed. A failed write is swallowed and leaves the store as it was. */
    method SaveScrapingLogs(writeOk: bool)
      modifies this`storedLogs
      ensures storedLogs == if writeOk then Some(KeepLast(scrapingLogs, LOG_LIMIT)) else old(storedLogs)
    {
      if writeOk {
        storedLogs := Some(KeepLast(scrapingLogs, LOG_LIMIT));
      }
    }

    /** A failed write is swallowed and leaves the store as it was. */
    method SaveProxyList(writeOk: bool)
      modifies this`storedProxyList
      ensures storedProxyList == if writeOk then Some(proxyList) else old(storedProxyList)
    {
      if writeOk {
        storedProxyList := Some(proxyList);
      }
    }

    /** One request: routed, sent, and logged exactly once whatever its outcome.
        The clock readings and the log id are inputs. */
    method Scrape(options: ScrapingOptions, transport: Transport, logId: string, startTime: int, endTime: int, logTime: int,
                  writeOk: bool)
      returns (request: RequestConfig, result: Result<ScrapeReply>)
      modifies this`currentProxyIndex, this`scrapingLogs, this`storedLogs
      ensures var route := ChooseRoute(options, torEnabled, proxyList, old(currentProxyIndex));
        && request == BaseRequest(options).(proxy := RouteProxy(route))
        && currentProxyIndex == old(currentProxyIndex) + (if route.ViaProxy? then 1 else 0)
        && scrapingLogs == old(scrapingLogs) + [ScrapingLog(logId, options.url, logTime, transport.Delivered?,
             RouteDescriptor(route), endTime - startTime,
             if transport.Failed? then Some(FailureMessage(transport)) else None)]
      ensures storedLogs == if writeOk then Some(KeepLast(scrapingLogs, LOG_LIMIT)) else old(storedLogs)
      ensures transport.Delivered? ==> result == Ok(ScrapeReply(transport.response.data, transport.response.status,
             transport.response.headers, endTime - startTime))
      ensures transport.Failed? ==> result == Err("Scraping failed: " + FailureMessage(transport))
    {
      var proxyUsed: Option<string> := None;
      request := BaseRequest(options);
      if options.useTor && torEnabled {
        request := request.(proxy := Some(TOR_PROXY));
        proxyUsed := Some(TOR_DESCRIPTOR);
      } else if options.useProxy {
        var proxy := GetNextProxy();
        if proxy.Some? {
          request := request.(proxy := Some(BuildProxyConfig(proxy.value)));
          proxyUsed := Some(proxy.value.host + ":" + IntToString(proxy.value.port));
        }
      }
      var responseTime := endTime - startTime;
      match transport {
        case Delivered(response) =>
          scrapingLogs := scrapingLogs + [ScrapingLog(logId, options.url, logTime, true, proxyUsed, responseTime, None)];
          SaveScrapingLogs(writeOk);
          result := Ok(ScrapeReply(response.data, response.status, response.headers, responseTime));
        case Failed(_, _) =>
          var errorMessage := FailureMessage(transport);
          scrapingLogs := scrapingLogs + [ScrapingLog(logId, options.url, logTime, false, proxyUsed, responseTime, Some(errorMessage))];
          SaveScrapingLogs(writeOk);
          result := Err("Scraping failed: " + errorMessage);
      }
    }

    method AddProxy(proxy: ProxyConfig, writeOk: bool)
      modifies this`proxyList, this`storedProxyList
      ensures proxyList == old(proxyList) + [proxy]
      ensures storedProxyList == if writeOk then Some(proxyList) else old(storedProxyList)
    {
      proxyList := proxyList + [proxy];
      SaveProxyList(writeOk);
    }

    /** `splice(index, 1)`; a negative index (which splice counts from the end) is not modelled. */
    method RemoveProxy(index: nat, writeOk: bool)
      modifies this`proxyList, this`storedProxyList
      ensures proxyList == Removed(old(proxyList), index)
      ensures storedProxyList == if writeOk then Some(proxyList) else old(storedProxyList)
    {
      if index < |proxyList| {
        proxyList := proxyList[..index] + proxyList[index + 1..];
      }
      SaveProxyList(writeOk);
    }

    /** Flips one entry's `active` flag; an index with no entry changes nothing. */
    method ToggleProxy(index: int, writeOk: bool)
      modifies this`proxyList, this`storedProxyList
      ensures proxyList == Toggled(old(proxyList), index)
      ensures 0 <= index < |proxyList| && writeOk ==> storedProxyList == Some(proxyList)
      ensures 0 <= index < |proxyList| && !writeOk ==> storedProxyList == old(storedProxyList)
      ensures !(0 <= index < |proxyList|) ==> storedProxyList == old(storedProxyList)
    {
      if 0 <= index < |proxyList| {
        proxyList := proxyList[index := proxyList[index].(active := !proxyList[index].active)];
        SaveProxyList(writeOk);
      }
    }

    /** A copy of the list: the same entries, in order. */
    function GetProxyList(): (r: seq<ProxyConfig>)
      reads this
      ensures r == proxyList
    {
      proxyList
    }

    function GetScrapingLogs(): (r: seq<ScrapingLog>)
      reads this
      ensures r == scrapingLogs
    {
      scrapingLogs
    }

    method ClearScrapingLogs(writeOk: bool)
      modifies this`scrapingLogs, this`storedLogs
      ensures scrapingLogs == []
      ensures storedLogs == if writeOk then Some([]) else old(storedLogs)
    {
      scrapingLogs := [];
      SaveScrapingLogs(writeOk);
    }

    /** The scraper's own Tor flag, independent of the Tor service's settings. */
    method SetTorEnabled(enabled: bool)
      modifies this`torEnabled
      ensures torEnabled == enabled
    {
      torEnabled := enabled;
    }

    function IsTorEnabled(): (r: bool)
      reads this
      ensures r == torEnabled
    {
      torEnabled
    }

    /** The public address as seen through the next active proxy; uses up one
        step of the rotation. */
    method GetProxyIP(transport: Transport) returns (ip: string, request: Option<RequestConfig>)
      modifies this`currentProxyIndex
      ensures currentProxyIndex == if |ActiveProxies(proxyList)| == 0 then old(currentProxyIndex) else old(currentProxyIndex) + 1
      ensures var active := ActiveProxies(proxyList);
        && (|active| == 0 ==> ip == "No proxy configured" && request.None?)
        && (|active| > 0 ==> request == Some(RequestConfig(Get, IP_ECHO_URL, map[], 5000, None,
             Some(BuildProxyConfig(PickAt(active, old(currentProxyIndex)))))))
        && (|active| > 0 && (transport.Failed? || transport.response.data.JNull?) ==> ip == "Unable to fetch proxy IP")
        && (|active| > 0 && transport.Delivered? && !transport.response.data.JNull? ==>
              ip == EchoedIp(transport.response.data).value)
    {
      var proxy := GetNextProxy();
      if proxy.None? {
        return "No proxy configured", None;
      }
      request := Some(RequestConfig(Get, IP_ECHO_URL, map[], 5000, None, Some(BuildProxyConfig(proxy.value))));
      var echoed := if transport.Failed? then Err(transport.message) else EchoedIp(transport.response.data);
      ip := if echoed.Err? then "Unable to fetch proxy IP" else echoed.value;
    }
  }

  /** `response.data.ip`: throws on a `null` body; a missing or non-string
      field renders as "undefined". */
  function EchoedIp(data: Json): (r: Result<string>)
    ensures r.Err? <==> data.JNull?
    ensures var ip := Member(Some(data), "ip");
      ip.Some? && ip.value.JStr? ==> r == Ok(ip.value.s)
  {
    match Dot(data, "ip")
    case Err(m) => Err(m)
    case Ok(ip) => Ok(if ip.Some? && ip.value.JStr? then ip.value.s else "undefined")
  }

  /** `getCurrentIP`: a direct request with a 5 second timeout. */
  function GetCurrentIP(transport: Transport): (r: string)
    ensures transport.Failed? || transport.response.data.JNull? ==> r == "Unable to fetch IP"
    ensures transport.Delivered? && !transport.response.data.JNull? ==> r == EchoedIp(transport.response.data).value
    ensures transport.Delivered? ==> var ip := Member(Some(transport.response.data), "ip");
      ip.Some? && ip.value.JStr? ==> r == ip.value.s
  {
    if transport.Failed? then "Unable to fetch IP"
    else
      match EchoedIp(transport.response.data)
      case Err(_) => "Unable to fetch IP"
      case Ok(ip) => ip
  }

  /** Scenario: with Tor switched on in the scraper, a Tor-routed scrape logs
      exactly one entry, carrying the Tor descriptor, and leaves the cursor alone. */
  method TorScrapeScenario(url: string, response: Response) returns (entries: seq<ScrapingLog>, cursor: nat)
    ensures |entries| == 1 && entries[0].success && entries[0].proxyUsed == Some(TOR_DESCRIPTOR)
    ensures entries[0].url == url && cursor == 0
  {
    var service := new WebScraperService(None, None, true, true);
    service.SetTorEnabled(true);
    var options := ScrapingOptions(url, None, map[], None, false, true, None);
    var request, result := service.Scrape(options, Delivered(response), "log", 0, 10, 10, true);
    entries := service.scrapingLogs;
    cursor := service.currentProxyIndex;
  }
}
