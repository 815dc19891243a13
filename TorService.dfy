// TorService: a simulated Tor session. It has settings (with the `enabled`
// flag), a `connected` flag, a synthetic current circuit, and an
// append-only log of which only the newest 100 entries are persisted.
module TorService {
  import opened Common
  import opened BoundedLog
  import opened Http

  datatype TorSettings = TorSettings(
    enabled: bool,
    socksHost: string,
    socksPort: int,
    controlPort: int,
    circuitRefreshInterval: int)  // minutes

  /** `Partial<TorSettings>`: None is a missing field. */
  datatype PartialTorSettings = PartialTorSettings(
    enabled: Option<bool>,
    socksHost: Option<string>,
    socksPort: Option<int>,
    controlPort: Option<int>,
    circuitRefreshInterval: Option<int>)

  datatype LogType = Info | Warning | Error | Success

  /** A log entry; its random id and its timestamp are not modelled. */
  datatype TorLog = TorLog(kind: LogType, message: string)

  datatype TorCircuitInfo = TorCircuitInfo(circuitId: string, nodes: seq<string>, exitNode: string, established: bool)

  /** The random strings `newCircuit` draws. */
  datatype CircuitDraw = CircuitDraw(circuitId: string, node1: string, node2: string, node3: string, exit: string)

  datatype OnionSiteInfo = OnionSiteInfo(url: string, reachable: bool, responseTime: Option<int>)

  datatype ConnectionStatus = ConnectionStatus(enabled: bool, connected: bool, circuitActive: bool)

  /** The axios options a caller may pass to `request`. */
  datatype RequestOptions = RequestOptions(verb: Option<Method>, headers: Headers, timeout: Option<int>, data: Option<string>)

  const LOG_LIMIT: nat := 100
  const TOR_USER_AGENT := "Mozilla/5.0 (Windows NT 10.0; rv:91.0) Gecko/20100101 Firefox/91.0"
  const TOR_TIMEOUT := 60000
  const CHECK_URL := "https://check.torproject.org/api/ip"
  const NOT_ENABLED_REQUEST := "Tor is not enabled. Please enable Tor first."
  const NOT_ENABLED_ONION := "Tor must be enabled to access .onion sites"
  const NOT_ENABLED_CIRCUIT := "Tor is not enabled"
  const INVALID_ONION := "Invalid .onion URL"

  const DEFAULT_SETTINGS := TorSettings(false, "127.0.0.1", 9050, 9051, 10)

  const NO_OPTIONS := RequestOptions(None, map[], None, None)

  /** `{ ...s, ...p }`: the supplied fields replace, the others stay. */
  function Merge(s: TorSettings, p: PartialTorSettings): (r: TorSettings)
    ensures r.enabled == p.enabled.GetOr(s.enabled)
    ensures r.socksHost == p.socksHost.GetOr(s.socksHost)
    ensures r.socksPort == p.socksPort.GetOr(s.socksPort)
    ensures r.controlPort == p.controlPort.GetOr(s.controlPort)
    ensures r.circuitRefreshInterval == p.circuitRefreshInterval.GetOr(s.circuitRefreshInterval)
  {
    TorSettings(
      p.enabled.GetOr(s.enabled),
      p.socksHost.GetOr(s.socksHost),
      p.socksPort.GetOr(s.socksPort),
      p.controlPort.GetOr(s.controlPort),
      p.circuitRefreshInterval.GetOr(s.circuitRefreshInterval))
  }

  function Later<T>(a: Option<T>, b: Option<T>): Option<T> {
    if b.Some? then b else a
  }

  /** Two partial updates in a row, as one: the later one wins per field. */
  function Combine(p: PartialTorSettings, q: PartialTorSettings): PartialTorSettings {
    PartialTorSettings(
      Later(p.enabled, q.enabled),
      Later(p.socksHost, q.socksHost),
      Later(p.socksPort, q.socksPort),
      Later(p.controlPort, q.controlPort),
      Later(p.circuitRefreshInterval, q.circuitRefreshInterval))
  }

  lemma MergeEmpty(s: TorSettings)
    ensures Merge(s, PartialTorSettings(None, None, None, None, None)) == s
  {
  }

  lemma MergeTwice(s: TorSettings, p: PartialTorSettings, q: PartialTorSettings)
    ensures Merge(Merge(s, p), q) == Merge(s, Combine(p, q))
    ensures Merge(Merge(s, p), p) == Merge(s, p)
  {
  }

  /** The request `request` hands to axios: SOCKS5 through the configured
      endpoint, the Tor Browser user agent unless overridden, 60 s by default. */
  function TorRequest(s: TorSettings, url: string, o: RequestOptions): (c: RequestConfig)
    ensures c.proxy == Some(ProxySetting(s.socksHost, s.socksPort, Socks5, None))
    ensures c.url == url && c.verb == o.verb.GetOr(Get) && c.data == o.data
    ensures c.timeout == TimeoutOr(o.timeout, TOR_TIMEOUT)
    ensures c.headers == WithDefaultHeader(USER_AGENT, TOR_USER_AGENT, o.headers)
  {
    RequestConfig(o.verb.GetOr(Get), url, WithDefaultHeader(USER_AGENT, TOR_USER_AGENT, o.headers),
      TimeoutOr(o.timeout, TOR_TIMEOUT), o.data, Some(ProxySetting(s.socksHost, s.socksPort, Socks5, None)))
  }

  /** The log entries one `request` adds when Tor is enabled. */
  function RequestLogs(url: string, t: Transport): (r: seq<TorLog>)
    ensures |r| == 2 && r[0] == TorLog(Info, "Requesting: " + url)
    ensures r[1].kind == Success <==> t.Delivered?
    ensures t.Delivered? ==> r[1] == TorLog(Success, "Successfully fetched: " + url)
    ensures t.Failed? ==> r[1] == TorLog(Error, "Request failed: " + t.message)
  {
    [TorLog(Info, "Requesting: " + url)]
    + if t.Delivered? then [TorLog(Success, "Successfully fetched: " + url)]
      else [TorLog(Error, "Request failed: " + t.message)]
  }

  /** `response.IP || 'Unknown'`: throws on a `null` body. */
  function ExitIp(data: Json): (r: Result<string>)
    ensures r.Err? <==> data.JNull?
    ensures r.Ok? ==> r.value != ""
    ensures var ip := Member(Some(data), "IP");
      ip.Some? && ip.value.JStr? && ip.value.s != "" ==> r == Ok(ip.value.s)
    ensures var ip := Member(Some(data), "IP");
      !data.JNull? && (ip.None? || ip == Some(JStr(""))) ==> r == Ok("Unknown")
  {
    match Dot(data, "IP")
    case Err(m) => Err(m)
    case Ok(ip) => Ok(StringOr(ip, "Unknown"))
  }

  /** `response.IsTor === true`: throws on a `null` body. */
  function ReportsTor(data: Json): (r: Result<bool>)
    ensures r.Err? <==> data.JNull?
    ensures r.Ok? ==> (r.value <==> Member(Some(data), "IsTor") == Some(JBool(true)))
  {
    match Dot(data, "IsTor")
    case Err(m) => Err(m)
    case Ok(v) => Ok(v == Some(JBool(true)))
  }

  class TorService {
    var settings: TorSettings
    var logs: seq<TorLog>
    var connected: bool
    var currentCircuit: Option<TorCircuitInfo>
    // What the key-value store holds under the settings and log keys.
    var storedSettings: Option<TorSettings>
    var storedLogs: seq<TorLog>

    /** Only the newest LOG_LIMIT entries are persisted, and a circuit,
        once made, has three nodes and is established. */
    ghost predicate Valid()
      reads this
    {
      && storedLogs == KeepLast(logs, LOG_LIMIT)
      && (currentCircuit.Some? ==> |currentCircuit.value.nodes| == 3 && currentCircuit.value.established)
    }

    /** The service once its loads have completed (the error entry a failed
        settings load adds races with the log load and is not modelled). */
    constructor (stored: Option<TorSettings>, storedLog: seq<TorLog>)
      ensures Valid()
      ensures settings == stored.GetOr(DEFAULT_SETTINGS) && logs == storedLog
      ensures !connected && currentCircuit.None?
      ensures storedSettings == stored
    {
      settings := stored.GetOr(DEFAULT_SETTINGS);
      logs := storedLog;
      connected := false;
      currentCircuit := None;
      storedSettings := stored;
      storedLogs := KeepLast(storedLog, LOG_LIMIT);
    }

    /** Appends one entry and persists the newest LOG_LIMIT. */
    method AddLog(kind: LogType, message: string)
      requires Valid()
      modifies this`logs, this`storedLogs
      ensures Valid()
      ensures logs == old(logs) + [TorLog(kind, message)]
    {
      logs := logs + [TorLog(kind, message)];
      storedLogs := KeepLast(logs, LOG_LIMIT);
    }

    /** Persists the settings; a failed write is swallowed after logging it. */
    method SaveSettings(writeOk: bool)
      requires Valid()
      modifies this`storedSettings, this`logs, this`storedLogs
      ensures Valid()
      ensures storedSettings == if writeOk then Some(settings) else old(storedSettings)
      ensures logs == old(logs) + if writeOk then [] else [TorLog(Error, "Failed to save Tor settings")]
    {
      if writeOk {
        storedSettings := Some(settings);
      } else {
        AddLog(Error, "Failed to save Tor settings");
      }
    }

    /** Always succeeds: nothing inside it can throw, since the settings
        write swallows its own failure. */
    method Enable(writeOk: bool) returns (ok: bool)
      requires Valid()
      modifies this`settings, this`connected, this`storedSettings, this`logs, this`storedLogs
      ensures Valid() && ok
      ensures settings == old(settings).(enabled := true) && connected
      ensures storedSettings == if writeOk then Some(settings) else old(storedSettings)
      ensures logs == old(logs) + [TorLog(Info, "Attempting to connect to Tor network...")]
        + (if writeOk then [] else [TorLog(Error, "Failed to save Tor settings")])
        + [TorLog(Success, "Successfully connected to Tor network"),
           TorLog(Info, "SOCKS proxy: " + settings.socksHost + ":" + IntToString(settings.socksPort))]
    {
      AddLog(Info, "Attempting to connect to Tor network...");
      settings := settings.(enabled := true);
      connected := true;
      SaveSettings(writeOk);
      AddLog(Success, "Successfully connected to Tor network");
      AddLog(Info, "SOCKS proxy: " + settings.socksHost + ":" + IntToString(settings.socksPort));
      ok := true;
    }

    /** Switches off and disconnects, but keeps the current circuit. */
    method Disable(writeOk: bool)
      requires Valid()
      modifies this`settings, this`connected, this`storedSettings, this`logs, this`storedLogs
      ensures Valid()
      ensures settings == old(settings).(enabled := false) && !connected
      ensures storedSettings == if writeOk then Some(settings) else old(storedSettings)
      ensures logs == old(logs) + (if writeOk then [] else [TorLog(Error, "Failed to save Tor settings")])
        + [TorLog(Info, "Disconnected from Tor network")]
    {
      settings := settings.(enabled := false);
      connected := false;
      SaveSettings(writeOk);
      AddLog(Info, "Disconnected from Tor network");
    }

    function IsEnabled(): (r: bool)
      reads this
      ensures r == settings.enabled
    {
      settings.enabled
    }

    function IsConnected(): (r: bool)
      reads this
      ensures r == connected
    {
      connected
    }

    /** A copy of the settings: every field as stored. */
    function GetSettings(): (r: TorSettings)
      reads this
      ensures r == settings
    {
      settings
    }

    /** Overwrites exactly the supplied fields; `connected` is not touched,
        even when `enabled` changes. */
    method UpdateSettings(update: PartialTorSettings, writeOk: bool)
      requires Valid()
      modifies this`settings, this`storedSettings, this`logs, this`storedLogs
      ensures Valid()
      ensures settings == Merge(old(settings), update)
      ensures storedSettings == if writeOk then Some(settings) else old(storedSettings)
      ensures logs == old(logs) + (if writeOk then [] else [TorLog(Error, "Failed to save Tor settings")])
        + [TorLog(Info, "Tor settings updated")]
    {
      settings := Merge(settings, update);
      SaveSettings(writeOk);
      AddLog(Info, "Tor settings updated");
    }

    /** Refuses when disabled, before anything is sent or logged; otherwise
        sends through the SOCKS endpoint and rethrows the transport's error. */
    method Request(url: string, options: RequestOptions, transport: Transport)
      returns (sent: Option<RequestConfig>, result: Result<Json>)
      requires Valid()
      modifies this`logs, this`storedLogs
      ensures Valid()
      ensures !settings.enabled ==> sent.None? && result == Err(NOT_ENABLED_REQUEST) && logs == old(logs)
      ensures settings.enabled ==> sent == Some(TorRequest(settings, url, options))
      ensures settings.enabled ==> logs == old(logs) + RequestLogs(url, transport)
      ensures settings.enabled ==>
        result == if transport.Delivered? then Ok(transport.response.data) else Err(transport.message)
    {
      if !settings.enabled {
        return None, Err(NOT_ENABLED_REQUEST);
      }
      sent := Some(TorRequest(settings, url, options));
      AddLog(Info, "Requesting: " + url);
      match transport {
        case Delivered(response) =>
          AddLog(Success, "Successfully fetched: " + url);
          result := Ok(response.data);
        case Failed(message, _) =>
          AddLog(Error, "Request failed: " + message);
          result := Err(message);
      }
    }

    /** Checks "enabled" and then the `.onion` suffix before any request;
        a failed request is reported as unreachable, not thrown. */
    method AccessOnionSite(onionUrl: string, transport: Transport, startTime: int, endTime: int)
      returns (sent: Option<RequestConfig>, result: Result<OnionSiteInfo>)
      requires Valid()
      modifies this`logs, this`storedLogs
      ensures Valid()
      ensures !settings.enabled ==> result == Err(NOT_ENABLED_ONION) && sent.None? && logs == old(logs)
      ensures settings.enabled && !EndsWith(onionUrl, ".onion") ==>
        result == Err(INVALID_ONION) && sent.None? && logs == old(logs)
      ensures settings.enabled && EndsWith(onionUrl, ".onion") ==>
        && sent == Some(TorRequest(settings, onionUrl, NO_OPTIONS.(verb := Some(Get))))
        && result == Ok(OnionSiteInfo(onionUrl, transport.Delivered?,
             if transport.Delivered? then Some(endTime - startTime) else None))
        && logs == old(logs) + [TorLog(Info, "Accessing .onion site: " + onionUrl)]
             + RequestLogs(onionUrl, transport)
             + if transport.Delivered? then [TorLog(Success, ".onion site reachable: " + onionUrl)]
               else [TorLog(Error, ".onion site unreachable: " + onionUrl)]
    {
      if !settings.enabled {
        return None, Err(NOT_ENABLED_ONION);
      }
      if !EndsWith(onionUrl, ".onion") {
        return None, Err(INVALID_ONION);
      }
      AddLog(Info, "Accessing .onion site: " + onionUrl);
      var reply;
      sent, reply := Request(onionUrl, NO_OPTIONS.(verb := Some(Get)), transport);
      if reply.Ok? {
        AddLog(Success, ".onion site reachable: " + onionUrl);
        result := Ok(OnionSiteInfo(onionUrl, true, Some(endTime - startTime)));
      } else {
        AddLog(Error, ".onion site unreachable: " + onionUrl);
        result := Ok(OnionSiteInfo(onionUrl, false, None));
      }
    }

    /** Refuses when disabled and keeps the old circuit; otherwise replaces it
        with a fresh established three-node circuit. */
    method NewCircuit(draw: CircuitDraw) returns (result: Result<()>)
      requires Valid()
      modifies this`currentCircuit, this`logs, this`storedLogs
      ensures Valid()
      ensures !settings.enabled ==>
        result == Err(NOT_ENABLED_CIRCUIT) && currentCircuit == old(currentCircuit) && logs == old(logs)
      ensures settings.enabled ==> result == Ok(())
      ensures settings.enabled ==> currentCircuit == Some(TorCircuitInfo(draw.circuitId,
        ["Node-" + draw.node1, "Node-" + draw.node2, "Node-" + draw.node3], "Exit-" + draw.exit, true))
      ensures settings.enabled ==>
        logs == old(logs) + [TorLog(Info, "Requesting new Tor circuit..."), TorLog(Success, "New Tor circuit established")]
    {
      if !settings.enabled {
        return Err(NOT_ENABLED_CIRCUIT);
      }
      AddLog(Info, "Requesting new Tor circuit...");
      currentCircuit := Some(TorCircuitInfo(draw.circuitId,
        ["Node-" + draw.node1, "Node-" + draw.node2, "Node-" + draw.node3], "Exit-" + draw.exit, true));
      AddLog(Success, "New Tor circuit established");
      result := Ok(());
    }

    /** A copy of the circuit, which always has three established nodes. */
    function GetCurrentCircuit(): (r: Option<TorCircuitInfo>)
      reads this
      requires Valid()
      ensures r == currentCircuit
      ensures r.Some? ==> |r.value.nodes| == 3 && r.value.established
    {
      currentCircuit
    }

    /** Without Tor it answers at once, with no request and no log entry. */
    method GetExitNodeIP(transport: Transport) returns (ip: string)
      requires Valid()
      modifies this`logs, this`storedLogs
      ensures Valid()
      ensures !settings.enabled ==> ip == "Tor not enabled" && logs == old(logs)
      ensures settings.enabled && transport.Delivered? && !transport.response.data.JNull? ==>
        ip == ExitIp(transport.response.data).value && logs == old(logs) + RequestLogs(CHECK_URL, transport)
      ensures settings.enabled && (transport.Failed? || transport.response.data.JNull?) ==> ip == "Unable to fetch"
      ensures settings.enabled && (transport.Failed? || transport.response.data.JNull?) ==>
        logs == old(logs) + RequestLogs(CHECK_URL, transport) + [TorLog(Warning, "Failed to fetch exit node IP")]
    {
      if !settings.enabled {
        return "Tor not enabled";
      }
      var sent, reply := Request(CHECK_URL, NO_OPTIONS, transport);
      var read := if reply.Ok? then ExitIp(reply.value) else Err(reply.message);
      if read.Ok? {
        ip := read.value;
      } else {
        AddLog(Warning, "Failed to fetch exit node IP");
        ip := "Unable to fetch";
      }
    }

    /** Without Tor it answers false at once, with no request and no log entry. */
    method VerifyTorConnection(transport: Transport) returns (isTor: bool)
      requires Valid()
      modifies this`logs, this`storedLogs
      ensures Valid()
      ensures !settings.enabled ==> !isTor && logs == old(logs)
      ensures settings.enabled ==> isTor == (transport.Delivered? && ReportsTor(transport.response.data) == Ok(true))
      ensures settings.enabled ==>
        logs == old(logs) + RequestLogs(CHECK_URL, transport)
          + if transport.Failed? || transport.response.data.JNull? then [TorLog(Error, "Failed to verify Tor connection")]
            else if isTor then [TorLog(Success, "Tor connection verified")]
            else [TorLog(Warning, "Not routing through Tor network")]
    {
      if !settings.enabled {
        return false;
      }
      var sent, reply := Request(CHECK_URL, NO_OPTIONS, transport);
      var read := if reply.Ok? then ReportsTor(reply.value) else Err(reply.message);
      if read.Ok? {
        isTor := read.value;
        if isTor {
          AddLog(Success, "Tor connection verified");
        } else {
          AddLog(Warning, "Not routing through Tor network");
        }
      } else {
        AddLog(Error, "Failed to verify Tor connection");
        isTor := false;
      }
    }

    function GetLogs(): (r: seq<TorLog>)
      reads this
      ensures r == logs
    {
      logs
    }

    method ClearLogs()
      requires Valid()
      modifies this`logs, this`storedLogs
      ensures Valid() && logs == [] && storedLogs == []
    {
      logs := [];
      storedLogs := [];
      assert |KeepLast(logs, LOG_LIMIT)| == 0;
    }

    function GetConnectionStatus(): (status: ConnectionStatus)
      reads this
      requires Valid()
      ensures status.enabled == settings.enabled && status.connected == connected
      ensures status.circuitActive <==> currentCircuit.Some?
    {
      ConnectionStatus(settings.enabled, connected, currentCircuit.Some? && currentCircuit.value.established)
    }
  }

  /** Scenario: disabling Tor after building a circuit leaves the status
      reporting an active circuit while Tor is off and disconnected, and a
      later `newCircuit` is refused. */
  method DisableKeepsCircuit(stored: TorSettings, draw: CircuitDraw) returns (status: ConnectionStatus, again: Result<()>)
    ensures !status.enabled && !status.connected && status.circuitActive
    ensures again == Err(NOT_ENABLED_CIRCUIT)
  {
    var tor := new TorService(Some(stored), []);
    var ok := tor.Enable(true);
    assert tor.settings.enabled;
    var made := tor.NewCircuit(draw);
    assert tor.currentCircuit.Some?;
    tor.Disable(true);
    assert !tor.settings.enabled && tor.currentCircuit.Some?;
    status := tor.GetConnectionStatus();
    again := tor.NewCircuit(draw);
  }

  lemma OnionSuffixExamples()
    ensures EndsWith("http://abc123.onion", ".onion")
    ensures !EndsWith("http://example.com", ".onion")
  {
  }
}
