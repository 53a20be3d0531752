/**
 * The gateway analyzer (backend/app/gateway_analyzer.py): an HTTP session
 * created on first use, one call to the gateway's REST API turned into text
 * whatever happens, the eight category reports built from those calls, and
 * the snapshot of a whole analysis.
 *
 * The network, `json.dumps`, the clock and `strftime` are parameters: an
 * `Environment` value supplies them, and the model states what the analyzer
 * does with whatever they return.
 */
module Gateway {
  import opened Wrappers
  import opened Strings
  import Config

  // ---------------------------------------------------------------------------
  // Requests, replies and the environment
  // ---------------------------------------------------------------------------

  /** A JSON value, as the gateway's API sends and receives it. */
  datatype Json =
    | JNull
    | JBool(b: bool)
    | JNumber(n: int)
    | JString(s: string)
    | JArray(items: seq<Json>)
    | JObject(members: seq<(string, Json)>)

  datatype Verb = Get | Post

  /** One HTTP request as the session sends it. */
  datatype Request = Request(
    verb: Verb,
    url: string,
    auth: (string, string),
    headers: Headers,
    params: seq<(string, string)>,
    body: Option<Payload>,
    timeout: nat)

  /** The JSON bodies the analyzer posts, by the values that vary from call to call. */
  datatype Payload =
    | HistoryQuery(mac: string, startTime: string, endTime: string)
    | GatewayInput(mac: string)

  /** A response body: JSON, or text the decoder refuses (with the decoder's message). */
  datatype Body = Parsed(json: Json) | Unparsable(decodeError: string)

  /** A response: status code, reason phrase, the final URL and the body. */
  datatype Response = Response(status: nat, reason: string, url: string, body: Body)

  /** The transport answers a request, or raises (refused connection, timeout, TLS failure, ...). */
  datatype Reply = Answered(response: Response) | Raised(error: string)

  /** What the analyzer takes from outside. */
  datatype Environment = Environment(
    send: Request -> Reply,          // the session's get/post
    dumps: (Json, nat) -> string,    // json.dumps(value, indent=n)
    utcText: int -> string,          // strftime('%Y-%m-%dT%H:%M:%S.000Z') of a UTC time in seconds
    utcNow: int,                     // datetime.now(timezone.utc), in seconds
    localNowIso: string)             // datetime.now().isoformat()

  /** The header set the analyzer sends: content and accepted type both `application/yang-data+json`. */
  datatype Headers = YangJson

  /** A GET sends the query parameters and no body; a POST sends the JSON body and no parameters. */
  function RequestFor(verb: Verb, url: string, auth: (string, string), params: seq<(string, string)>,
                      payload: Option<Payload>, timeout: nat): (r: Request)
    ensures r.verb == verb && r.url == url && r.auth == auth && r.headers == YangJson && r.timeout == timeout
    ensures verb == Get ==> r.params == params && r.body.None?
    ensures verb == Post ==> r.params == [] && r.body == payload
  {
    match verb
    case Get => Request(Get, url, auth, YangJson, params, None, timeout)
    case Post => Request(Post, url, auth, YangJson, [], payload, timeout)
  }

  // ---------------------------------------------------------------------------
  // One API call, as text (_api_call)
  // ---------------------------------------------------------------------------

  const NotAvailable: string := "\n[i] No disponible o error en la consulta: "
  const GeneralError: string := "\n[!] Error general: "
  const DetailsLabel: string := "\nDetalles: "

  /** The statuses for which `raise_for_status` raises. */
  predicate IsHttpError(status: nat) {
    400 <= status < 600
  }

  /** The text of the error `raise_for_status` raises. */
  function HttpErrorMessage(r: Response): string
    requires IsHttpError(r.status)
  {
    Decimal(r.status) + (if r.status < 500 then " Client Error: " else " Server Error: ") + r.reason + " for url: " + r.url
  }

  /** How a call ended, as the analyzer classifies it. */
  datatype CallKind = Data | Unavailable | Failed

  function ReplyKind(reply: Reply): CallKind {
    match reply
    case Raised(_) => Failed
    case Answered(r) =>
      if IsHttpError(r.status) then Unavailable
      else if r.body.Parsed? then Data
      else Failed
  }

  /**
   * The text `_api_call` returns: the pretty-printed data, the "[i]" text for
   * an HTTP error (with status, reason and details when the body decodes, the
   * error's own text otherwise), or the "[!]" text for anything else that
   * raises. It never raises itself and always starts a new line.
   */
  function CallText(reply: Reply, dumps: (Json, nat) -> string): (text: string)
    ensures |text| > 0 && text[0] == '\n'
  {
    assert NotAvailable[0] == GeneralError[0] == '\n';
    match reply
    case Raised(e) => GeneralError + e
    case Answered(r) =>
      if IsHttpError(r.status) then
        match r.body
        case Parsed(details) =>
          NotAvailable + (Decimal(r.status) + " " + r.reason + DetailsLabel + dumps(details, 2))
        case Unparsable(_) => NotAvailable + HttpErrorMessage(r)
      else
        match r.body
        case Parsed(j) => "\n" + dumps(j, 4)
        case Unparsable(e) => GeneralError + e
  }

  /** Whatever happens, the text starts a new line, and an error is marked "[i]" or "[!]" by its kind. */
  lemma CallTextShape(reply: Reply, dumps: (Json, nat) -> string)
    ensures var text := CallText(reply, dumps);
            |text| > 0 && text[0] == '\n' &&
            (ReplyKind(reply) == Unavailable ==> NotAvailable <= text) &&
            (ReplyKind(reply) == Failed ==> GeneralError <= text)
  {
    assert NotAvailable[0] == GeneralError[0] == '\n';
    var text := CallText(reply, dumps);
    match reply {
      case Raised(e) =>
        assert text == GeneralError + e;
      case Answered(r) =>
        if IsHttpError(r.status) {
          var rest := if r.body.Parsed? then Decimal(r.status) + " " + r.reason + DetailsLabel + dumps(r.body.json, 2)
                      else HttpErrorMessage(r);
          assert text == NotAvailable + rest;
        } else if r.body.Unparsable? {
          assert text == GeneralError + r.body.decodeError;
        }
    }
  }

  /**
   * What `json.dumps` gives for an array is "[]" or "[" and a newline, so
   * data text never starts like one of the two error markers.
   */
  predicate DumpsShape(d: string) {
    |d| >= 2 && d[0] == '[' ==> d[1] == '\n' || d[1] == ']'
  }

  /** Reading the marker at the head of a call's text. */
  function TextKind(text: string): CallKind {
    if NotAvailable <= text then Unavailable
    else if GeneralError <= text then Failed
    else Data
  }

  /** The text of a call tells which way the call ended. */
  lemma CallKindReadable(reply: Reply, dumps: (Json, nat) -> string)
    requires reply.Answered? && reply.response.body.Parsed? ==> DumpsShape(dumps(reply.response.body.json, 4))
    ensures TextKind(CallText(reply, dumps)) == ReplyKind(reply)
  {
    var text := CallText(reply, dumps);
    assert NotAvailable[1] == GeneralError[1] == '[';
    assert NotAvailable[2] == 'i' && GeneralError[2] == '!';
    if ReplyKind(reply) == Data {
      var d := dumps(reply.response.body.json, 4);
      assert text == "\n" + d;
      assert |text| > 2 ==> text[1] == d[0] && text[2] == d[1];
    }
  }

  /** The status code of an HTTP error whose body decodes can be read back from the text. */
  lemma StatusReadBack(reply: Reply, dumps: (Json, nat) -> string)
    requires reply.Answered? && IsHttpError(reply.response.status) && reply.response.body.Parsed?
    ensures var text := CallText(reply, dumps);
            var digits := Decimal(reply.response.status);
            |NotAvailable| + |digits| < |text| &&
            text[|NotAvailable| + |digits|] == ' ' &&
            DecimalValue(text[|NotAvailable|..|NotAvailable| + |digits|]) == reply.response.status
  {
    var r := reply.response;
    var digits := Decimal(r.status);
    var rest := " " + r.reason + DetailsLabel + dumps(r.body.json, 2);
    var text := CallText(reply, dumps);
    assert text == NotAvailable + (digits + rest);
    var n := |NotAvailable|;
    assert text[n..] == digits + rest;
    assert text[n..][..|digits|] == digits;
    assert text[n..n + |digits|] == text[n..][..|digits|];
    assert text[n + |digits|] == (digits + rest)[|digits|] == ' ';
    DecimalRoundTrip(r.status);
  }

  // ---------------------------------------------------------------------------
  // The eight categories
  // ---------------------------------------------------------------------------

  datatype Category =
    | BasicInfo | ConnectedDevices | PerformanceData | WifiBandInfo
    | GuestWifiInfo | DownstreamPorts | NeighboringSsids | SessionInfo

  /** The categories in the order the snapshot lists them. */
  const Categories: seq<Category> :=
    [BasicInfo, ConnectedDevices, PerformanceData, WifiBandInfo, GuestWifiInfo, DownstreamPorts, NeighboringSsids, SessionInfo]

  /** The snapshot key of each category. */
  function Key(c: Category): string {
    match c
    case BasicInfo => "basic_info"
    case ConnectedDevices => "connected_devices"
    case PerformanceData => "performance_data"
    case WifiBandInfo => "wifi_band_info"
    case GuestWifiInfo => "guest_wifi_info"
    case DownstreamPorts => "downstream_ports"
    case NeighboringSsids => "neighboring_ssids"
    case SessionInfo => "session_info"
  }

  /** The title in each category's banner. */
  function Title(c: Category): string {
    match c
    case BasicInfo => "INFORMACIÓN BÁSICA DEL GATEWAY"
    case ConnectedDevices => "DISPOSITIVOS CONECTADOS"
    case PerformanceData => "DATOS DE RENDIMIENTO"
    case WifiBandInfo => "CONFIGURACIÓN WIFI"
    case GuestWifiInfo => "WIFI INVITADOS"
    case DownstreamPorts => "PUERTOS LAN"
    case NeighboringSsids => "REDES VECINAS"
    case SessionInfo => "SESIONES ACTIVAS"
  }

  const HomeGatewayModule: string := "huawei-nce-resource-activation-configuration-home-gateway"
  const DataPath: string := "/restconf/v1/data/" + HomeGatewayModule + ":home-gateway/"
  const OperationsPath: string := "/restconf/v1/operations/" + HomeGatewayModule + ":"
  const PerformanceModule: string := "huawei-nce-homeinsight-performance-management"

  /** The path of each category's endpoint, appended to the gateway's base URL. */
  function Path(c: Category): string {
    match c
    case BasicInfo => DataPath + "home-gateway-info"
    case ConnectedDevices => DataPath + "sub-devices"
    case PerformanceData => "/restconf/v1/operations/" + PerformanceModule + ":query-history-pm-datas"
    case WifiBandInfo => DataPath + "wifi-band"
    case GuestWifiInfo => OperationsPath + "query-gateway-guest-ssid"
    case DownstreamPorts => OperationsPath + "query-gateway-downstream-port"
    case NeighboringSsids => DataPath + "neighbor-ssids"
    case SessionInfo => OperationsPath + "query-session-info"
  }

  /** The "data" categories read with GET; the "operations" categories POST a body. */
  function VerbOf(c: Category): Verb {
    match c
    case PerformanceData | GuestWifiInfo | DownstreamPorts | SessionInfo => Post
    case _ => Get
  }

  /** Seconds to wait: 20 for the performance history and the neighbour scan, 15 otherwise. */
  function Timeout(c: Category): nat {
    if c == PerformanceData || c == NeighboringSsids then 20 else 15
  }

  predicate IsDualBand(c: Category) {
    c == WifiBandInfo || c == NeighboringSsids
  }

  const Bands: seq<string> := ["2.4G", "5G"]

  function BandHeading(band: string): string {
    "\n--- Banda " + band + " ---"
  }

  const Rule: string := "================================================================================"

  /** The banner every category report starts with. */
  function Banner(title: string): string {
    "\n" + Rule + "\n===== " + title + " =====\n" + Rule
  }

  /** The one-hour history query of the performance category, ending now. */
  function PerformancePayload(mac: string, env: Environment): Payload {
    HistoryQuery(mac, env.utcText(env.utcNow - 3600), env.utcText(env.utcNow))
  }

  /** Where the analyzer sends its requests, and with which credentials. */
  datatype Access = Access(baseUrl: string, username: string, password: string)

  /** The request of a single-call category. */
  function SingleRequest(a: Access, c: Category, mac: string, env: Environment): (r: Request)
    ensures r.verb == VerbOf(c) && r.timeout == Timeout(c)
  {
    var url := a.baseUrl + Path(c);
    var auth := (a.username, a.password);
    match c
    case PerformanceData => RequestFor(Post, url, auth, [], Some(PerformancePayload(mac, env)), Timeout(c))
    case GuestWifiInfo | DownstreamPorts | SessionInfo => RequestFor(Post, url, auth, [], Some(GatewayInput(mac)), Timeout(c))
    case _ => RequestFor(Get, url, auth, [("mac", mac)], None, Timeout(c))
  }

  /** The request for one band of a dual-band category. */
  function BandRequest(a: Access, c: Category, mac: string, band: string): (r: Request)
    ensures r.verb == Get && r.params == [("mac", mac), ("radio-type", band)]
  {
    RequestFor(Get, a.baseUrl + Path(c), (a.username, a.password), [("mac", mac), ("radio-type", band)], None, Timeout(c))
  }

  function BandRequests(a: Access, c: Category, mac: string, bands: seq<string>): (rs: seq<Request>)
    ensures |rs| == |bands|
    ensures forall i :: 0 <= i < |bands| ==> rs[i] == BandRequest(a, c, mac, bands[i])
  {
    seq(|bands|, i requires 0 <= i < |bands| => BandRequest(a, c, mac, bands[i]))
  }

  /** The part of a dual-band report for one band: its heading, then its call text. */
  function BandText(a: Access, c: Category, mac: string, env: Environment, band: string): string {
    BandHeading(band) + CallText(env.send(BandRequest(a, c, mac, band)), env.dumps)
  }

  /** The parts of each band, in order. */
  function BandsText(a: Access, c: Category, mac: string, env: Environment, bands: seq<string>): string {
    if bands == [] then ""
    else BandsText(a, c, mac, env, bands[..|bands| - 1]) + BandText(a, c, mac, env, bands[|bands| - 1])
  }

  /** The requests a category report sends, in order. */
  function CategoryRequests(a: Access, c: Category, mac: string, env: Environment): seq<Request> {
    if IsDualBand(c) then BandRequests(a, c, mac, Bands) else [SingleRequest(a, c, mac, env)]
  }

  /** The text of a category report: its banner, then more, however its calls end. */
  function CategoryText(a: Access, c: Category, mac: string, env: Environment): (text: string)
    ensures Banner(Title(c)) <= text && |text| > |Banner(Title(c))|
  {
    if IsDualBand(c) then
      TwoBandTexts(a, c, mac, env, Bands);
      Banner(Title(c)) + BandsText(a, c, mac, env, Bands)
    else
      Banner(Title(c)) + CallText(env.send(SingleRequest(a, c, mac, env)), env.dumps)
  }

  /**
   * A dual-band report makes exactly two calls, 2.4G then 5G, and shows each
   * band's heading followed by that band's call text.
   */
  lemma DualBandLayout(a: Access, c: Category, mac: string, env: Environment)
    requires IsDualBand(c)
    ensures CategoryRequests(a, c, mac, env) == [BandRequest(a, c, mac, "2.4G"), BandRequest(a, c, mac, "5G")]
    ensures CategoryText(a, c, mac, env) ==
              Banner(Title(c)) + (BandText(a, c, mac, env, "2.4G") + BandText(a, c, mac, env, "5G"))
  {
    TwoBandRequests(a, c, mac, Bands);
    TwoBandTexts(a, c, mac, env, Bands);
  }

  /** Over two bands, the calls are the first band's call followed by the second's. */
  lemma TwoBandRequests(a: Access, c: Category, mac: string, bands: seq<string>)
    requires |bands| == 2
    ensures BandRequests(a, c, mac, bands) == [BandRequest(a, c, mac, bands[0]), BandRequest(a, c, mac, bands[1])]
  {
  }

  /** Over two bands, the text is the first band's part followed by the second's. */
  lemma TwoBandTexts(a: Access, c: Category, mac: string, env: Environment, bands: seq<string>)
    requires |bands| == 2
    ensures BandsText(a, c, mac, env, bands) == BandText(a, c, mac, env, bands[0]) + BandText(a, c, mac, env, bands[1])
  {
    var first := BandText(a, c, mac, env, bands[0]);
    assert BandsText(a, c, mac, env, bands[..1]) == first by {
      BandStep(a, c, mac, env, bands, 0);
      assert bands[..0] == [];
      EmptyThen(first);
    }
    assert bands[..2] == bands;
    BandStep(a, c, mac, env, bands, 1);
  }

  lemma EmptyThen(s: string)
    ensures "" + s == s
  {
  }

  lemma AppendAssociative<T>(a: seq<T>, b: seq<T>, c: seq<T>)
    ensures a + b + c == a + (b + c)
  {
  }

  lemma Associate(a: string, b: string, c: string, d: string)
    ensures a + b + c + d == a + (b + (c + d))
  {
  }

  /** One more band appends its heading and its call text, and its request. */
  lemma BandStep(a: Access, c: Category, mac: string, env: Environment, bands: seq<string>, i: nat)
    requires i < |bands|
    ensures BandsText(a, c, mac, env, bands[..i + 1]) == BandsText(a, c, mac, env, bands[..i]) + BandText(a, c, mac, env, bands[i])
    ensures BandRequests(a, c, mac, bands[..i + 1]) == BandRequests(a, c, mac, bands[..i]) + [BandRequest(a, c, mac, bands[i])]
  {
    assert bands[..i + 1][..i] == bands[..i];
  }

  /** Every request of a category carries the MAC: as a query parameter of a GET, in the body of a POST. */
  lemma MacIsSent(a: Access, c: Category, mac: string, env: Environment)
    ensures forall r :: r in CategoryRequests(a, c, mac, env) ==>
              (r.verb == Get && ("mac", mac) in r.params) || (r.verb == Post && r.body.Some? && r.body.value.mac == mac)
  {
    if IsDualBand(c) {
      DualBandLayout(a, c, mac, env);
    }
  }

  /** The performance query asks for the hour that ends at the moment of the call. */
  lemma PerformanceWindow(a: Access, mac: string, env: Environment)
    ensures SingleRequest(a, PerformanceData, mac, env).body ==
              Some(HistoryQuery(mac, env.utcText(env.utcNow - 3600), env.utcText(env.utcNow)))
  {
  }

  // ---------------------------------------------------------------------------
  // The snapshot of an analysis (analyze_gateway)
  // ---------------------------------------------------------------------------

  /** The snapshot of an analysis: an ordered dictionary from key to text. */
  type Snapshot = seq<(string, string)>

  /** The keys of a snapshot, in order. */
  function Keys(d: Snapshot): seq<string> {
    seq(|d|, i requires 0 <= i < |d| => d[i].0)
  }

  /** A snapshot: the MAC, the local time, then each category's key with its report, in category order. */
  function SnapshotFrom(mac: string, timestamp: string, reports: seq<string>): Snapshot
    requires |reports| == |Categories|
  {
    [("mac_address", mac), ("timestamp", timestamp)] +
    seq(|Categories|, i requires 0 <= i < |Categories| => (Key(Categories[i]), reports[i]))
  }

  /** Spelled out, a snapshot holds these ten keys, in this order. */
  lemma SnapshotKeys(mac: string, timestamp: string, reports: seq<string>)
    requires |reports| == |Categories|
    ensures SnapshotFrom(mac, timestamp, reports) ==
              [("mac_address", mac), ("timestamp", timestamp),
               ("basic_info", reports[0]), ("connected_devices", reports[1]),
               ("performance_data", reports[2]), ("wifi_band_info", reports[3]),
               ("guest_wifi_info", reports[4]), ("downstream_ports", reports[5]),
               ("neighboring_ssids", reports[6]), ("session_info", reports[7])]
  {
  }

  /** The eight category reports of an analysis, in category order. */
  function CategoryTexts(a: Access, mac: string, env: Environment): seq<string> {
    [CategoryText(a, BasicInfo, mac, env), CategoryText(a, ConnectedDevices, mac, env),
     CategoryText(a, PerformanceData, mac, env), CategoryText(a, WifiBandInfo, mac, env),
     CategoryText(a, GuestWifiInfo, mac, env), CategoryText(a, DownstreamPorts, mac, env),
     CategoryText(a, NeighboringSsids, mac, env), CategoryText(a, SessionInfo, mac, env)]
  }

  /** The keys of an analysis snapshot, in order. */
  const AnalysisKeys: seq<string> :=
    ["mac_address", "timestamp", "basic_info", "connected_devices", "performance_data",
     "wifi_band_info", "guest_wifi_info", "downstream_ports", "neighboring_ssids", "session_info"]

  /** Whatever the reports, a snapshot has the analysis keys in their order, each category's report under its key. */
  lemma SnapshotKeyOrder(mac: string, timestamp: string, reports: seq<string>)
    requires |reports| == |Categories|
    ensures var d := SnapshotFrom(mac, timestamp, reports);
            Keys(d) == AnalysisKeys && d[0].1 == mac && d[1].1 == timestamp &&
            forall i :: 0 <= i < |Categories| ==> d[i + 2] == (Key(Categories[i]), reports[i])
  {
    SnapshotKeys(mac, timestamp, reports);
  }

  /**
   * The snapshot `analyze_gateway` returns: the analysis keys in order, the
   * MAC and the local time first, and each category's report under its key.
   */
  function SnapshotOf(a: Access, mac: string, env: Environment): (d: Snapshot)
    ensures Keys(d) == AnalysisKeys
    ensures d[0].1 == mac && d[1].1 == env.localNowIso
    ensures forall i :: 0 <= i < |Categories| ==> d[i + 2] == (Key(Categories[i]), CategoryTexts(a, mac, env)[i])
  {
    var reports := CategoryTexts(a, mac, env);
    SnapshotKeyOrder(mac, env.localNowIso, reports);
    SnapshotFrom(mac, env.localNowIso, reports)
  }

  /** The requests of a whole analysis, category by category. */
  function AnalysisRequests(a: Access, mac: string, env: Environment): seq<Request> {
    CategoryRequests(a, BasicInfo, mac, env) + CategoryRequests(a, ConnectedDevices, mac, env)
    + CategoryRequests(a, PerformanceData, mac, env) + CategoryRequests(a, WifiBandInfo, mac, env)
    + CategoryRequests(a, GuestWifiInfo, mac, env) + CategoryRequests(a, DownstreamPorts, mac, env)
    + CategoryRequests(a, NeighboringSsids, mac, env) + CategoryRequests(a, SessionInfo, mac, env)
  }

  /** Each category has its own key, and none is one of the two leading keys: the snapshot's keys are distinct. */
  lemma KeysDistinct(c: Category, d: Category)
    ensures Key(c) == Key(d) <==> c == d
    ensures Key(c) != "mac_address" && Key(c) != "timestamp"
  {
    if c != d {
      assert |Key(c)| != |Key(d)| || Key(c)[0] != Key(d)[0];
    }
  }

  /** An analysis of one gateway sends ten requests: one per category and two for each dual-band one. */
  lemma AnalysisSendsTen(a: Access, mac: string, env: Environment)
    ensures |AnalysisRequests(a, mac, env)| == 10
  {
    DualBandLayout(a, WifiBandInfo, mac, env);
    DualBandLayout(a, NeighboringSsids, mac, env);
  }

  // ---------------------------------------------------------------------------
  // The analyzer
  // ---------------------------------------------------------------------------

  /** A `requests` session: the credentials it sends on every request. */
  class HttpSession {
    var auth: Option<(string, string)>

    constructor()
      ensures auth.None?
    {
      auth := None;
    }
  }

  class GatewayAnalyzer {
    const baseUrl: string
    const username: string
    const password: string
    var session: HttpSession?
    var headers: Option<Headers>
    /** Every request sent so far, in order. */
    ghost var sent: seq<Request>

    /** The session and the headers are created together, with the analyzer's credentials. */
    ghost predicate Valid()
      reads this, session
    {
      (session == null <==> headers.None?) &&
      (session != null ==> session.auth == Some((username, password)) && headers == Some(YangJson))
    }

    function Target(): Access {
      Access(baseUrl, username, password)
    }

    /** The analyzer starts with no session, pointed at the configured gateway. */
    constructor(settings: Config.Settings)
      ensures Valid() && session == null && sent == []
      ensures Target() == Access(settings.gatewayBaseUrl, settings.gatewayUsername, settings.gatewayPassword)
    {
      baseUrl := settings.gatewayBaseUrl;
      username := settings.gatewayUsername;
      password := settings.gatewayPassword;
      session := null;
      headers := None;
      sent := [];
    }

    /** `_get_session`: the first call creates the session and the headers; every later call returns that same session. */
    method GetSession() returns (s: HttpSession)
      requires Valid()
      modifies this
      ensures Valid() && session == s && sent == old(sent)
      ensures old(session) == null ==> fresh(s)
      ensures old(session) != null ==> s == old(session) && headers == old(headers)
    {
      if session == null {
        var created := new HttpSession();
        created.auth := Some((username, password));
        session := created;
        headers := Some(YangJson);
      }
      s := session;
    }

    /** `_api_call`: one request through the session, its outcome turned into text. */
    method ApiCall(url: string, verb: Verb, params: seq<(string, string)>, payload: Option<Payload>, timeout: nat,
                   env: Environment) returns (text: string)
      requires Valid()
      modifies this
      ensures Valid() && session != null && (old(session) != null ==> session == old(session))
      ensures sent == old(sent) + [RequestFor(verb, url, (username, password), params, payload, timeout)]
      ensures text == CallText(env.send(RequestFor(verb, url, (username, password), params, payload, timeout)), env.dumps)
    {
      var s := GetSession();
      var request := Request(verb, url, s.auth.value, headers.value,
                             if verb == Get then params else [],
                             if verb == Get then None else payload, timeout);
      sent := sent + [request];
      var reply := env.send(request);
      text := CallText(reply, env.dumps);
    }

    /**
     * `get_basic_info` ... `get_session_info`: the banner, then either one
     * call, or for the two dual-band categories a heading and a call per band.
     */
    method CategoryReport(c: Category, mac: string, env: Environment) returns (text: string)
      requires Valid()
      modifies this
      ensures Valid() && session != null && (old(session) != null ==> session == old(session))
      ensures text == CategoryText(Target(), c, mac, env)
      ensures sent == old(sent) + CategoryRequests(Target(), c, mac, env)
    {
      if IsDualBand(c) {
        text := DualBandReport(c, mac, env);
      } else {
        text := Banner(Title(c));
        var url := baseUrl + Path(c);
        var part;
        match c {
          case PerformanceData =>
            part := ApiCall(url, Post, [], Some(PerformancePayload(mac, env)), 20, env);
          case GuestWifiInfo | DownstreamPorts | SessionInfo =>
            part := ApiCall(url, Post, [], Some(GatewayInput(mac)), 15, env);
          case BasicInfo | ConnectedDevices =>
            part := ApiCall(url, Get, [("mac", mac)], None, 15, env);
        }
        assert part == CallText(env.send(SingleRequest(Target(), c, mac, env)), env.dumps);
        text := text + part;
      }
    }

    /** `get_wifi_band_info` and `get_neighboring_ssids`: the banner, then for each band its heading and its call. */
    method DualBandReport(c: Category, mac: string, env: Environment) returns (text: string)
      requires Valid() && IsDualBand(c)
      modifies this
      ensures Valid() && session != null && (old(session) != null ==> session == old(session))
      ensures text == Banner(Title(c)) + BandsText(Target(), c, mac, env, Bands)
      ensures sent == old(sent) + BandRequests(Target(), c, mac, Bands)
    {
      var url := baseUrl + Path(c);
      text := Banner(Title(c));
      ghost var banner := text;
      ghost var session0 := session;
      ghost var sent0 := sent;
      for i := 0 to |Bands|
        invariant Valid() && (i > 0 ==> session != null) && (session0 != null ==> session == session0)
        invariant text == banner + BandsText(Target(), c, mac, env, Bands[..i])
        invariant sent == sent0 + BandRequests(Target(), c, mac, Bands[..i])
      {
        BandStep(Target(), c, mac, env, Bands, i);
        ghost var before := BandsText(Target(), c, mac, env, Bands[..i]);
        var heading := BandHeading(Bands[i]);
        text := text + heading;
        var part := ApiCall(url, Get, [("mac", mac), ("radio-type", Bands[i])], None, Timeout(c), env);
        assert heading + part == BandText(Target(), c, mac, env, Bands[i]);
        Associate(banner, before, heading, part);
        text := text + part;
      }
      assert Bands[..|Bands|] == Bands;
    }

    /** `analyze_gateway`: the MAC, the local time, then the eight reports in order. */
    method AnalyzeGateway(mac: string, incluirEventos: bool, env: Environment) returns (datos: Snapshot)
      requires Valid()
      modifies this
      ensures Valid() && session != null && (old(session) != null ==> session == old(session))
      ensures datos == SnapshotOf(Target(), mac, env)
      ensures sent == old(sent) + AnalysisRequests(Target(), mac, env)
    {
      ghost var sent0 := sent;
      var basicInfo := CategoryReport(BasicInfo, mac, env);
      ghost var done := CategoryRequests(Target(), BasicInfo, mac, env);
      assert sent == sent0 + done;
      var connectedDevices := CategoryReport(ConnectedDevices, mac, env);
      AppendAssociative(sent0, done, CategoryRequests(Target(), ConnectedDevices, mac, env));
      done := done + CategoryRequests(Target(), ConnectedDevices, mac, env);
      assert sent == sent0 + done;
      var performanceData := CategoryReport(PerformanceData, mac, env);
      AppendAssociative(sent0, done, CategoryRequests(Target(), PerformanceData, mac, env));
      done := done + CategoryRequests(Target(), PerformanceData, mac, env);
      assert sent == sent0 + done;
      var wifiBandInfo := CategoryReport(WifiBandInfo, mac, env);
      AppendAssociative(sent0, done, CategoryRequests(Target(), WifiBandInfo, mac, env));
      done := done + CategoryRequests(Target(), WifiBandInfo, mac, env);
      assert sent == sent0 + done;
      var guestWifiInfo := CategoryReport(GuestWifiInfo, mac, env);
      AppendAssociative(sent0, done, CategoryRequests(Target(), GuestWifiInfo, mac, env));
      done := done + CategoryRequests(Target(), GuestWifiInfo, mac, env);
      assert sent == sent0 + done;
      var downstreamPorts := CategoryReport(DownstreamPorts, mac, env);
      AppendAssociative(sent0, done, CategoryRequests(Target(), DownstreamPorts, mac, env));
      done := done + CategoryRequests(Target(), DownstreamPorts, mac, env);
      assert sent == sent0 + done;
      var neighboringSsids := CategoryReport(NeighboringSsids, mac, env);
      AppendAssociative(sent0, done, CategoryRequests(Target(), NeighboringSsids, mac, env));
      done := done + CategoryRequests(Target(), NeighboringSsids, mac, env);
      assert sent == sent0 + done;
      var sessionInfo := CategoryReport(SessionInfo, mac, env);
      AppendAssociative(sent0, done, CategoryRequests(Target(), SessionInfo, mac, env));
      done := done + CategoryRequests(Target(), SessionInfo, mac, env);
      assert sent == sent0 + done;
      datos := [("mac_address", mac), ("timestamp", env.localNowIso),
                ("basic_info", basicInfo), ("connected_devices", connectedDevices),
                ("performance_data", performanceData), ("wifi_band_info", wifiBandInfo),
                ("guest_wifi_info", guestWifiInfo), ("downstream_ports", downstreamPorts),
                ("neighboring_ssids", neighboringSsids), ("session_info", sessionInfo)];
      ghost var reports := [basicInfo, connectedDevices, performanceData, wifiBandInfo,
                            guestWifiInfo, downstreamPorts, neighboringSsids, sessionInfo];
      assert reports == CategoryTexts(Target(), mac, env);
      SnapshotKeys(mac, env.localNowIso, reports);
    }
  }
}
