/**
 * The DNSMasq API client (pkg/client/client.go): normalising the base address,
 * building each call's request, the status gate and the decoding of the reply.
 *
 * The network is a parameter: a `Transport` maps the one request a call sends to
 * the reply it gets. `url.Parse` is a parameter too, seen only through what the
 * client asks of it: did it fail, and which port did it find. JSON decoding is
 * abstracted into the `Payload` a body decodes to.
 */
module ApiClient {

  import opened Wrappers
  import opened Strings
  import Format

  const StatusOK := 200
  const JsonContentType := "application/json"
  /** The provider's port field, named by the error for an address that already has a port. */
  const FieldProviderApiPort := "api_port"

  /** One hostname-to-IP binding as the API reports it. */
  datatype DNSRecord = DNSRecord(hostname: string, ip: string)

  /** The kinds of error the client returns; the formatted messages are not modelled. */
  datatype ClientError =
    | InvalidApiUrl
    | ApiUrlHasPort(field: string)
    | HostnameRequired
    | HostnameAndIpRequired
    | RequestFailed
    | BadStatus(status: int)
    | UnexpectedContentType(contentType: string)
    | MalformedBody

  datatype Severity = Warning | Error

  datatype Cause = LacksProtocol | Failed(err: ClientError)

  /** A provider diagnostic: a severity and what it reports. */
  datatype Diagnostic = Diagnostic(severity: Severity, cause: Cause)

  /** The "URL Lacks Protocol" warning. */
  const LacksProtocolWarning := Diagnostic(Warning, LacksProtocol)

  /** `diag.FromErr`: an error becomes one error diagnostic. */
  function FromErr(e: ClientError): Diagnostic {
    Diagnostic(Error, Failed(e))
  }

  /** What `url.Parse` tells the client: a parse error, or the port the URL carries ("" for none). */
  datatype ParsedUrl = ParseFailed | Parsed(port: string)

  /** The client: the address every route is appended to, and whether TLS certificates are checked. */
  datatype Client = Client(apiAddress: string, sslVerify: bool)

  /** What NewClient returns: a client or none, and its diagnostics. */
  datatype Construction = Construction(client: Option<Client>, diags: seq<Diagnostic>)

  /** Whether a URL names its scheme: `http` and an optional `s`, then `://`. */
  predicate HasScheme(url: string)
    ensures HasScheme(url) <==>
              |url| >= 7 && url[..4] == "http" && (url[4..7] == "://" || (|url| >= 8 && url[4..8] == "s://"))
  {
    HasPrefix(url, "http://") || HasPrefix(url, "https://")
  }

  /** The URL NewClient goes on with: unchanged when it has a scheme, otherwise `https://` in front. */
  function WithScheme(url: string): (u: string)
    ensures HasScheme(u)
    ensures u == url <==> HasScheme(url)
    ensures !HasScheme(url) ==> u == "https://" + url
  {
    if HasScheme(url) then url
    else
      PrefixOfConcat("https://", url, "https://");
      "https://" + url
  }

  lemma SchemeOfConcat(url: string, tail: string)
    requires HasScheme(url)
    ensures HasScheme(url + tail)
  {
  }

  /**
   * NewClient: add a missing scheme (with a warning), refuse an address that cannot be
   * parsed or that already has a port, then append `:port` when a port was given.
   */
  function NewClient(apiURL: string, apiPort: int, sslVerify: bool, parse: string -> ParsedUrl): (r: Construction)
    ensures r.client.Some? <==> parse(WithScheme(apiURL)) == Parsed("")
    ensures r.client.Some? ==> r.diags == if HasScheme(apiURL) then [] else [LacksProtocolWarning]
    ensures r.client.Some? ==> r.client.value.sslVerify == sslVerify
    ensures r.client.Some? ==> HasScheme(r.client.value.apiAddress)
    ensures r.client.Some? && apiPort == 0 ==> r.client.value.apiAddress == WithScheme(apiURL)
    ensures r.client.Some? && apiPort != 0 ==>
              r.client.value.apiAddress == WithScheme(apiURL) + ":" + Format.Decimal(apiPort)
    ensures parse(WithScheme(apiURL)).ParseFailed? ==> r == Construction(None, [FromErr(InvalidApiUrl)])
    ensures parse(WithScheme(apiURL)).Parsed? && parse(WithScheme(apiURL)).port != "" ==>
              r == Construction(None, [FromErr(ApiUrlHasPort("api_port"))])
  {
    var diags := if HasScheme(apiURL) then [] else [LacksProtocolWarning];
    var url := WithScheme(apiURL);
    match parse(url)
    case ParseFailed => Construction(None, [FromErr(InvalidApiUrl)])
    case Parsed(port) =>
      if port != "" then Construction(None, [FromErr(ApiUrlHasPort(FieldProviderApiPort))])
      else
        var apiAddress := if apiPort != 0 then url + ":" + Format.Decimal(apiPort) else url;
        SchemeOfConcat(url, if apiPort != 0 then ":" + Format.Decimal(apiPort) else "");
        assert apiAddress == url + (if apiPort != 0 then ":" + Format.Decimal(apiPort) else "");
        Construction(Some(Client(apiAddress, sslVerify)), diags)
  }

  /** The port read back from an address: the numeral after its last colon, if there is one. */
  function PortOf(address: string): Option<int> {
    match SplitLast(address, ':')
    case None => None
    case Some((_, port)) => Format.ParseDecimal(port)
  }

  /**
   * With a non-zero port, the numeral after the last colon of the client's address is the
   * port's `%d`, and it reads back as the port.
   */
  lemma NewClientAddressCarriesPort(apiURL: string, apiPort: int, sslVerify: bool, parse: string -> ParsedUrl)
    requires NewClient(apiURL, apiPort, sslVerify, parse).client.Some?
    requires apiPort != 0
    ensures SplitLast(NewClient(apiURL, apiPort, sslVerify, parse).client.value.apiAddress, ':')
            == Some((WithScheme(apiURL), Format.Decimal(apiPort)))
    ensures PortOf(NewClient(apiURL, apiPort, sslVerify, parse).client.value.apiAddress) == Some(apiPort)
  {
    var digits := Format.Decimal(apiPort);
    assert WithScheme(apiURL) + ":" + digits == WithScheme(apiURL) + [':'] + digits;
    SplitLastJoin(WithScheme(apiURL), ':', digits);
    Format.DecimalRoundTrip(apiPort);
  }

  /**
   * The port is appended after the whole URL, path included: an address with a path gets
   * the port after its path, not after its host.
   */
  lemma NewClientPortAfterPath()
    ensures NewClient("https://h/v1", 8080, true, _ => Parsed("")).client.value.apiAddress == "https://h/v1:8080"
  {
    assert Format.Decimal(8080) == "8080";
  }

  // Routes

  const ListRoute := "dns"

  /**
   * The route of one hostname's entries: the hostname, unescaped, after `dns/`; it lies under
   * the list route.
   */
  function EntryRoute(hostname: string): (r: string)
    ensures |r| == 4 + |hostname| && r[..4] == "dns/" && r[4..] == hostname
    ensures r == ListRoute + "/" + hostname
  {
    "dns/" + hostname
  }

  /** The route PostDNSEntry posts to: the entry route, with `?append=true` when appending. */
  function PostRoute(hostname: string, append: bool): (r: string)
    ensures HasPrefix(r, EntryRoute(hostname))
    ensures r[|EntryRoute(hostname)|..] == if append then "?append=true" else ""
  {
    EntryRoute(hostname) + if append then "?append=true" else ""
  }

  /** A URL's path and its query string, split at the first `?`. */
  function SplitQuery(url: string): (string, string) {
    match SplitFirst(url, '?')
    case None => (url, "")
    case Some((path, query)) => (path, query)
  }

  /**
   * Against an address and a hostname without `?`, the API sees the path `<address>/dns/<hostname>`
   * and the query `append=true` exactly when appending.
   */
  lemma PostUrlQuery(address: string, hostname: string, append: bool)
    requires '?' !in address && '?' !in hostname
    ensures SplitQuery(address + "/" + PostRoute(hostname, append))
            == (address + "/dns/" + hostname, if append then "append=true" else "")
  {
    var path := address + "/dns/" + hostname;
    assert address + "/" + PostRoute(hostname, append) == path + if append then "?append=true" else "";
    assert '?' !in "/dns/";
    if append {
      assert path + "?append=true" == path + ['?'] + "append=true";
      SplitFirstJoin(path, '?', "append=true");
    } else {
      assert path + "" == path;
      assert IndexOf(path, '?') < 0;
    }
  }

  /** A hostname with `?append=true` in it posts to the very route of an appending post. */
  lemma PostRouteAmbiguousHostname()
    ensures PostRoute("a?append=true", false) == PostRoute("a", true)
  {
  }

  // Requests and replies

  datatype Method = Get | Post | Delete

  /** The body PostDNSEntry sends: the list of IPs for the hostname. */
  datatype SetRecordRequest = SetRecordRequest(ips: seq<string>)

  /** The request doRequest sends: HTTP verb, URL, optional JSON body, Content-Type header, TLS policy. */
  datatype Request = Request(
    verb: Method,
    url: string,
    body: Option<SetRecordRequest>,
    contentType: Option<string>,
    verifyTls: bool)

  /** What a response body decodes to as a JSON list of records. */
  datatype Payload = Malformed | Records(records: seq<DNSRecord>)

  /**
   * A response as decodeDNSRecords sees it: status, Content-Type header ("" when absent) and
   * body. A nil body (None) only occurs in a response built by hand; one that `client.Do`
   * returns always has a body.
   */
  datatype Response = Response(status: int, contentType: string, body: Option<Payload>)

  /**
   * What the transport yields: no response at all, or a response with its status, its
   * Content-Type header and its body. An empty body is `Malformed` (decoding it fails).
   */
  datatype Reply = TransportFailed | Replied(status: int, contentType: string, payload: Payload)
  {
    /** The response a reply carries, with its (always present) body. */
    function Received(): (res: Response)
      requires Replied?
      ensures res.status == status && res.contentType == contentType && res.body == Some(payload)
    {
      Response(status, contentType, Some(payload))
    }
  }

  type Transport = Request -> Reply

  /** The request for a verb, route and optional body. */
  function BuildRequest(c: Client, verb: Method, route: string, body: Option<SetRecordRequest>): (req: Request)
    ensures req.verb == verb && req.body == body
    ensures req.url == c.apiAddress + "/" + route
    ensures req.contentType.Some? <==> body.Some?
    ensures req.contentType.Some? ==> req.contentType.value == JsonContentType
    ensures req.verifyTls == c.sslVerify
  {
    var contentType := if body.Some? then Some(JsonContentType) else None;
    Request(verb, c.apiAddress + "/" + route, body, contentType, c.sslVerify)
  }

  /** doRequest: send one request; only a response with status 200 is accepted. */
  function DoRequest(c: Client, verb: Method, route: string, body: Option<SetRecordRequest>, transport: Transport)
    : (r: Result<Response, ClientError>)
    ensures var reply := transport(BuildRequest(c, verb, route, body));
      && (r.Success? <==> reply.Replied? && reply.status == StatusOK)
      && (r.Success? ==> r.value == reply.Received() && r.value.body.Some?)
      && (reply.TransportFailed? ==> r == Failure(RequestFailed))
      && (reply.Replied? && reply.status != StatusOK ==> r == Failure(BadStatus(reply.status)))
  {
    match transport(BuildRequest(c, verb, route, body))
    case TransportFailed => Failure(RequestFailed)
    case Replied(status, contentType, payload) =>
      if status != StatusOK then Failure(BadStatus(status))
      else Success(Response(status, contentType, Some(payload)))
  }

  /**
   * decodeDNSRecords: a nil body is no records; otherwise the Content-Type must be exactly
   * `application/json` and the body's first JSON value must decode to a list (anything after
   * it is not read).
   */
  function DecodeRecords(res: Response): (r: Result<seq<DNSRecord>, ClientError>)
    ensures res.body.None? ==> r == Success([])
    ensures res.body.Some? && res.contentType != JsonContentType ==> r == Failure(UnexpectedContentType(res.contentType))
    ensures res.body == Some(Malformed) && res.contentType == JsonContentType ==> r == Failure(MalformedBody)
    ensures res.body.Some? && res.body.value.Records? && res.contentType == JsonContentType ==>
              r == Success(res.body.value.records)
    ensures r.Success? ==> res.body.None? || (res.contentType == JsonContentType && res.body == Some(Records(r.value)))
  {
    match res.body
    case None => Success([])
    case Some(payload) =>
      if res.contentType == JsonContentType then
        match payload
        case Malformed => Failure(MalformedBody)
        case Records(entries) => Success(entries)
      else Failure(UnexpectedContentType(res.contentType))
  }

  /**
   * The records a call obtains from the reply to its request: any status but 200 is an error
   * and the body is then never decoded; a 200 reply is accepted exactly when its body is a
   * JSON list, and the result is then that whole list.
   */
  function Interpret(reply: Reply): (r: Result<seq<DNSRecord>, ClientError>)
    ensures reply.TransportFailed? ==> r == Failure(RequestFailed)
    ensures reply.Replied? && reply.status != StatusOK ==> r == Failure(BadStatus(reply.status))
    ensures reply.Replied? && reply.status == StatusOK ==> r == DecodeRecords(reply.Received())
    ensures r.Success? <==>
              reply.Replied? && reply.status == StatusOK && reply.contentType == JsonContentType && reply.payload.Records?
    ensures r.Success? ==> r.value == reply.payload.records
  {
    match reply
    case TransportFailed => Failure(RequestFailed)
    case Replied(status, _, _) => if status != StatusOK then Failure(BadStatus(status)) else DecodeRecords(reply.Received())
  }

  // The four operations

  /** DeleteDNSEntry: no request for an empty hostname; otherwise DELETE `dns/<hostname>`, body ignored. */
  function DeleteDNSEntry(c: Client, hostname: string, transport: Transport): (r: Option<ClientError>)
    ensures hostname == "" ==> r == Some(HostnameRequired)
    ensures hostname != "" ==>
      var reply := transport(Request(Delete, c.apiAddress + "/dns/" + hostname, None, None, c.sslVerify));
      && (r.None? <==> reply.Replied? && reply.status == StatusOK)
      && (reply.TransportFailed? ==> r == Some(RequestFailed))
      && (reply.Replied? && reply.status != StatusOK ==> r == Some(BadStatus(reply.status)))
  {
    if hostname == "" then Some(HostnameRequired)
    else
      assert BuildRequest(c, Delete, EntryRoute(hostname), None)
          == Request(Delete, c.apiAddress + "/dns/" + hostname, None, None, c.sslVerify);
      match DoRequest(c, Delete, EntryRoute(hostname), None, transport)
      case Failure(e) => Some(e)
      case Success(_) => None
  }

  /** GetAllDNSEntries: GET `dns`. */
  function GetAllDNSEntries(c: Client, transport: Transport): (r: Result<seq<DNSRecord>, ClientError>)
    ensures r == Interpret(transport(Request(Get, c.apiAddress + "/dns", None, None, c.sslVerify)))
  {
    assert BuildRequest(c, Get, ListRoute, None) == Request(Get, c.apiAddress + "/dns", None, None, c.sslVerify);
    match DoRequest(c, Get, ListRoute, None, transport)
    case Failure(e) => Failure(e)
    case Success(res) => DecodeRecords(res)
  }

  /** GetDNSEntry: no request for an empty hostname; otherwise GET `dns/<hostname>`. */
  function GetDNSEntry(c: Client, hostname: string, transport: Transport): (r: Result<seq<DNSRecord>, ClientError>)
    ensures hostname == "" ==> r == Failure(HostnameRequired)
    ensures hostname != "" ==>
      r == Interpret(transport(Request(Get, c.apiAddress + "/dns/" + hostname, None, None, c.sslVerify)))
  {
    if hostname == "" then Failure(HostnameRequired)
    else
      assert BuildRequest(c, Get, EntryRoute(hostname), None)
          == Request(Get, c.apiAddress + "/dns/" + hostname, None, None, c.sslVerify);
      match DoRequest(c, Get, EntryRoute(hostname), None, transport)
      case Failure(e) => Failure(e)
      case Success(res) => DecodeRecords(res)
  }

  /**
   * PostDNSEntry: no request unless both hostname and ip are given; otherwise POST the one ip
   * as JSON to `dns/<hostname>`, with `?append=true` when appending.
   */
  function PostDNSEntry(c: Client, hostname: string, ip: string, append: bool, transport: Transport)
    : (r: Result<seq<DNSRecord>, ClientError>)
    ensures hostname == "" || ip == "" ==> r == Failure(HostnameAndIpRequired)
    ensures hostname != "" && ip != "" ==>
      r == Interpret(transport(Request(
        Post,
        c.apiAddress + "/dns/" + hostname + (if append then "?append=true" else ""),
        Some(SetRecordRequest([ip])),
        Some("application/json"),
        c.sslVerify)))
  {
    if hostname == "" || ip == "" then Failure(HostnameAndIpRequired)
    else
      var body := SetRecordRequest([ip]);
      assert c.apiAddress + "/" + PostRoute(hostname, append)
          == c.apiAddress + "/dns/" + hostname + (if append then "?append=true" else "");
      match DoRequest(c, Post, PostRoute(hostname, append), Some(body), transport)
      case Failure(e) => Failure(e)
      case Success(res) => DecodeRecords(res)
  }
}
