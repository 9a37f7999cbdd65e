/** The single-attempt notification sender: `httpRequestInit`,
    `httpRequestSendWithCurl` and the handle check of `httpRequestSend`
    (src/lib/rest/httpRequestSend.cpp). curl is replaced by the request it
    would be handed and by an `Exchange` standing for what the network does. */
module HttpRequestSend {
  import opened Options
  import opened Strings
  import opened Headers
  import opened ResponseBuffers
  import opened Transport

  /** `unsigned short`. */
  type Port = p: int | 0 <= p < 0x1_0000

  /** The arguments of one notification; `extraHeaders` holds the extra
      headers in iteration order (any sequence: a `std::map` is the case
      `IsHeaderMap` describes). */
  datatype Notification = Notification(
    ip: string, port: Port, protocol: string, verb: string,
    tenant: string, servicePath: string, xauthToken: string, resource: string,
    contentType: string, content: string, fiwareCorrelation: string,
    attrsFormat: string, useRush: bool, waitForResponse: bool,
    extraHeaders: seq<Header>, acceptFormat: string, timeoutMs: int)

  /** Process-wide values the sender reads but does not own: the relay
      address, `MAX_DYN_MSG_SIZE` and the User-Agent value
      (`orion/<version> libcurl/<version>`). */
  datatype Config = Config(rushHost: string, rushPort: Port, maxDynMsgSize: int, userAgent: string)

  /** What curl is asked to do: URL, verb, header list, body and the
      `CURLOPT_TIMEOUT_MS` value, if one is set. */
  datatype CurlRequest = CurlRequest(url: string, verb: string, headers: seq<Header>,
                                     body: string, timeoutMs: Option<int>)

  /** The file-level `defaultTimeout` and `httpRequestInit`, which sets it. */
  class TimeoutSettings {
    var defaultTimeout: int

    /** `static long defaultTimeout = DEFAULT_TIMEOUT`. */
    constructor (initial: int)
      ensures defaultTimeout == initial
    {
      defaultTimeout := initial;
    }

    /** -1 means "keep the current default". */
    method Init(ms: int)
      modifies this
      ensures defaultTimeout == if ms == -1 then old(defaultTimeout) else ms
    {
      if ms != -1 {
        defaultTimeout := ms;
      }
    }
  }

  /** The early stop: https destinations and port 443 are not notified. */
  predicate Skipped(n: Notification)
  {
    n.protocol == "https:" || n.port == 443
  }

  /** `content_type`: JSON and plain text get an explicit charset. */
  function EffectiveContentType(ct: string): (r: string)
    ensures ct <= r
    ensures r != ct <==> (ct == "application/json" || ct == "text/plain")
    ensures r != ct ==> r[|ct|..] == "; charset=utf-8"
  {
    if ct == "application/json" || ct == "text/plain" then ct + "; charset=utf-8" else ct
  }

  /** The precondition checks on the notification and the effective content
      type: 0 when all pass, otherwise the code of the first that fails, in
      the order port, ip, verb, resource, content without type, type without
      content. */
  function Precheck(n: Notification, contentType: string): (r: int)
    ensures -6 <= r <= 0
    ensures r == -1 <==> n.port == 0
    ensures r == -2 <==> n.port != 0 && n.ip == []
    ensures r == -3 <==> n.port != 0 && n.ip != [] && n.verb == []
    ensures r == -4 <==> n.port != 0 && n.ip != [] && n.verb != [] && n.resource == []
    ensures r == -5 <==> Addressed(n) && contentType == [] && n.content != []
    ensures r == -6 <==> Addressed(n) && contentType != [] && n.content == []
    ensures r == 0 <==> Addressed(n) && (contentType == [] <==> n.content == [])
  {
    if n.port == 0 then -1
    else if n.ip == [] then -2
    else if n.verb == [] then -3
    else if n.resource == [] then -4
    else if contentType == [] && n.content != [] then -5
    else if contentType != [] && n.content == [] then -6
    else 0
  }

  predicate Addressed(n: Notification)
  {
    n.port != 0 && n.ip != [] && n.verb != [] && n.resource != []
  }

  /** The broker was started with a relay ("rush"). */
  predicate RelayConfigured(cfg: Config)
  {
    cfg.rushPort != 0 && cfg.rushHost != []
  }

  /** `useRush` after it is cancelled for a broker without a relay. */
  predicate RelayUsed(n: Notification, cfg: Config)
  {
    n.useRush && RelayConfigured(cfg)
  }

  /** The host and port the request goes to. */
  function Target(n: Notification, cfg: Config): (string, Port)
  {
    if RelayUsed(n, cfg) then (cfg.rushHost, cfg.rushPort) else (n.ip, n.port)
  }

  /** The request URL: the host, in brackets when it is IPv6, `:`, the port,
      and the resource, preceded by `/` only when it does not start with
      one. */
  function Url(host: string, ipv6: bool, port: Port, resource: string): (r: string)
    requires resource != []
    ensures var authority := (if ipv6 then "[" + host + "]" else host) + ":" + Decimal(port);
      && (|r| == |authority| + |resource| || |r| == |authority| + |resource| + 1)
      && (|r| == |authority| + |resource| <==> resource[0] == '/')
      && authority <= r
      && r[|authority|] == '/'
      && r[|r| - |resource|..] == resource
  {
    var authority := (if ipv6 then "[" + host + "]" else host) + ":" + Decimal(port);
    authority + (if resource[0] == '/' then "" else "/") + resource
  }

  /** The inserted slash is the only difference between a resource given
      with and without its leading `/`. */
  lemma UrlAddsSlashOnce(host: string, ipv6: bool, port: Port, resource: string)
    requires resource != [] && resource[0] != '/'
    ensures Url(host, ipv6, port, resource) == Url(host, ipv6, port, "/" + resource)
  {
    var authority := (if ipv6 then "[" + host + "]" else host) + ":" + Decimal(port);
    assert authority + "/" + resource == authority + "" + ("/" + resource);
  }

  /** `CURLOPT_TIMEOUT_MS`: -1 stands for the default, and a timeout of 0 sets
      no option at all. */
  function CurlTimeout(requested: int, defaultTimeout: int): (r: Option<int>)
    ensures r.None? <==> (requested == 0 || (requested == -1 && defaultTimeout == 0))
    ensures r.Some? ==> r.value != 0 && r.value == if requested == -1 then defaultTimeout else requested
  {
    var t := if requested == -1 then defaultTimeout else requested;
    if t != 0 then Some(t) else None
  }

  /** Nothing, or the one header `h`. */
  function Opt(present: bool, h: Header): seq<Header>
  {
    if present then [h] else []
  }

  /** `X-relayer-host`, naming the destination before the relay rewrite. */
  function RelayHeader(n: Notification): Header
  {
    Header("X-relayer-host", n.ip + ":" + Decimal(n.port))
  }

  function AcceptValue(n: Notification): string
  {
    if n.acceptFormat != "" then n.acceptFormat else "application/json"
  }

  /** `Ngsiv2-AttrsFormat` is sent for every format but the two defaults. */
  predicate AttrsFormatSent(format: string)
  {
    format != "" && format != "JSON" && format != "legacy"
  }

  /** The relay header, when the relay is used. */
  function RelayHeaders(n: Notification, cfg: Config): seq<Header>
  {
    Opt(RelayUsed(n, cfg), RelayHeader(n))
  }

  /** User-Agent and Host; `host` and `port` are the destination after the
      relay rewrite. */
  function RoutingHeaders(cfg: Config, host: string, port: Port): seq<Header>
  {
    [Header("User-Agent", cfg.userAgent), Header("Host", host + ":" + Decimal(port))]
  }

  /** The tenant, service path and token headers, each only when its value
      is non-empty. */
  function ScopeHeaders(n: Notification): seq<Header>
  {
    Opt(n.tenant != "", Header("fiware-service", n.tenant))
      + Opt(n.servicePath != "", Header("Fiware-ServicePath", n.servicePath))
      + Opt(n.xauthToken != "", Header("X-Auth-Token", n.xauthToken))
  }

  /** Accept, the empty Expect and Content-length. */
  function FormatHeaders(n: Notification): seq<Header>
  {
    [Header("Accept", AcceptValue(n)), Header("Expect", ""),
     Header("Content-length", Decimal(|n.content|))]
  }

  /** Content-type (always, even when empty), the correlator and the
      attribute format. */
  function ContentHeaders(n: Notification, ct: string): seq<Header>
  {
    [Header("Content-type", ct), Header("Fiware-Correlator", n.fiwareCorrelation)]
      + Opt(AttrsFormatSent(n.attrsFormat), Header("Ngsiv2-AttrsFormat", n.attrsFormat))
  }

  /** The standard headers with their computed defaults, in the order they
      are added, for effective content type `ct`: the relay header when the
      relay is used, User-Agent, Host, fiware-service, Fiware-ServicePath,
      X-Auth-Token, Accept, Expect, Content-length, Content-type,
      Fiware-Correlator and Ngsiv2-AttrsFormat. */
  function StandardHeaders(n: Notification, cfg: Config, ct: string): seq<Header>
  {
    var (host, port) := Target(n, cfg);
    RelayHeaders(n, cfg) + RoutingHeaders(cfg, host, port) + ScopeHeaders(n) + FormatHeaders(n)
      + ContentHeaders(n, ct)
  }

  /** Length and first letter, ignoring case. */
  function Signature(s: string): int
  {
    if s == [] then 0 else |s| * 0x1_0000 + LowerChar(s[0]) as int
  }

  /** Lower-casing keeps the signature, so names with different signatures
      never coincide ignoring case. */
  lemma SignatureOfLower(a: string)
    ensures Signature(Lower(a)) == Signature(a)
  {
    if a != [] {
      assert Lower(a)[0] == LowerChar(a[0]);
    }
  }

  /** The signatures of the standard names: length times 0x1_0000 plus the
      code of the lower-cased first letter. */
  const SigUserAgent := 10 * 0x1_0000 + 'u' as int  // User-Agent
  const SigHost := 4 * 0x1_0000 + 'h' as int  // Host
  const SigFiwareService := 14 * 0x1_0000 + 'f' as int  // fiware-service
  const SigServicePath := 18 * 0x1_0000 + 'f' as int  // Fiware-ServicePath
  const SigAuthToken := 12 * 0x1_0000 + 'x' as int  // X-Auth-Token
  const SigAccept := 6 * 0x1_0000 + 'a' as int  // Accept
  const SigExpect := 6 * 0x1_0000 + 'e' as int  // Expect
  const SigContentLength := 14 * 0x1_0000 + 'c' as int  // Content-length
  const SigContentType := 12 * 0x1_0000 + 'c' as int  // Content-type
  const SigCorrelator := 17 * 0x1_0000 + 'f' as int  // Fiware-Correlator
  const SigAttrsFormat := 18 * 0x1_0000 + 'n' as int  // Ngsiv2-AttrsFormat
  const SigRelayerHost := 14 * 0x1_0000 + 'x' as int  // X-relayer-host

  /** How many headers in `hs` have signature `sig`. */
  function CountSig(hs: seq<Header>, sig: int): nat
  {
    if hs == [] then 0
    else CountSig(hs[..|hs| - 1], sig) + (if Signature(hs[|hs| - 1].name) == sig then 1 else 0)
  }

  lemma {:induction false} CountSigAppend(a: seq<Header>, b: seq<Header>, sig: int)
    ensures CountSig(a + b, sig) == CountSig(a, sig) + CountSig(b, sig)
    decreases |b|
  {
    if b != [] {
      var front := b[..|b| - 1];
      assert (a + b)[..|a + b| - 1] == a + front;
      CountSigAppend(a, front, sig);
    } else {
      assert a + b == a;
    }
  }

  lemma CountSigOpt(present: bool, h: Header, sig: int)
    ensures CountSig(Opt(present, h), sig) == if present && Signature(h.name) == sig then 1 else 0
  {
    assert [h][..0] == [];
  }

  /** Headers sharing a lower-cased name share its signature. */
  lemma {:induction false} CountBelowSignature(hs: seq<Header>, l: string)
    ensures Count(hs, l) <= CountSig(hs, Signature(l))
    decreases |hs|
  {
    if hs != [] {
      CountBelowSignature(hs[..|hs| - 1], l);
      SignatureOfLower(hs[|hs| - 1].name);
    }
  }

  lemma CountSigSingle(h: Header, sig: int)
    ensures CountSig([h], sig) == if Signature(h.name) == sig then 1 else 0
  {
    assert [h][..0] == [];
  }

  lemma CountSigPair(h1: Header, h2: Header, sig: int)
    ensures CountSig([h1, h2], sig)
      == (if Signature(h1.name) == sig then 1 else 0) + (if Signature(h2.name) == sig then 1 else 0)
  {
    assert [h1, h2][..1] == [h1];
    CountSigSingle(h1, sig);
  }

  lemma RoutingSignatures(cfg: Config, host: string, port: Port, sig: int)
    ensures CountSig(RoutingHeaders(cfg, host, port), sig) == if sig == SigUserAgent || sig == SigHost then 1 else 0
  {
    CountSigPair(Header("User-Agent", cfg.userAgent), Header("Host", host + ":" + Decimal(port)), sig);
  }

  lemma ScopeSignatures(n: Notification, sig: int)
    ensures CountSig(ScopeHeaders(n), sig) <= if sig == SigFiwareService || sig == SigServicePath || sig == SigAuthToken then 1 else 0
  {
    var o1 := Opt(n.tenant != "", Header("fiware-service", n.tenant));
    var o2 := Opt(n.servicePath != "", Header("Fiware-ServicePath", n.servicePath));
    var o3 := Opt(n.xauthToken != "", Header("X-Auth-Token", n.xauthToken));
    CountSigOpt(n.tenant != "", Header("fiware-service", n.tenant), sig);
    CountSigOpt(n.servicePath != "", Header("Fiware-ServicePath", n.servicePath), sig);
    CountSigOpt(n.xauthToken != "", Header("X-Auth-Token", n.xauthToken), sig);
    CountSigAppend(o1, o2, sig);
    CountSigAppend(o1 + o2, o3, sig);
  }

  lemma FormatSignatures(n: Notification, sig: int)
    ensures CountSig(FormatHeaders(n), sig) == if sig == SigAccept || sig == SigExpect || sig == SigContentLength then 1 else 0
  {
    var h1 := Header("Accept", AcceptValue(n));
    var h2 := Header("Expect", "");
    var h3 := Header("Content-length", Decimal(|n.content|));
    assert FormatHeaders(n) == [h1, h2] + [h3];
    CountSigPair(h1, h2, sig);
    CountSigSingle(h3, sig);
    CountSigAppend([h1, h2], [h3], sig);
  }

  lemma ContentSignatures(n: Notification, ct: string, sig: int)
    ensures CountSig(ContentHeaders(n, ct), sig) <= if sig == SigContentType || sig == SigCorrelator || sig == SigAttrsFormat then 1 else 0
  {
    var h1 := Header("Content-type", ct);
    var h2 := Header("Fiware-Correlator", n.fiwareCorrelation);
    var o3 := Opt(AttrsFormatSent(n.attrsFormat), Header("Ngsiv2-AttrsFormat", n.attrsFormat));
    CountSigPair(h1, h2, sig);
    CountSigOpt(AttrsFormatSent(n.attrsFormat), Header("Ngsiv2-AttrsFormat", n.attrsFormat), sig);
    CountSigAppend([h1, h2], o3, sig);
  }

  /** The twelve standard names have twelve different signatures (length
      times 0x1_0000 plus the code of the lower-cased first letter, listed
      above as `SigUserAgent` and the rest), so at most one
      standard header has any given signature. */
  lemma StandardSignatures(n: Notification, cfg: Config, ct: string, sig: int)
    ensures CountSig(StandardHeaders(n, cfg, ct), sig) <= 1
  {
    var (host, port) := Target(n, cfg);
    var r := RelayHeaders(n, cfg);
    var g1 := RoutingHeaders(cfg, host, port);
    var g2 := ScopeHeaders(n);
    var g3 := FormatHeaders(n);
    var g4 := ContentHeaders(n, ct);
    CountSigOpt(RelayUsed(n, cfg), RelayHeader(n), sig);
    RoutingSignatures(cfg, host, port, sig);
    ScopeSignatures(n, sig);
    FormatSignatures(n, sig);
    ContentSignatures(n, ct, sig);
    CountSigAppend(r, g1, sig);
    CountSigAppend(r + g1, g2, sig);
    CountSigAppend(r + g1 + g2, g3, sig);
    CountSigAppend(r + g1 + g2 + g3, g4, sig);
  }

  lemma StandardHeadersDistinct(n: Notification, cfg: Config, ct: string)
    ensures NamesDistinct(StandardHeaders(n, cfg, ct))
  {
    forall l | true ensures Count(StandardHeaders(n, cfg, ct), l) <= 1 {
      CountBelowSignature(StandardHeaders(n, cfg, ct), l);
      StandardSignatures(n, cfg, ct, Signature(l));
    }
  }

  /** The complete header list of the request. */
  function RequestHeaders(n: Notification, cfg: Config): seq<Header>
  {
    Compose(StandardHeaders(n, cfg, EffectiveContentType(n.contentType)), n.extraHeaders)
  }

  /** `outgoingMsgSize` at the size check: the bytes of every header line plus
      the payload. */
  function OutgoingSize(n: Notification, cfg: Config): nat
  {
    TotalSize(RequestHeaders(n, cfg)) + |n.content|
  }

  /** The request curl is handed for a notification that passed every check. */
  function Planned(defaultTimeout: int, cfg: Config, n: Notification, isIPv6: string -> bool): CurlRequest
    requires n.resource != []
  {
    var (host, port) := Target(n, cfg);
    CurlRequest(Url(host, isIPv6(host), port, n.resource), n.verb, RequestHeaders(n, cfg),
                n.content, CurlTimeout(n.timeoutMs, defaultTimeout))
  }

  /** What one attempt may end with: the return code, the new `*outP` (it
      keeps `outIn` when untouched) and the request handed to curl, if one
      was. */
  predicate Attempt(defaultTimeout: int, cfg: Config, n: Notification, isIPv6: string -> bool,
                    e: Exchange, outIn: string, code: int, out: string, sent: Option<CurlRequest>)
  {
    var ct := EffectiveContentType(n.contentType);
    if Skipped(n) then code == 0 && out == outIn && sent == None
    else if Precheck(n, ct) != 0 then code == Precheck(n, ct) && out == "error" && sent == None
    else Dispatched(defaultTimeout, cfg, n, isIPv6, e, code, out, sent)
  }

  /** The outcome once every check on the arguments has passed: the size
      limit, then the transfer. */
  predicate Dispatched(defaultTimeout: int, cfg: Config, n: Notification, isIPv6: string -> bool,
                       e: Exchange, code: int, out: string, sent: Option<CurlRequest>)
    requires n.resource != []
  {
    if OutgoingSize(n, cfg) > cfg.maxDynMsgSize then code == -7 && out == "error" && sent == None
    else
      && sent == Some(Planned(defaultTimeout, cfg, n, isIPv6))
      && (if Succeeds(e) then code == 0 && out == Delivered(e.chunks)
          else code == -9 && out == "notification failure")
  }

  /** `httpRequestSendWithCurl`. The charset is added, a timeout of -1 is
      replaced by the default, the checks run, the relay rewrites the
      destination, the standard headers and then the extra headers are
      added, the size is checked against the limit and the request is
      performed. */
  method SendWithCurl(settings: TimeoutSettings, cfg: Config, n: Notification,
                      isIPv6: string -> bool, e: Exchange, outIn: string)
    returns (code: int, out: string, sent: Option<CurlRequest>)
    requires Deliverable(e)
    ensures code in {0, -1, -2, -3, -4, -5, -6, -7, -9}
    ensures Attempt(settings.defaultTimeout, cfg, n, isIPv6, e, outIn, code, out, sent)
  {
    if n.protocol == "https:" {
      return 0, outIn, None;
    }
    if n.port == 443 {
      return 0, outIn, None;
    }
    var ip := n.ip;
    var port := n.port;
    var contentType := n.contentType;
    if n.contentType == "application/json" || n.contentType == "text/plain" {
      contentType := contentType + "; charset=utf-8";
    }
    var timeout := n.timeoutMs;
    if timeout == -1 {
      timeout := settings.defaultTimeout;
    }

    if port == 0 {
      return -1, "error", None;
    }
    if ip == [] {
      return -2, "error", None;
    }
    if n.verb == [] {
      return -3, "error", None;
    }
    if n.resource == [] {
      return -4, "error", None;
    }
    if contentType == [] && n.content != [] {
      return -5, "error", None;
    }
    if contentType != [] && n.content == [] {
      return -6, "error", None;
    }

    assert contentType == EffectiveContentType(n.contentType);
    code, out, sent := Dispatch(settings, cfg, n, isIPv6, e, contentType, timeout);
  }

  /** The rest of `httpRequestSendWithCurl` once the checks have passed: the
      response buffer, the relay rewrite, the headers, the size check, the
      URL, the timeout and the transfer. */
  method Dispatch(settings: TimeoutSettings, cfg: Config, n: Notification, isIPv6: string -> bool,
                  e: Exchange, contentType: string, timeout: int)
    returns (code: int, out: string, sent: Option<CurlRequest>)
    requires Deliverable(e) && !Skipped(n)
    requires contentType == EffectiveContentType(n.contentType) && Precheck(n, contentType) == 0
    requires timeout == if n.timeoutMs == -1 then settings.defaultTimeout else n.timeoutMs
    ensures code in {0, -7, -9}
    ensures Dispatched(settings.defaultTimeout, cfg, n, isIPv6, e, code, out, sent)
  {
    var response := new ResponseBuffer();
    var ip := n.ip;
    var port := n.port;
    var useRush := n.useRush;
    if cfg.rushPort == 0 || cfg.rushHost == [] {
      useRush := false;
    }
    if useRush {
      // the relay receives the request and learns the destination from X-relayer-host
      ip := cfg.rushHost;
      port := cfg.rushPort;
    }
    var headers := BuildHeaders(n, cfg, contentType, useRush, ip, port);

    if headers.size > cfg.maxDynMsgSize {
      return -7, "error", None;
    }

    var url := Url(ip, isIPv6(ip), port, n.resource);
    var curlTimeout := None;
    if timeout != 0 {
      curlTimeout := Some(timeout);
    }
    sent := Some(CurlRequest(url, n.verb, headers.lines, n.content, curlTimeout));
    code, out := Deliver(response, e);
  }

  /** `curl_easy_perform` and its outcome: the response text on success,
      "notification failure" and -9 otherwise. */
  method Deliver(response: ResponseBuffer, e: Exchange) returns (code: int, out: string)
    requires response.Valid() && response.Contents() == [] && Deliverable(e)
    modifies response
    ensures Succeeds(e) ==> code == 0 && out == Delivered(e.chunks)
    ensures !Succeeds(e) ==> code == -9 && out == "notification failure"
  {
    var ok := Perform(response, e);
    if !ok {
      out := "notification failure";
    } else {
      out := response.Contents();
    }
    code := if ok then 0 else -9;
  }

  /** The header list and `outgoingMsgSize`: the relay header (naming the
      original destination) when the relay is used, the standard headers
      and then the extra headers no override consumed. `ip` and `port` are
      the destination after the relay rewrite. */
  method BuildHeaders(n: Notification, cfg: Config, contentType: string, useRush: bool,
                      ip: string, port: Port)
    returns (headers: HeaderSet)
    requires n.protocol != "https:"
    requires useRush == RelayUsed(n, cfg) && (ip, port) == Target(n, cfg)
    requires contentType == EffectiveContentType(n.contentType)
    ensures headers.lines == RequestHeaders(n, cfg)
    ensures headers.size == OutgoingSize(n, cfg)
  {
    headers := new HeaderSet(n.extraHeaders);
    AddStandardHeaders(headers, n, cfg, contentType, useRush, ip, port);
    ghost var standard := headers.offered;
    ghost var resolved := headers.lines;
    headers.AddExtras();
    TotalSizeAppend(resolved, Unconsumed(n.extraHeaders, headers.used));
    assert headers.lines == Compose(standard, n.extraHeaders);
  }

  /** The relay header when the relay is used, then every standard header
      with its default value, and the payload counted after
      Content-length. */
  method AddStandardHeaders(headers: HeaderSet, n: Notification, cfg: Config, contentType: string,
                            useRush: bool, ip: string, port: Port)
    requires n.protocol != "https:"
    requires useRush == RelayUsed(n, cfg) && (ip, port) == Target(n, cfg)
    requires headers.Valid() && headers.offered == [] && headers.payload == 0
    modifies headers
    ensures headers.Valid() && headers.offered == StandardHeaders(n, cfg, contentType)
    ensures headers.payload == |n.content|
  {
    if useRush {
      var rushHeaderIP := n.ip;
      var rushHeaderPort := n.port;
      headers.Add(Header("X-relayer-host", rushHeaderIP + ":" + Decimal(rushHeaderPort)));
      if n.protocol == "https:" {
        // the X-relayer-protocol header: https destinations never get here
        assert false;
      }
    }
    ghost var r := RelayHeaders(n, cfg);
    ghost var g1 := RoutingHeaders(cfg, ip, port);
    ghost var g2 := ScopeHeaders(n);
    ghost var g3 := FormatHeaders(n);
    assert headers.offered == r;
    AddRoutingHeaders(headers, cfg, ip, port);
    assert headers.offered == r + g1;
    AddScopeHeaders(headers, n);
    assert headers.offered == r + g1 + g2;
    AddFormatHeaders(headers, n);
    assert headers.offered == r + g1 + g2 + g3;
    AddContentHeaders(headers, n, contentType);
  }

  /** User-Agent and Host, naming the destination after the relay rewrite. */
  method AddRoutingHeaders(headers: HeaderSet, cfg: Config, ip: string, port: Port)
    requires headers.Valid()
    modifies headers
    ensures headers.Valid() && headers.offered == old(headers.offered) + RoutingHeaders(cfg, ip, port)
    ensures headers.payload == old(headers.payload)
  {
    headers.Add(Header("User-Agent", cfg.userAgent));
    headers.Add(Header("Host", ip + ":" + Decimal(port)));
  }

  /** fiware-service, Fiware-ServicePath and X-Auth-Token, each when set. */
  method AddScopeHeaders(headers: HeaderSet, n: Notification)
    requires headers.Valid()
    modifies headers
    ensures headers.Valid() && headers.offered == old(headers.offered) + ScopeHeaders(n)
    ensures headers.payload == old(headers.payload)
  {
    ghost var o1 := Opt(n.tenant != "", Header("fiware-service", n.tenant));
    ghost var o2 := Opt(n.servicePath != "", Header("Fiware-ServicePath", n.servicePath));
    ghost var o3 := Opt(n.xauthToken != "", Header("X-Auth-Token", n.xauthToken));
    if n.tenant != "" {
      headers.Add(Header("fiware-service", n.tenant));
    }
    assert headers.offered == old(headers.offered) + o1;
    ghost var afterTenant := headers.offered;
    if n.servicePath != "" {
      headers.Add(Header("Fiware-ServicePath", n.servicePath));
    }
    assert headers.offered == afterTenant + o2;
    ghost var afterServicePath := headers.offered;
    if n.xauthToken != "" {
      headers.Add(Header("X-Auth-Token", n.xauthToken));
    }
    assert headers.offered == afterServicePath + o3;
    AppendThree(old(headers.offered), Opt(n.tenant != "", Header("fiware-service", n.tenant)),
                Opt(n.servicePath != "", Header("Fiware-ServicePath", n.servicePath)),
                Opt(n.xauthToken != "", Header("X-Auth-Token", n.xauthToken)));
  }

  /** Accept (the requested format or JSON), the empty Expect, and
      Content-length, after which the payload is counted. */
  method AddFormatHeaders(headers: HeaderSet, n: Notification)
    requires headers.Valid()
    modifies headers
    ensures headers.Valid() && headers.offered == old(headers.offered) + FormatHeaders(n)
    ensures headers.payload == old(headers.payload) + |n.content|
  {
    var acceptedFormats := "application/json";
    if n.acceptFormat != "" {
      acceptedFormats := n.acceptFormat;
    }
    headers.Add(Header("Accept", acceptedFormats));
    headers.Add(Header("Expect", ""));
    headers.Add(Header("Content-length", Decimal(|n.content|)));
    headers.AddPayload(|n.content|);
    AppendThree(old(headers.offered), [Header("Accept", acceptedFormats)], [Header("Expect", "")],
                [Header("Content-length", Decimal(|n.content|))]);
  }

  /** Content-type, Fiware-Correlator and, for a non-default format,
      Ngsiv2-AttrsFormat. */
  method AddContentHeaders(headers: HeaderSet, n: Notification, contentType: string)
    requires headers.Valid()
    modifies headers
    ensures headers.Valid() && headers.offered == old(headers.offered) + ContentHeaders(n, contentType)
    ensures headers.payload == old(headers.payload)
  {
    headers.Add(Header("Content-type", contentType));
    headers.Add(Header("Fiware-Correlator", n.fiwareCorrelation));
    if n.attrsFormat != "" && n.attrsFormat != "JSON" && n.attrsFormat != "legacy" {
      headers.Add(Header("Ngsiv2-AttrsFormat", n.attrsFormat));
    }
    AppendThree(old(headers.offered), [Header("Content-type", contentType)],
                [Header("Fiware-Correlator", n.fiwareCorrelation)],
                Opt(AttrsFormatSent(n.attrsFormat), Header("Ngsiv2-AttrsFormat", n.attrsFormat)));
  }

  /** Three appends in a row are one append of the three pieces. */
  lemma AppendThree(p: seq<Header>, a: seq<Header>, b: seq<Header>, c: seq<Header>)
    ensures p + a + b + c == p + (a + b + c)
    ensures |a| == 1 && |b| == 1 && |c| == 1 ==> a + b + c == [a[0], b[0], c[0]]
    ensures |a| == 1 && |b| == 1 ==> a + b + c == [a[0], b[0]] + c
  {
  }

  /** An extra header whose key is exactly the name of a standard header
      takes that header's place with the extra value, and the name then
      occurs once in the request, ignoring case. */
  lemma StandardOverride(n: Notification, cfg: Config, k: nat)
    requires k < |StandardHeaders(n, cfg, EffectiveContentType(n.contentType))|
    requires Find(n.extraHeaders, StandardHeaders(n, cfg, EffectiveContentType(n.contentType))[k].name).Some?
    ensures var std := StandardHeaders(n, cfg, EffectiveContentType(n.contentType));
      && RequestHeaders(n, cfg)[k] == Header(std[k].name, Find(n.extraHeaders, std[k].name).value)
      && Count(RequestHeaders(n, cfg), Lower(std[k].name)) == 1
  {
    var std := StandardHeaders(n, cfg, EffectiveContentType(n.contentType));
    StandardHeadersDistinct(n, cfg, EffectiveContentType(n.contentType));
    OverrideAppearsOnce(std, n.extraHeaders, k);
  }

  /** Without a configured relay the relay flag makes no difference to the
      headers or to the request. */
  lemma RelayUnconfiguredIgnoresFlag(n: Notification, cfg: Config, isIPv6: string -> bool, defaultTimeout: int)
    requires !RelayConfigured(cfg)
    ensures RequestHeaders(n, cfg) == RequestHeaders(n.(useRush := !n.useRush), cfg)
    ensures n.resource != [] ==>
      Planned(defaultTimeout, cfg, n, isIPv6) == Planned(defaultTimeout, cfg, n.(useRush := !n.useRush), isIPv6)
  {
    var flipped := n.(useRush := !n.useRush);
    assert !RelayUsed(n, cfg) && !RelayUsed(flipped, cfg);
    assert Target(n, cfg) == Target(flipped, cfg);
    assert RelayHeaders(n, cfg) == [] == RelayHeaders(flipped, cfg);
    var ct := EffectiveContentType(n.contentType);
    assert StandardHeaders(n, cfg, ct) == StandardHeaders(flipped, cfg, ct);
  }

  /** With the relay in use the request goes to the relay, and the first
      header names the original destination, from which its port can be
      read back. */
  lemma RelayRewrite(n: Notification, cfg: Config, ct: string)
    requires RelayUsed(n, cfg)
    ensures Target(n, cfg) == (cfg.rushHost, cfg.rushPort)
    ensures var std := StandardHeaders(n, cfg, ct);
      && |std| >= 3
      && std[0] == Header("X-relayer-host", n.ip + ":" + Decimal(n.port))
      && std[2] == Header("Host", cfg.rushHost + ":" + Decimal(cfg.rushPort))
    ensures var v := RelayHeader(n).value;
      && v[..|n.ip|] == n.ip && v[|n.ip|] == ':'
      && (forall i :: |n.ip| < i < |v| ==> IsDigit(v[i]))
      && DecimalValue(v[|n.ip| + 1..]) == n.port
  {
    var v := RelayHeader(n).value;
    assert v[|n.ip| + 1..] == Decimal(n.port);
    DecimalRoundTrip(n.port);
  }

  /** An extra header whose name equals a standard name only ignoring case
      (`accept` for `Accept`, say) is no override, because the lookup compares
      names exactly: when no key is the standard name itself, the request
      carries the standard header in its place and the extra header after
      the standard headers, two lines of the same name ignoring case. */
  lemma CaseVariantIsNotAnOverride(n: Notification, cfg: Config, k: nat, e: Header)
    requires k < |StandardHeaders(n, cfg, EffectiveContentType(n.contentType))|
    requires Find(n.extraHeaders, StandardHeaders(n, cfg, EffectiveContentType(n.contentType))[k].name).None?
    requires e in n.extraHeaders
    requires Lower(e.name) == Lower(StandardHeaders(n, cfg, EffectiveContentType(n.contentType))[k].name)
    ensures var std := StandardHeaders(n, cfg, EffectiveContentType(n.contentType));
      && RequestHeaders(n, cfg)[k] == std[k]
      && e in RequestHeaders(n, cfg)[|std|..]
      && e.name != std[k].name
  {
    var std := StandardHeaders(n, cfg, EffectiveContentType(n.contentType));
    StandardHeadersDistinct(n, cfg, EffectiveContentType(n.contentType));
    CaseVariantKept(std, n.extraHeaders, k, e);
  }

  /** The attempt's outcome is a function of its inputs. */
  lemma AttemptDeterministic(defaultTimeout: int, cfg: Config, n: Notification, isIPv6: string -> bool,
                             e: Exchange, outIn: string, c1: int, o1: string, s1: Option<CurlRequest>,
                             c2: int, o2: string, s2: Option<CurlRequest>)
    requires Attempt(defaultTimeout, cfg, n, isIPv6, e, outIn, c1, o1, s1)
    requires Attempt(defaultTimeout, cfg, n, isIPv6, e, outIn, c2, o2, s2)
    ensures c1 == c2 && o1 == o2 && s1 == s2
  {
  }

  /** curl is only ever handed a request that passed every check and fits
      the size limit; code 0 with no request means the destination was
      skipped. */
  lemma AttemptSendsOnlyValid(defaultTimeout: int, cfg: Config, n: Notification, isIPv6: string -> bool,
                              e: Exchange, outIn: string, code: int, out: string, sent: Option<CurlRequest>)
    requires Attempt(defaultTimeout, cfg, n, isIPv6, e, outIn, code, out, sent)
    ensures sent.Some? <==>
      !Skipped(n) && Precheck(n, EffectiveContentType(n.contentType)) == 0
      && OutgoingSize(n, cfg) <= cfg.maxDynMsgSize
    ensures sent.Some? ==> sent.value.headers == RequestHeaders(n, cfg) && sent.value.body == n.content
    ensures code == 0 && sent.None? <==> Skipped(n)
  {
  }

  /** `httpRequestSend`: without a curl handle from the pool nothing else
      happens and the result is -8. */
  method Send(settings: TimeoutSettings, cfg: Config, handleAcquired: bool, n: Notification,
              isIPv6: string -> bool, e: Exchange, outIn: string)
    returns (code: int, out: string, sent: Option<CurlRequest>)
    requires Deliverable(e)
    ensures code in {0, -1, -2, -3, -4, -5, -6, -7, -8, -9}
    ensures !handleAcquired ==> code == -8 && out == "error" && sent == None
    ensures handleAcquired ==> Attempt(settings.defaultTimeout, cfg, n, isIPv6, e, outIn, code, out, sent)
  {
    if !handleAcquired {
      return -8, "error", None;
    }
    code, out, sent := SendWithCurl(settings, cfg, n, isIPv6, e, outIn);
  }
}
