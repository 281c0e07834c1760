/**
 The attribute collector of the tracing middleware: the request as the middleware sees it,
 the attribute keys it uses, and the ordered list of attributes it attaches to a new span.
 */
module Attributes {
  import opened Wrappers
  import opened RustStr
  import opened HeaderCarrier

  /** `http::Version`. */
  datatype Version = Http09 | Http10 | Http11 | Http2 | Http3

  /** The `Debug` rendering of a `Version`. */
  function DebugName(v: Version): string {
    match v
    case Http09 => "HTTP/0.9"
    case Http10 => "HTTP/1.0"
    case Http11 => "HTTP/1.1"
    case Http2 => "HTTP/2.0"
    case Http3 => "HTTP/3.0"
  }

  /** The `http.flavor` value: the debug rendering with every `HTTP/` removed. */
  function Flavor(v: Version): string {
    RemoveAll(DebugName(v), "HTTP/")
  }

  /** The flavor is the bare protocol number: the debug name is `HTTP/` followed by it. */
  lemma FlavorDropsPrefix(v: Version)
    ensures "HTTP/" + Flavor(v) == DebugName(v)
    ensures Flavor(v) == match v
      case Http09 => "0.9" case Http10 => "1.0" case Http11 => "1.1"
      case Http2 => "2.0" case Http3 => "3.0"
  {
    var number := DebugName(v)[5..];
    assert DebugName(v) == "HTTP/" + number;
    RemoveAllLeading("HTTP/", number);
  }

  /** The OpenTelemetry semantic-convention keys the middleware sets. */
  datatype AttrKey =
    | HttpMethod | HttpFlavor | HttpHost | HttpRoute | HttpScheme | HttpServerName
    | NetHostPort | HttpTarget | HttpUserAgent | HttpClientIp | NetPeerIp | HttpStatusCode
  {
    function Name(): string {
      match this
      case HttpMethod => "http.method"
      case HttpFlavor => "http.flavor"
      case HttpHost => "http.host"
      case HttpRoute => "http.route"
      case HttpScheme => "http.scheme"
      case HttpServerName => "http.server_name"
      case NetHostPort => "net.host.port"
      case HttpTarget => "http.target"
      case HttpUserAgent => "http.user_agent"
      case HttpClientIp => "http.client_ip"
      case NetPeerIp => "net.peer.ip"
      case HttpStatusCode => "http.status_code"
    }
  }

  /** An attribute value: text, or an unsigned 64-bit number. */
  datatype AttrValue = Str(text: string) | U64(number: nat)

  datatype KeyValue = KeyValue(key: AttrKey, value: AttrValue)

  /**
   What the middleware reads from an incoming request. `connHost` and `scheme` come from the
   connection info, `serverName` from the application's configured host, `realIpRemoteAddr`
   is the proxy-aware client address, `peerAddr` the socket peer already rendered as text,
   and `matchPattern` the route pattern the router matched, if any.
   */
  datatype Request = Request(
    httpMethod: string,
    version: Version,
    connHost: string,
    scheme: string,
    serverName: string,
    pathAndQuery: Option<string>,
    headers: HeaderMap,
    realIpRemoteAddr: Option<string>,
    peerAddr: Option<string>,
    matchPattern: Option<string>)

  /** The port of the connection host: its second `:`-separated piece, if that parses as a u64. */
  function HostPort(host: string): (port: Option<nat>)
    ensures port.Some? ==> port.value <= U64_MAX
  {
    var pieces := SplitTerminator(host, ':');
    if |pieces| >= 2 then ParseU64(pieces[1]) else None
  }

  /**
   `split_terminator` may drop an empty last piece, but that never changes the port: an
   empty piece does not parse anyway.
   */
  lemma HostPortFromSplit(host: string)
    ensures HostPort(host) ==
      if |Split(host, ':')| >= 2 then ParseU64(Split(host, ':')[1]) else None
  {
    var all := Split(host, ':');
    if |all| == 2 && all[1] == "" {
      assert ParseU64("") == None;
    }
  }

  /** A host without `:` has no port. */
  lemma HostPortWithoutColon(host: string)
    requires ':' !in host
    ensures HostPort(host) == None
  {
    SplitPlain(host, ':');
    HostPortFromSplit(host);
  }

  /**
   For `name:port` and `name:port:rest`, the port is whatever `port` parses to; in particular
   an empty or non-numeric port is dropped without error.
   */
  lemma HostPortIsSecondPiece(name: string, port: string, rest: string)
    requires ':' !in name && ':' !in port
    ensures HostPort(name + ":" + port) == ParseU64(port)
    ensures HostPort(name + ":" + port + ":" + rest) == ParseU64(port)
  {
    SplitNamePort(name, port);
    HostPortFromSplit(name + ":" + port);
    SplitNamePortRest(name, port, rest);
    HostPortFromSplit(name + ":" + port + ":" + rest);
  }

  lemma SplitNamePort(name: string, port: string)
    requires ':' !in name && ':' !in port
    ensures Split(name + ":" + port, ':') == [name, port]
  {
    SplitAtFirstSeparator(name, port, ':');
    SplitPlain(port, ':');
  }

  lemma SplitNamePortRest(name: string, port: string, rest: string)
    requires ':' !in name && ':' !in port
    ensures Split(name + ":" + port + ":" + rest, ':') == [name, port] + Split(rest, ':')
  {
    var longer := name + ":" + port + ":" + rest;
    assert longer == name + [':'] + (port + [':'] + rest);
    SplitAtFirstSeparator(name, port + [':'] + rest, ':');
    SplitAtFirstSeparator(port, rest, ':');
  }


  /** For the IPv6 loopback `[::1]:8080` the second piece is empty, so no port is recorded. */
  lemma HostPortOfIpv6Loopback()
    ensures HostPort("[::1]:8080") == None
  {
    var host := "[::1]:8080";
    assert host == "[" + [':'] + ("" + [':'] + "1]:8080");
    SplitAtFirstSeparator("[", "" + [':'] + "1]:8080", ':');
    SplitAtFirstSeparator("", "1]:8080", ':');
    HostPortFromSplit(host);
    assert ParseU64("") == None;
  }

  /**
   For `[2001:1234::1]:80` the second piece is the address's second group, so the port
   recorded is 1234 rather than 80.
   */
  lemma HostPortOfIpv6Address()
    ensures HostPort("[2001:1234::1]:80") == Some(1234)
  {
    assert "[2001:1234::1]:80" == "[2001" + ":" + "1234" + ":" + ":1]:80";
    HostPortIsSecondPiece("[2001", "1234", ":1]:80");
    ParseU64OfGroup();
  }

  lemma ParseU64OfGroup()
    ensures ParseU64("1234") == Some(1234)
  {
    ParseU64Accepts("", "1234");
    assert "" + "1234" == "1234";
    assert DigitsValue("1234") == 1234 by {
      assert "1234"[..3] == "123";
      assert "123"[..2] == "12";
      assert "12"[..1] == "1";
      assert "1"[..0] == "";
    }
  }

  const USER_AGENT: string := "user-agent"

  /** The user agent: the `user-agent` header, when present and text. */
  function UserAgent(headers: HeaderMap): (agent: Option<string>)
    ensures agent.Some? <==> USER_AGENT in headers && ToStr(headers[USER_AGENT]).Some?
  {
    assert AsciiLower(USER_AGENT) == USER_AGENT;
    Get(headers, USER_AGENT)
  }

  /** The five attributes every span starts with, in this order. */
  function BaseAttributes(req: Request, route: string): (base: seq<KeyValue>)
    ensures |base| == 5
    ensures base[3] == KeyValue(HttpRoute, Str(route))
  {
    [ KeyValue(HttpMethod, Str(req.httpMethod)),
      KeyValue(HttpFlavor, Str(Flavor(req.version))),
      KeyValue(HttpHost, Str(req.connHost)),
      KeyValue(HttpRoute, Str(route)),
      KeyValue(HttpScheme, Str(req.scheme)) ]
  }

  function AsSeq(o: Option<KeyValue>): seq<KeyValue> {
    if o.Some? then [o.value] else []
  }

  /** The six optional attributes of a request, each absent unless its condition holds. */
  datatype Optionals = Optionals(
    serverName: Option<KeyValue>,
    hostPort: Option<KeyValue>,
    target: Option<KeyValue>,
    userAgent: Option<KeyValue>,
    clientIp: Option<KeyValue>,
    peerIp: Option<KeyValue>)
  {
    /** Each present attribute carries its own key. */
    predicate WellKeyed() {
      (serverName.Some? ==> serverName.value.key == HttpServerName) &&
      (hostPort.Some? ==> hostPort.value.key == NetHostPort) &&
      (target.Some? ==> target.value.key == HttpTarget) &&
      (userAgent.Some? ==> userAgent.value.key == HttpUserAgent) &&
      (clientIp.Some? ==> clientIp.value.key == HttpClientIp) &&
      (peerIp.Some? ==> peerIp.value.key == NetPeerIp)
    }

    /** The value of the optional attribute with the given key, if it is present. */
    function ValueOf(key: AttrKey): Option<AttrValue> {
      var o := match key
        case HttpServerName => serverName
        case NetHostPort => hostPort
        case HttpTarget => target
        case HttpUserAgent => userAgent
        case HttpClientIp => clientIp
        case NetPeerIp => peerIp
        case _ => None;
      if o.Some? then Some(o.value.value) else None
    }
  }

  /** The collector's layout: the base attributes, then each present optional one, in push order. */
  function Layout(base: seq<KeyValue>, opt: Optionals): seq<KeyValue> {
    base
    + AsSeq(opt.serverName)
    + AsSeq(opt.hostPort)
    + AsSeq(opt.target)
    + AsSeq(opt.userAgent)
    + AsSeq(opt.clientIp)
    + AsSeq(opt.peerIp)
  }

  /** The server name, when it differs from the connection host. */
  function ServerNameAttribute(req: Request): (o: Option<KeyValue>)
    ensures o.Some? <==> req.serverName != req.connHost
    ensures o.Some? ==> o.value == KeyValue(HttpServerName, Str(req.serverName))
  {
    if req.serverName != req.connHost then Some(KeyValue(HttpServerName, Str(req.serverName))) else None
  }

  /** The port of the connection host, when it has one. */
  function HostPortAttribute(req: Request): (o: Option<KeyValue>)
    ensures o.Some? <==> HostPort(req.connHost).Some?
    ensures o.Some? ==> o.value == KeyValue(NetHostPort, U64(HostPort(req.connHost).value))
  {
    match HostPort(req.connHost)
    case Some(port) => Some(KeyValue(NetHostPort, U64(port)))
    case None => None
  }

  /** The path and query of the request URI, when there is one. */
  function TargetAttribute(req: Request): (o: Option<KeyValue>)
    ensures o.Some? <==> req.pathAndQuery.Some?
    ensures o.Some? ==> o.value == KeyValue(HttpTarget, Str(req.pathAndQuery.value))
  {
    match req.pathAndQuery
    case Some(path) => Some(KeyValue(HttpTarget, Str(path)))
    case None => None
  }

  /** The user agent, when the header is present and text. */
  function UserAgentAttribute(req: Request): (o: Option<KeyValue>)
    ensures o.Some? <==> UserAgent(req.headers).Some?
    ensures o.Some? ==> o.value == KeyValue(HttpUserAgent, Str(UserAgent(req.headers).value))
  {
    match UserAgent(req.headers)
    case Some(agent) => Some(KeyValue(HttpUserAgent, Str(agent)))
    case None => None
  }

  /** The resolved (proxy-aware) client address, when known. */
  function ClientIpAttribute(req: Request): (o: Option<KeyValue>)
    ensures o.Some? <==> req.realIpRemoteAddr.Some?
    ensures o.Some? ==> o.value == KeyValue(HttpClientIp, Str(req.realIpRemoteAddr.value))
  {
    match req.realIpRemoteAddr
    case Some(remote) => Some(KeyValue(HttpClientIp, Str(remote)))
    case None => None
  }

  /** The socket peer, when it is not the resolved client address (a proxy is in between). */
  function PeerIpAttribute(req: Request): (o: Option<KeyValue>)
    ensures o.Some? <==> req.peerAddr.Some? && Some(req.peerAddr.value) != req.realIpRemoteAddr
    ensures o.Some? ==> o.value == KeyValue(NetPeerIp, Str(req.peerAddr.value))
  {
    match req.peerAddr
    case Some(peer) =>
      if Some(peer) != req.realIpRemoteAddr then Some(KeyValue(NetPeerIp, Str(peer))) else None
    case None => None
  }

  function OptionalsOf(req: Request): (opt: Optionals)
    ensures opt.WellKeyed()
  {
    Optionals(ServerNameAttribute(req), HostPortAttribute(req), TargetAttribute(req),
              UserAgentAttribute(req), ClientIpAttribute(req), PeerIpAttribute(req))
  }

  /**
   The ordered attribute list: the five base attributes, then each optional attribute whose
   condition holds, in the order the collector pushes them.
   */
  function RequestAttributes(req: Request, route: string): seq<KeyValue> {
    Layout(BaseAttributes(req, route), OptionalsOf(req))
  }

  /**
   Reference definition, by key rather than by position: the value each attribute should
   carry for this request, or nothing when the attribute is not set.
   */
  function ExpectedValue(req: Request, route: string, key: AttrKey): Option<AttrValue> {
    match key
    case HttpMethod => Some(Str(req.httpMethod))
    case HttpFlavor => Some(Str(Flavor(req.version)))
    case HttpHost => Some(Str(req.connHost))
    case HttpRoute => Some(Str(route))
    case HttpScheme => Some(Str(req.scheme))
    case HttpServerName => if req.serverName != req.connHost then Some(Str(req.serverName)) else None
    case NetHostPort => if HostPort(req.connHost).Some? then Some(U64(HostPort(req.connHost).value)) else None
    case HttpTarget => if req.pathAndQuery.Some? then Some(Str(req.pathAndQuery.value)) else None
    case HttpUserAgent =>
      if UserAgent(req.headers).Some? then Some(Str(UserAgent(req.headers).value)) else None
    case HttpClientIp => if req.realIpRemoteAddr.Some? then Some(Str(req.realIpRemoteAddr.value)) else None
    case NetPeerIp =>
      if req.peerAddr.Some? && Some(req.peerAddr.value) != req.realIpRemoteAddr
      then Some(Str(req.peerAddr.value)) else None
    case HttpStatusCode => None
  }

  /** The position of each key in the order the collector adds attributes. */
  function RankOf(key: AttrKey): nat {
    match key
    case HttpMethod => 0 case HttpFlavor => 1 case HttpHost => 2 case HttpRoute => 3
    case HttpScheme => 4 case HttpServerName => 5 case NetHostPort => 6 case HttpTarget => 7
    case HttpUserAgent => 8 case HttpClientIp => 9 case NetPeerIp => 10 case HttpStatusCode => 11
  }

  /** The value of the first attribute with the given key. */
  function Lookup(attributes: seq<KeyValue>, key: AttrKey): Option<AttrValue> {
    if attributes == [] then None
    else if attributes[0].key == key then Some(attributes[0].value)
    else Lookup(attributes[1..], key)
  }

  /** Looking up in a concatenation: the first part wins. */
  lemma {:induction false} LookupAppend(a: seq<KeyValue>, b: seq<KeyValue>, key: AttrKey)
    ensures Lookup(a + b, key) == if Lookup(a, key).Some? then Lookup(a, key) else Lookup(b, key)
  {
    if a == [] {
      assert a + b == b;
    } else {
      assert (a + b)[1..] == a[1..] + b;
      LookupAppend(a[1..], b, key);
    }
  }

  /** The first attribute with the key is the one found. */
  lemma {:induction false} LookupAt(attributes: seq<KeyValue>, i: nat, key: AttrKey)
    requires i < |attributes| && attributes[i].key == key
    requires forall j :: 0 <= j < i ==> attributes[j].key != key
    ensures Lookup(attributes, key) == Some(attributes[i].value)
  {
    if i > 0 {
      LookupAt(attributes[1..], i - 1, key);
    }
  }

  /** A key carried by no attribute is not found. */
  lemma {:induction false} LookupAbsent(attributes: seq<KeyValue>, key: AttrKey)
    requires forall i :: 0 <= i < |attributes| ==> attributes[i].key != key
    ensures Lookup(attributes, key) == None
  {
    if attributes != [] {
      LookupAbsent(attributes[1..], key);
    }
  }

  lemma LookupOptional(o: Option<KeyValue>, k: AttrKey, key: AttrKey)
    requires o.Some? ==> o.value.key == k
    ensures Lookup(AsSeq(o), key) == if o.Some? && k == key then Some(o.value.value) else None
  {
    if o.Some? {
      assert AsSeq(o)[1..] == [];
    }
  }

  /** The value an optional attribute holds for `key`: its own, if it is present and stored under `key`. */
  function Found(o: Option<KeyValue>, k: AttrKey, key: AttrKey): Option<AttrValue> {
    if o.Some? && k == key then Some(o.value.value) else None
  }

  /** Pushing an optional attribute leaves a key found earlier alone, and otherwise may supply it. */
  lemma LookupPush(prefix: seq<KeyValue>, o: Option<KeyValue>, k: AttrKey, key: AttrKey)
    requires o.Some? ==> o.value.key == k
    ensures Lookup(prefix + AsSeq(o), key) ==
      if Lookup(prefix, key).Some? then Lookup(prefix, key) else Found(o, k, key)
  {
    LookupAppend(prefix, AsSeq(o), key);
    LookupOptional(o, k, key);
  }

  /**
   Searching the six optional attributes in push order finds the value stored under `key`.
   The `l`s are the lookups after each push. They are parameters only so that the solver meets
   one push at a time; they carry no meaning of their own.
   */
  lemma FoundAmongOptionals(opt: Optionals, key: AttrKey, l0: Option<AttrValue>, l1: Option<AttrValue>,
                            l2: Option<AttrValue>, l3: Option<AttrValue>, l4: Option<AttrValue>,
                            l5: Option<AttrValue>, l6: Option<AttrValue>)
    requires l1 == if l0.Some? then l0 else Found(opt.serverName, HttpServerName, key)
    requires l2 == if l1.Some? then l1 else Found(opt.hostPort, NetHostPort, key)
    requires l3 == if l2.Some? then l2 else Found(opt.target, HttpTarget, key)
    requires l4 == if l3.Some? then l3 else Found(opt.userAgent, HttpUserAgent, key)
    requires l5 == if l4.Some? then l4 else Found(opt.clientIp, HttpClientIp, key)
    requires l6 == if l5.Some? then l5 else Found(opt.peerIp, NetPeerIp, key)
    ensures l6 == if l0.Some? then l0 else opt.ValueOf(key)
  {
  }

  /** In the layout, a key is found among the base attributes first, then among the optional ones. */
  lemma LayoutByKey(base: seq<KeyValue>, opt: Optionals, key: AttrKey)
    requires opt.WellKeyed()
    ensures Lookup(Layout(base, opt), key) ==
      if Lookup(base, key).Some? then Lookup(base, key) else opt.ValueOf(key)
  {
    var a1 := base + AsSeq(opt.serverName);
    var a2 := a1 + AsSeq(opt.hostPort);
    var a3 := a2 + AsSeq(opt.target);
    var a4 := a3 + AsSeq(opt.userAgent);
    var a5 := a4 + AsSeq(opt.clientIp);
    LookupPush(base, opt.serverName, HttpServerName, key);
    LookupPush(a1, opt.hostPort, NetHostPort, key);
    LookupPush(a2, opt.target, HttpTarget, key);
    LookupPush(a3, opt.userAgent, HttpUserAgent, key);
    LookupPush(a4, opt.clientIp, HttpClientIp, key);
    LookupPush(a5, opt.peerIp, NetPeerIp, key);
    FoundAmongOptionals(opt, key, Lookup(base, key), Lookup(a1, key), Lookup(a2, key),
                        Lookup(a3, key), Lookup(a4, key), Lookup(a5, key), Lookup(Layout(base, opt), key));
  }

  /** The base attributes carry the five base keys, each once, at their rank. */
  lemma BaseByKey(req: Request, route: string, key: AttrKey)
    ensures Lookup(BaseAttributes(req, route), key) == if RankOf(key) < 5 then ExpectedValue(req, route, key) else None
  {
    var base := BaseAttributes(req, route);
    if RankOf(key) < 5 {
      LookupAt(base, RankOf(key), key);
    } else {
      LookupAbsent(base, key);
    }
  }

  /** The optional attributes of a request carry what the reference definition expects. */
  lemma OptionalsByKey(req: Request, route: string, key: AttrKey)
    ensures OptionalsOf(req).ValueOf(key) == if RankOf(key) < 5 then None else ExpectedValue(req, route, key)
  {
  }

  /**
   The ordered list carries, under every key, exactly the value the reference definition
   gives: each optional attribute is present if and only if its condition holds.
   */
  lemma RequestAttributesByKey(req: Request, route: string, key: AttrKey)
    ensures Lookup(RequestAttributes(req, route), key) == ExpectedValue(req, route, key)
  {
    LayoutByKey(BaseAttributes(req, route), OptionalsOf(req), key);
    BaseByKey(req, route, key);
    OptionalsByKey(req, route, key);
  }

  /** The layout keeps the base attributes as its prefix and adds at most six. */
  lemma LayoutStartsWithBase(base: seq<KeyValue>, opt: Optionals)
    ensures |base| <= |Layout(base, opt)| <= |base| + 6
    ensures Layout(base, opt)[..|base|] == base
  {
    var a1 := base + AsSeq(opt.serverName);
    var a2 := a1 + AsSeq(opt.hostPort);
    var a3 := a2 + AsSeq(opt.target);
    var a4 := a3 + AsSeq(opt.userAgent);
    var a5 := a4 + AsSeq(opt.clientIp);
    assert a1[..|base|] == base;
    assert a2[..|base|] == base;
    assert a3[..|base|] == base;
    assert a4[..|base|] == base;
    assert a5[..|base|] == base;
  }

  /** The list opens with method, flavor, host, route and scheme, in that order. */
  lemma RequestAttributesStartWithBase(req: Request, route: string)
    ensures 5 <= |RequestAttributes(req, route)| <= 11
    ensures RequestAttributes(req, route)[..5] == BaseAttributes(req, route)
    ensures forall i :: 0 <= i < 5 ==>
      RequestAttributes(req, route)[i].key == [HttpMethod, HttpFlavor, HttpHost, HttpRoute, HttpScheme][i]
  {
    var base := BaseAttributes(req, route);
    LayoutStartsWithBase(base, OptionalsOf(req));
    var attrs := RequestAttributes(req, route);
    assert attrs[..5] == base;
    forall i | 0 <= i < 5
      ensures attrs[i].key == [HttpMethod, HttpFlavor, HttpHost, HttpRoute, HttpScheme][i]
    {
      assert attrs[i] == base[i];
    }
  }

  /** Every attribute in the list comes before rank `r` in the collector's order. */
  predicate RanksBelow(attributes: seq<KeyValue>, r: nat) {
    forall i :: 0 <= i < |attributes| ==> RankOf(attributes[i].key) < r
  }

  /** The attributes appear in strictly increasing rank, so each key at most once. */
  predicate Ranked(attributes: seq<KeyValue>) {
    forall i, j :: 0 <= i < j < |attributes| ==> RankOf(attributes[i].key) < RankOf(attributes[j].key)
  }

  /** Pushing an attribute of a later rank than everything so far keeps the list in order. */
  lemma RankedPush(prefix: seq<KeyValue>, o: Option<KeyValue>, k: AttrKey)
    requires Ranked(prefix) && RanksBelow(prefix, RankOf(k))
    requires o.Some? ==> o.value.key == k
    ensures Ranked(prefix + AsSeq(o)) && RanksBelow(prefix + AsSeq(o), RankOf(k) + 1)
  {
    var s := prefix + AsSeq(o);
    forall i | 0 <= i < |s|
      ensures RankOf(s[i].key) <= RankOf(k)
    {
      if i < |prefix| {
        assert s[i] == prefix[i];
      }
    }
    forall i, j | 0 <= i < j < |s|
      ensures RankOf(s[i].key) < RankOf(s[j].key)
    {
      assert s[i] == prefix[i];
      if j < |prefix| {
        assert s[j] == prefix[j];
      }
    }
  }

  /** The six optional attributes follow the base in their own fixed order. */
  lemma LayoutRanked(base: seq<KeyValue>, opt: Optionals)
    requires opt.WellKeyed()
    requires Ranked(base) && RanksBelow(base, RankOf(HttpServerName))
    ensures Ranked(Layout(base, opt))
  {
    var a1 := base + AsSeq(opt.serverName);
    var a2 := a1 + AsSeq(opt.hostPort);
    var a3 := a2 + AsSeq(opt.target);
    var a4 := a3 + AsSeq(opt.userAgent);
    var a5 := a4 + AsSeq(opt.clientIp);
    RankedPush(base, opt.serverName, HttpServerName);
    RankedPush(a1, opt.hostPort, NetHostPort);
    RankedPush(a2, opt.target, HttpTarget);
    RankedPush(a3, opt.userAgent, HttpUserAgent);
    RankedPush(a4, opt.clientIp, HttpClientIp);
    RankedPush(a5, opt.peerIp, NetPeerIp);
  }

  /**
   The list is in the collector's order: method, flavor, host, route, scheme, then whichever of
   server name, host port, target, user agent, client address and peer address are present.
   */
  lemma RequestAttributesRanked(req: Request, route: string)
    ensures forall i, j :: 0 <= i < j < |RequestAttributes(req, route)| ==>
      RankOf(RequestAttributes(req, route)[i].key) < RankOf(RequestAttributes(req, route)[j].key)
  {
    BaseRanked(req, route);
    LayoutRanked(BaseAttributes(req, route), OptionalsOf(req));
    assert Ranked(RequestAttributes(req, route));
  }

  /** The five base attributes take ranks 0 to 4 in turn. */
  lemma BaseRanked(req: Request, route: string)
    ensures Ranked(BaseAttributes(req, route)) && RanksBelow(BaseAttributes(req, route), RankOf(HttpServerName))
  {
    var base := BaseAttributes(req, route);
    assert base[0].key == HttpMethod && base[1].key == HttpFlavor && base[2].key == HttpHost;
    assert base[3].key == HttpRoute && base[4].key == HttpScheme;
    RankedByPosition(base);
  }

  /** A list whose every attribute sits at the position of its rank is ranked. */
  lemma RankedByPosition(attributes: seq<KeyValue>)
    requires forall i :: 0 <= i < |attributes| ==> RankOf(attributes[i].key) == i
    ensures Ranked(attributes) && RanksBelow(attributes, |attributes|)
  {
  }

  /** How many attributes carry the key. */
  function Count(attributes: seq<KeyValue>, key: AttrKey): nat {
    if attributes == [] then 0
    else (if attributes[0].key == key then 1 else 0) + Count(attributes[1..], key)
  }

  lemma {:induction false} CountAppend(a: seq<KeyValue>, b: seq<KeyValue>, key: AttrKey)
    ensures Count(a + b, key) == Count(a, key) + Count(b, key)
  {
    if a == [] {
      assert a + b == b;
    } else {
      assert (a + b)[1..] == a[1..] + b;
      CountAppend(a[1..], b, key);
    }
  }

  /** An attribute's key is counted at least once. */
  lemma {:induction false} CountAtLeastOne(attributes: seq<KeyValue>, i: nat)
    requires i < |attributes|
    ensures Count(attributes, attributes[i].key) >= 1
  {
    if i > 0 {
      CountAtLeastOne(attributes[1..], i - 1);
    }
  }

  /** A list in which every key is counted at most once has pairwise distinct keys. */
  lemma {:induction false} CountedOnceDistinct(attributes: seq<KeyValue>)
    requires forall key :: Count(attributes, key) <= 1
    ensures forall i, j :: 0 <= i < j < |attributes| ==> attributes[i].key != attributes[j].key
  {
    if attributes != [] {
      var tail := attributes[1..];
      forall key ensures Count(tail, key) <= 1 {
        assert Count(attributes, key) <= 1;
      }
      CountedOnceDistinct(tail);
      forall j | 0 < j < |attributes| ensures attributes[0].key != attributes[j].key {
        CountAtLeastOne(tail, j - 1);
        assert Count(attributes, attributes[0].key) <= 1;
      }
    }
  }

  lemma CountOptional(o: Option<KeyValue>, k: AttrKey, key: AttrKey)
    requires o.Some? ==> o.value.key == k
    ensures Count(AsSeq(o), key) == if o.Some? && k == key then 1 else 0
  {
    if o.Some? {
      assert AsSeq(o)[1..] == [];
    }
  }

  /** Pushing an optional attribute adds one to its own key's count, if it is present. */
  lemma CountPush(prefix: seq<KeyValue>, o: Option<KeyValue>, k: AttrKey, key: AttrKey)
    requires o.Some? ==> o.value.key == k
    ensures Count(prefix + AsSeq(o), key) == Count(prefix, key) + Added(o, k, key)
  {
    CountAppend(prefix, AsSeq(o), key);
    CountOptional(o, k, key);
  }

  /** One if the optional attribute is present and stored under `key`, else zero. */
  function Added(o: Option<KeyValue>, k: AttrKey, key: AttrKey): nat {
    if o.Some? && k == key then 1 else 0
  }

  /** Of the six optional attributes, at most the one stored under `key` adds to its count. */
  lemma AddedByOptionals(opt: Optionals, key: AttrKey)
    ensures Added(opt.serverName, HttpServerName, key) + Added(opt.hostPort, NetHostPort, key)
      + Added(opt.target, HttpTarget, key) + Added(opt.userAgent, HttpUserAgent, key)
      + Added(opt.clientIp, HttpClientIp, key) + Added(opt.peerIp, NetPeerIp, key)
      == if opt.ValueOf(key).Some? then 1 else 0
  {
  }

  /** In the layout, each key is counted among the base attributes, plus once if it is an optional one present. */
  lemma LayoutCount(base: seq<KeyValue>, opt: Optionals, key: AttrKey)
    requires opt.WellKeyed()
    ensures Count(Layout(base, opt), key) == Count(base, key) + if opt.ValueOf(key).Some? then 1 else 0
  {
    var a1 := base + AsSeq(opt.serverName);
    var a2 := a1 + AsSeq(opt.hostPort);
    var a3 := a2 + AsSeq(opt.target);
    var a4 := a3 + AsSeq(opt.userAgent);
    var a5 := a4 + AsSeq(opt.clientIp);
    var a6 := a5 + AsSeq(opt.peerIp);
    assert a6 == Layout(base, opt);
    CountPush(base, opt.serverName, HttpServerName, key);
    CountPush(a1, opt.hostPort, NetHostPort, key);
    CountPush(a2, opt.target, HttpTarget, key);
    CountPush(a3, opt.userAgent, HttpUserAgent, key);
    CountPush(a4, opt.clientIp, HttpClientIp, key);
    CountPush(a5, opt.peerIp, NetPeerIp, key);
    AddedByOptionals(opt, key);
  }

  lemma CountBase(req: Request, route: string, key: AttrKey)
    ensures Count(BaseAttributes(req, route), key) == if RankOf(key) < 5 then 1 else 0
  {
    var a0 := BaseAttributes(req, route);
    assert Count(a0[4..], key) == if key == HttpScheme then 1 else 0 by {
      assert a0[4..][1..] == [];
    }
    assert a0[3..][1..] == a0[4..];
    assert Count(a0[3..], key) == if key in {HttpRoute, HttpScheme} then 1 else 0;
    assert a0[2..][1..] == a0[3..];
    assert Count(a0[2..], key) == if key in {HttpHost, HttpRoute, HttpScheme} then 1 else 0;
    assert a0[1..][1..] == a0[2..];
    assert Count(a0[1..], key) == if key in {HttpFlavor, HttpHost, HttpRoute, HttpScheme} then 1 else 0;
  }

  /** Each key is carried exactly once when the reference definition sets it, and never otherwise. */
  lemma RequestAttributesCount(req: Request, route: string, key: AttrKey)
    ensures Count(RequestAttributes(req, route), key) == if ExpectedValue(req, route, key).Some? then 1 else 0
  {
    LayoutCount(BaseAttributes(req, route), OptionalsOf(req), key);
    CountBase(req, route, key);
    OptionalsByKey(req, route, key);
  }

  /** No key appears twice in the list. */
  lemma RequestAttributesKeysDistinct(req: Request, route: string)
    ensures forall i, j :: 0 <= i < j < |RequestAttributes(req, route)| ==>
      RequestAttributes(req, route)[i].key != RequestAttributes(req, route)[j].key
  {
    forall key ensures Count(RequestAttributes(req, route), key) <= 1 {
      RequestAttributesCount(req, route, key);
    }
    CountedOnceDistinct(RequestAttributes(req, route));
  }

  /** A conditional push appends exactly the optional attribute, when it is present. */
  lemma PushedOptional(before: seq<KeyValue>, after: seq<KeyValue>, o: Option<KeyValue>)
    requires o.Some? ==> after == before + [o.value]
    requires o.None? ==> after == before
    ensures after == before + AsSeq(o)
  {
  }

  /**
   The six conditional pushes, applied in order to the base attributes, give the specified list.
   The snapshots `s1`..`s6` are the list after each push. They are parameters only so that the
   solver unfolds one push at a time; they carry no meaning of their own.
   */
  lemma PushedAll(req: Request, route: string, base: seq<KeyValue>, s1: seq<KeyValue>, s2: seq<KeyValue>,
                  s3: seq<KeyValue>, s4: seq<KeyValue>, s5: seq<KeyValue>, s6: seq<KeyValue>)
    requires base == BaseAttributes(req, route)
    requires s1 == base + AsSeq(ServerNameAttribute(req))
    requires s2 == s1 + AsSeq(HostPortAttribute(req))
    requires s3 == s2 + AsSeq(TargetAttribute(req))
    requires s4 == s3 + AsSeq(UserAgentAttribute(req))
    requires s5 == s4 + AsSeq(ClientIpAttribute(req))
    requires s6 == s5 + AsSeq(PeerIpAttribute(req))
    ensures s6 == RequestAttributes(req, route)
  {
  }

  /** The attribute collection of the middleware: five fixed attributes, then conditional pushes. */
  method CollectAttributes(req: Request, route: string) returns (attributes: seq<KeyValue>)
    ensures attributes == RequestAttributes(req, route)
  {
    attributes := [
      KeyValue(HttpMethod, Str(req.httpMethod)),
      KeyValue(HttpFlavor, Str(RemoveAll(DebugName(req.version), "HTTP/"))),
      KeyValue(HttpHost, Str(req.connHost)),
      KeyValue(HttpRoute, Str(route)),
      KeyValue(HttpScheme, Str(req.scheme))
    ];
    // ghost snapshots of the list after each conditional push
    ghost var base := attributes;
    var serverName := req.serverName;
    if serverName != req.connHost {
      attributes := attributes + [KeyValue(HttpServerName, Str(serverName))];
    }
    ghost var withServerName := attributes;
    PushedOptional(base, withServerName, ServerNameAttribute(req));
    var pieces := SplitTerminator(req.connHost, ':');
    var port := if |pieces| >= 2 then ParseU64(pieces[1]) else None;
    if port.Some? {
      attributes := attributes + [KeyValue(NetHostPort, U64(port.value))];
    }
    ghost var withHostPort := attributes;
    PushedOptional(withServerName, withHostPort, HostPortAttribute(req));
    if req.pathAndQuery.Some? {
      attributes := attributes + [KeyValue(HttpTarget, Str(req.pathAndQuery.value))];
    }
    ghost var withTarget := attributes;
    PushedOptional(withHostPort, withTarget, TargetAttribute(req));
    var userAgent := Get(req.headers, USER_AGENT);
    if userAgent.Some? {
      attributes := attributes + [KeyValue(HttpUserAgent, Str(userAgent.value))];
    }
    ghost var withUserAgent := attributes;
    PushedOptional(withTarget, withUserAgent, UserAgentAttribute(req));
    var remoteAddr := req.realIpRemoteAddr;
    if remoteAddr.Some? {
      attributes := attributes + [KeyValue(HttpClientIp, Str(remoteAddr.value))];
    }
    ghost var withClientIp := attributes;
    PushedOptional(withUserAgent, withClientIp, ClientIpAttribute(req));
    if req.peerAddr.Some? {
      var peerAddr := req.peerAddr.value;
      if Some(peerAddr) != remoteAddr {
        // the client is going through a proxy
        attributes := attributes + [KeyValue(NetPeerIp, Str(peerAddr))];
      }
    }
    PushedOptional(withClientIp, attributes, PeerIpAttribute(req));
    PushedAll(req, route, base, withServerName, withHostPort, withTarget, withUserAgent, withClientIp, attributes);
  }
}
