/**
 Client code: what a caller of the middleware can conclude from the contracts alone, for a
 few concrete requests.
 */
module Scenarios {
  import opened Wrappers
  import opened RustStr
  import opened HeaderCarrier
  import opened StatusMapper
  import opened Attributes
  import opened Spans
  import opened Middleware

  /** A GET request matched to `/users/{id}` and answered with 404. */
  method NotFoundScenario(req: Request)
    requires req.httpMethod == "GET" && req.matchPattern == Some("/users/{id}")
  {
    var middleware := new RequestTracingMiddleware(r => Ok(ServiceResponse(404, [])), None);
    var span, res := middleware.Call(req, Empty);
    assert res == Ok(ServiceResponse(404, []));
    assert span.name == "/users/{id}";
    assert FromHttpStatus(404) == NotFound;
    assert span.status == Some(Status(NotFound, ""));
    assert Lookup(span.attributes, HttpStatusCode) == Some(U64(404));
    assert Lookup(span.attributes, HttpRoute) == Some(Str("/users/{id}"));
    FinishedAttributesByKey(req, span.name, res, HttpMethod);
    assert Lookup(span.attributes, HttpMethod) == Some(Str("GET"));
  }

  /** A failing service: the span records Internal with the error text; the error is returned. */
  method FailureScenario(req: Request) {
    var failure := ServiceError("db timeout");
    var middleware := new RequestTracingMiddleware(r => Err(failure), None);
    var span, res := middleware.Call(req, Remote(7, 9));
    assert res == Err(failure);
    assert span.status == Some(Status(StatusCode.Internal, "db timeout"));
    assert span.ended && span.parent == Remote(7, 9);
    assert Lookup(span.attributes, HttpStatusCode) == None;
  }

  /** A formatter that mounts every route under `/api` turns `/users/{id}` into `/api/users/{id}`. */
  method FormatterScenario(req: Request)
    requires req.matchPattern == Some("/users/{id}")
  {
    var middleware := new RequestTracingMiddleware(r => Ok(ServiceResponse(200, [])), Some(route => "/api" + route));
    var span, res := middleware.Call(req, Empty);
    assert span.name == "/api" + "/users/{id}";
    assert FromHttpStatus(200) == OK;
    assert span.status == Some(Status(OK, ""));
  }

  /** An unmatched request is named `default`. */
  method UnmatchedScenario(req: Request)
    requires req.matchPattern == None
  {
    var middleware := new RequestTracingMiddleware(r => Ok(ServiceResponse(200, [])), None);
    var span, res := middleware.Call(req, Empty);
    assert span.name == "default";
    assert Lookup(span.attributes, HttpRoute) == Some(Str("default"));
  }

  /**
   A request that reached the server through a proxy, on the configured host: the collector
   records the proxy's address as the peer, and does not repeat the server name.
   */
  method ProxyScenario(req: Request, route: string)
    requires req.serverName == req.connHost
    requires req.realIpRemoteAddr == Some("10.0.0.1") && req.peerAddr == Some("10.0.0.2:50000")
  {
    var attributes := CollectAttributes(req, route);
    RequestAttributesByKey(req, route, HttpServerName);
    assert Lookup(attributes, HttpServerName) == None;
    assert |"10.0.0.2:50000"| != |"10.0.0.1"|;
    RequestAttributesByKey(req, route, NetPeerIp);
    assert Lookup(attributes, NetPeerIp) == Some(Str("10.0.0.2:50000"));
  }
}
