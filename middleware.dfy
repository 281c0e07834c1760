/**
 The request tracing middleware: for each request it names a server span after the matched
 route, attaches the request attributes, lets the inner service handle the request, then
 records the outcome on the span, ends it, and hands the outcome back untouched.
 */
module Middleware {
  import opened Wrappers
  import opened StatusMapper
  import opened Attributes
  import opened Spans

  /** A response of the inner service: its status code and an uninterpreted body. */
  datatype ServiceResponse = ServiceResponse(status: HttpStatusCode, body: seq<int>)

  /** An error of the inner service, carried with its `Debug` rendering. */
  datatype ServiceError = ServiceError(debug: string)

  datatype ServiceResult = Ok(response: ServiceResponse) | Err(error: ServiceError)

  /** The route name: the matched pattern, or `default`, passed through the formatter if any. */
  function RouteName(matchPattern: Option<string>, routeFormatter: Option<string -> string>): string {
    var route := matchPattern.GetOr("default");
    if routeFormatter.Some? then routeFormatter.value(route) else route
  }

  /** A formatter is applied to the fallback name as well as to a matched pattern. */
  lemma FormatterSeesDefaultedRoute(matchPattern: Option<string>, format: string -> string)
    ensures RouteName(matchPattern, Some(format)) == format(RouteName(matchPattern, None))
    ensures matchPattern.None? ==> RouteName(matchPattern, Some(format)) == format("default")
  {
  }

  /** The identity formatter behaves as no formatter at all. */
  lemma IdentityFormatterIsDefault(matchPattern: Option<string>)
    ensures RouteName(matchPattern, Some(s => s)) == RouteName(matchPattern, None)
  {
  }

  /** The attribute `http.status_code` the success path adds to the span. */
  function StatusCodeAttribute(response: ServiceResponse): KeyValue {
    KeyValue(HttpStatusCode, U64(response.status))
  }

  /** The attributes added once the service has settled: the status code, on success only. */
  function SettledAttributes(res: ServiceResult): seq<KeyValue> {
    if res.Ok? then [StatusCodeAttribute(res.response)] else []
  }

  /**
   The attributes of a finished span, by key: the request attributes as the collector's
   reference definition gives them, and the response status code exactly when there is one.
   */
  lemma FinishedAttributesByKey(req: Request, route: string, res: ServiceResult, key: AttrKey)
    ensures Lookup(RequestAttributes(req, route) + SettledAttributes(res), key) ==
      if key == HttpStatusCode then (if res.Ok? then Some(U64(res.response.status)) else None)
      else ExpectedValue(req, route, key)
  {
    RequestAttributesByKey(req, route, key);
    LookupAppend(RequestAttributes(req, route), SettledAttributes(res), key);
  }

  /**
   What the span records once the service has settled: on success the status-code attribute
   and the mapped status with an empty message, on error `Internal` with the error's text.
   The span is ended exactly once and the outcome is returned as it came.
   */
  method FinishSpan(span: Span, res: ServiceResult) returns (out: ServiceResult)
    requires span.Valid() && !span.ended
    modifies span
    ensures out == res
    ensures span.Valid() && span.ended && span.endCalls == old(span.endCalls) + 1
    ensures res.Ok? ==>
      span.attributes == old(span.attributes) + [StatusCodeAttribute(res.response)] &&
      span.status == Some(Status(FromHttpStatus(res.response.status), ""))
    ensures res.Err? ==>
      span.attributes == old(span.attributes) &&
      span.status == Some(Status(StatusCode.Internal, res.error.debug))
  {
    match res
    case Ok(okRes) =>
      span.SetAttribute(StatusCodeAttribute(okRes));
      var statusCode := FromHttpStatus(okRes.status);
      span.SetStatus(statusCode, "");
      span.End();
      out := Ok(okRes);
    case Err(err) =>
      span.SetStatus(StatusCode.Internal, err.debug);
      span.End();
      out := Err(err);
  }

  class RequestTracingMiddleware {
    /** The wrapped service, as the outcome it produces for each request. */
    const service: Request -> ServiceResult
    const routeFormatter: Option<string -> string>

    constructor (service: Request -> ServiceResult, routeFormatter: Option<string -> string>)
      ensures this.service == service && this.routeFormatter == routeFormatter
    {
      this.service := service;
      this.routeFormatter := routeFormatter;
    }

    /** The route: the matched pattern or `default`, then reformatted when a formatter is set. */
    method ResolveRoute(matchPattern: Option<string>) returns (httpRoute: string)
      ensures routeFormatter.None? ==> httpRoute == matchPattern.GetOr("default")
      ensures routeFormatter.Some? ==> httpRoute == routeFormatter.value(matchPattern.GetOr("default"))
      ensures httpRoute == RouteName(matchPattern, routeFormatter)
    {
      httpRoute := matchPattern.GetOr("default");
      if routeFormatter.Some? {
        httpRoute := routeFormatter.value(httpRoute);
      }
    }

    /**
     Handles one request: a fresh server span under `parent`, named after the route and
     carrying the request attributes, is ended exactly once after the service settles, and the
     service's outcome is returned unchanged.
     */
    method Call(req: Request, parent: TraceContext) returns (span: Span, res: ServiceResult)
      ensures fresh(span) && span.Valid()
      ensures res == service(req)
      ensures span.ended && span.endCalls == 1
      ensures span.name == RouteName(req.matchPattern, routeFormatter)
      ensures span.kind == Server && span.parent == parent
      ensures span.attributes == RequestAttributes(req, span.name) + SettledAttributes(res)
      ensures Lookup(span.attributes, HttpRoute) == Some(Str(span.name))
      ensures Lookup(span.attributes, HttpStatusCode) ==
        if res.Ok? then Some(U64(res.response.status)) else None
      ensures res.Ok? ==> span.status == Some(Status(FromHttpStatus(res.response.status), ""))
      ensures res.Err? ==> span.status == Some(Status(StatusCode.Internal, res.error.debug))
    {
      var httpRoute := ResolveRoute(req.matchPattern);
      var attributes := CollectAttributes(req, httpRoute);
      span := new Span(httpRoute, Server, attributes, parent);
      var outcome := service(req);
      res := FinishSpan(span, outcome);
      FinishedAttributesByKey(req, httpRoute, res, HttpRoute);
      FinishedAttributesByKey(req, httpRoute, res, HttpStatusCode);
    }
  }
}
