# Request tracing middleware of actix-web-opentelemetry, in Dafny

This project models the server-side tracing middleware of the `actix-web-opentelemetry`
crate. For each request, `RequestTracingMiddleware::call` in `src/middleware/trace.rs` does five things:

- it resolves a route name: the matched pattern, or `default`, passed through an optional route formatter;
- it collects an ordered list of OpenTelemetry attributes from the request;
- it opens a server span named after the route and carrying those attributes;
- it lets the wrapped service handle the request;
- it records the outcome on the span, ends the span, and returns the outcome unchanged.

On success the span gets the `http.status_code` attribute and a trace status mapped from the
HTTP status. On error it gets `Internal` with the error's text. The read-only header view
handed to the trace-context propagator (`RequestHeaderCarrier`) is modelled as well.

Modules, in dependency order:

- `Wrappers`: `Option`.
- `RustStr`: the pieces of Rust's standard library the middleware relies on.
  - `split` and `split_terminator` on a character.
  - `replace(pat, "")`.
  - `u64::from_str`: an optional `+`, then one or more ASCII digits, rejected above 2^64 - 1.
  - Decimal rendering of a number.
- `HeaderCarrier`: a header map from lower-case names to bytes. The map's type admits only lower-case names.
  - `HeaderValue::to_str` accepts visible ASCII and tab.
  - `get` lower-cases its key.
  - `keys` lists every name once.
- `StatusMapper`: the HTTP-status to trace-status match (OpenTelemetry's gRPC-style status codes).
- `Attributes`: the request as the middleware reads it and the attribute keys it sets.
  - The collector is written twice. `RequestAttributes` specifies it as a list. The imperative `CollectAttributes` pushes onto a vector.
  - `ExpectedValue` is an independent, key-by-key reference definition of what each attribute should hold.
- `Spans`: a `Span` class with attributes, status and an `ended` flag, updated in place. As in the OpenTelemetry SDK, changes after the end are ignored. A ghost counter records how often `End` was called.
- `Middleware`: the route name, the finalisation step (`FinishSpan`) and the `RequestTracingMiddleware` class with `Call`.
- `Scenarios`: small client methods that use only the contracts above, on partially fixed requests (a 404, a failing service, a formatter, an unmatched route, a proxied request).

Modelling notes:

- The wrapped service is a total function from requests to outcomes, held by the middleware. Its outcome is what the future resolves to.
- The route formatter is an uninterpreted function `string -> string`.
- The parent trace context is an input value. The propagator that extracts it is not modelled.
- The peer-IP attribute is added when a peer address exists and differs from the proxy-aware client address. This includes the case where there is no client address at all, since `Some(peer)` differs from `None`.
- The host port is the second `:`-separated piece of the connection host, if that piece parses as a `u64` (`HostPortIsSecondPiece`). For a bracketed IPv6 host this is a group of the address, not the port. `[2001:1234::1]:80` yields 1234, and `[::1]:8080` yields no port (`HostPortOfIpv6Address`, `HostPortOfIpv6Loopback`). The model keeps this behaviour as the code has it.

## Model

| member | source | states |
|---|---|---|
| RustStr.SplitTerminator | src/middleware/trace.rs:184 | `split_terminator` gives the `split` pieces, minus an empty last piece |
| RustStr.JoinSplit | src/middleware/trace.rs:184 | joining the pieces of a split with the separator gives back the original string |
| RustStr.SplitJoin | src/middleware/trace.rs:184 | splitting a join of separator-free pieces gives back the pieces |
| RustStr.SplitPiecesAvoidSeparator | src/middleware/trace.rs:184 | no piece of a split contains the separator |
| RustStr.SplitPlain | src/middleware/trace.rs:184 | a string without the separator splits into itself alone |
| RustStr.SplitAtFirstSeparator | src/middleware/trace.rs:184-185 | the first piece is everything before the first separator, and the rest splits on its own |
| RustStr.RemoveAll | src/middleware/trace.rs:173 | `replace(pat, "")`: deletes the leftmost non-overlapping matches; what it gives is pinned by `RemoveAllAbsent`, `RemoveAllLeading` and, for every version at its one use, `Attributes.FlavorDropsPrefix` (its own contract is only a length bound) |
| RustStr.RemoveAllAbsent | src/middleware/trace.rs:173 | a string with no match is left unchanged |
| RustStr.RemoveAllLeading | src/middleware/trace.rs:173 | a leading match followed by match-free text leaves exactly that text |
| RustStr.ParseU64 | src/middleware/trace.rs:186 | a parse succeeds only on an optional `+` followed by at least one ASCII digit, with a value that fits in 64 bits (a bare `+` is rejected) |
| RustStr.ParseU64Accepts | src/middleware/trace.rs:186 | conversely, every optional `+` followed by one or more digits parses to the value the digits denote when it fits in 64 bits, and is rejected otherwise |
| RustStr.LeadingZerosValue | src/middleware/trace.rs:186 | leading zeros do not change the value a digit string denotes |
| RustStr.ParseLeadingZeros | src/middleware/trace.rs:186 | a 64-bit value written with any number of leading zeros, with or without `+`, parses to itself |
| RustStr.DecimalDenotes | src/middleware/trace.rs:186 | the decimal rendering of a number is all digits and denotes that number |
| RustStr.ParseDecimal | src/middleware/trace.rs:186 | every `u64` rendered in decimal, with or without `+`, parses back to itself |
| RustStr.ParseDecimalOverflow | src/middleware/trace.rs:186 | a number above 2^64 - 1 does not parse, so no port is recorded |
| HeaderCarrier.ToStr | src/middleware/trace.rs:264 | a value is text if and only if every byte is visible ASCII or tab, and the text has exactly those characters |
| HeaderCarrier.ToStrFromAscii | src/middleware/trace.rs:264 | a value built from visible-ASCII text reads back as that text |
| HeaderCarrier.Get | src/middleware/trace.rs:263-265 | a header is found if and only if its lower-cased name is present and its value is text |
| HeaderCarrier.GetIgnoresCase | src/middleware/trace.rs:263-265 | the lookup does not depend on the case of the key |
| HeaderCarrier.GetFindsStoredName | src/middleware/trace.rs:263-269 | every name the map holds, and so every name `keys` lists, is found under itself with its text value |
| HeaderCarrier.GetFindsText | src/middleware/trace.rs:263-265 | a present header holding visible-ASCII text is found, under any spelling of its name, with that text |
| HeaderCarrier.Keys | src/middleware/trace.rs:267-269 | the result lists exactly the header names, each once |
| StatusMapper.FromHttpStatus | src/middleware/trace.rs:223-235 | every code maps to OK, Unknown, a client fault or a server fault |
| StatusMapper.FromHttpStatusMatchesTable | src/middleware/trace.rs:223-235 | the match picks, for every code, exactly the status whose set of codes (a table organised by outcome) contains it |
| StatusMapper.SuccessIsOk | src/middleware/trace.rs:224 | a code maps to OK if and only if it is in 100..=399 |
| StatusMapper.ClientErrorsAreClientFaults | src/middleware/trace.rs:225-229 | a code maps to a client fault if and only if it is in 400..=499, and to InvalidArgument exactly for the 4xx codes other than 401, 403, 404 and 429 |
| StatusMapper.ServerErrorsAreServerFaults | src/middleware/trace.rs:230-233 | a code maps to a server fault if and only if it is in 500..=599, and to Internal exactly for the 5xx codes other than 501, 503 and 504 |
| StatusMapper.ResponseUnknownAbove599 | src/middleware/trace.rs:234 | a response status maps to Unknown if and only if it is 600 or above |
| Attributes.DebugName | src/middleware/trace.rs:173 | the `Debug` rendering of the protocol version; what the middleware makes of it is stated by `FlavorDropsPrefix` |
| Attributes.Flavor | src/middleware/trace.rs:173 | the `http.flavor` value, the debug name with `HTTP/` removed; stated by `FlavorDropsPrefix` |
| Attributes.FlavorDropsPrefix | src/middleware/trace.rs:173 | the flavor is the protocol number that follows `HTTP/` in the version's debug name (`1.1`, `2.0`, ...) |
| Attributes.HostPort | src/middleware/trace.rs:182-186 | the port read from the connection host is a 64-bit value; which one is stated by `HostPortWithoutColon`, `HostPortIsSecondPiece` and `HostPortFromSplit` |
| Attributes.HostPortFromSplit | src/middleware/trace.rs:182-186 | the port is the parse of the second `split` piece; the dropped terminator never matters |
| Attributes.HostPortWithoutColon | src/middleware/trace.rs:182-189 | a host without `:` has no port |
| Attributes.HostPortIsSecondPiece | src/middleware/trace.rs:182-189 | for `name:port` and `name:port:rest` the port is whatever `port` parses to, and a non-numeric one is dropped without error |
| Attributes.HostPortOfIpv6Loopback | src/middleware/trace.rs:182-189 | for the host `[::1]:8080` the second piece is empty, so no port attribute is recorded |
| Attributes.HostPortOfIpv6Address | src/middleware/trace.rs:182-189 | for the host `[2001:1234::1]:80` the port recorded is 1234, the address's second group |
| Attributes.UserAgent | src/middleware/trace.rs:193-196 | the user agent is found exactly when a `user-agent` header is present and its value is text (the text itself by `HeaderCarrier.GetFindsText`) |
| Attributes.BaseAttributes | src/middleware/trace.rs:171-177 | five attributes, the fourth being the route; their keys and values are stated by `BaseByKey` and `RequestAttributesStartWithBase` |
| Attributes.ServerNameAttribute | src/middleware/trace.rs:178-181 | present exactly when the configured host differs from the connection host, carrying the configured host |
| Attributes.HostPortAttribute | src/middleware/trace.rs:182-189 | present exactly when the connection host yields a port, carrying that port as a number |
| Attributes.TargetAttribute | src/middleware/trace.rs:190-192 | present exactly when the URI has a path and query, carrying it |
| Attributes.UserAgentAttribute | src/middleware/trace.rs:193-199 | present exactly when the user agent is found, carrying it |
| Attributes.ClientIpAttribute | src/middleware/trace.rs:200-203 | present exactly when the proxy-aware client address is known, carrying it |
| Attributes.PeerIpAttribute | src/middleware/trace.rs:204-209 | present exactly when a peer address exists and differs from the client address, carrying the peer address |
| Attributes.OptionalsOf | src/middleware/trace.rs:178-209 | each optional attribute of a request carries its own key |
| Attributes.LayoutByKey | src/middleware/trace.rs:171-209 | in the collected layout, a key is found among the base attributes first, then among the present optional ones |
| Attributes.LayoutStartsWithBase | src/middleware/trace.rs:171-209 | the layout keeps the base attributes as its prefix and adds at most six more |
| Attributes.LayoutCount | src/middleware/trace.rs:171-209 | each key occurs as often as in the base, plus once if it is a present optional attribute |
| Attributes.BaseByKey | src/middleware/trace.rs:171-177 | the five base attributes carry method, flavor, host, route and scheme as the reference definition gives them, and no other key |
| Attributes.OptionalsByKey | src/middleware/trace.rs:178-209 | each optional attribute is present, with its value, exactly under the condition the reference definition gives |
| Attributes.RequestAttributes | src/middleware/trace.rs:171-209 | the ordered attribute list; its contents are stated key by key against `ExpectedValue` by `RequestAttributesByKey` and `RequestAttributesCount`, and its order by `RequestAttributesStartWithBase` and `RequestAttributesRanked` |
| Attributes.RequestAttributesByKey | src/middleware/trace.rs:171-209 | under every key the list holds the reference value: server name iff it differs from the connection host, port iff the second host piece parses, target iff there is one, user agent iff the header is text, client IP iff known, peer IP iff present and different from the client IP |
| Attributes.RequestAttributesStartWithBase | src/middleware/trace.rs:171-177 | the list has 5 to 11 entries and opens with method, flavor, host, route and scheme, in that order |
| Attributes.RequestAttributesRanked | src/middleware/trace.rs:171-209 | the attributes appear in the collector's order: method, flavor, host, route and scheme, then whichever of server name, host port, target, user agent, client address and peer address are present, in that order |
| Attributes.RequestAttributesCount | src/middleware/trace.rs:171-209 | a key occurs once when the reference definition sets it, and never otherwise |
| Attributes.RequestAttributesKeysDistinct | src/middleware/trace.rs:171-209 | no key occurs twice in the list |
| Attributes.CollectAttributes | src/middleware/trace.rs:171-209 | the pushes build exactly the specified ordered list |
| Spans.Span.constructor | src/middleware/trace.rs:169-170 | a new span is open, has never been ended, carries the given name, kind, parent and initial attributes, and has no status |
| Spans.Span.SetAttribute | src/middleware/trace.rs:222 | an open span gets the attribute appended; an ended one is unchanged |
| Spans.Span.SetStatus | src/middleware/trace.rs:236 | an open span gets the status; an ended one is unchanged |
| Spans.Span.End | src/middleware/trace.rs:237 | the span is ended, one more end is counted, and attributes and status are kept |
| Middleware.RouteName | src/middleware/trace.rs:164-167 | the route name; stated by `FormatterSeesDefaultedRoute`, `IdentityFormatterIsDefault` and `RequestTracingMiddleware.ResolveRoute` |
| Middleware.StatusCodeAttribute | src/middleware/trace.rs:222 | the `http.status_code` attribute, carrying the response status; stated by `FinishedAttributesByKey` |
| Middleware.FormatterSeesDefaultedRoute | src/middleware/trace.rs:164-167 | with a formatter, the route is the formatter applied to the unformatted name, including `default` |
| Middleware.IdentityFormatterIsDefault | src/middleware/trace.rs:164-167 | the identity formatter gives the same route as no formatter |
| Middleware.FinishedAttributesByKey | src/middleware/trace.rs:171-222 | a finished span holds every request attribute as the reference definition gives it, and the status code exactly on success |
| Middleware.FinishSpan | src/middleware/trace.rs:219-246 | on success: status-code attribute appended, mapped status with empty message; on error: attributes kept, Internal with the error text; in both cases ended exactly once more and the outcome returned unchanged |
| Middleware.RequestTracingMiddleware.constructor | src/middleware/trace.rs:135-140 | the middleware holds the given service and formatter |
| Middleware.RequestTracingMiddleware.ResolveRoute | src/middleware/trace.rs:164-167 | the route is the matched pattern or `default`, passed through the formatter when one is set |
| Middleware.RequestTracingMiddleware.Call | src/middleware/trace.rs:158-249 | a fresh server span under the given parent, named after the route, carries the collected attributes plus the status code on success and the mapped or Internal status; it is ended exactly once, `http.route` equals the span name, and the service's outcome is returned unchanged |

## Left out

- The global tracer and text-map propagator lookup (`src/middleware/trace.rs:159-163`) are process-wide OpenTelemetry registries. The extracted parent context is an input of `Call`, and the propagation wire format is not modelled.
- Context attachment (`src/middleware/trace.rs:162`, `212`, `218`) is ambient, thread-local state. The span is passed explicitly instead.
- `poll_ready`, `Box::pin`, `Rc` and the `Transform`/`new_transform` factory with `RequestTracing::new` and `with_formatter` are executor and framework wiring with no behaviour of their own.
- Middleware.RequestTracingMiddleware.Call: the service's future is modelled as the value it settles to. A request cancelled before the service settles, which would leave the span unended, is not modelled.
- Spans.Span.End: span start and end timestamps, sampling and the hand-off to the export pipeline are not modelled.
- Spans.Span.SetAttribute: the SDK's attribute limits and its replacement of an existing key are not modelled. The middleware never sets a key twice (`RequestAttributesKeysDistinct`, `FinishedAttributesByKey`).
- HeaderCarrier.Get: a header with several values is modelled by its first value only, which is the one `HeaderMap::get` returns. Validation of header names is not modelled.
- RustStr.RemoveAll: its own contract bounds only the length of the result. What it returns is stated for a string with no match, for a leading match, and for every version debug name at its one use.
- HeaderCarrier.Keys: the order of the names is unspecified, as the map's iteration order is.
- Actix request internals (`connection_info`, `realip_remote_addr`, `match_pattern`, `app_config().host()`) are fields of the request record. The `Debug` rendering of a service error and the text rendering of the peer socket address are given as strings.
- `src/lib.rs` holds only module declarations and re-exports. The metrics middleware, the client instrumentation and the exporters are not part of this model.
