/**
 The mapping from an HTTP response status to the span's trace status, applied when the
 inner service answers with a response.
 */
module StatusMapper {

  /** The status code carried by a response (`http::StatusCode` holds 100 to 999). */
  type HttpStatusCode = x: int | 100 <= x <= 999 witness 200

  /** The value of `StatusCode::as_u16`, which the mapping matches on. */
  type U16 = x: int | 0 <= x < 0x1_0000

  /** OpenTelemetry's trace status codes (the gRPC canonical codes). */
  datatype StatusCode =
    | OK | Cancelled | Unknown | InvalidArgument | DeadlineExceeded | NotFound | AlreadyExists
    | PermissionDenied | ResourceExhausted | FailedPrecondition | Aborted | OutOfRange
    | Unimplemented | Internal | Unavailable | DataLoss | Unauthenticated

  /** The codes the middleware can report for a response: client faults. */
  predicate IsClientFault(s: StatusCode) {
    s in {Unauthenticated, PermissionDenied, NotFound, ResourceExhausted, InvalidArgument}
  }

  /** The codes the middleware can report for a response: server faults. */
  predicate IsServerFault(s: StatusCode) {
    s in {Unimplemented, Unavailable, DeadlineExceeded, Internal}
  }

  /**
   The status match of the middleware: range arms and single-value arms tried in order,
   so 401, 403, 404 and 429 win over the 4xx range, and 501, 503 and 504 over the 5xx range.
   */
  function FromHttpStatus(code: U16): (s: StatusCode)
    ensures s == OK || s == Unknown || IsClientFault(s) || IsServerFault(s)
  {
    if 100 <= code <= 399 then OK
    else if code == 401 then Unauthenticated
    else if code == 403 then PermissionDenied
    else if code == 404 then NotFound
    else if code == 429 then ResourceExhausted
    else if 400 <= code <= 499 then InvalidArgument
    else if code == 501 then Unimplemented
    else if code == 503 then Unavailable
    else if code == 504 then DeadlineExceeded
    else if 500 <= code <= 599 then Internal
    else Unknown
  }

  /**
   Reference definition, organised by outcome rather than by code: the set of status codes
   each trace status stands for.
   */
  predicate StandsFor(s: StatusCode, code: int) {
    match s
    case OK => 100 <= code <= 399
    case Unauthenticated => code == 401
    case PermissionDenied => code == 403
    case NotFound => code == 404
    case ResourceExhausted => code == 429
    case InvalidArgument => 400 <= code <= 499 && code !in {401, 403, 404, 429}
    case Unimplemented => code == 501
    case Unavailable => code == 503
    case DeadlineExceeded => code == 504
    case Internal => 500 <= code <= 599 && code !in {501, 503, 504}
    case Unknown => code < 100 || code > 599
    case _ => false
  }

  /** The mapping picks, for every code, exactly the status that stands for it. */
  lemma FromHttpStatusMatchesTable(code: U16, s: StatusCode)
    ensures FromHttpStatus(code) == s <==> StandsFor(s, code)
  {
  }

  /** Every code in 100..=399 is OK, and only those. */
  lemma SuccessIsOk(code: U16)
    ensures FromHttpStatus(code) == OK <==> 100 <= code <= 399
  {
  }

  /** The 4xx range maps onto the client-fault codes, and nothing else does. */
  lemma ClientErrorsAreClientFaults(code: U16)
    ensures IsClientFault(FromHttpStatus(code)) <==> 400 <= code <= 499
    ensures FromHttpStatus(code) == InvalidArgument <==> 400 <= code <= 499 && code !in {401, 403, 404, 429}
  {
  }

  /** The 5xx range maps onto the server-fault codes, and nothing else does. */
  lemma ServerErrorsAreServerFaults(code: U16)
    ensures IsServerFault(FromHttpStatus(code)) <==> 500 <= code <= 599
    ensures FromHttpStatus(code) == Internal <==> 500 <= code <= 599 && code !in {501, 503, 504}
  {
  }

  /** For a response status (100 to 999), Unknown means exactly 600 and above. */
  lemma ResponseUnknownAbove599(code: HttpStatusCode)
    ensures FromHttpStatus(code) == Unknown <==> code >= 600
  {
  }
}
