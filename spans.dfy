/**
 The server span the middleware opens for a request. Its attributes and status change in
 place until it is ended; after that it is immutable and every further change is ignored,
 as the OpenTelemetry SDK does for a span that is no longer recording.
 */
module Spans {
  import opened Wrappers
  import opened StatusMapper
  import opened Attributes

  datatype SpanKind = Client | Server | Producer | Consumer | InternalKind

  /**
   The trace context the propagator extracted from the request headers: empty (the span
   roots a new trace) or carrying the upstream span as parent. Its wire format is not modelled.
   */
  datatype TraceContext = Empty | Remote(traceId: nat, spanId: nat)

  /** A trace status: a code and a free-form message. */
  datatype Status = Status(code: StatusCode, message: string)

  class Span {
    const name: string
    const kind: SpanKind
    const parent: TraceContext
    var attributes: seq<KeyValue>
    /** The status set by the middleware; `None` until it sets one. */
    var status: Option<Status>
    var ended: bool
    /** How many times `End` has been called on this span. */
    ghost var endCalls: nat

    ghost predicate Valid()
      reads this
    {
      ended <==> endCalls > 0
    }

    /** An open span, built with all its initial attributes at once. */
    constructor (name: string, kind: SpanKind, attributes: seq<KeyValue>, parent: TraceContext)
      ensures Valid() && !ended && endCalls == 0
      ensures this.name == name && this.kind == kind && this.parent == parent
      ensures this.attributes == attributes && status == None
    {
      this.name := name;
      this.kind := kind;
      this.parent := parent;
      this.attributes := attributes;
      status := None;
      ended := false;
      endCalls := 0;
    }

    /** Adds an attribute while the span is open; ignored once it has ended. */
    method SetAttribute(kv: KeyValue)
      requires Valid()
      modifies this
      ensures Valid()
      ensures attributes == if old(ended) then old(attributes) else old(attributes) + [kv]
      ensures status == old(status) && ended == old(ended) && endCalls == old(endCalls)
    {
      if !ended {
        attributes := attributes + [kv];
      }
    }

    /** Sets the status while the span is open; ignored once it has ended. */
    method SetStatus(code: StatusCode, message: string)
      requires Valid()
      modifies this
      ensures Valid()
      ensures status == if old(ended) then old(status) else Some(Status(code, message))
      ensures attributes == old(attributes) && ended == old(ended) && endCalls == old(endCalls)
    {
      if !ended {
        status := Some(Status(code, message));
      }
    }

    /** Ends the span; ending it again changes nothing but is still counted. */
    method End()
      requires Valid()
      modifies this
      ensures Valid() && ended && endCalls == old(endCalls) + 1
      ensures attributes == old(attributes) && status == old(status)
    {
      ended := true;
      endCalls := endCalls + 1;
    }
  }
}
