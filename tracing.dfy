/** The part of the tracing collaborator the plugin relies on: starting a
    span, setting its status, ending it. Ending a span hands it to the
    exporter; `Tracer.finished` is the exporter's list of finished spans. */
module Tracing {
  import opened Outcomes

  /** SpanKind; the plugin only ever starts CLIENT spans. */
  datatype SpanKind = Client

  /** CanonicalCode; the plugin only ever reports OK or UNKNOWN. */
  datatype StatusCode = OK | UNKNOWN

  datatype SpanStatus = Unset | Status(code: StatusCode, message: Option<string>)

  /** What `startSpan(name, {kind, attributes})` is given. */
  datatype SpanData = SpanData(name: string, kind: SpanKind, attributes: map<string, string>)

  /** A span as the exporter sees it once it has ended. */
  datatype FinishedSpan = FinishedSpan(data: SpanData, status: SpanStatus)

  class Tracer {
    var finished: seq<FinishedSpan>

    constructor ()
      ensures finished == []
    {
      finished := [];
    }
  }

  /** A started span. */
  class SpanHandle {
    const data: SpanData
    var status: SpanStatus
    var ended: bool

    constructor (data: SpanData)
      ensures this.data == data && status == Unset && !ended
    {
      this.data := data;
      status := Unset;
      ended := false;
    }

    /** `span.setStatus(s)`: ignored once the span has ended. */
    method SetStatus(s: SpanStatus)
      modifies this
      ensures status == if old(ended) then old(status) else s
      ensures ended == old(ended)
    {
      if !ended {
        status := s;
      }
    }

    /** `span.end()`: the first call records the span; later calls do nothing. */
    method End(tracer: Tracer)
      modifies this, tracer
      ensures ended && status == old(status)
      ensures tracer.finished == if old(ended) then old(tracer.finished)
                                 else old(tracer.finished) + [FinishedSpan(data, status)]
    {
      if !ended {
        ended := true;
        tracer.finished := tracer.finished + [FinishedSpan(data, status)];
      }
    }
  }
}
