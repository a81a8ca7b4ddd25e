/**
 * The trace-gating and trace-context layer of an operator: whether a span
 * may start, which context it starts in, what it is stamped with, and what
 * is written back onto the traced item.
 */
module TraceNode {
  import opened Wrappers
  import opened Hex
  import opened TraceParent
  import opened Tracing
  import opened TopoContext
  import opened Xsql

  const DataKey: string := "data"
  const RuleKey: string := "rule"

  // ---------------------------------------------------------------------
  // Strategy gate
  // ---------------------------------------------------------------------

  /** The configured strategy; `Always` for a context that exposes none. */
  function ExtractStrategy(ctx: StreamContext): (s: TraceStrategy)
    ensures ctx.strategy.None? ==> s == AlwaysTraceStrategy
    ensures ctx.strategy.Some? ==> s == ctx.strategy.value
  {
    ctx.strategy.GetOr(AlwaysTraceStrategy)
  }

  /** Whether a (possibly nil) context carries a valid span context. */
  function HasTraceContext(c: Option<StreamContext>): (has: bool)
    ensures has ==> c.Some?
  {
    c.Some? && IsValid(c.value.spanCtx)
  }

  /** Whether the strategy of `ctx` lets a span start, given the candidate context. */
  function CheckCtxByStrategy(ctx: StreamContext, tracerCtx: Option<StreamContext>): (allowed: bool)
    ensures ctx.strategy == None ==> allowed
    ensures ctx.strategy == Some(AlwaysTraceStrategy) ==> allowed
    ensures ctx.strategy == Some(HeadTraceStrategy) ==>
      (allowed <==> tracerCtx.Some? && IsValid(tracerCtx.value.spanCtx))
    ensures ctx.strategy.Some? && ctx.strategy.value.OtherStrategy? ==> !allowed
  {
    match ExtractStrategy(ctx)
    case AlwaysTraceStrategy => true
    case HeadTraceStrategy => HasTraceContext(tracerCtx)
    case OtherStrategy(_) => false
  }

  /** The context a span starts in when the source passes a (possibly nil) stream context. */
  function ParentOf(c: Option<StreamContext>): (parent: Context)
    ensures c.Some? ==> parent == c.value.spanCtx
    ensures c.None? ==> !IsValid(parent)
  {
    match c
    case Some(s) => s.spanCtx
    case None => Background
  }

  // ---------------------------------------------------------------------
  // Span-start entry points
  // ---------------------------------------------------------------------

  /**
   * TraceRowTuple: gated on the tuple's carried context, starts `opName` in
   * it, stamps nothing, and leaves the tuple as it is.
   */
  method TraceRowTuple(tracer: Tracer, ctx: StreamContext, input: Carrier, opName: string)
    returns (started: bool, newCtx: Option<StreamContext>, span: Span?)
    requires input.data.RawTuple?
    modifies tracer
    ensures started <==> ctx.traceEnabled && CheckCtxByStrategy(ctx, input.tracerCtx)
    ensures !started ==> newCtx == None && span == null && unchanged(tracer)
    ensures started ==>
      && span != null && fresh(span)
      && span.name == opName && span.parent == ParentOf(input.tracerCtx)
      && span.attributes == map[]
      && tracer.started == old(tracer.started) + [span]
      && newCtx == Some(WithContext(tracer.ChildOf(span)))
    ensures unchanged(input)
  {
    if !ctx.traceEnabled {
      return false, None, null;
    }
    if !CheckCtxByStrategy(ctx, input.tracerCtx) {
      return false, None, null;
    }
    var spanCtx, s := tracer.Start(ParentOf(input.tracerCtx), opName);
    return true, Some(WithContext(spanCtx)), s;
  }

  /**
   * TraceInput: only values that carry a trace context can be traced; gated
   * on that context, starts `opName` in it, stamps the rule, and writes the
   * new context back onto the item.
   */
  method TraceInput(tracer: Tracer, ctx: StreamContext, d: Value, opName: string)
    returns (started: bool, newCtx: Option<StreamContext>, span: Span?)
    modifies tracer, if d.Traceable? then {d.carrier} else {}
    ensures started <==>
      ctx.traceEnabled && d.Traceable? && CheckCtxByStrategy(ctx, old(d.carrier.tracerCtx))
    ensures !started ==> newCtx == None && span == null && unchanged(tracer)
    ensures !started && d.Traceable? ==> unchanged(d.carrier)
    ensures started ==>
      && span != null && fresh(span)
      && span.name == opName && span.parent == ParentOf(old(d.carrier.tracerCtx))
      && span.attributes == map[RuleKey := ctx.ruleId]
      && tracer.started == old(tracer.started) + [span]
      && newCtx == Some(WithContext(tracer.ChildOf(span)))
      && d.carrier.tracerCtx == newCtx
  {
    if !ctx.traceEnabled {
      return false, None, null;
    }
    if !d.Traceable? {
      return false, None, null;
    }
    var input := d.carrier;
    if !CheckCtxByStrategy(ctx, input.tracerCtx) {
      return false, None, null;
    }
    var spanCtx, s := tracer.Start(ParentOf(input.tracerCtx), opName);
    s.SetAttribute(RuleKey, ctx.ruleId);
    var x := WithContext(spanCtx);
    input.SetTracerCtx(x);
    return true, Some(x), s;
  }

  /**
   * TraceRow: gated on the row's carried context, starts `opName` in it,
   * stamps the rule, and writes the new context back onto the row.
   */
  method TraceRow(tracer: Tracer, ctx: StreamContext, input: Carrier, opName: string)
    returns (started: bool, newCtx: Option<StreamContext>, span: Span?)
    requires input.data.Row?
    modifies tracer, input
    ensures started <==> ctx.traceEnabled && CheckCtxByStrategy(ctx, old(input.tracerCtx))
    ensures !started ==> newCtx == None && span == null && unchanged(tracer, input)
    ensures started ==>
      && span != null && fresh(span)
      && span.name == opName && span.parent == ParentOf(old(input.tracerCtx))
      && span.attributes == map[RuleKey := ctx.ruleId]
      && tracer.started == old(tracer.started) + [span]
      && newCtx == Some(WithContext(tracer.ChildOf(span)))
      && input.tracerCtx == newCtx
  {
    if !ctx.traceEnabled {
      return false, None, null;
    }
    if !CheckCtxByStrategy(ctx, input.tracerCtx) {
      return false, None, null;
    }
    var spanCtx, s := tracer.Start(ParentOf(input.tracerCtx), opName);
    s.SetAttribute(RuleKey, ctx.ruleId);
    var x := WithContext(spanCtx);
    input.SetTracerCtx(x);
    return true, Some(x), s;
  }

  /**
   * StartTraceBySpanCtx: gated on a side context `sctx`, starts `opName` in
   * it and stamps the rule.
   */
  method StartTraceBySpanCtx(tracer: Tracer, ctx: StreamContext, sctx: Option<StreamContext>, opName: string)
    returns (started: bool, newCtx: Option<StreamContext>, span: Span?)
    modifies tracer
    ensures started <==> ctx.traceEnabled && CheckCtxByStrategy(ctx, sctx)
    ensures !started ==> newCtx == None && span == null && unchanged(tracer)
    ensures started ==>
      && span != null && fresh(span)
      && span.name == opName && span.parent == ParentOf(sctx)
      && span.attributes == map[RuleKey := ctx.ruleId]
      && tracer.started == old(tracer.started) + [span]
      && newCtx == Some(WithContext(tracer.ChildOf(span)))
  {
    if !ctx.traceEnabled {
      return false, None, null;
    }
    if !CheckCtxByStrategy(ctx, sctx) {
      return false, None, null;
    }
    var spanCtx, s := tracer.Start(ParentOf(sctx), opName);
    s.SetAttribute(RuleKey, ctx.ruleId);
    return true, Some(WithContext(spanCtx)), s;
  }

  /**
   * StartTraceBackground: gated on `ctx` itself, starts `opName` as a new
   * root (in the background context) and stamps the rule.
   */
  method StartTraceBackground(tracer: Tracer, ctx: StreamContext, opName: string)
    returns (started: bool, newCtx: Option<StreamContext>, span: Span?)
    modifies tracer
    ensures started <==> ctx.traceEnabled && CheckCtxByStrategy(ctx, Some(ctx))
    ensures !started ==> newCtx == None && span == null && unchanged(tracer)
    ensures started ==>
      && span != null && fresh(span)
      && span.name == opName && span.parent == Background
      && span.attributes == map[RuleKey := ctx.ruleId]
      && tracer.started == old(tracer.started) + [span]
      && newCtx == Some(WithContext(tracer.ChildOf(span)))
  {
    if !ctx.traceEnabled {
      return false, None, null;
    }
    if !CheckCtxByStrategy(ctx, Some(ctx)) {
      return false, None, null;
    }
    var spanCtx, s := tracer.Start(Background, opName);
    s.SetAttribute(RuleKey, ctx.ruleId);
    return true, Some(WithContext(spanCtx)), s;
  }

  /**
   * StartTraceByID: no strategy check. Builds the `traceparent` carrier from
   * the two identifiers, decodes it with `extract` (the propagator, outside
   * this model), starts a span named after the operator in the decoded
   * context, and stamps the rule.
   */
  method StartTraceByID(tracer: Tracer, ctx: StreamContext, traceId: TraceId, spanId: SpanId,
                        extract: map<string, string> -> Context)
    returns (started: bool, newCtx: Option<StreamContext>, span: Span?)
    modifies tracer
    ensures started <==> ctx.traceEnabled
    ensures !started ==> newCtx == None && span == null && unchanged(tracer)
    ensures started ==>
      && span != null && fresh(span)
      && span.name == ctx.opId
      && span.parent == extract(map["traceparent" := BuildTraceParent(traceId, spanId)])
      && span.attributes == map[RuleKey := ctx.ruleId]
      && tracer.started == old(tracer.started) + [span]
      && newCtx == Some(WithContext(tracer.ChildOf(span)))
  {
    if !ctx.traceEnabled {
      return false, None, null;
    }
    var carrier := map["traceparent" := BuildTraceParent(traceId, spanId)];
    var traceCtx := extract(carrier);
    var spanCtx, s := tracer.Start(traceCtx, ctx.opId);
    s.SetAttribute(RuleKey, ctx.ruleId);
    return true, Some(WithContext(spanCtx)), s;
  }

  // ---------------------------------------------------------------------
  // Attribute recorder
  // ---------------------------------------------------------------------

  /** Go's string(b): the same bytes, one character per byte. */
  function BytesToString(b: seq<byte>): (s: string)
    ensures |s| == |b|
    ensures forall i :: 0 <= i < |b| ==> s[i] as int == b[i] as int
  {
    seq(|b|, i requires 0 <= i < |b| => b[i] as int as char)
  }

  /**
   * RecordRowOrCollection: a row's serialisation, a non-empty collection's
   * serialisation, or a raw tuple's bytes become the `data` attribute;
   * anything else, and an empty collection, leaves the span as it is.
   * `toStringRow` and `toStringCollection` are the JSON serialisers.
   */
  method RecordRowOrCollection(input: Value, span: Span,
                               toStringRow: Message -> string, toStringCollection: seq<Message> -> string)
    modifies span
    ensures input.Traceable? && input.carrier.data.Row? ==>
      span.attributes == old(span.attributes)[DataKey := toStringRow(input.carrier.data.message)]
    ensures input.Traceable? && input.carrier.data.Collection? && |input.carrier.data.rows| > 0 ==>
      span.attributes == old(span.attributes)[DataKey := toStringCollection(input.carrier.data.rows)]
    ensures input.Traceable? && input.carrier.data.RawTuple? ==>
      span.attributes == old(span.attributes)[DataKey := BytesToString(input.carrier.data.rawdata)]
    ensures !input.Traceable? || input.carrier.data == Collection([]) ==> unchanged(span)
  {
    match input
    case Traceable(c) => {
      match c.data
      case Row(m) =>
        span.SetAttribute(DataKey, toStringRow(m));
      case Collection(rows) =>
        if |rows| > 0 {
          span.SetAttribute(DataKey, toStringCollection(rows));
        }
      case RawTuple(raw) =>
        span.SetAttribute(DataKey, BytesToString(raw));
    }
    case ByteSlice(_) =>
    case Opaque =>
  }

  /** RecordSpanData: only a `[]byte` becomes the `data` attribute. */
  method RecordSpanData(input: Value, span: Span)
    modifies span
    ensures input.ByteSlice? ==> span.attributes == old(span.attributes)[DataKey := BytesToString(input.bytes)]
    ensures !input.ByteSlice? ==> unchanged(span)
  {
    if input.ByteSlice? {
      span.SetAttribute(DataKey, BytesToString(input.bytes));
    }
  }
}
