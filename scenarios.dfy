/** Clients of the entry points: what a pipeline observes across several calls on one item. */
module Scenarios {
  import opened Wrappers
  import opened Tracing
  import opened TopoContext
  import opened Xsql
  import opened TraceNode

  /**
   * Under `Head`, a row with no trace context is refused; once an upstream
   * operator under `Always` has traced it (and written its context back),
   * the same `Head` operator starts a span in that context, stamped with
   * its rule.
   */
  method HeadFollowsUpstream(tracer: Tracer, row: Carrier) returns (refused: bool, upstream: Span?, downstream: Span?)
    requires row.data.Row? && row.tracerCtx == None && tracer.issuesValid
    modifies tracer, row
    ensures refused
    ensures upstream != null && downstream != null
    ensures downstream.parent == tracer.ChildOf(upstream)
    ensures downstream.attributes == map[RuleKey := "r1"]
  {
    var head := StreamContext(true, Some(HeadTraceStrategy), "r1", "op2", Background);
    var always := StreamContext(true, Some(AlwaysTraceStrategy), "r1", "op1", Background);
    var ok, c, s := TraceRow(tracer, head, row, "op2");
    refused := !ok;
    ok, c, upstream := TraceRow(tracer, always, row, "op1");
    ok, c, downstream := TraceRow(tracer, head, row, "op2");
  }

  /**
   * Tracing the same row twice gives a chain, not two siblings: the second
   * span starts in the context the first one wrote back, so it descends from
   * where the first one started.
   */
  method RowSpanChain(tracer: Tracer, ctx: StreamContext, row: Carrier) returns (first: Span?, second: Span?)
    requires row.data.Row? && ctx.traceEnabled
    requires ctx.strategy == None || ctx.strategy == Some(AlwaysTraceStrategy)
    modifies tracer, row
    ensures first != null && second != null && first != second
    ensures second.parent == tracer.ChildOf(first)
    ensures DescendsFrom(second.parent, first.parent)
    ensures row.tracerCtx == Some(WithContext(tracer.ChildOf(second)))
  {
    var ok, c;
    ok, c, first := TraceRow(tracer, ctx, row, "op");
    ok, c, second := TraceRow(tracer, ctx, row, "op");
  }

  /**
   * Three operators tracing the same row in turn: each span starts in the
   * context the previous one wrote back, so the last span's context still
   * descends from where the first one started.
   */
  method RowSpanChainOfThree(tracer: Tracer, ctx: StreamContext, row: Carrier)
    returns (first: Span?, third: Span?)
    requires row.data.Row? && ctx.traceEnabled
    requires ctx.strategy == None || ctx.strategy == Some(AlwaysTraceStrategy)
    modifies tracer, row
    ensures first != null && third != null
    ensures DescendsFrom(third.parent, first.parent)
    ensures row.tracerCtx.Some? && DescendsFrom(row.tracerCtx.value.spanCtx, first.parent)
  {
    var ok, c, second;
    ok, c, first := TraceRow(tracer, ctx, row, "op1");
    ok, c, second := TraceRow(tracer, ctx, row, "op2");
    ok, c, third := TraceRow(tracer, ctx, row, "op3");
    DescendsFromTransitive(third.parent, second.parent, first.parent);
    DescendsFromTransitive(tracer.ChildOf(third), third.parent, first.parent);
  }
}
