/** The stream context an operator runs with (api.StreamContext and topoContext.DefaultContext). */
module TopoContext {
  import opened Wrappers
  import opened Tracing

  /** topoContext.TraceStrategy: the two named strategies, or any other configured value. */
  datatype TraceStrategy = AlwaysTraceStrategy | HeadTraceStrategy | OtherStrategy(value: string)

  /**
   * `strategy` is `None` when the context is not a `*DefaultContext`, the
   * only type that exposes a strategy. `spanCtx` is the Go context it embeds.
   */
  datatype StreamContext = StreamContext(
    traceEnabled: bool,
    strategy: Option<TraceStrategy>,
    ruleId: string,
    opId: string,
    spanCtx: Context)

  /**
   * topoContext.WithContext: a stream context around a Go context. Only the
   * embedded context is modelled; the other fields take neutral values.
   */
  function WithContext(c: Context): (x: StreamContext)
    ensures x.spanCtx == c
  {
    StreamContext(false, None, "", "", c)
  }
}
