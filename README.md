# Trace gating and trace context for pipeline operators

This project models the trace node of a streaming rule engine
(`internal/topo/node/tracenode/trace_node.go`). Every time an operator handles a
row, a collection or a raw tuple, this layer decides whether to open a tracing
span. It also picks the context the span is parented on, the attributes it gets
(`rule`, `data`), and whether the item's carried trace context is overwritten so
that the next operator continues the same chain.

Modules, one per concern:

- `Wrappers`: `Option`. `None` stands for a nil context.
- `Hex`: Go's lower-case `hex.EncodeToString`, and a lower-case decoder as its inverse.
- `TraceParent`: `buildTraceParent`, which builds the `traceparent` header of W3C
  Trace Context (section 3.2), version 00. A reference parser for the same
  layout, linked to it by an if-and-only-if lemma.
- `Tracing`: the tracing provider's contract. A Go context is reduced to the span
  context it carries. A span is an object with an attribute map. The tracer is
  an object that starts spans and logs them.
- `TopoContext`: the operator's stream context (trace flag, strategy, rule id,
  operator id, embedded context), the trace strategies, and `WithContext`.
- `Xsql`: the data items. A carrier is an object with a mutable carried context.
  An `interface{}` argument is a carrier, a `[]byte`, or anything else.
- `TraceNode`: the strategy gate, the six span-start entry points and the two
  attribute recorders.
- `Scenarios`: client methods showing what happens across several calls on the
  same row.

The process-wide tracer is passed in as a `Tracer` parameter. The `traceparent`
decoder (`propagation.TraceContext{}.Extract`) and the JSON serialisers are
passed in as function parameters.

There are six span-start entry points: `TraceRowTuple`, `TraceInput`,
`TraceRow`, `StartTraceBySpanCtx`, `StartTraceBackground` and `StartTraceByID`.
Only `TraceInput` and `TraceRow` write the new context back onto the item.
`TraceRowTuple` (lines 24-34) sets no `rule` attribute; the other five do.

## Model

| member | source | states |
|---|---|---|
| `Hex.EncodeToString` | internal/topo/node/tracenode/trace_node.go:143 | two lower-case hex digits per byte, high nibble first; length is twice the input |
| `Hex.DecodeLowerHex` | internal/topo/node/tracenode/trace_node.go:143 | decoding succeeds exactly on even-length lower-case hex text and yields half as many bytes |
| `Hex.DecodeEncode` | internal/topo/node/tracenode/trace_node.go:143 | decoding an encoding gives the original bytes back |
| `Hex.EncodeDecode` | internal/topo/node/tracenode/trace_node.go:143 | whatever decodes re-encodes to the same text, so the encoding is the only text that decodes to those bytes |
| `TraceParent.BuildTraceParent` | internal/topo/node/tracenode/trace_node.go:142-144 | the header is 55 characters, starts with `00-`, ends with `-01`, has a dash at 35, and its two middle fields are lower-case hex that decodes back to the 16-byte trace id and the 8-byte span id |
| `TraceParent.ParseTraceParent` | internal/topo/node/tracenode/trace_node.go:142-144 | reference parser: only a 55-character version-00 layout parses |
| `TraceParent.BuildParseIff` | internal/topo/node/tracenode/trace_node.go:142-144 | a header parses as version 00, flags 01, with ids t and s exactly when it equals the header built from t and s |
| `TraceParent.ParsesBuilt` | internal/topo/node/tracenode/trace_node.go:142-144 | every built header parses back to version 00, its ids, flags 01 |
| `TraceParent.BuiltFromParsed` | internal/topo/node/tracenode/trace_node.go:142-144 | a header that parses as version 00 / flags 01 is the built header of its ids |
| `Tracing.DescendsFromTransitive` | internal/topo/node/tracenode/trace_node.go:81-84 | descent from a context is transitive, so chains of written-back contexts keep their ancestry (used by `Scenarios.RowSpanChainOfThree`) |
| `Tracing.Tracer.ChildOf` | internal/topo/node/tracenode/trace_node.go:31 | the context returned by Start holds this span (same id), has the span's parent as parent and so descends from it, and is valid exactly when the tracer issues valid contexts or the parent is valid |
| `Tracing.Tracer.Start` | internal/topo/node/tracenode/trace_node.go:31 | a fresh span with the given name and parent and no attributes, whose id is its position in the log; the returned context is its child context; the span is logged |
| `Tracing.Span.SetAttribute` | internal/topo/node/tracenode/trace_node.go:68 | the key is set to the value, other attributes unchanged |
| `TopoContext.WithContext` | internal/topo/node/tracenode/trace_node.go:32 | the wrapper embeds exactly the given context |
| `Xsql.Carrier.SetTracerCtx` | internal/topo/node/tracenode/trace_node.go:70 | the carried context becomes the given one |
| `TraceNode.HasTraceContext` | internal/topo/node/tracenode/trace_node.go:165-168 | a nil context never has a trace context |
| `TraceNode.ExtractStrategy` | internal/topo/node/tracenode/trace_node.go:157-163 | a context that exposes no strategy (not a `DefaultContext`) yields `Always`; otherwise its configured strategy |
| `TraceNode.CheckCtxByStrategy` | internal/topo/node/tracenode/trace_node.go:146-163 | a context without a strategy allows; `Always` allows; `Head` allows iff the candidate is non-nil with a valid span context; any other strategy refuses |
| `TraceNode.ParentOf` | internal/topo/node/tracenode/trace_node.go:31 | a non-nil context parents a span on its embedded context; nil parents it on an invalid (background) context |
| `TraceNode.TraceRowTuple` | internal/topo/node/tracenode/trace_node.go:24-34 | starts iff tracing is enabled and the strategy allows the tuple's context; the span is `opName` parented on that context, has no attributes, and is logged; the tuple is unchanged; nothing changes when it does not start |
| `TraceNode.TraceInput` | internal/topo/node/tracenode/trace_node.go:56-72 | starts iff tracing is enabled, the value carries a context and the strategy allows it; the span has exactly `rule` = rule id; the item's context becomes the returned one; a refusal changes neither tracer nor item |
| `TraceNode.TraceRow` | internal/topo/node/tracenode/trace_node.go:74-86 | as TraceInput for a row: gated on the row's context, parented on it, `rule` stamped, the row's new context equals the returned one; a refusal changes neither tracer nor row |
| `TraceNode.StartTraceBySpanCtx` | internal/topo/node/tracenode/trace_node.go:88-99 | gated on and parented on the side context `sctx`; `rule` stamped; nothing else changes |
| `TraceNode.StartTraceBackground` | internal/topo/node/tracenode/trace_node.go:101-113 | gated on `ctx` itself but parented on the background context; `rule` stamped |
| `TraceNode.StartTraceByID` | internal/topo/node/tracenode/trace_node.go:115-128 | starts iff tracing is enabled (no strategy check); the span is named after the operator id, parented on what the decoder yields for the single-entry carrier `traceparent` = the built header; `rule` stamped |
| `TraceNode.BytesToString` | internal/topo/node/tracenode/trace_node.go:45 | the string has the same length as the bytes, one character per byte with the same code |
| `TraceNode.RecordRowOrCollection` | internal/topo/node/tracenode/trace_node.go:36-47 | `data` is set to the row's serialisation, a non-empty collection's serialisation, or a raw tuple's bytes; any other value and an empty collection leave the span unchanged |
| `TraceNode.RecordSpanData` | internal/topo/node/tracenode/trace_node.go:49-54 | `data` is set to the bytes of a `[]byte` input; nothing happens for any other input |
| `Scenarios.HeadFollowsUpstream` | internal/topo/node/tracenode/trace_node.go:74-86 | under `Head` a row with no context is refused; after an `Always` operator traced it, the `Head` operator starts a span in the written-back context with `rule` = `r1` |
| `Scenarios.RowSpanChain` | internal/topo/node/tracenode/trace_node.go:74-86 | tracing a row twice chains the spans: the second is parented on the first's context and descends from where the first started |
| `Scenarios.RowSpanChainOfThree` | internal/topo/node/tracenode/trace_node.go:74-86 | three operators tracing the same row in turn: the third span's parent, and the row's final context, descend from where the first span started |

## Left out

- TraceNode.HasTraceContext: its own contract says only that a nil context has
  no trace context. Its full meaning (validity of the embedded span context) is
  stated in the `Head` clause of `TraceNode.CheckCtxByStrategy`.
- The tracing provider is abstract. `Start` creates a span whose id is its position in the tracer's log. The
  new context is valid when the tracer issues valid contexts (`issuesValid`) or
  when the parent is valid. Ending and exporting spans are not modelled.
- Spans are modelled as recording spans. A no-op span, which discards
  attributes, is not modelled.
- `propagation.TraceContext{}.Extract` (lines 122-123) is a function parameter.
  Its decoding and the validity of what it returns are outside the model. The
  `TraceParent` parser is a reference parser used to state the format, not a model of
  that decoder.
- Span start options (`opts ...trace.SpanStartOption`, lines 67 and 81) are not
  modelled.
- `ToStringRow` and `ToStringCollection` (lines 130-140) are function
  parameters. `Clone`, `ToMap`/`ToMaps` and `json.Marshal` are not modelled.
  Neither is the discarded marshalling error.
- `TopoContext.WithContext` models only the embedded context. The wrapper's own
  trace flag, strategy and ids are given neutral values (off, none, empty).
  Nothing in this layer reads them.
- `tracer.GetTracer()` is the explicit `Tracer` parameter. Its global
  initialisation is not modelled.
- Nil pointers are not modelled: a nil `*RawTuple`, a nil row or a nil span
  panics in Go, and the model uses non-null references.
- The configured strategy's concrete type in `topoContext` is not modelled.
  Values other than the two named strategies are `OtherStrategy`.
- A Go `string(b)` is a byte string. The model renders it as one character per
  byte.
- Concurrency across pipeline stages is not modelled. This layer does no
  locking of its own.
- The header `00-0102030405060708090a0b0c0d0e0f10-0102030405060708-01` for
  trace id `01..10` and span id `01..08` is not proved as a single 55-character
  literal. The general format and round-trip lemmas cover it.
