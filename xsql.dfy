/** The data items that flow between operators and can carry a trace context. */
module Xsql {
  import opened Wrappers
  import opened Hex
  import opened TopoContext

  /** The key/value map a row exposes (ToMap). */
  type Message = map<string, string>

  /** The three carrier shapes: a row, a collection of rows, a raw tuple. */
  datatype Data =
    | Row(message: Message)
    | Collection(rows: seq<Message>)
    | RawTuple(rawdata: seq<byte>)

  /** An item implementing xsql.HasTracerCtx: its data and the context it carries (`None` is nil). */
  class Carrier {
    const data: Data
    var tracerCtx: Option<StreamContext>

    constructor (data: Data, tracerCtx: Option<StreamContext>)
      ensures this.data == data && this.tracerCtx == tracerCtx
    {
      this.data := data;
      this.tracerCtx := tracerCtx;
    }

    /** SetTracerCtx: replaces the carried context. */
    method SetTracerCtx(ctx: StreamContext)
      modifies this
      ensures tracerCtx == Some(ctx)
    {
      tracerCtx := Some(ctx);
    }
  }

  /** A value passed as Go's `interface{}`: a carrier, a `[]byte`, or anything else. */
  datatype Value =
    | Traceable(carrier: Carrier)
    | ByteSlice(bytes: seq<byte>)
    | Opaque
}
