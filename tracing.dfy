/**
 * The tracing provider as the trace node sees it: Go contexts that may carry
 * a span, spans with an attribute set, and a tracer that starts spans.
 * The provider itself is external; this is the contract the trace node relies on.
 */
module Tracing {

  /** A Go `context.Context`, reduced to the span context it carries. */
  datatype Context =
    | Background                                           // context.Background(): no span
    | Remote(header: string, valid: bool)                  // what the `extract` decoder is meant to return
    | WithSpan(parent: Context, spanId: nat, valid: bool)  // `parent` plus a span started in it

  /** trace.SpanContextFromContext(c).IsValid() */
  predicate IsValid(c: Context) {
    match c
    case Background => false
    case Remote(_, valid) => valid
    case WithSpan(_, _, valid) => valid
  }

  /** `c` is `a` or was derived from `a` by starting spans in it. */
  predicate DescendsFrom(c: Context, a: Context) {
    c == a || (c.WithSpan? && DescendsFrom(c.parent, a))
  }

  lemma {:induction false} DescendsFromTransitive(c: Context, b: Context, a: Context)
    requires DescendsFrom(c, b) && DescendsFrom(b, a)
    ensures DescendsFrom(c, a)
  {
    if c != b {
      DescendsFromTransitive(c.parent, b, a);
    }
  }

  /** A live span: its name, the context it was started in, and its attributes. */
  class Span {
    const id: nat
    const name: string
    const parent: Context
    var attributes: map<string, string>

    constructor (id: nat, name: string, parent: Context)
      ensures this.id == id && this.name == name && this.parent == parent
      ensures attributes == map[]
    {
      this.id := id;
      this.name := name;
      this.parent := parent;
      attributes := map[];
    }

    /** span.SetAttributes(attribute.String(key, value)): a later value for a key replaces the earlier one. */
    method SetAttribute(key: string, value: string)
      modifies this
      ensures attributes == old(attributes)[key := value]
    {
      attributes := attributes[key := value];
    }
  }

  /**
   * The process-wide tracer, passed in explicitly. `started` logs every span
   * it has started. `issuesValid` tells whether it hands out valid span
   * contexts for new spans whatever the parent; when it does not, a new
   * span's context is valid only if its parent's is.
   */
  class Tracer {
    var started: seq<Span>
    const issuesValid: bool

    constructor (issuesValid: bool)
      ensures started == [] && this.issuesValid == issuesValid
    {
      started := [];
      this.issuesValid := issuesValid;
    }

    /** The context that Start returns with `span`: the parent context plus the span. */
    function ChildOf(span: Span): (c: Context)
      ensures c.WithSpan? && c.parent == span.parent && c.spanId == span.id
      ensures DescendsFrom(c, span.parent)
      ensures IsValid(c) <==> issuesValid || IsValid(span.parent)
    {
      WithSpan(span.parent, span.id, issuesValid || IsValid(span.parent))
    }

    /** tracer.Start(parent, name): a fresh span with no attributes, and the child context holding it. */
    method Start(parent: Context, name: string) returns (child: Context, span: Span)
      modifies this
      ensures fresh(span) && span.name == name && span.parent == parent && span.attributes == map[]
      ensures span.id == |old(started)|
      ensures child == ChildOf(span)
      ensures started == old(started) + [span]
    {
      span := new Span(|started|, name, parent);
      child := ChildOf(span);
      started := started + [span];
    }
  }
}
