/**
 * The `traceparent` header of W3C Trace Context (section 3.2 of the
 * W3C Trace Context recommendation), version 00:
 *   version "-" trace-id "-" parent-id "-" trace-flags
 * with 2, 32, 16 and 2 lower-case hex digits, 55 characters in all.
 */
module TraceParent {
  import opened Wrappers
  import opened Hex

  /** Go's `[16]byte` trace identifier. */
  type TraceId = s: seq<byte> | |s| == 16 witness seq(16, _ => 0)

  /** Go's `[8]byte` span (parent) identifier. */
  type SpanId = s: seq<byte> | |s| == 8 witness seq(8, _ => 0)

  const HeaderLength: nat := 55

  /** The four fields of a version-00 header. */
  datatype Header = Header(version: byte, traceId: TraceId, parentId: SpanId, flags: byte)

  /**
   * buildTraceParent: version 00, the two identifiers in lower-case hex,
   * flags 01 (sampled). Always 55 characters; each hex field decodes back
   * to the identifier it was built from.
   */
  function BuildTraceParent(traceId: TraceId, spanId: SpanId): (h: string)
    ensures |h| == HeaderLength
    ensures h[..3] == "00-" && h[35] == '-' && h[52..] == "-01"
    ensures IsLowerHex(h[3..35]) && IsLowerHex(h[36..52])
    ensures DecodeLowerHex(h[3..35]) == Some(traceId)
    ensures DecodeLowerHex(h[36..52]) == Some(spanId)
  {
    var h := "00-" + EncodeToString(traceId) + "-" + EncodeToString(spanId) + "-01";
    assert h[3..35] == EncodeToString(traceId);
    assert h[36..52] == EncodeToString(spanId);
    DecodeEncode(traceId);
    DecodeEncode(spanId);
    h
  }

  /**
   * Reads a version-00 header: exactly 55 characters, dashes at 2, 35 and 52,
   * lower-case hex in every field, and not the forbidden version ff.
   */
  function ParseTraceParent(h: string): (r: Option<Header>)
    ensures r.Some? ==> |h| == HeaderLength
  {
    if |h| != HeaderLength || h[2] != '-' || h[35] != '-' || h[52] != '-' then None
    else
      match (DecodeLowerHex(h[..2]), DecodeLowerHex(h[3..35]), DecodeLowerHex(h[36..52]), DecodeLowerHex(h[53..]))
      case (Some(v), Some(t), Some(p), Some(f)) =>
        if v[0] == 0xff then None else Some(Header(v[0], t, p, f[0]))
      case _ => None
  }

  /** A header parses as version 00, sampled, with these identifiers exactly when it is the one built from them. */
  lemma BuildParseIff(h: string, traceId: TraceId, spanId: SpanId)
    ensures ParseTraceParent(h) == Some(Header(0, traceId, spanId, 1)) <==> h == BuildTraceParent(traceId, spanId)
  {
    if h == BuildTraceParent(traceId, spanId) {
      ParsesBuilt(traceId, spanId);
    }
    if ParseTraceParent(h) == Some(Header(0, traceId, spanId, 1)) {
      BuiltFromParsed(h, traceId, spanId);
    }
  }

  lemma ParsesBuilt(traceId: TraceId, spanId: SpanId)
    ensures ParseTraceParent(BuildTraceParent(traceId, spanId)) == Some(Header(0, traceId, spanId, 1))
  {
    var h := BuildTraceParent(traceId, spanId);
    assert h[..2] == "00";
    assert h[53..] == "01";
    assert EncodeToString([0]) == "00" && EncodeToString([1]) == "01";
    DecodeEncode([0]);
    DecodeEncode([1]);
  }

  lemma BuiltFromParsed(h: string, traceId: TraceId, spanId: SpanId)
    requires ParseTraceParent(h) == Some(Header(0, traceId, spanId, 1))
    ensures h == BuildTraceParent(traceId, spanId)
  {
    var b := BuildTraceParent(traceId, spanId);
    var v := DecodeLowerHex(h[..2]).value;
    var f := DecodeLowerHex(h[53..]).value;
    EncodeDecode(h[..2], v);
    EncodeDecode(h[53..], f);
    EncodeDecode(h[3..35], traceId);
    EncodeDecode(b[3..35], traceId);
    EncodeDecode(h[36..52], spanId);
    EncodeDecode(b[36..52], spanId);
    assert v == [0] && f == [1];
    assert h[..2] == ['0', '0'] && h[53..] == ['0', '1'];
    forall i | 0 <= i < |h| ensures h[i] == b[i] {
      if i < 2 {
        assert h[i] == h[..2][i] && b[i] == b[..3][i];
      } else if 3 <= i < 35 {
        assert h[i] == h[3..35][i - 3] && b[i] == b[3..35][i - 3];
      } else if 36 <= i < 52 {
        assert h[i] == h[36..52][i - 36] && b[i] == b[36..52][i - 36];
      } else if 53 <= i {
        assert h[i] == h[53..][i - 53] && b[i] == b[52..][i - 52];
      } else if i == 2 {
        assert b[i] == b[..3][i];
      }
    }
  }
}
