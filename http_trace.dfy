/**
 * The trace context carried between services in HTTP headers, the derivation of
 * root and child spans, and the span attributes the HTTP middleware computes.
 */
module HttpTrace {
  import opened Basics
  import opened Text
  import opened TraceIds

  /** `TraceContext`: the three identifiers as hexadecimal text; "" when absent. */
  datatype TraceContext = TraceContext(traceId: string, spanId: string, parentSpanId: string)

  /** `TraceContext.IsValid`: both identifiers are non-empty and not only white space. */
  predicate IsValidContext(tc: TraceContext)
  {
    tc.traceId != "" && tc.spanId != ""
    && |TrimSpace(tc.traceId)| > 0 && |TrimSpace(tc.spanId)| > 0
  }

  /** Validity says exactly that each identifier holds a character that is not white space. */
  lemma IsValidContextIff(tc: TraceContext)
    ensures IsValidContext(tc) <==> HasNonSpace(tc.traceId) && HasNonSpace(tc.spanId)
  {
    TrimSpaceEmptyIff(tc.traceId);
    TrimSpaceEmptyIff(tc.spanId);
  }

  /** Printed identifiers are hexadecimal digits, none of them white space. */
  lemma HexNotSpace(s: string)
    requires |s| > 0 && forall i :: 0 <= i < |s| ==> IsLowerHex(s[i])
    ensures HasNonSpace(s)
  {
    assert !IsSpace(s[0]);
  }

  /**
   * `CreateRootSpan`: a new trace; `newTrace` and `newSpan` are the identifiers that
   * `GenerateTraceID` and `GenerateSpanID` returned.
   */
  function CreateRootSpan(newTrace: TraceId, newSpan: SpanId): (tc: TraceContext)
    ensures tc.parentSpanId == ""
    ensures tc.traceId == TraceIdString(newTrace) && tc.spanId == SpanIdString(newSpan)
    ensures IsValidContext(tc)
  {
    var tc := TraceContext(TraceIdString(newTrace), SpanIdString(newSpan), "");
    HexNotSpace(tc.traceId);
    HexNotSpace(tc.spanId);
    IsValidContextIff(tc);
    tc
  }

  /**
   * `CreateChildSpan`: the span a service opens for a request it received. A valid parent
   * is continued: same trace, the parent's span becomes the parent, `newSpan` is the new
   * span. An invalid parent starts a new trace instead.
   */
  function CreateChildSpan(parent: TraceContext, newTrace: TraceId, newSpan: SpanId): (tc: TraceContext)
    ensures IsValidContext(parent) ==>
      tc.traceId == parent.traceId && tc.parentSpanId == parent.spanId
      && tc.spanId == SpanIdString(newSpan)
    ensures !IsValidContext(parent) ==> tc == CreateRootSpan(newTrace, newSpan)
    ensures IsValidContext(tc)
  {
    if !IsValidContext(parent) then CreateRootSpan(newTrace, newSpan)
    else
      var tc := TraceContext(parent.traceId, SpanIdString(newSpan), parent.spanId);
      HexNotSpace(tc.spanId);
      IsValidContextIff(parent);
      IsValidContextIff(tc);
      tc
  }

  /** Every hop of a call chain stays in the trace its first span started. */
  lemma {:induction false} ChildChainKeepsTrace(root: TraceContext, spans: seq<SpanId>, t: TraceId)
    requires IsValidContext(root)
    ensures ChildChain(root, spans, t).traceId == root.traceId
    ensures IsValidContext(ChildChain(root, spans, t))
    ensures spans != [] ==> ChildChain(root, spans, t).spanId == SpanIdString(spans[|spans| - 1])
  {
    if spans != [] {
      ChildChainKeepsTrace(root, spans[..|spans| - 1], t);
    }
  }

  /** The context after one child span per identifier in `spans`, starting from `root`. */
  function ChildChain(root: TraceContext, spans: seq<SpanId>, t: TraceId): TraceContext
  {
    if spans == [] then root
    else CreateChildSpan(ChildChain(root, spans[..|spans| - 1], t), t, spans[|spans| - 1])
  }

  /** The part of `TraceContext.String` that is always present. */
  function ContextBase(tc: TraceContext): string
  {
    "TraceID: " + tc.traceId + ", SpanID: " + tc.spanId
  }

  /** `TraceContext.String`: the parent segment appears exactly when there is a parent. */
  function ContextString(tc: TraceContext): (s: string)
    ensures HasPrefix(s, ContextBase(tc))
    ensures s == ContextBase(tc) <==> tc.parentSpanId == ""
    ensures tc.parentSpanId != "" ==> HasSuffix(s, ", ParentSpanID: " + tc.parentSpanId)
  {
    var base := ContextBase(tc);
    if tc.parentSpanId != "" then
      var s := base + ", ParentSpanID: " + tc.parentSpanId;
      assert s[..|base|] == base;
      assert s[|s| - |", ParentSpanID: " + tc.parentSpanId|..] == ", ParentSpanID: " + tc.parentSpanId;
      s
    else
      assert base[..|base|] == base;
      base
  }

  /** `generateSpanName`: the method, a space, and the path, "/" standing for an empty path. */
  function SpanName(verb: string, path: string): (name: string)
    ensures HasPrefix(name, verb + " ")
    ensures |name| > |verb| + 1
    ensures path != "" ==> name[|verb| + 1..] == path
    ensures path == "" ==> name[|verb| + 1..] == "/"
  {
    var shown := if path == "" then "/" else path;
    var name := verb + " " + shown;
    assert name[..|verb + " "|] == verb + " ";
    assert name[|verb| + 1..] == shown;
    name
  }

  /**
   * The `net.peer.ip` attribute: `None` when the remote address is empty (no attribute),
   * otherwise the address cut at its last ':' when it has one.
   */
  function PeerIp(remoteAddr: string): (ip: Option<string>)
    ensures ip.Some? <==> remoteAddr != ""
    ensures ip.Some? && ':' in remoteAddr ==>
      exists port :: remoteAddr == ip.value + ":" + port && ':' !in port
    ensures ip.Some? && ':' !in remoteAddr ==> ip.value == remoteAddr
  {
    if remoteAddr == "" then None
    else
      var colon := LastIndexOf(remoteAddr, ':');
      if colon != -1 then
        var port := remoteAddr[colon + 1..];
        assert remoteAddr == remoteAddr[..colon] + ":" + port;
        assert forall j :: 0 <= j < |port| ==> port[j] == remoteAddr[colon + 1 + j];
        Some(remoteAddr[..colon])
      else
        Some(remoteAddr)
  }

  /** The status a span is given. */
  datatype SpanStatus = Unset | StatusOk | StatusError

  /** `setHTTPResponseSpanAttributes`: a server span fails from status 400 on. */
  function ServerSpanStatus(statusCode: int): (st: SpanStatus)
    ensures st == StatusError <==> statusCode >= 400
    ensures st == StatusOk <==> statusCode < 400
  {
    if statusCode >= 400 then StatusError else StatusOk
  }

  /**
   * `FinishHTTPClientSpan`: a transport error, or a response from status 400 on, marks the
   * span as failed; a lower status, or neither a response nor an error, leaves it unset.
   */
  function ClientSpanStatus(failed: bool, responseStatus: Option<int>): (st: SpanStatus)
    ensures st == StatusError <==> failed || (responseStatus.Some? && responseStatus.value >= 400)
    ensures st != StatusOk
  {
    if failed then StatusError
    else if responseStatus.Some? && responseStatus.value >= 400 then StatusError
    else Unset
  }

  // ------------------------------------------------------------------ headers

  const TraceIdHeader: string := "X-Trace-ID"
  const SpanIdHeader: string := "X-Span-ID"
  const ParentSpanIdHeader: string := "X-Parent-Span-ID"

  /** A byte allowed in a header field name (an HTTP token character). */
  predicate IsTokenChar(c: char)
  {
    ('a' <= c <= 'z') || ('A' <= c <= 'Z') || ('0' <= c <= '9')
    || c in "!#$%&'*+-.^_`|~"
  }

  function UpperChar(c: char): char
  {
    if 'a' <= c <= 'z' then (c as int - 32) as char else c
  }

  /** The canonical case of position `i`: upper after a '-' or at the start, lower elsewhere. */
  function CanonicalChar(s: string, i: nat): char
    requires i < |s|
  {
    if i == 0 || s[i - 1] == '-' then UpperChar(s[i]) else LowerChar(s[i])
  }

  /**
   * `textproto.CanonicalMIMEHeaderKey`, as `Header.Set` and `Header.Get` apply it: the first
   * letter and every letter after a '-' upper-cased, the others lower-cased; a key with a
   * character that is not a token character is used as it is.
   */
  function CanonicalHeaderKey(key: string): (r: string)
    ensures |r| == |key|
  {
    if forall i :: 0 <= i < |key| ==> IsTokenChar(key[i])
    then seq(|key|, i requires 0 <= i < |key| => CanonicalChar(key, i))
    else key
  }

  lemma CanonicalKeyOf(key: string, canonical: string)
    requires forall i :: 0 <= i < |key| ==> IsTokenChar(key[i])
    requires |canonical| == |key| && forall i :: 0 <= i < |key| ==> CanonicalChar(key, i) == canonical[i]
    ensures CanonicalHeaderKey(key) == canonical
  {
  }

  /** The keys under which the three trace headers are stored. */
  lemma TraceHeaderKeys()
    ensures CanonicalHeaderKey(TraceIdHeader) == "X-Trace-Id"
    ensures CanonicalHeaderKey(SpanIdHeader) == "X-Span-Id"
    ensures CanonicalHeaderKey(ParentSpanIdHeader) == "X-Parent-Span-Id"
  {
    CanonicalKeyOf(TraceIdHeader, "X-Trace-Id");
    CanonicalKeyOf(SpanIdHeader, "X-Span-Id");
    CanonicalKeyOf(ParentSpanIdHeader, "X-Parent-Span-Id");
  }

  /** `http.Header`: canonical keys, each with the list of its values. */
  type Header = map<string, seq<string>>

  /** `Header.Set`: the key's values become exactly `[value]`. */
  function HeaderSet(h: Header, key: string, value: string): Header
  {
    h[CanonicalHeaderKey(key) := [value]]
  }

  /** `Header.Get`: the first value of the key, or "". */
  function HeaderGet(h: Header, key: string): string
  {
    var k := CanonicalHeaderKey(key);
    if k in h && |h[k]| > 0 then h[k][0] else ""
  }

  predicate IsTraceHeaderKey(k: string)
  {
    k == "X-Trace-Id" || k == "X-Span-Id" || k == "X-Parent-Span-Id"
  }

  /**
   * The custom-header part of `SetTraceContextToHttpHeader`: each header is written only
   * when its field is non-empty, and no other header is touched.
   */
  function SetTraceHeaders(h: Header, tc: TraceContext): (r: Header)
    ensures forall k :: !IsTraceHeaderKey(k) ==> (k in r <==> k in h) && (k in h ==> r[k] == h[k])
    ensures tc.traceId != "" ==> HeaderGet(r, TraceIdHeader) == tc.traceId
    ensures tc.spanId != "" ==> HeaderGet(r, SpanIdHeader) == tc.spanId
    ensures tc.parentSpanId != "" ==> HeaderGet(r, ParentSpanIdHeader) == tc.parentSpanId
    ensures tc.traceId == "" ==> HeaderGet(r, TraceIdHeader) == HeaderGet(h, TraceIdHeader)
    ensures tc.spanId == "" ==> HeaderGet(r, SpanIdHeader) == HeaderGet(h, SpanIdHeader)
    ensures tc.parentSpanId == "" ==> HeaderGet(r, ParentSpanIdHeader) == HeaderGet(h, ParentSpanIdHeader)
  {
    TraceHeaderKeys();
    var h1 := if tc.traceId != "" then HeaderSet(h, TraceIdHeader, tc.traceId) else h;
    var h2 := if tc.spanId != "" then HeaderSet(h1, SpanIdHeader, tc.spanId) else h1;
    if tc.parentSpanId != "" then HeaderSet(h2, ParentSpanIdHeader, tc.parentSpanId) else h2
  }

  /** `GetTraceContextFromHttpHeader`, on the header map of the request. */
  function HeaderContext(h: Header): TraceContext
  {
    TraceContext(HeaderGet(h, TraceIdHeader), HeaderGet(h, SpanIdHeader), HeaderGet(h, ParentSpanIdHeader))
  }

  /** Reading the trace headers back gives the context that was written, field by field. */
  lemma HeaderRoundTrip(h: Header, tc: TraceContext)
    ensures tc.traceId != "" && tc.spanId != "" && tc.parentSpanId != "" ==>
      HeaderContext(SetTraceHeaders(h, tc)) == tc
    ensures HeaderContext(SetTraceHeaders(map[], tc)) == tc
  {
    TraceHeaderKeys();
  }

  /** `*http.Request`, reduced to its header map. */
  class HttpRequest {
    var header: Header

    constructor (h: Header)
      ensures header == h
    {
      header := h;
    }

    /**
     * `GetTraceContextFromHttpHeader`: the first value stored under each canonical trace
     * key, or "" when the key is absent or has no value.
     */
    function TraceContextFromHeader(): (tc: TraceContext)
      reads this
      ensures tc.traceId == if "X-Trace-Id" in header && header["X-Trace-Id"] != [] then header["X-Trace-Id"][0] else ""
      ensures tc.spanId == if "X-Span-Id" in header && header["X-Span-Id"] != [] then header["X-Span-Id"][0] else ""
      ensures tc.parentSpanId ==
        if "X-Parent-Span-Id" in header && header["X-Parent-Span-Id"] != [] then header["X-Parent-Span-Id"][0] else ""
    {
      TraceHeaderKeys();
      HeaderContext(header)
    }
  }

  /**
   * `SetTraceContextToHttpHeader`: `req` is the request stored in the context, `null` when
   * there is none, in which case nothing happens. After the three custom headers,
   * `InjectTraceContext` lets the OpenTelemetry propagator write its own headers;
   * `injected` is what it writes, keyed canonically, each replacing any earlier value.
   */
  method SetTraceContextToHttpHeader(req: HttpRequest?, tc: TraceContext, injected: Header)
    modifies req
    ensures req != null ==> req.header == SetTraceHeaders(old(req.header), tc) + injected
    ensures (req != null && tc.traceId != "" && tc.spanId != "" && tc.parentSpanId != ""
             && forall k :: k in injected ==> !IsTraceHeaderKey(k))
      ==> req.TraceContextFromHeader() == tc
  {
    if req != null {
      if tc.traceId != "" {
        req.header := HeaderSet(req.header, TraceIdHeader, tc.traceId);
      }
      if tc.spanId != "" {
        req.header := HeaderSet(req.header, SpanIdHeader, tc.spanId);
      }
      if tc.parentSpanId != "" {
        req.header := HeaderSet(req.header, ParentSpanIdHeader, tc.parentSpanId);
      }
      InjectTraceContext(req, injected);
      InjectedRoundTrip(old(req.header), tc, injected);
    }
  }

  /** Headers the propagator writes besides the three trace keys do not disturb reading the context back. */
  lemma InjectedRoundTrip(h: Header, tc: TraceContext, injected: Header)
    ensures (tc.traceId != "" && tc.spanId != "" && tc.parentSpanId != ""
             && forall k :: k in injected ==> !IsTraceHeaderKey(k))
      ==> HeaderContext(SetTraceHeaders(h, tc) + injected) == tc
  {
    TraceHeaderKeys();
    HeaderRoundTrip(h, tc);
  }

  /** `InjectTraceContext`: the propagator's headers are set on the request, replacing earlier values. */
  method InjectTraceContext(req: HttpRequest, injected: Header)
    modifies req
    ensures req.header == old(req.header) + injected
    ensures forall k :: k in injected ==> k in req.header && req.header[k] == injected[k]
    ensures forall k :: k !in injected ==>
      (k in req.header <==> k in old(req.header)) && (k in req.header ==> req.header[k] == old(req.header)[k])
  {
    req.header := req.header + injected;
  }
}
