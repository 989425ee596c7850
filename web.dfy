/** The HTTP framework: response encoders, the response writer, `Respond`,
    middleware composition and the application's route table. */
module Web {
  import opened Wrappers
  import opened JsonValue
  import opened Errs
  import Strings

  // ---------------------------------------------------------------------------
  // Encoders

  /** What `json.Marshal` makes of a payload: its JSON tree, or the error it reports. */
  datatype Marshalled = Marshalled(data: Json) | MarshalFailed(cause: GoError)

  /** The outcome of an encoder's `Encode` method. */
  datatype EncodeResult = Bytes(body: Encoded) | EncodeFailed(cause: GoError)

  /** A handler's result: Go's `Encoder` interface, closed over the values the
      application returns. `NoContent` is the nil interface, `JsonData` a
      `JSONResponse`, `AppErr` an `*errs.Error`; `OtherErr` stands for any
      other error value that is also an encoder, with what its `HTTPStatus`
      method (if it has one) and its `Encode` method return. */
  datatype Encoder<P> =
    | NoContent
    | JsonData(data: P)
    | AppErr(err: Error)
    | OtherErr(cause: GoError, status: Option<int>, encoded: EncodeResult)

  /** `JSONResponse.Encode`: the marshalled payload as `application/json`, or the
      marshalling error wrapped as "marshal json: ...". */
  function EncodeJSONResponse<P>(data: P, marshal: P -> Marshalled): (r: EncodeResult)
    ensures marshal(data).Marshalled? ==> r == Bytes(Encoded(marshal(data).data, ContentTypeJSON))
    ensures marshal(data).MarshalFailed? ==>
              r.EncodeFailed? && Chain(r.cause) == [r.cause] + Chain(marshal(data).cause)
              && Text(r.cause) == "marshal json: " + Text(marshal(data).cause)
  {
    match marshal(data)
    case Marshalled(j) => Bytes(Encoded(j, ContentTypeJSON))
    case MarshalFailed(c) => EncodeFailed(Wrapped("marshal json: " + Text(c), c))
  }

  /** The `Encode` method of a non-nil encoder. Marshalling an `*errs.Error`
      cannot fail: it has one integer and one string field. */
  function Encode<P>(resp: Encoder<P>, marshal: P -> Marshalled): (r: EncodeResult)
    requires !resp.NoContent?
    ensures resp.AppErr? ==> r == Bytes(Errs.Encode(resp.err))
  {
    match resp
    case JsonData(d) => EncodeJSONResponse(d, marshal)
    case AppErr(e) => Bytes(Errs.Encode(e))
    case OtherErr(_, _, enc) => enc
  }

  /** The `interface{ HTTPStatus() int }` assertion: the status of an encoder that has the method. */
  function HTTPStatusOf<P>(resp: Encoder<P>): (s: Option<int>)
    ensures resp.AppErr? ==> s == Some(HTTPStatus(resp.err))
    ensures resp.NoContent? || resp.JsonData? ==> s == None
  {
    match resp
    case AppErr(e) => Some(HTTPStatus(e))
    case OtherErr(_, status, _) => status
    case _ => None
  }

  // ---------------------------------------------------------------------------
  // The response writer

  /** What has been sent on a response: the headers, the status (0 until
      `WriteHeader`) and the body writes in order. */
  datatype WriterState<B> = WriterState(header: map<string, string>, status: int, body: seq<B>) {
    /** `Header().Set`: once the status is written the headers have gone out, so
        a later change does not reach the response. */
    function SetHeader(k: string, v: string): (w: WriterState<B>)
      ensures status == 0 ==> w == this.(header := header[k := v])
      ensures status != 0 ==> w == this
    {
      if status == 0 then this.(header := header[k := v]) else this
    }

    /** `WriteHeader`: the first call decides the status, later calls are ignored. */
    function WriteHeader(code: int): (w: WriterState<B>)
      requires code != 0
      ensures w.status != 0 && w.header == header && w.body == body
      ensures w.status == if status == 0 then code else status
    {
      if status == 0 then this.(status := code) else this
    }

    /** `Write`: writes the status 200 first when none was written. */
    function Write(data: B): (w: WriterState<B>)
      ensures w.header == header && w.body == body + [data]
      ensures w.status == if status == 0 then 200 else status
    {
      WriteHeader(200).(body := body + [data])
    }
  }

  const FreshWriter: WriterState<Json> := WriterState(map[], 0, [])

  /** The `http.ResponseWriter` a request is served on. */
  class ResponseWriter<B> {
    var header: map<string, string>
    var status: int
    var body: seq<B>

    function State(): WriterState<B>
      reads this
    {
      WriterState(header, status, body)
    }

    constructor ()
      ensures State() == WriterState(map[], 0, [])
    {
      header := map[];
      status := 0;
      body := [];
    }

    method SetHeader(k: string, v: string)
      modifies this
      ensures State() == old(State()).SetHeader(k, v)
    {
      if status == 0 {
        header := header[k := v];
      }
    }

    method WriteHeader(code: int)
      requires code != 0
      modifies this
      ensures State() == old(State()).WriteHeader(code)
    {
      if status == 0 {
        status := code;
      }
    }

    method Write(data: B)
      modifies this
      ensures State() == old(State()).Write(data)
    {
      WriteHeader(200);
      body := body + [data];
    }
  }

  // ---------------------------------------------------------------------------
  // Respond

  /** The per-request values the logging middleware stores in the context. */
  class Values {
    var traceId: string
    var now: int
    var statusCode: int

    constructor (traceId: string, now: int)
      ensures this.traceId == traceId && this.now == now && statusCode == 0
    {
      this.traceId := traceId;
      this.now := now;
      statusCode := 0;
    }
  }

  /** `generateTraceID`: the clock's nanoseconds in decimal. */
  function GenerateTraceID(nanos: int): (t: string)
    ensures t != "" && Strings.AllDigits(if nanos < 0 then t[1..] else t)
  {
    Strings.IntToDecimal(nanos)
  }

  /** The trace ID reads back as the clock it was made from: its digits denote
      the nanosecond count, after a minus sign when the count is negative. */
  lemma TraceIdIsClock(nanos: int)
    ensures nanos >= 0 ==>
              Strings.AllDigits(GenerateTraceID(nanos)) && Strings.DecimalValue(GenerateTraceID(nanos)) == nanos
    ensures nanos < 0 ==>
              GenerateTraceID(nanos)[0] == '-' && Strings.AllDigits(GenerateTraceID(nanos)[1..])
              && Strings.DecimalValue(GenerateTraceID(nanos)[1..]) == -nanos
  {
    if nanos >= 0 {
      Strings.DecimalRoundTrip(nanos);
    } else {
      Wrappers.ConsParts('-', Strings.NatToDecimal(-nanos));
      Strings.DecimalRoundTrip(-nanos);
    }
  }

  /** `GetValues`: the stored values, or fresh ones (never nil). */
  method GetValues(stored: Values?, nanos: int, now: int) returns (v: Values)
    ensures stored != null ==> v == stored
    ensures stored == null ==> fresh(v) && v.traceId == GenerateTraceID(nanos) && v.now == now && v.statusCode == 0
  {
    if stored != null {
      return stored;
    }
    v := new Values(GenerateTraceID(nanos), now);
  }

  /** What `Respond` does: the writer afterwards, the status it records in the
      request's values (none when it records nothing), the error it returns,
      and whether it panicked (net/http's `WriteHeader` panics on status 0,
      which an undeclared error code yields; the server then drops the
      connection). */
  datatype Responded = Responded(writer: WriterState<Json>, statusCode: Option<int>, err: Option<GoError>, aborted: bool)

  function RespondSpec<P>(w: WriterState<Json>, resp: Encoder<P>, marshal: P -> Marshalled): Responded {
    if resp.NoContent? then Responded(w.WriteHeader(204), None, None, false)
    else
      match Encode(resp, marshal)
      case EncodeFailed(cause) => Responded(w.WriteHeader(500), None, Some(Wrapped("encode: " + Text(cause), cause)), false)
      case Bytes(enc) =>
        var code := HTTPStatusOf(resp).GetOr(200);
        if code == 0 then Responded(w.SetHeader("Content-Type", enc.contentType), Some(0), None, true)
        else Responded(w.SetHeader("Content-Type", enc.contentType).WriteHeader(code).Write(enc.data), Some(code), None, false)
  }

  /** `Respond` on a writer nothing has been sent on yet. */
  lemma RespondOnFreshWriter<P>(resp: Encoder<P>, marshal: P -> Marshalled)
    ensures resp.NoContent? ==> RespondSpec(FreshWriter, resp, marshal) == Responded(WriterState(map[], 204, []), None, None, false)
    ensures !resp.NoContent? && Encode(resp, marshal).EncodeFailed? ==>
              RespondSpec(FreshWriter, resp, marshal).writer == WriterState(map[], 500, [])
              && RespondSpec(FreshWriter, resp, marshal).err.Some?
    ensures !resp.NoContent? && Encode(resp, marshal).Bytes? && HTTPStatusOf(resp).GetOr(200) != 0 ==>
              var enc := Encode(resp, marshal).body;
              RespondSpec(FreshWriter, resp, marshal) ==
                Responded(WriterState(map["Content-Type" := enc.contentType], HTTPStatusOf(resp).GetOr(200), [enc.data]),
                          Some(HTTPStatusOf(resp).GetOr(200)), None, false)
  {
  }

  /** An application error is answered with its table status and a body a
      client decodes back to its code and message. */
  lemma RespondAppError<P>(e: Error, marshal: P -> Marshalled)
    requires Declared(e.code)
    ensures var r := RespondSpec(FreshWriter, AppErr(e), marshal);
            r.err == None && !r.aborted && r.writer.status == HTTPStatus(e) && r.statusCode == Some(HTTPStatus(e))
            && r.writer.header == map["Content-Type" := ContentTypeJSON]
            && |r.writer.body| == 1 && DecodeBody(r.writer.body[0]) == Some((e.code, e.message))
  {
    EncodeRoundTrip(e);
  }

  /** `Respond`, writing on `w` and recording the status in the request's values. */
  method Respond<P>(w: ResponseWriter<Json>, values: Values?, nanos: int, now: int, resp: Encoder<P>, marshal: P -> Marshalled)
    returns (err: Option<GoError>, aborted: bool)
    modifies w, values
    ensures w.State() == RespondSpec(old(w.State()), resp, marshal).writer
    ensures err == RespondSpec(old(w.State()), resp, marshal).err
    ensures aborted == RespondSpec(old(w.State()), resp, marshal).aborted
    ensures values != null && RespondSpec(old(w.State()), resp, marshal).statusCode.Some? ==>
              values.statusCode == RespondSpec(old(w.State()), resp, marshal).statusCode.value
    ensures values != null && RespondSpec(old(w.State()), resp, marshal).statusCode.None? ==>
              values.statusCode == old(values.statusCode)
  {
    if resp.NoContent? {
      w.WriteHeader(204);
      return None, false;
    }
    var encoded := Encode(resp, marshal);
    if encoded.EncodeFailed? {
      w.WriteHeader(500);
      return Some(Wrapped("encode: " + Text(encoded.cause), encoded.cause)), false;
    }
    w.SetHeader("Content-Type", encoded.body.contentType);
    var statusCode := 200;
    var has := HTTPStatusOf(resp);
    if has.Some? {
      statusCode := has.value;
    }
    var v := GetValues(values, nanos, now);
    v.statusCode := statusCode;
    if statusCode == 0 {
      return None, true;
    }
    w.WriteHeader(statusCode);
    w.Write(encoded.body.data);
    err, aborted := None, false;
  }

  // ---------------------------------------------------------------------------
  // Requests and the context

  /** The parts of an `*http.Request` the application reads. */
  datatype Request = Request(httpMethod: string, path: string, params: map<string, string>)

  /** `Param`: a path parameter, "" when the pattern has none of that name. */
  function Param(r: Request, key: string): (v: string)
    ensures key !in r.params ==> v == ""
    ensures key in r.params ==> v == r.params[key]
  {
    if key in r.params then r.params[key] else ""
  }

  /** The context values the framework and the middleware read: whether a
      writer is stored, the trace ID ("" when none) and whether the metrics
      instance is attached. */
  datatype Ctx = Ctx(hasWriter: bool, traceId: string, metricsAttached: bool)

  /** The context a registered handler starts from: the writer stored, and a
      trace ID generated only when the incoming context has none. */
  function HandlerContext(incoming: Ctx, nanos: int): (ctx: Ctx)
    ensures ctx.hasWriter && ctx.metricsAttached == incoming.metricsAttached
    ensures incoming.traceId != "" ==> ctx.traceId == incoming.traceId
    ensures incoming.traceId == "" ==> ctx.traceId == GenerateTraceID(nanos)
  {
    Ctx(true, if incoming.traceId == "" then GenerateTraceID(nanos) else incoming.traceId, incoming.metricsAttached)
  }

  // ---------------------------------------------------------------------------
  // Middleware composition

  /** A handler with the middleware wrapped around it, outermost first. */
  datatype Handler<E, M> = Handler(endpoint: E, layers: seq<M>)

  /** The non-nil entries of a middleware list, in order. */
  function Present<M>(mw: seq<Option<M>>): seq<M> {
    if mw == [] then []
    else (if mw[0].Some? then [mw[0].value] else []) + Present(mw[1..])
  }

  /** Dropping nils never lengthens the list, and leaves nothing exactly when
      every entry is nil. */
  lemma {:induction false} PresentBounds<M>(mw: seq<Option<M>>)
    ensures |Present(mw)| <= |mw|
    ensures Present(mw) == [] <==> forall k :: 0 <= k < |mw| ==> mw[k].None?
  {
    if mw != [] {
      PresentBounds(mw[1..]);
      assert forall k :: 0 <= k < |mw[1..]| ==> mw[1..][k] == mw[k + 1];
    }
  }

  /** `mw[0](mw[1](... h))` with the nil entries left out. */
  function Wrap<E, M>(mw: seq<Option<M>>, h: Handler<E, M>): Handler<E, M> {
    Handler(h.endpoint, Present(mw) + h.layers)
  }

  /** `wrapMiddleware`: wraps from the last entry to the first, skipping nil
      entries, so the first entry ends up outermost. */
  method WrapMiddleware<E, M>(mw: seq<Option<M>>, handler: Handler<E, M>) returns (h: Handler<E, M>)
    ensures h == Wrap(mw, handler)
  {
    h := handler;
    var i := |mw|;
    while i > 0
      invariant 0 <= i <= |mw|
      invariant h == Handler(handler.endpoint, Present(mw[i..]) + handler.layers)
    {
      i := i - 1;
      PresentStep(mw, i);
      ghost var rest := Present(mw[i + 1..]);
      if mw[i].Some? {
        h := Handler(h.endpoint, [mw[i].value] + h.layers);
        assert [mw[i].value] + (rest + handler.layers) == ([mw[i].value] + rest) + handler.layers;
      } else {
        assert [] + rest == rest;
      }
    }
    assert mw[0..] == mw;
  }

  lemma PresentStep<M>(mw: seq<Option<M>>, i: nat)
    requires i < |mw|
    ensures Present(mw[i..]) == (if mw[i].Some? then [mw[i].value] else []) + Present(mw[i + 1..])
  {
    assert mw[i..][1..] == mw[i + 1..];
  }

  lemma {:induction false} PresentAppend<M>(a: seq<Option<M>>, b: seq<Option<M>>)
    ensures Present(a + b) == Present(a) + Present(b)
  {
    if a == [] {
      assert a + b == b;
    } else {
      var head := if a[0].Some? then [a[0].value] else [];
      assert (a + b)[0] == a[0];
      assert (a + b)[1..] == a[1..] + b;
      assert Present(a + b) == head + Present(a[1..] + b);
      PresentAppend(a[1..], b);
      assert Present(a) == head + Present(a[1..]);
    }
  }

  /** Wrapping twice is wrapping once with the outer list first: route-specific
      middleware sits inside the application's. */
  lemma WrapCompose<E, M>(outer: seq<Option<M>>, inner: seq<Option<M>>, h: Handler<E, M>)
    ensures Wrap(outer, Wrap(inner, h)) == Wrap(outer + inner, h)
  {
    PresentAppend(outer, inner);
  }

  /** An empty list, or one of nil entries only, leaves the handler as it is. */
  lemma {:induction false} WrapNilsIsIdentity<E, M>(mw: seq<Option<M>>, h: Handler<E, M>)
    requires forall k :: 0 <= k < |mw| ==> mw[k].None?
    ensures Wrap(mw, h) == h
  {
    if mw != [] {
      assert forall k :: 0 <= k < |mw[1..]| ==> mw[1..][k] == mw[k + 1];
      WrapNilsIsIdentity(mw[1..], h);
    }
  }

  /** The first non-nil entry is the outermost layer. */
  lemma FirstIsOutermost<E, M>(m: M, mw: seq<Option<M>>, h: Handler<E, M>)
    ensures Wrap([Some(m)] + mw, h).layers[0] == m
  {
    assert ([Some(m)] + mw)[1..] == mw;
  }

  // ---------------------------------------------------------------------------
  // The route table

  /** The pattern a route is registered under: method, a space, group and path. */
  function Pattern(httpMethod: string, group: string, path: string): string {
    httpMethod + " " + group + path
  }

  /** A pattern splits back at its first space into the method and the rest. */
  lemma PatternParts(httpMethod: string, group: string, path: string)
    ensures var p := Pattern(httpMethod, group, path);
            |p| == |httpMethod| + 1 + |group| + |path|
            && p[..|httpMethod|] == httpMethod && p[|httpMethod|] == ' ' && p[|httpMethod| + 1..] == group + path
  {
  }

  /** For methods without a space, two patterns are the same exactly when
      their methods are and their group-and-path strings are. */
  lemma PatternInjective(m1: string, g1: string, p1: string, m2: string, g2: string, p2: string)
    requires ' ' !in m1 && ' ' !in m2
    ensures Pattern(m1, g1, p1) == Pattern(m2, g2, p2) <==> m1 == m2 && g1 + p1 == g2 + p2
  {
    var a, b := Pattern(m1, g1, p1), Pattern(m2, g2, p2);
    PatternParts(m1, g1, p1);
    PatternParts(m2, g2, p2);
    if a == b {
      assert |m1| == |m2|;
    }
  }

  /** `App`: the application-level middleware and the routes registered so far. */
  class App<E, M> {
    const mw: seq<Option<M>>
    const tracer: bool
    var routes: map<string, Handler<E, M>>

    constructor (tracer: bool, mw: seq<Option<M>>)
      ensures this.tracer == tracer && this.mw == mw && routes == map[]
    {
      this.tracer := tracer;
      this.mw := mw;
      routes := map[];
    }

    /** `HandlerFunc`: route middleware first, then the application's around it. */
    method HandlerFunc(httpMethod: string, group: string, path: string, endpoint: E, routeMw: seq<Option<M>>)
      modifies this
      ensures routes == old(routes)[Pattern(httpMethod, group, path) := Wrap(mw + routeMw, Handler(endpoint, []))]
    {
      var hdl := WrapMiddleware(routeMw, Handler(endpoint, []));
      hdl := WrapMiddleware(mw, hdl);
      WrapCompose(mw, routeMw, Handler(endpoint, []));
      routes := routes[Pattern(httpMethod, group, path) := hdl];
    }

    /** `HandlerFuncNoMid`: the bare handler, no middleware at all. */
    method HandlerFuncNoMid(httpMethod: string, group: string, path: string, endpoint: E)
      modifies this
      ensures routes == old(routes)[Pattern(httpMethod, group, path) := Handler(endpoint, [])]
    {
      routes := routes[Pattern(httpMethod, group, path) := Handler(endpoint, [])];
    }
  }
}
