/** The middleware: what each one does before it calls the handler it wraps
    and what it does with the handler's result. */
module Mid {
  import opened Wrappers
  import opened Errs
  import opened Web
  import Strings
  import JsonValue
  import Expvar = Metrics

  /** The six middleware of the application. */
  datatype Middleware = Logger | Errors | Prometheus | Metrics | Panics | Cors(origin: string)

  /** What a handler does: return an encoder, or panic with a message (`%v` of
      the recovered value). */
  datatype Outcome<P> = Returned(resp: Encoder<P>) | Panicked(msg: string)

  /** The state a request can change: the response writer, the expvar
      counters and the Prometheus counters. */
  datatype World = World(writer: WriterState<JsonValue.Json>, counters: Expvar.Counters, prom: Expvar.PromCounters)

  /** What the runtime reports: `runtime.NumGoroutine()` and `debug.Stack()`. */
  datatype Runtime = Runtime(numGoroutine: nat, stack: string)

  /** `checkIsError`: nil is not an error; any other value is one exactly when
      it implements `error`. */
  predicate CheckIsError<P>(resp: Encoder<P>) {
    resp.AppErr? || resp.OtherErr?
  }

  /** The error value of an error encoder, as `errors.As` sees it. */
  function AsGoError<P>(resp: Encoder<P>): (g: GoError)
    requires CheckIsError(resp)
    ensures resp.AppErr? ==> g == AppError(resp.err)
  {
    if resp.AppErr? then AppError(resp.err) else resp.cause
  }

  // ---------------------------------------------------------------------------
  // Errors

  /** Where `Errors` builds its replacement error: the inner closure, as the Go runtime names it. */
  const ErrorsSite: CallSite := CallSite("health-api/app/sdk/mid.Errors.func1.1", "health-api/app/sdk/mid/errors.go", 25)
  const ErrorsHideSite: CallSite := CallSite("health-api/app/sdk/mid.Errors.func1.1", "health-api/app/sdk/mid/errors.go", 37)

  /** The response rewrite of `Errors`. */
  function ErrorsRewrite<P>(resp: Encoder<P>): (r: Encoder<P>)
    ensures !CheckIsError(resp) ==> r == resp
    ensures CheckIsError(resp) ==> r.AppErr? && r.err.code != InternalOnlyLog
    ensures CheckIsError(resp) && As(AsGoError(resp)).None? ==>
              r.err.code == Internal && r.err.message == "internal server error"
    ensures CheckIsError(resp) && As(AsGoError(resp)).Some? && As(AsGoError(resp)).value.code == InternalOnlyLog ==>
              r.err.code == Internal && r.err.message == "internal server error"
    ensures CheckIsError(resp) && As(AsGoError(resp)).Some? && As(AsGoError(resp)).value.code != InternalOnlyLog ==>
              r == AppErr(As(AsGoError(resp)).value)
  {
    if !CheckIsError(resp) then resp
    else
      match As(AsGoError(resp))
      case None => AppErr(Newf(Internal, "internal server error", ErrorsSite))
      case Some(e) =>
        if e.code == InternalOnlyLog then AppErr(Newf(Internal, "internal server error", ErrorsHideSite)) else AppErr(e)
  }

  /** Rewriting twice changes nothing more. */
  lemma ErrorsRewriteIdempotent<P>(resp: Encoder<P>)
    ensures ErrorsRewrite(ErrorsRewrite(resp)) == ErrorsRewrite(resp)
  {
    if CheckIsError(resp) {
      var r := ErrorsRewrite(resp);
      assert As(AsGoError(r)) == Some(r.err);
    }
  }

  // ---------------------------------------------------------------------------
  // Cors

  const AllowMethods: string := "GET, POST, PUT, DELETE, OPTIONS"
  const AllowHeaders: string := "Content-Type, Authorization"

  /** The three CORS headers `Cors` sets. */
  function CorsHeaders<B>(w: WriterState<B>, origin: string): WriterState<B> {
    w.SetHeader("Access-Control-Allow-Origin", origin)
     .SetHeader("Access-Control-Allow-Methods", AllowMethods)
     .SetHeader("Access-Control-Allow-Headers", AllowHeaders)
  }

  lemma CorsHeadersSet<B>(w: WriterState<B>, origin: string)
    requires w.status == 0
    ensures var h := CorsHeaders(w, origin).header;
            h == w.header["Access-Control-Allow-Origin" := origin]["Access-Control-Allow-Methods" := AllowMethods]
                         ["Access-Control-Allow-Headers" := AllowHeaders]
    ensures CorsHeaders(w, origin).status == 0 && CorsHeaders(w, origin).body == w.body
  {
  }

  /** `Cors` before the handler on a writer, imperatively: the headers, and for
      a preflight the status 200; `handled` says the handler is not called. */
  method CorsBefore<B>(w: ResponseWriter?<B>, origin: string, req: Request) returns (handled: bool)
    modifies w
    ensures handled <==> w != null && req.httpMethod == "OPTIONS"
    ensures w != null && !handled ==> w.State() == CorsHeaders(old(w.State()), origin)
    ensures handled ==> w.State() == CorsHeaders(old(w.State()), origin).WriteHeader(200)
  {
    handled := false;
    if w != null {
      w.SetHeader("Access-Control-Allow-Origin", origin);
      w.SetHeader("Access-Control-Allow-Methods", AllowMethods);
      w.SetHeader("Access-Control-Allow-Headers", AllowHeaders);
      if req.httpMethod == "OPTIONS" {
        w.WriteHeader(200);
        handled := true;
      }
    }
  }

  // ---------------------------------------------------------------------------
  // Metrics

  /** What `Metrics` does to the counters after the handler returns. */
  function MetricsRecord<P>(attached: bool, c: Expvar.Counters, resp: Encoder<P>, rt: Runtime): (r: Expvar.Counters)
    ensures attached ==> r.requests == c.requests + 1 && r.panics == c.panics
    ensures attached ==> r.errors == c.errors + (if CheckIsError(resp) then 1 else 0)
    ensures attached ==> r.goroutines == if (c.requests + 1) % 1000 == 0 then rt.numGoroutine else c.goroutines
    ensures !attached ==> r == c
  {
    var n := Expvar.AddRequests(attached, c);
    var c1 := if n.value % 1000 == 0 then Expvar.AddGoroutines(attached, n.counters, rt.numGoroutine).counters else n.counters;
    if CheckIsError(resp) then Expvar.AddErrors(attached, c1).counters else c1
  }

  /** The same on the shared instance, as the middleware's code runs it. */
  method MetricsAfter<P>(m: Expvar.Registry?, resp: Encoder<P>, rt: Runtime)
    modifies m
    ensures m != null ==> m.Snapshot() == MetricsRecord(true, old(m.Snapshot()), resp, rt)
  {
    var n := Expvar.IncRequests(m);
    if n % 1000 == 0 {
      var _ := Expvar.SetGoroutines(m, rt.numGoroutine);
    }
    if CheckIsError(resp) {
      var _ := Expvar.IncErrors(m);
    }
  }

  // ---------------------------------------------------------------------------
  // Prometheus

  /** The status `Prometheus` records: 200 for nil or an encoder without an
      `HTTPStatus` method, else that method's value. */
  function PromStatus<P>(resp: Encoder<P>): (s: int)
    ensures HTTPStatusOf(resp).None? ==> s == 200
    ensures HTTPStatusOf(resp).Some? ==> s == HTTPStatusOf(resp).value
  {
    HTTPStatusOf(resp).GetOr(200)
  }

  /** The error label: the code's name for an `*errs.Error` itself (no
      unwrapping), "unknown" otherwise. */
  function ErrorLabel<P>(resp: Encoder<P>): (l: string)
    ensures resp.AppErr? ==> l == String(resp.err.code)
    ensures !resp.AppErr? ==> l == "unknown"
  {
    if resp.AppErr? then String(resp.err.code) else "unknown"
  }

  function PromRecord<P>(p: Expvar.PromCounters, req: Request, resp: Encoder<P>): (r: Expvar.PromCounters)
    ensures var key := (req.httpMethod, req.path, Strings.IntToDecimal(PromStatus(resp)));
            Expvar.Value(r.requestsTotal, key) == Expvar.Value(p.requestsTotal, key) + 1
            && forall k :: k != key ==> Expvar.Value(r.requestsTotal, k) == Expvar.Value(p.requestsTotal, k)
    ensures PromStatus(resp) < 400 ==> r.errorsTotal == p.errorsTotal
    ensures var key := (req.httpMethod, req.path, ErrorLabel(resp));
            PromStatus(resp) >= 400 ==>
              Expvar.Value(r.errorsTotal, key) == Expvar.Value(p.errorsTotal, key) + 1
              && forall k :: k != key ==> Expvar.Value(r.errorsTotal, k) == Expvar.Value(p.errorsTotal, k)
    ensures r.panicsTotal == p.panicsTotal
  {
    var status := PromStatus(resp);
    var p1 := p.(requestsTotal := Expvar.Inc(p.requestsTotal, (req.httpMethod, req.path, Strings.IntToDecimal(status))));
    if status >= 400 then p1.(errorsTotal := Expvar.Inc(p1.errorsTotal, (req.httpMethod, req.path, ErrorLabel(resp))))
    else p1
  }

  // ---------------------------------------------------------------------------
  // Panics

  const PanicsSite: CallSite := CallSite("health-api/app/sdk/mid.Panics.func1.1.1", "health-api/app/sdk/mid/panics.go", 20)

  /** The error a recovered panic becomes. */
  function PanicError(msg: string, stack: string): (e: Error)
    ensures e.code == Internal && HTTPStatus(e) == 500
    ensures |e.message| >= 7 && e.message[..7] == "panic: "
  {
    Newf(Internal, "panic: " + msg + "\n" + stack, PanicsSite)
  }

  // ---------------------------------------------------------------------------
  // One middleware around a handler

  /** What a middleware does before calling the handler it wraps: answer
      itself, or call the handler with a context and a world. */
  datatype Pre<P> = Short(outcome: Outcome<P>, world: World) | Continue(ctx: Ctx, world: World)

  function Before<P>(m: Middleware, ctx: Ctx, req: Request, world: World): (r: Pre<P>)
    ensures !m.Cors? && !m.Metrics? ==> r == Continue(ctx, world)
    ensures m.Metrics? ==> r == Continue(Expvar.Set(ctx), world)
    ensures m.Cors? && !ctx.hasWriter ==> r == Continue(ctx, world)
    ensures m.Cors? && ctx.hasWriter && req.httpMethod == "OPTIONS" ==>
              r == Short(Returned(NoContent), world.(writer := CorsHeaders(world.writer, m.origin).WriteHeader(200)))
    ensures m.Cors? && ctx.hasWriter && req.httpMethod != "OPTIONS" ==>
              r == Continue(ctx, world.(writer := CorsHeaders(world.writer, m.origin)))
  {
    match m
    case Metrics => Continue(Expvar.Set(ctx), world)
    case Cors(origin) =>
      if !ctx.hasWriter then Continue(ctx, world)
      else
        var w := CorsHeaders(world.writer, origin);
        if req.httpMethod == "OPTIONS" then Short(Returned(NoContent), world.(writer := w.WriteHeader(200)))
        else Continue(ctx, world.(writer := w))
    case _ => Continue(ctx, world)
  }

  /** What a middleware does with its handler's outcome; `ctx` is the context
      it passed on. A panic unwinds through every middleware but `Panics`
      without running its code. */
  function After<P>(m: Middleware, ctx: Ctx, req: Request, outcome: Outcome<P>, world: World, rt: Runtime)
    : (r: (Outcome<P>, World))
    ensures outcome.Panicked? && !m.Panics? ==> r == (outcome, world)
    ensures outcome.Returned? && m.Panics? ==> r == (outcome, world)
    ensures m.Logger? || m.Cors? ==> r == (outcome, world)
    ensures outcome.Returned? && !m.Errors? ==> r.0 == outcome
  {
    match outcome
    case Panicked(msg) =>
      if m.Panics? then
        var counters := Expvar.AddPanics(ctx.metricsAttached, world.counters).counters;
        (Returned(AppErr(PanicError(msg, rt.stack))),
         world.(counters := counters, prom := world.prom.(panicsTotal := world.prom.panicsTotal + 1)))
      else (outcome, world)
    case Returned(resp) =>
      match m
      case Errors => (Returned(ErrorsRewrite(resp)), world)
      case Prometheus => (outcome, world.(prom := PromRecord(world.prom, req, resp)))
      case Metrics => (outcome, world.(counters := MetricsRecord(ctx.metricsAttached, world.counters, resp, rt)))
      case _ => (outcome, world)
  }

  /** `Panics` turns every panic into an Internal error with status 500 and
      counts it once in both counters (the expvar one when the instance is
      attached). */
  lemma PanicsRecovers<P>(ctx: Ctx, req: Request, msg: string, world: World, rt: Runtime)
    ensures var (out, w) := After<P>(Panics, ctx, req, Panicked(msg), world, rt);
            out.Returned? && out.resp.AppErr? && out.resp.err.code == Internal
            && HTTPStatus(out.resp.err) == 500
            && out.resp.err.message == "panic: " + msg + "\n" + rt.stack
            && w.prom.panicsTotal == world.prom.panicsTotal + 1
            && w.writer == world.writer
            && w.counters.panics == world.counters.panics + (if ctx.metricsAttached then 1 else 0)
  {
  }
}
