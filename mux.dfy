/** The API server: the fixed middleware stack, route registration, and one
    request served through a registered handler. */
module Mux {
  import opened Wrappers
  import opened JsonValue
  import opened Errs
  import opened Web
  import opened Mid
  import Expvar = Metrics
  import HealthBus
  import GrafanaStore
  import HealthApp

  /** The application middleware `WebAPI` configures, outermost first. */
  function AppMiddleware(corsOrigin: string): seq<Option<Middleware>> {
    [Some(Logger), Some(Errors), Some(Prometheus), Some(Metrics), Some(Panics), Some(Cors(corsOrigin))]
  }

  /** The layers of an API route. */
  function Stack(corsOrigin: string): seq<Middleware> {
    [Logger, Errors, Prometheus, Metrics, Panics, Cors(corsOrigin)]
  }

  /** Logger is outermost and Cors innermost; the origin reaches Cors unchanged. */
  lemma MiddlewareOrder(corsOrigin: string, e: HealthApp.Endpoint)
    ensures Wrap(AppMiddleware(corsOrigin), Handler(e, [])) == Handler(e, Stack(corsOrigin))
    ensures Stack(corsOrigin)[0] == Logger && Stack(corsOrigin)[5] == Cors(corsOrigin)
  {
    var mw := AppMiddleware(corsOrigin);
    assert mw[6..] == [];
    PresentStep(mw, 5);
    PresentStep(mw, 4);
    PresentStep(mw, 3);
    PresentStep(mw, 2);
    PresentStep(mw, 1);
    PresentStep(mw, 0);
    assert mw[0..] == mw;
  }

  /** The six routes a health route adder registers. */
  function RouteTable(corsOrigin: string): map<string, Handler<HealthApp.Endpoint, Middleware>> {
    map[
      "GET /api/v1/health" := Handler(HealthApp.QueryHealthChecks, Stack(corsOrigin)),
      "GET /api/v1/health/{target}" := Handler(HealthApp.QueryHealthCheckByTarget, Stack(corsOrigin)),
      "GET /api/v1/alerts" := Handler(HealthApp.QueryAlerts, Stack(corsOrigin)),
      "GET /liveness" := Handler(HealthApp.Liveness, []),
      "GET /readiness" := Handler(HealthApp.Readiness, []),
      "GET /healthz" := Handler(HealthApp.Liveness, [])]
  }

  /** The pattern set is exactly the six patterns, so no registration replaced another. */
  lemma RouteTablePatterns(corsOrigin: string)
    ensures RouteTable(corsOrigin).Keys ==
            {"GET /api/v1/health", "GET /api/v1/health/{target}", "GET /api/v1/alerts",
             "GET /liveness", "GET /readiness", "GET /healthz"}
    ensures |RouteTable(corsOrigin).Keys| == 6
    ensures RouteTable(corsOrigin)["GET /healthz"] == RouteTable(corsOrigin)["GET /liveness"]
    ensures forall p :: p in RouteTable(corsOrigin) && RouteTable(corsOrigin)[p].layers != [] ==>
              RouteTable(corsOrigin)[p].layers == Stack(corsOrigin)
  {
    var s := {"GET /api/v1/health", "GET /api/v1/health/{target}", "GET /api/v1/alerts",
              "GET /liveness", "GET /readiness", "GET /healthz"};
    assert "GET /api/v1/health" != "GET /api/v1/alerts";
    assert |s| == 6;
  }

  /** A `RouteAdder`; the service's one implementation adds the health routes. */
  datatype RouteAdder = HealthRoutes

  /** `WebAPI`: an app with the six middleware in order, and the adder's
      routes; a nil adder leaves the app without routes. */
  method WebAPI(tracer: bool, routeAdder: Option<RouteAdder>, corsOrigin: string)
    returns (app: App<HealthApp.Endpoint, Middleware>)
    ensures fresh(app)
    ensures app.mw == AppMiddleware(corsOrigin) && app.tracer == tracer
    ensures routeAdder.None? ==> app.routes == map[]
    ensures routeAdder.Some? ==> app.routes == RouteTable(corsOrigin)
  {
    app := new App(tracer, AppMiddleware(corsOrigin));
    if routeAdder.Some? {
      HealthApp.Routes(app);
      MiddlewareOrder(corsOrigin, HealthApp.QueryHealthChecks);
      MiddlewareOrder(corsOrigin, HealthApp.QueryHealthCheckByTarget);
      MiddlewareOrder(corsOrigin, HealthApp.QueryAlerts);
    }
  }

  // ---------------------------------------------------------------------------
  // Serving a request

  /** Everything a request depends on besides the world: the backend, the
      runtime's answers, the clock's nanoseconds for a trace ID, and whether
      the handler panics (with the `%v` text of the value). */
  datatype Env = Env(backend: HealthApp.Backend, rt: Runtime, nanos: int, panicking: Option<string>)

  /** The handler at the centre of the layers. */
  function Call(e: HealthApp.Endpoint, req: Request, env: Env): Outcome<HealthApp.Payload> {
    if env.panicking.Some? then Panicked(env.panicking.value) else Returned(HealthApp.Handle(e, req, env.backend))
  }

  /** The layers applied around the handler, `layers[0]` outermost. */
  function Run(layers: seq<Middleware>, e: HealthApp.Endpoint, ctx: Ctx, req: Request, world: World, env: Env)
    : (Outcome<HealthApp.Payload>, World)
    decreases |layers|
  {
    if layers == [] then (Call(e, req, env), world)
    else
      match Before(layers[0], ctx, req, world)
      case Short(out, w) => (out, w)
      case Continue(ctx1, w1) =>
        var (out, w2) := Run(layers[1..], e, ctx1, req, w1, env);
        After(layers[0], ctx1, req, out, w2, env.rt)
  }

  lemma RunCons(m: Middleware, rest: seq<Middleware>, e: HealthApp.Endpoint, ctx: Ctx, req: Request, world: World, env: Env)
    ensures var pre := Before(m, ctx, req, world);
            Run([m] + rest, e, ctx, req, world, env) ==
            if pre.Short? then (pre.outcome, pre.world)
            else After(m, pre.ctx, req, Run(rest, e, pre.ctx, req, pre.world, env).0,
                       Run(rest, e, pre.ctx, req, pre.world, env).1, env.rt)
  {
    assert ([m] + rest)[1..] == rest;
  }

  /** What one request through an API route does when the Cors check does not
      answer it: the handler runs on the headers Cors set, then Panics,
      Metrics, Prometheus and Errors act on its outcome in turn. */
  function Pipeline(corsOrigin: string, e: HealthApp.Endpoint, ctx: Ctx, req: Request, world: World, env: Env)
    : (Outcome<HealthApp.Payload>, World)
  {
    var ctxM := Expvar.Set(ctx);
    var w0 := if ctx.hasWriter then world.(writer := CorsHeaders(world.writer, corsOrigin)) else world;
    var (o5, w5) := After(Panics, ctxM, req, Call(e, req, env), w0, env.rt);
    var (o4, w4) := After(Metrics, ctxM, req, o5, w5, env.rt);
    var (o3, w3) := After(Prometheus, ctx, req, o4, w4, env.rt);
    After(Errors, ctx, req, o3, w3, env.rt)
  }

  lemma RunInner(corsOrigin: string, e: HealthApp.Endpoint, ctx: Ctx, req: Request, world: World, env: Env)
    requires !ctx.hasWriter || req.httpMethod != "OPTIONS"
    ensures Run([Panics, Cors(corsOrigin)], e, Expvar.Set(ctx), req, world, env) ==
            After(Panics, Expvar.Set(ctx), req, Call(e, req, env),
                  if ctx.hasWriter then world.(writer := CorsHeaders(world.writer, corsOrigin)) else world, env.rt)
  {
    RunCons(Panics, [Cors(corsOrigin)], e, Expvar.Set(ctx), req, world, env);
    RunCons(Cors(corsOrigin), [], e, Expvar.Set(ctx), req, world, env);
  }

  /** Metrics, Prometheus and Errors acting in turn on what the two inner
      layers returned (Logger's code after the handler touches neither). */
  function Outer(ctx: Ctx, req: Request, inner: (Outcome<HealthApp.Payload>, World), rt: Runtime)
    : (Outcome<HealthApp.Payload>, World)
  {
    var (o4, w4) := After(Metrics, Expvar.Set(ctx), req, inner.0, inner.1, rt);
    var (o3, w3) := After(Prometheus, ctx, req, o4, w4, rt);
    After(Errors, ctx, req, o3, w3, rt)
  }

  /** The four outer layers pass the request on unchanged, except for the
      metrics instance Metrics attaches. */
  lemma StackIsOuter(corsOrigin: string, e: HealthApp.Endpoint, ctx: Ctx, req: Request, world: World, env: Env)
    ensures Run(Stack(corsOrigin), e, ctx, req, world, env) ==
            Outer(ctx, req, Run([Panics, Cors(corsOrigin)], e, Expvar.Set(ctx), req, world, env), env.rt)
  {
    var inner := [Panics, Cors(corsOrigin)];
    assert Stack(corsOrigin) == [Logger] + ([Errors] + ([Prometheus] + ([Metrics] + inner)));
    RunCons(Logger, [Errors] + ([Prometheus] + ([Metrics] + inner)), e, ctx, req, world, env);
    RunCons(Errors, [Prometheus] + ([Metrics] + inner), e, ctx, req, world, env);
    RunCons(Prometheus, [Metrics] + inner, e, ctx, req, world, env);
    RunCons(Metrics, inner, e, ctx, req, world, env);
  }

  /** The stack, run, is the pipeline. */
  lemma StackIsPipeline(corsOrigin: string, e: HealthApp.Endpoint, ctx: Ctx, req: Request, world: World, env: Env)
    requires !ctx.hasWriter || req.httpMethod != "OPTIONS"
    ensures Run(Stack(corsOrigin), e, ctx, req, world, env) == Pipeline(corsOrigin, e, ctx, req, world, env)
  {
    StackIsOuter(corsOrigin, e, ctx, req, world, env);
    RunInner(corsOrigin, e, ctx, req, world, env);
  }

  /** Cors answers a preflight before Panics reaches the handler. */
  lemma InnerPreflight(corsOrigin: string, e: HealthApp.Endpoint, ctx: Ctx, req: Request, world: World, env: Env)
    requires ctx.hasWriter && req.httpMethod == "OPTIONS"
    ensures Run([Panics, Cors(corsOrigin)], e, ctx, req, world, env) ==
            (Returned(NoContent), world.(writer := CorsHeaders(world.writer, corsOrigin).WriteHeader(200)))
  {
    RunCons(Panics, [Cors(corsOrigin)], e, ctx, req, world, env);
    RunCons(Cors(corsOrigin), [], e, ctx, req, world, env);
  }

  /** A preflight that reaches an API route is answered by Cors: status 200,
      the CORS headers, no body, and the handler never runs. */
  lemma PreflightShortCircuits(corsOrigin: string, e: HealthApp.Endpoint, ctx: Ctx, req: Request, world: World, env: Env)
    requires ctx.hasWriter && req.httpMethod == "OPTIONS"
    ensures Run(Stack(corsOrigin), e, ctx, req, world, env).0 == Returned(NoContent)
    ensures Run(Stack(corsOrigin), e, ctx, req, world, env).1.writer == CorsHeaders(world.writer, corsOrigin).WriteHeader(200)
    ensures forall e2: HealthApp.Endpoint, env2: Env ::
              Run(Stack(corsOrigin), e2, ctx, req, world, env2).1.writer == Run(Stack(corsOrigin), e, ctx, req, world, env).1.writer
  {
    forall e2: HealthApp.Endpoint, env2: Env
      ensures Run(Stack(corsOrigin), e2, ctx, req, world, env2).0 == Returned(NoContent)
      ensures Run(Stack(corsOrigin), e2, ctx, req, world, env2).1.writer == CorsHeaders(world.writer, corsOrigin).WriteHeader(200)
    {
      StackIsOuter(corsOrigin, e2, ctx, req, world, env2);
      InnerPreflight(corsOrigin, e2, Expvar.Set(ctx), req, world, env2);
    }
  }

  /** The end of a request: what the server has sent and counted, and whether
      the connection was dropped (a panic that reached net/http, or a status
      `WriteHeader` rejects). */
  datatype Served = Served(world: World, aborted: bool)

  /** A registered handler serving one request. */
  function Serve(h: Handler<HealthApp.Endpoint, Middleware>, incoming: Ctx, req: Request, world: World, env: Env,
                 marshal: HealthApp.Payload -> Marshalled): Served
  {
    var ctx := HandlerContext(incoming, env.nanos);
    var (out, w) := Run(h.layers, h.endpoint, ctx, req, world, env);
    match out
    case Panicked(_) => Served(w, true)
    case Returned(resp) =>
      var r := RespondSpec(w.writer, resp, marshal);
      Served(w.(writer := r.writer), r.aborted)
  }

  // ---------------------------------------------------------------------------
  // What a client of an API route sees

  /** What reaches the layers above `Panics`: the handler's result, or the
      Internal error a panic becomes. */
  function Recovered(e: HealthApp.Endpoint, req: Request, env: Env): (r: Encoder<HealthApp.Payload>)
    ensures env.panicking.None? ==> r == HealthApp.Handle(e, req, env.backend)
    ensures env.panicking.Some? ==> r.AppErr? && r.err.code == Internal && HTTPStatus(r.err) == 500
  {
    if env.panicking.Some? then AppErr(PanicError(env.panicking.value, env.rt.stack))
    else HealthApp.Handle(e, req, env.backend)
  }

  /** Only Cors touches the writer on the way in, and only Errors changes the
      result on the way out. */
  lemma PipelineShape(corsOrigin: string, e: HealthApp.Endpoint, ctx: Ctx, req: Request, world: World, env: Env)
    requires ctx.hasWriter
    ensures Pipeline(corsOrigin, e, ctx, req, world, env).0 == Returned(ErrorsRewrite(Recovered(e, req, env)))
    ensures Pipeline(corsOrigin, e, ctx, req, world, env).1.writer == CorsHeaders(world.writer, corsOrigin)
  {
  }

  /** A request through an API route that is not a preflight: the server
      answers the rewritten result on the writer Cors prepared. */
  lemma ServeThroughStack(corsOrigin: string, e: HealthApp.Endpoint, req: Request, world: World, env: Env,
                          marshal: HealthApp.Payload -> Marshalled)
    requires req.httpMethod != "OPTIONS"
    ensures var r := RespondSpec(CorsHeaders(world.writer, corsOrigin), ErrorsRewrite(Recovered(e, req, env)), marshal);
            var s := Serve(Handler(e, Stack(corsOrigin)), Ctx(false, "", false), req, world, env, marshal);
            s.world.writer == r.writer && s.aborted == r.aborted
  {
    var ctx := HandlerContext(Ctx(false, "", false), env.nanos);
    StackIsPipeline(corsOrigin, e, ctx, req, world, env);
    PipelineShape(corsOrigin, e, ctx, req, world, env);
  }

  /** An application error answered on a fresh writer that Cors prepared: its
      table status, a body that decodes to its code and message, and the
      allowed origin. */
  lemma RespondOnCorsWriter(err: Error, corsOrigin: string, marshal: HealthApp.Payload -> Marshalled)
    requires Declared(err.code)
    ensures var r := RespondSpec(CorsHeaders(FreshWriter, corsOrigin), AppErr(err), marshal);
            !r.aborted && r.writer.status == HTTPStatus(err) && |r.writer.body| == 1
            && DecodeBody(r.writer.body[0]) == Some((err.code, err.message))
            && "Access-Control-Allow-Origin" in r.writer.header
            && r.writer.header["Access-Control-Allow-Origin"] == corsOrigin
  {
    CorsHeadersSet(FreshWriter, corsOrigin);
    EncodeRoundTrip(err);
  }

  /** Through the stack, whatever the handler does, the response is never an
      internal-only error and never a panic. */
  lemma StackNormalisesErrors(corsOrigin: string, e: HealthApp.Endpoint, ctx: Ctx, req: Request, world: World, env: Env)
    ensures var out := Run(Stack(corsOrigin), e, ctx, req, world, env).0;
            out.Returned? && (CheckIsError(out.resp) ==> out.resp.AppErr? && out.resp.err.code != InternalOnlyLog)
  {
    if ctx.hasWriter && req.httpMethod == "OPTIONS" {
      PreflightShortCircuits(corsOrigin, e, ctx, req, world, env);
    } else {
      StackIsPipeline(corsOrigin, e, ctx, req, world, env);
    }
  }

  /** Every request through an API route that Cors does not answer counts once
      in the request counter, and once in the error counter exactly when the
      response the inner middleware saw was an error. */
  lemma StackCountsRequest(corsOrigin: string, e: HealthApp.Endpoint, ctx: Ctx, req: Request, world: World, env: Env)
    requires !ctx.hasWriter || req.httpMethod != "OPTIONS"
    ensures var w := Run(Stack(corsOrigin), e, ctx, req, world, env).1;
            w.counters.requests == world.counters.requests + 1
            && w.counters.errors == world.counters.errors + (if env.panicking.Some? || CheckIsError(HealthApp.Handle(e, req, env.backend)) then 1 else 0)
            && w.counters.panics == world.counters.panics + (if env.panicking.Some? then 1 else 0)
            && w.prom.panicsTotal == world.prom.panicsTotal + (if env.panicking.Some? then 1 else 0)
  {
    StackIsPipeline(corsOrigin, e, ctx, req, world, env);
    PipelineCounts(corsOrigin, e, ctx, req, world, env);
  }

  /** The counters the pipeline moves: Panics counts a panic, Metrics the
      request and an error, on the result Panics handed it. */
  lemma PipelineCounts(corsOrigin: string, e: HealthApp.Endpoint, ctx: Ctx, req: Request, world: World, env: Env)
    ensures var w := Pipeline(corsOrigin, e, ctx, req, world, env).1;
            w.counters.requests == world.counters.requests + 1
            && w.counters.errors == world.counters.errors + (if CheckIsError(Recovered(e, req, env)) then 1 else 0)
            && w.counters.panics == world.counters.panics + (if env.panicking.Some? then 1 else 0)
            && w.prom.panicsTotal == world.prom.panicsTotal + (if env.panicking.Some? then 1 else 0)
  {
    var ctxM := Expvar.Set(ctx);
    var w0 := if ctx.hasWriter then world.(writer := CorsHeaders(world.writer, corsOrigin)) else world;
    var (o5, w5) := After(Panics, ctxM, req, Call(e, req, env), w0, env.rt);
    assert o5 == Returned(Recovered(e, req, env));
    assert w5.counters == world.counters.(panics := world.counters.panics + (if env.panicking.Some? then 1 else 0));
    assert w5.prom.panicsTotal == world.prom.panicsTotal + (if env.panicking.Some? then 1 else 0);
    var (o4, w4) := After(Metrics, ctxM, req, o5, w5, env.rt);
    assert w4.counters == MetricsRecord(true, w5.counters, Recovered(e, req, env), env.rt);
    assert w4.prom == w5.prom;
  }

  /** A panicking API handler is answered with 500 and an Internal error whose
      message starts with "panic: ", and the panic is counted in both counters. */
  lemma PanicIsAnswered500(corsOrigin: string, e: HealthApp.Endpoint, req: Request, world: World, env: Env,
                           marshal: HealthApp.Payload -> Marshalled)
    requires world.writer == FreshWriter && req.httpMethod != "OPTIONS" && env.panicking.Some?
    ensures var s := Serve(Handler(e, Stack(corsOrigin)), Ctx(false, "", false), req, world, env, marshal);
            !s.aborted && s.world.writer.status == 500 && |s.world.writer.body| == 1
            && DecodeBody(s.world.writer.body[0]) == Some((Internal, "panic: " + env.panicking.value + "\n" + env.rt.stack))
            && s.world.counters.panics == world.counters.panics + 1
            && s.world.prom.panicsTotal == world.prom.panicsTotal + 1
  {
    var ctx := HandlerContext(Ctx(false, "", false), env.nanos);
    StackCountsRequest(corsOrigin, e, ctx, req, world, env);
    ServeThroughStack(corsOrigin, e, req, world, env, marshal);
    var err := PanicError(env.panicking.value, env.rt.stack);
    assert ErrorsRewrite(Recovered(e, req, env)) == AppErr(err);
    RespondOnCorsWriter(err, corsOrigin, marshal);
  }

  /** The application error an API route answers with for a given handler
      result, after the Errors middleware (no panic). */
  lemma ApiErrorIsAnswered(corsOrigin: string, e: HealthApp.Endpoint, req: Request, world: World, env: Env,
                           marshal: HealthApp.Payload -> Marshalled)
    requires world.writer == FreshWriter && req.httpMethod != "OPTIONS" && env.panicking.None?
    requires HealthApp.Handle(e, req, env.backend).AppErr?
    requires Declared(HealthApp.Handle(e, req, env.backend).err.code)
    requires HealthApp.Handle(e, req, env.backend).err.code != InternalOnlyLog
    ensures var err := HealthApp.Handle(e, req, env.backend).err;
            var s := Serve(Handler(e, Stack(corsOrigin)), Ctx(false, "", false), req, world, env, marshal);
            !s.aborted && s.world.writer.status == HTTPStatus(err) && |s.world.writer.body| == 1
            && DecodeBody(s.world.writer.body[0]) == Some((err.code, err.message))
            && "Access-Control-Allow-Origin" in s.world.writer.header
            && s.world.writer.header["Access-Control-Allow-Origin"] == corsOrigin
  {
    ServeThroughStack(corsOrigin, e, req, world, env, marshal);
    var err := HealthApp.Handle(e, req, env.backend).err;
    assert ErrorsRewrite(Recovered(e, req, env)) == AppErr(err);
    RespondOnCorsWriter(err, corsOrigin, marshal);
  }

  /** Without a Grafana URL the health list is answered 500 with an Internal
      error naming the cause. */
  lemma UnconfiguredIsInternal(corsOrigin: string, req: Request, world: World, env: Env, marshal: HealthApp.Payload -> Marshalled)
    requires world.writer == FreshWriter && req.httpMethod != "OPTIONS" && env.panicking.None?
    requires env.backend.store.grafanaURL == ""
    ensures var s := Serve(Handler(HealthApp.QueryHealthChecks, Stack(corsOrigin)), Ctx(false, "", false), req, world, env, marshal);
            s.world.writer.status == 500 && |s.world.writer.body| == 1
            && DecodeBody(s.world.writer.body[0]) == Some((Internal, "query health checks: " + "grafana not configured"))
  {
    HealthApp.UnconfiguredHealthChecks(req, env.backend);
    ApiErrorIsAnswered(corsOrigin, HealthApp.QueryHealthChecks, req, world, env, marshal);
  }

  /** A target no rule carries is answered 404 with a NotFound error. */
  lemma UnknownTargetIsNotFound(corsOrigin: string, req: Request, world: World, env: Env, marshal: HealthApp.Payload -> Marshalled)
    requires world.writer == FreshWriter && req.httpMethod != "OPTIONS" && env.panicking.None?
    requires Param(req, "target") != ""
    requires GrafanaStore.HealthCheckByTarget(env.backend.store, env.backend.fetch, Param(req, "target"),
                                              env.backend.now, env.backend.parse).1.Some?
    ensures var s := Serve(Handler(HealthApp.QueryHealthCheckByTarget, Stack(corsOrigin)), Ctx(false, "", false), req, world, env, marshal);
            s.world.writer.status == 404 && |s.world.writer.body| == 1 && DecodeBody(s.world.writer.body[0]).Some?
            && DecodeBody(s.world.writer.body[0]).value.0 == NotFound
  {
    ApiErrorIsAnswered(corsOrigin, HealthApp.QueryHealthCheckByTarget, req, world, env, marshal);
  }

  /** The probes run with no middleware: 200 with the marshalled status, and
      no counter moves. */
  lemma ProbeIsOk(e: HealthApp.Endpoint, incoming: Ctx, req: Request, world: World, env: Env, marshal: HealthApp.Payload -> Marshalled)
    requires e.Liveness? || e.Readiness?
    requires world.writer == FreshWriter && env.panicking.None?
    requires marshal(HealthApp.StatusPayload("ok")).Marshalled?
    ensures var s := Serve(Handler(e, []), incoming, req, world, env, marshal);
            !s.aborted && s.world.writer == WriterState(map["Content-Type" := ContentTypeJSON], 200,
                                                        [marshal(HealthApp.StatusPayload("ok")).data])
            && s.world.counters == world.counters && s.world.prom == world.prom
  {
  }

  /** Requests share the one counter set: two served requests count two. */
  lemma RequestsAccumulate(corsOrigin: string, e: HealthApp.Endpoint, req: Request, world: World, env: Env,
                           marshal: HealthApp.Payload -> Marshalled)
    requires req.httpMethod != "OPTIONS"
    ensures var s1 := Serve(Handler(e, Stack(corsOrigin)), Ctx(false, "", false), req, world, env, marshal);
            var s2 := Serve(Handler(e, Stack(corsOrigin)), Ctx(false, "", false), req,
                            s1.world.(writer := FreshWriter), env, marshal);
            s2.world.counters.requests == world.counters.requests + 2
  {
    var ctx := HandlerContext(Ctx(false, "", false), env.nanos);
    StackCountsRequest(corsOrigin, e, ctx, req, world, env);
    var s1 := Serve(Handler(e, Stack(corsOrigin)), Ctx(false, "", false), req, world, env, marshal);
    StackCountsRequest(corsOrigin, e, ctx, req, s1.world.(writer := FreshWriter), env);
  }
}
