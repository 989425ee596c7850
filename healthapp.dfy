/** The application layer: the five HTTP handlers, which turn business
    results into response encoders, and the route table. */
module HealthApp {
  import opened Wrappers
  import opened Errs
  import opened HealthBus
  import opened Web
  import GrafanaStore
  import Mid

  /** The values the handlers put in a `JSONResponse`. */
  datatype Payload =
    | SummaryPayload(summary: HealthSummary)
    | CheckPayload(check: HealthCheck)
    | AlertsPayload(alerts: AlertSummary)
    | StatusPayload(status: string)

  /** The handlers, named after the methods of `healthapp.App`. */
  datatype Endpoint = QueryHealthChecks | QueryHealthCheckByTarget | QueryAlerts | Readiness | Liveness

  const File: string := "health-api/app/domain/healthapp/healthapp.go"

  function Site(name: string, line: int): CallSite {
    CallSite("health-api/app/domain/healthapp.(*App)." + name, File, line)
  }

  /** `QueryHealthChecks`: a business error becomes Internal "query health
      checks: ..."; a summary is sent as JSON. */
  function HealthChecksResponse(result: (HealthSummary, Option<GoError>)): (r: Encoder<Payload>)
    ensures result.1.Some? ==> r.AppErr? && r.err.code == Internal
                               && r.err.message == "query health checks: " + Text(result.1.value)
    ensures result.1.None? ==> r == JsonData(SummaryPayload(result.0))
  {
    if result.1.Some? then AppErr(Newf(Internal, "query health checks: " + Text(result.1.value), Site("QueryHealthChecks", 32)))
    else JsonData(SummaryPayload(result.0))
  }

  /** `QueryHealthCheckByTarget`: an empty target is rejected before the
      business layer is asked; any lookup error is reported as NotFound. */
  function ByTargetResponse(target: string, lookup: string -> (HealthCheck, Option<GoError>)): (r: Encoder<Payload>)
    ensures target == "" ==> r.AppErr? && r.err.code == InvalidArgument && r.err.message == "target parameter required"
    ensures target != "" && lookup(target).1.Some? ==>
              r.AppErr? && r.err.code == NotFound && r.err.message == "health check not found: " + Text(lookup(target).1.value)
    ensures target != "" && lookup(target).1.None? ==> r == JsonData(CheckPayload(lookup(target).0))
  {
    if target == "" then AppErr(Newf(InvalidArgument, "target parameter required", Site("QueryHealthCheckByTarget", 42)))
    else
      var (check, err) := lookup(target);
      if err.Some? then AppErr(Newf(NotFound, "health check not found: " + Text(err.value), Site("QueryHealthCheckByTarget", 47)))
      else JsonData(CheckPayload(check))
  }

  /** The lookup is never consulted for an empty target. */
  lemma EmptyTargetSkipsLookup(l1: string -> (HealthCheck, Option<GoError>), l2: string -> (HealthCheck, Option<GoError>))
    ensures ByTargetResponse("", l1) == ByTargetResponse("", l2)
  {
  }

  /** `QueryAlerts`: a business error becomes Internal "query alerts: ...". */
  function AlertsResponse(result: (AlertSummary, Option<GoError>)): (r: Encoder<Payload>)
    ensures result.1.Some? ==> r.AppErr? && r.err.code == Internal
                               && r.err.message == "query alerts: " + Text(result.1.value)
    ensures result.1.None? ==> r == JsonData(AlertsPayload(result.0))
  {
    if result.1.Some? then AppErr(Newf(Internal, "query alerts: " + Text(result.1.value), Site("QueryAlerts", 57)))
    else JsonData(AlertsPayload(result.0))
  }

  /** The probes answer `{"status": "ok"}` whatever the request. */
  const ProbeResponse: Encoder<Payload> := JsonData(StatusPayload("ok"))

  /** What the business layer works against: the store's configuration, the
      backend's answer to its one request, the clock and the time parser. */
  datatype Backend = Backend(store: GrafanaStore.Store, fetch: GrafanaStore.Fetch, now: Time, parse: string -> Option<Time>)

  /** The by-target lookup of the business layer over `b`. */
  function Lookup(b: Backend): string -> (HealthCheck, Option<GoError>) {
    target => GrafanaStore.HealthCheckByTarget(b.store, b.fetch, target, b.now, b.parse)
  }

  /** A handler called on a request. */
  function Handle(e: Endpoint, req: Request, b: Backend): (r: Encoder<Payload>)
    ensures e.Readiness? || e.Liveness? ==> r == ProbeResponse
  {
    match e
    case QueryHealthChecks =>
      var (checks, err) := GrafanaStore.HealthChecks(b.store, b.fetch, b.now, b.parse);
      HealthChecksResponse(HealthChecksResult(checks, err))
    case QueryHealthCheckByTarget => ByTargetResponse(Param(req, "target"), Lookup(b))
    case QueryAlerts => AlertsResponse(GrafanaStore.AlertsResult(b.store, b.fetch))
    case Readiness => ProbeResponse
    case Liveness => ProbeResponse
  }

  /** Without a Grafana URL the health list fails with an Internal error
      naming the cause, answered 500. */
  lemma UnconfiguredHealthChecks(req: Request, b: Backend)
    requires b.store.grafanaURL == ""
    ensures var r := Handle(QueryHealthChecks, req, b);
            r.AppErr? && r.err.code == Internal && HTTPStatus(r.err) == 500
            && r.err.message == "query health checks: " + "grafana not configured"
  {
    GrafanaStore.UnconfiguredStoreFails(b.store, b.fetch, "", b.now, b.parse);
    var res := HealthChecksResult(Nil, Some(Plain("grafana not configured")));
    assert res.1 == Some(Plain("grafana not configured"));
    assert Text(Plain("grafana not configured")) == "grafana not configured";
    assert Handle(QueryHealthChecks, req, b) == HealthChecksResponse(res);
  }

  // ---------------------------------------------------------------------------
  // Routes

  const Version: string := "/api/v1"

  /** `Routes`: three API routes with the application's middleware, three
      probes with none. */
  method Routes(app: App<Endpoint, Mid.Middleware>)
    modifies app
    ensures app.routes == old(app.routes)[
      "GET /api/v1/health" := Wrap(app.mw, Handler(QueryHealthChecks, []))][
      "GET /api/v1/health/{target}" := Wrap(app.mw, Handler(QueryHealthCheckByTarget, []))][
      "GET /api/v1/alerts" := Wrap(app.mw, Handler(QueryAlerts, []))][
      "GET /liveness" := Handler(Liveness, [])][
      "GET /readiness" := Handler(Readiness, [])][
      "GET /healthz" := Handler(Liveness, [])]
  {
    assert app.mw + [] == app.mw;
    ApiPatterns();
    ProbePatterns();
    app.HandlerFunc("GET", Version, "/health", QueryHealthChecks, []);
    app.HandlerFunc("GET", Version, "/health/{target}", QueryHealthCheckByTarget, []);
    app.HandlerFunc("GET", Version, "/alerts", QueryAlerts, []);
    app.HandlerFuncNoMid("GET", "", "/liveness", Liveness);
    app.HandlerFuncNoMid("GET", "", "/readiness", Readiness);
    app.HandlerFuncNoMid("GET", "", "/healthz", Liveness);
  }

  /** The patterns `Routes` registers, spelled out. */
  lemma ApiPatterns()
    ensures Pattern("GET", Version, "/health") == "GET /api/v1/health"
    ensures Pattern("GET", Version, "/health/{target}") == "GET /api/v1/health/{target}"
    ensures Pattern("GET", Version, "/alerts") == "GET /api/v1/alerts"
  {
  }

  lemma ProbePatterns()
    ensures Pattern("GET", "", "/liveness") == "GET /liveness"
    ensures Pattern("GET", "", "/readiness") == "GET /readiness"
    ensures Pattern("GET", "", "/healthz") == "GET /healthz"
  {
  }
}
