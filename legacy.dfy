/** The legacy single-file server: four handlers that query Prometheus for
    blackbox-exporter probe samples and write plain text or JSON, behind an
    inline CORS middleware. */
module Legacy {
  import opened Wrappers
  import opened Web

  // ---------------------------------------------------------------------------
  // What Prometheus answers

  /** One sample of an instant vector: its labels, whether its value equals 1,
      and its timestamp. */
  datatype Sample = Sample(metric: map<string, string>, valueIsOne: bool, timestamp: int)

  /** A query result: an instant vector, or a value of another type (scalar,
      matrix, string), named by its type. */
  datatype QueryValue = Vector(samples: seq<Sample>) | OtherValue(valueType: string)

  /** `Query`'s three results: a value and its warnings, or an error (its text). */
  datatype Answer = Answered(value: QueryValue, warnings: seq<string>) | QueryError(text: string)

  /** The Prometheus API client; `answer` is what the server answers each query
      with, `queries` the queries issued so far. */
  class Prometheus {
    const answer: string -> Answer
    var queries: seq<string>

    constructor (answer: string -> Answer)
      ensures this.answer == answer && queries == []
    {
      this.answer := answer;
      queries := [];
    }

    method Query(q: string) returns (a: Answer)
      modifies this
      ensures queries == old(queries) + [q]
      ensures a == answer(q)
    {
      queries := queries + [q];
      a := answer(q);
    }
  }

  /** A label of a sample; a label the sample lacks reads "". */
  function Label(metric: map<string, string>, name: string): (v: string)
    ensures name in metric ==> v == metric[name]
    ensures name !in metric ==> v == ""
  {
    if name in metric then metric[name] else ""
  }

  // ---------------------------------------------------------------------------
  // The response types

  /** `HealthCheckResult`; the handlers never fill in `instance`. */
  datatype CheckResult = CheckResult(target: string, status: string, lastChecked: int, probe: string, instance: string)

  /** `HealthSummary`, whose `checks` start as a non-nil empty slice. */
  datatype LegacySummary = LegacySummary(total: int, healthy: int, down: int, unknown: int, checks: Slice<CheckResult>)

  /** The documents the handlers send as JSON. */
  datatype Document =
    | SummaryDoc(summary: LegacySummary)
    | CheckDoc(check: CheckResult)
    | MetricDoc(metric: string, result: QueryValue)

  /** One write on the response: a JSON document (`json.Encoder.Encode`) or text. */
  datatype Chunk = JsonOut(doc: Document) | TextOut(text: string)

  type Writer = WriterState<Chunk>

  const Healthy: string := "healthy"
  const Down: string := "down"

  /** A sample is healthy exactly when its value is 1. */
  function StatusOf(s: Sample): (status: string)
    ensures status == Healthy <==> s.valueIsOne
    ensures status == Healthy || status == Down
  {
    if s.valueIsOne then Healthy else Down
  }

  /** The check a sample of the list query becomes: its `instance` label is the
      target, its `probe` label the probe. */
  function CheckOf(s: Sample): (c: CheckResult)
    ensures c.target == Label(s.metric, "instance") && c.probe == Label(s.metric, "probe")
    ensures c.status == StatusOf(s) && c.lastChecked == s.timestamp && c.instance == ""
  {
    CheckResult(Label(s.metric, "instance"), StatusOf(s), s.timestamp, Label(s.metric, "probe"), "")
  }

  // ---------------------------------------------------------------------------
  // The summary of the list query

  /** The samples whose value is 1. */
  function CountHealthy(ss: seq<Sample>): (n: nat)
    ensures n <= |ss|
  {
    if ss == [] then 0 else (if ss[0].valueIsOne then 1 else 0) + CountHealthy(ss[1..])
  }

  /** The samples whose value is not 1. */
  function CountDown(ss: seq<Sample>): (n: nat)
    ensures n <= |ss|
  {
    if ss == [] then 0 else (if ss[0].valueIsOne then 0 else 1) + CountDown(ss[1..])
  }

  /** The checks of a vector, one per sample in order. */
  function ChecksOf(ss: seq<Sample>): (cs: seq<CheckResult>)
    ensures |cs| == |ss|
    ensures forall i :: 0 <= i < |ss| ==> cs[i] == CheckOf(ss[i])
  {
    seq(|ss|, i requires 0 <= i < |ss| => CheckOf(ss[i]))
  }

  /** The summary of a vector. */
  function VectorSummary(ss: seq<Sample>): LegacySummary {
    LegacySummary(|ss|, CountHealthy(ss), CountDown(ss), 0, Made(ChecksOf(ss)))
  }

  /** The summary the list handler sends for a query value. */
  function SummaryOf(v: QueryValue): (r: LegacySummary)
    ensures r.checks.Made? && r.unknown == 0
    ensures !v.Vector? ==> r == LegacySummary(0, 0, 0, 0, Made([]))
  {
    match v
    case Vector(ss) => VectorSummary(ss)
    case OtherValue(_) => LegacySummary(0, 0, 0, 0, Made([]))
  }

  lemma {:induction false} CountsSnoc(ss: seq<Sample>, s: Sample)
    ensures CountHealthy(ss + [s]) == CountHealthy(ss) + (if s.valueIsOne then 1 else 0)
    ensures CountDown(ss + [s]) == CountDown(ss) + (if s.valueIsOne then 0 else 1)
    decreases |ss|
  {
    if ss == [] {
      assert [s][1..] == [];
    } else {
      assert (ss + [s])[1..] == ss[1..] + [s];
      CountsSnoc(ss[1..], s);
    }
  }

  /** Every sample is counted healthy or down, never both. */
  lemma {:induction false} HealthyPlusDown(ss: seq<Sample>)
    ensures CountHealthy(ss) + CountDown(ss) == |ss|
    decreases |ss|
  {
    if ss != [] {
      HealthyPlusDown(ss[1..]);
    }
  }

  /** `Total == len(Checks) == Healthy + Down`, nothing is unknown, and each
      check is the one its sample gives, healthy exactly when the value is 1. */
  lemma SummaryCounts(v: QueryValue)
    ensures var r := SummaryOf(v);
            r.total == |r.checks.Elems()| == r.healthy + r.down && r.unknown == 0
    ensures v.Vector? ==> var r := SummaryOf(v);
            forall i :: 0 <= i < |v.samples| ==>
              r.checks.Elems()[i] == CheckOf(v.samples[i])
              && (r.checks.Elems()[i].status == Healthy <==> v.samples[i].valueIsOne)
  {
    if v.Vector? {
      HealthyPlusDown(v.samples);
    }
  }

  /** One sample more: one more in the total, in exactly one of the two
      counters, and its check appended. */
  lemma SummaryStep(ss: seq<Sample>, i: nat)
    requires i < |ss|
    ensures VectorSummary(ss[..i + 1]) == VectorSummary(ss[..i]).(
      total := VectorSummary(ss[..i]).total + 1,
      healthy := VectorSummary(ss[..i]).healthy + (if ss[i].valueIsOne then 1 else 0),
      down := VectorSummary(ss[..i]).down + (if ss[i].valueIsOne then 0 else 1),
      checks := VectorSummary(ss[..i]).checks.Append(CheckOf(ss[i])))
  {
    assert ss[..i + 1] == ss[..i] + [ss[i]];
    CountsSnoc(ss[..i], ss[i]);
    assert ChecksOf(ss[..i + 1]) == ChecksOf(ss[..i]) + [CheckOf(ss[i])];
  }

  /** The counting loop of the list handler. */
  method Summarize(v: QueryValue) returns (summary: LegacySummary)
    ensures summary == SummaryOf(v)
  {
    summary := LegacySummary(0, 0, 0, 0, Made([]));
    if !v.Vector? {
      return;
    }
    var samples := v.samples;
    assert samples[..0] == [];
    var i := 0;
    while i < |samples|
      invariant 0 <= i <= |samples|
      invariant summary == VectorSummary(samples[..i])
    {
      SummaryStep(samples, i);
      var sample := samples[i];
      var status := Down;
      if sample.valueIsOne {
        status := Healthy;
        summary := summary.(healthy := summary.healthy + 1);
      } else {
        summary := summary.(down := summary.down + 1);
      }
      var check := CheckResult(Label(sample.metric, "instance"), status, sample.timestamp, Label(sample.metric, "probe"), "");
      summary := summary.(checks := summary.checks.Append(check));
      summary := summary.(total := summary.total + 1);
      i := i + 1;
    }
    assert samples[..i] == samples;
  }

  // ---------------------------------------------------------------------------
  // Writing a reply

  const ContentTypeText: string := "text/plain; charset=utf-8"
  const ContentTypeJson: string := "application/json"

  /** `http.Error`: a plain-text content type, `nosniff`, the status, and
      the message followed by a newline. */
  function ErrorReply(w: Writer, msg: string, code: int): Writer
    requires code != 0
  {
    w.SetHeader("Content-Type", ContentTypeText).SetHeader("X-Content-Type-Options", "nosniff")
     .WriteHeader(code).Write(TextOut(msg + "\n"))
  }

  /** The JSON content type, then the encoded document (status 200 unless one
      was written already). */
  function JsonReply(w: Writer, doc: Document): Writer {
    w.SetHeader("Content-Type", ContentTypeJson).Write(JsonOut(doc))
  }

  method HttpError(w: ResponseWriter<Chunk>, msg: string, code: int)
    requires code != 0
    modifies w
    ensures w.State() == ErrorReply(old(w.State()), msg, code)
  {
    w.SetHeader("Content-Type", ContentTypeText);
    w.SetHeader("X-Content-Type-Options", "nosniff");
    w.WriteHeader(code);
    w.Write(TextOut(msg + "\n"));
  }

  method WriteJson(w: ResponseWriter<Chunk>, doc: Document)
    modifies w
    ensures w.State() == JsonReply(old(w.State()), doc)
  {
    w.SetHeader("Content-Type", ContentTypeJson);
    w.Write(JsonOut(doc));
  }

  const FreshLegacyWriter: Writer := WriterState(map[], 0, [])

  /** On a fresh writer an error reply is exactly that status, the two headers
      and the one line of text. */
  lemma ErrorReplyOnFresh(msg: string, code: int)
    requires code != 0
    ensures ErrorReply(FreshLegacyWriter, msg, code) ==
              WriterState(map["Content-Type" := ContentTypeText, "X-Content-Type-Options" := "nosniff"], code, [TextOut(msg + "\n")])
  {
  }

  // ---------------------------------------------------------------------------
  // The handlers, as what they make of the writer

  const HealthQuery: string := "probe_success{job=\"blackbox\"}"

  /** The by-target query: the list query restricted to one instance label. */
  function ByTargetQuery(target: string): (q: string)
    ensures q == "probe_success{job=\"blackbox\",instance=\"" + target + "\"}"
  {
    "probe_success{job=\"blackbox\",instance=\"" + target + "\"}"
  }

  /** Two targets never share a query. */
  lemma ByTargetQueryInjective(t1: string, t2: string)
    requires ByTargetQuery(t1) == ByTargetQuery(t2)
    ensures t1 == t2
  {
    var prefix := "probe_success{job=\"blackbox\",instance=\"";
    var q := ByTargetQuery(t1);
    assert |t1| == |t2|;
    assert q[|prefix|..|prefix| + |t1|] == t1;
    assert ByTargetQuery(t2)[|prefix|..|prefix| + |t2|] == t2;
  }

  function QueryFailedMessage(text: string): string {
    "Error querying Prometheus: " + text
  }

  const TargetNotFound: string := "Target not found"
  const MetricRequired: string := "Metric name is required"

  /** `getHealthChecks`, given the answer to its query. */
  function HealthChecksReply(w: Writer, a: Answer): Writer {
    if a.QueryError? then ErrorReply(w, QueryFailedMessage(a.text), 500)
    else JsonReply(w, SummaryDoc(SummaryOf(a.value)))
  }

  /** `getHealthCheckByTarget`, given the answer to its query: the first sample
      of a non-empty vector, reported under the requested target. */
  function ByTargetReply(w: Writer, target: string, a: Answer): Writer {
    if a.QueryError? then ErrorReply(w, QueryFailedMessage(a.text), 500)
    else if a.value.Vector? && a.value.samples != [] then
      var sample := a.value.samples[0];
      JsonReply(w, CheckDoc(CheckResult(target, StatusOf(sample), sample.timestamp, Label(sample.metric, "probe"), "")))
    else ErrorReply(w, TargetNotFound, 404)
  }

  /** `getMetrics` on a non-empty name, given the answer to its query. */
  function MetricsReply(w: Writer, name: string, a: Answer): Writer {
    if a.QueryError? then ErrorReply(w, QueryFailedMessage(a.text), 500)
    else JsonReply(w, MetricDoc(name, a.value))
  }

  /** `healthz`: 200 and "OK". */
  function HealthzReply(w: Writer): Writer {
    w.WriteHeader(200).Write(TextOut("OK"))
  }

  /** The list reply on a fresh writer. */
  lemma HealthChecksOnFresh(a: Answer)
    ensures a.QueryError? ==> HealthChecksReply(FreshLegacyWriter, a).status == 500
    ensures a.Answered? ==>
              HealthChecksReply(FreshLegacyWriter, a) == WriterState(map["Content-Type" := ContentTypeJson], 200, [JsonOut(SummaryDoc(SummaryOf(a.value)))])
  {
  }

  /** The by-target reply on a fresh writer: 404 for an empty vector or a value
      of another type, else the first sample's check under the asked target. */
  lemma ByTargetOnFresh(target: string, a: Answer)
    ensures a.Answered? && (!a.value.Vector? || a.value.samples == []) ==>
              ByTargetReply(FreshLegacyWriter, target, a) ==
                WriterState(map["Content-Type" := ContentTypeText, "X-Content-Type-Options" := "nosniff"], 404, [TextOut(TargetNotFound + "\n")])
    ensures a.Answered? && a.value.Vector? && a.value.samples != [] ==>
              var r := ByTargetReply(FreshLegacyWriter, target, a);
              r.status == 200 && |r.body| == 1 && r.body[0].JsonOut? && r.body[0].doc.CheckDoc?
              && r.body[0].doc.check == CheckOf(a.value.samples[0]).(target := target)
    ensures a.QueryError? ==> ByTargetReply(FreshLegacyWriter, target, a).status == 500
  {
    if a.Answered? && (!a.value.Vector? || a.value.samples == []) {
      ErrorReplyOnFresh(TargetNotFound, 404);
    }
  }

  // ---------------------------------------------------------------------------
  // The server

  /** The four routes. */
  datatype Route = GetHealthChecks | GetHealthCheckByTarget | GetMetrics | Healthz

  /** What a route makes of the writer, given how Prometheus answers. */
  function RouteReply(w: Writer, r: Request, route: Route, answer: string -> Answer): Writer {
    match route
    case GetHealthChecks => HealthChecksReply(w, answer(HealthQuery))
    case GetHealthCheckByTarget => ByTargetReply(w, Param(r, "target"), answer(ByTargetQuery(Param(r, "target"))))
    case GetMetrics =>
      if Param(r, "metric") == "" then ErrorReply(w, MetricRequired, 400)
      else MetricsReply(w, Param(r, "metric"), answer(Param(r, "metric")))
    case Healthz => HealthzReply(w)
  }

  /** The queries a route issues: none for `healthz` or an empty metric name. */
  function RouteQueries(r: Request, route: Route): (qs: seq<string>)
    ensures |qs| <= 1
    ensures route.Healthz? || (route.GetMetrics? && Param(r, "metric") == "") <==> qs == []
  {
    match route
    case GetHealthChecks => [HealthQuery]
    case GetHealthCheckByTarget => [ByTargetQuery(Param(r, "target"))]
    case GetMetrics => if Param(r, "metric") == "" then [] else [Param(r, "metric")]
    case Healthz => []
  }

  const AllowOrigin: string := "*"
  const AllowMethods: string := "GET, OPTIONS"
  const AllowHeaders: string := "Content-Type"

  function CorsHeaders(w: Writer): Writer {
    w.SetHeader("Access-Control-Allow-Origin", AllowOrigin)
     .SetHeader("Access-Control-Allow-Methods", AllowMethods)
     .SetHeader("Access-Control-Allow-Headers", AllowHeaders)
  }

  /** The middleware around a route: the CORS headers, then 200 for a
      preflight or the route otherwise. */
  function CorsReply(w: Writer, r: Request, route: Route, answer: string -> Answer): Writer {
    if r.httpMethod == "OPTIONS" then CorsHeaders(w).WriteHeader(200)
    else RouteReply(CorsHeaders(w), r, route, answer)
  }

  /** `HealthAPIServer`. */
  class Server {
    const prometheus: Prometheus
    const port: string

    constructor (prometheus: Prometheus, port: string)
      ensures this.prometheus == prometheus && this.port == port
    {
      this.prometheus := prometheus;
      this.port := port;
    }

    method GetHealthChecksHandler(w: ResponseWriter<Chunk>, r: Request)
      modifies w, prometheus
      ensures prometheus.queries == old(prometheus.queries) + [HealthQuery]
      ensures w.State() == HealthChecksReply(old(w.State()), prometheus.answer(HealthQuery))
    {
      var a := prometheus.Query(HealthQuery);
      if a.QueryError? {
        HttpError(w, QueryFailedMessage(a.text), 500);
        return;
      }
      var summary := Summarize(a.value);
      WriteJson(w, SummaryDoc(summary));
    }

    method GetHealthCheckByTargetHandler(w: ResponseWriter<Chunk>, r: Request)
      modifies w, prometheus
      ensures prometheus.queries == old(prometheus.queries) + [ByTargetQuery(Param(r, "target"))]
      ensures w.State() == ByTargetReply(old(w.State()), Param(r, "target"), prometheus.answer(ByTargetQuery(Param(r, "target"))))
    {
      var target := Param(r, "target");
      var a := prometheus.Query(ByTargetQuery(target));
      if a.QueryError? {
        HttpError(w, QueryFailedMessage(a.text), 500);
        return;
      }
      if a.value.Vector? {
        if |a.value.samples| == 0 {
          HttpError(w, TargetNotFound, 404);
          return;
        }
        var sample := a.value.samples[0];
        var status := Down;
        if sample.valueIsOne {
          status := Healthy;
        }
        var check := CheckResult(target, status, sample.timestamp, Label(sample.metric, "probe"), "");
        WriteJson(w, CheckDoc(check));
        return;
      }
      HttpError(w, TargetNotFound, 404);
    }

    method GetMetricsHandler(w: ResponseWriter<Chunk>, r: Request)
      modifies w, prometheus
      ensures Param(r, "metric") == "" ==> prometheus.queries == old(prometheus.queries)
                                           && w.State() == ErrorReply(old(w.State()), MetricRequired, 400)
      ensures Param(r, "metric") != "" ==> prometheus.queries == old(prometheus.queries) + [Param(r, "metric")]
                                           && w.State() == MetricsReply(old(w.State()), Param(r, "metric"), prometheus.answer(Param(r, "metric")))
    {
      var metricName := Param(r, "metric");
      if metricName == "" {
        HttpError(w, MetricRequired, 400);
        return;
      }
      var a := prometheus.Query(metricName);
      if a.QueryError? {
        HttpError(w, QueryFailedMessage(a.text), 500);
        return;
      }
      WriteJson(w, MetricDoc(metricName, a.value));
    }

    method HealthzHandler(w: ResponseWriter<Chunk>, r: Request)
      modifies w
      ensures w.State() == HealthzReply(old(w.State()))
    {
      w.WriteHeader(200);
      w.Write(TextOut("OK"));
    }

    /** The route's handler. */
    method Dispatch(w: ResponseWriter<Chunk>, r: Request, route: Route)
      modifies w, prometheus
      ensures prometheus.queries == old(prometheus.queries) + RouteQueries(r, route)
      ensures w.State() == RouteReply(old(w.State()), r, route, prometheus.answer)
    {
      match route
      case GetHealthChecks => GetHealthChecksHandler(w, r);
      case GetHealthCheckByTarget => GetHealthCheckByTargetHandler(w, r);
      case GetMetrics => GetMetricsHandler(w, r);
      case Healthz => HealthzHandler(w, r);
    }

    /** The CORS middleware `Start` installs, around the route's handler. */
    method Serve(w: ResponseWriter<Chunk>, r: Request, route: Route)
      modifies w, prometheus
      ensures r.httpMethod == "OPTIONS" ==> prometheus.queries == old(prometheus.queries)
      ensures r.httpMethod != "OPTIONS" ==> prometheus.queries == old(prometheus.queries) + RouteQueries(r, route)
      ensures w.State() == CorsReply(old(w.State()), r, route, prometheus.answer)
    {
      w.SetHeader("Access-Control-Allow-Origin", AllowOrigin);
      w.SetHeader("Access-Control-Allow-Methods", AllowMethods);
      w.SetHeader("Access-Control-Allow-Headers", AllowHeaders);
      if r.httpMethod == "OPTIONS" {
        w.WriteHeader(200);
        return;
      }
      Dispatch(w, r, route);
    }
  }

  // ---------------------------------------------------------------------------
  // Properties of the served responses

  /** The header keys a route may set. */
  lemma RouteKeepsOtherHeaders(w: Writer, r: Request, route: Route, answer: string -> Answer, k: string)
    requires k != "Content-Type" && k != "X-Content-Type-Options" && k in w.header
    ensures var w' := RouteReply(w, r, route, answer); k in w'.header && w'.header[k] == w.header[k]
  {
    forall msg: string, code: int | code != 0
      ensures k in ErrorReply(w, msg, code).header && ErrorReply(w, msg, code).header[k] == w.header[k]
    {
      ErrorReplyKeeps(w, msg, code, k);
    }
    forall doc: Document
      ensures k in JsonReply(w, doc).header && JsonReply(w, doc).header[k] == w.header[k]
    {
      JsonReplyKeeps(w, doc, k);
    }
  }

  lemma ErrorReplyKeeps(w: Writer, msg: string, code: int, k: string)
    requires code != 0 && k != "Content-Type" && k != "X-Content-Type-Options" && k in w.header
    ensures k in ErrorReply(w, msg, code).header && ErrorReply(w, msg, code).header[k] == w.header[k]
  {
  }

  lemma JsonReplyKeeps(w: Writer, doc: Document, k: string)
    requires k != "Content-Type" && k in w.header
    ensures k in JsonReply(w, doc).header && JsonReply(w, doc).header[k] == w.header[k]
  {
  }

  /** Every response on a fresh writer carries the three CORS headers; a
      preflight is answered 200 with no body and no query. */
  lemma CorsOnEveryResponse(r: Request, route: Route, answer: string -> Answer)
    ensures var w := CorsReply(FreshLegacyWriter, r, route, answer);
            "Access-Control-Allow-Origin" in w.header && w.header["Access-Control-Allow-Origin"] == AllowOrigin
            && "Access-Control-Allow-Methods" in w.header && w.header["Access-Control-Allow-Methods"] == AllowMethods
            && "Access-Control-Allow-Headers" in w.header && w.header["Access-Control-Allow-Headers"] == AllowHeaders
    ensures r.httpMethod == "OPTIONS" ==> CorsReply(FreshLegacyWriter, r, route, answer).status == 200
                                          && CorsReply(FreshLegacyWriter, r, route, answer).body == []
  {
    var h := CorsHeaders(FreshLegacyWriter);
    if r.httpMethod != "OPTIONS" {
      RouteKeepsOtherHeaders(h, r, route, answer, "Access-Control-Allow-Origin");
      RouteKeepsOtherHeaders(h, r, route, answer, "Access-Control-Allow-Methods");
      RouteKeepsOtherHeaders(h, r, route, answer, "Access-Control-Allow-Headers");
    }
  }

  /** An empty metric name is answered 400 whatever Prometheus would say. */
  lemma EmptyMetricIgnoresPrometheus(w: Writer, r: Request, a1: string -> Answer, a2: string -> Answer)
    requires Param(r, "metric") == ""
    ensures RouteReply(w, r, GetMetrics, a1) == RouteReply(w, r, GetMetrics, a2) == ErrorReply(w, MetricRequired, 400)
    ensures RouteQueries(r, GetMetrics) == []
  {
  }
}
