# health-api, modelled in Dafny

This project models the core of `health-api`. It is a small HTTP service
that reports the health of blackbox-probed targets.

The current server reads alert-rule state from Grafana's Prometheus-compatible
rules endpoint. It turns every rule labelled with a `target` into a health
check (`firing` is down, `pending` is unknown, anything else is healthy). It
counts those checks into a summary and serves them, and the raw alerts, as
JSON. Its pieces are:

- `Errs`: the error taxonomy. This covers the codes, their names, the fixed
  status table, `New`/`Newf`, the JSON encoding and `GetCode`.
- `GrafanaStore`: the walk over the rules response (data, then groups, then
  rules) and the three queries.
- `HealthBus`: the business layer that counts statuses.
- `HealthApp`: the five handlers and the route table.
- `Web`: the framework. This covers encoders, `Respond` on a response writer,
  wrapping middleware, and registering routes on an `App`.
- `Mid` and `Metrics`: the six middleware (Logger, Errors, Prometheus,
  Metrics, Panics, Cors) and the expvar and Prometheus counters they update.
- `Mux`: `WebAPI`, which builds the app with its fixed middleware order, and
  end-to-end statements about a request served through that stack.
- `Legacy`: the older single-file server. It queries Prometheus directly for
  `probe_success` samples and counts them into healthy and down. It serves a
  by-target view and arbitrary metric queries, behind an inline CORS
  middleware.

The model follows the code's own form:

- Pure Go code becomes functions.
- The loops in the three store queries, the business-layer count,
  `getStringMap`, `wrapMiddleware` and the legacy `getHealthChecks` become
  methods with loop invariants. Each is proved equal to a specification
  function, and the properties are proved about that function.
- State that Go mutates in place becomes classes with `modifies` clauses:
  `http.ResponseWriter`, the request `Values`, the expvar registry, the `App`
  route table, the legacy server and its Prometheus client.

Go's `(value, error)` results are pairs with an `Option<GoError>`. A `GoError`
records the wrap chain that `errors.As` walks. A nil slice and an empty slice
are kept apart (`Slice.Nil` and `Slice.Made`), because the code returns one
or the other on different paths and JSON renders them differently (`null`
and `[]`).

Three things the code does that its error taxonomy would not lead one to
expect, which the model follows as written:

- An unset Grafana URL is a plain error: `fmt.Errorf("grafana not
  configured")` at grafanastore.go:40, 145 and 245. The handlers wrap it as
  Internal, so the list routes answer 500 rather than the 503 the
  `Unavailable` code stands for. The by-target route answers it with 404,
  since every lookup error becomes NotFound. This is proved in
  `Mux.UnconfiguredIsInternal` and follows from `HealthApp.ByTargetResponse`.
- The `Unavailable` code (errs.go:31, status 503 at errs.go:142) is produced
  by no path of the code, not even for an unreachable Grafana.
- A recovered panic sends its stack trace to the client. `Panics` puts
  `debug.Stack()` into the error's `Message` (panics.go:19-20), `Message` is
  encoded as `"message"` (errs.go:83), and `Errors` hides only
  `InternalOnlyLog` errors, passing Internal ones through (errors.go:36-40).
  `Mux.PanicIsAnswered500` proves that the response body decodes to
  `(Internal, "panic: " + msg + "\n" + stack)`.

Some behaviour of the code follows from the model but lies in parts it does not
cover (routing, logging):

- All routes are registered for GET only, in both servers.
  - net/http's mux answers an OPTIONS request to a GET-only pattern with 405
    before any middleware runs.
  - gorilla/mux does not run `Use` middleware when the method does not match.
  - So the preflight branches of both CORS middleware, proved in
    `Mux.PreflightShortCircuits` and `Legacy.CorsOnEveryResponse`, are not
    reached through the registered routes.
- The `{target}` wildcard matches one path segment. A target containing `/`
  (a URL with a path) never reaches the by-target handler.
- The Logger middleware logs the status code after the handler returns, and
  `Respond` only sets it later. So the logged status is always 0.
- An error with an undeclared code has status 0. `Respond` then calls
  `WriteHeader(0)`, which net/http rejects with a panic. The model records this
  as `aborted`.
- `Alert.UID` is never filled in by `QueryAlerts`.

## Model

| member | source | states |
|---|---|---|
| Errs.String | health-api/app/sdk/errs/errs.go:37-78 | each declared code is named by its constant's name; any other value is named "Unknown" |
| Errs.StringNamesDeclaredCodes | health-api/app/sdk/errs/errs.go:37-78 | names are unambiguous: a declared code's name reads back as that code, an undeclared one reads back as Unknown |
| Errs.CodeOf | health-api/app/sdk/errs/errs.go:37-78 | reads a name back as a code; whatever it reads back is a declared code |
| Errs.HTTPStatus | health-api/app/sdk/errs/errs.go:120-145 | the status is 0 exactly for codes missing from the table; OK is 200; every other declared code maps into 400-599; a status of at least 400 means a declared non-OK code |
| Errs.TableCoversDeclaredCodes | health-api/app/sdk/errs/errs.go:125-145 | the status table has an entry for exactly the 18 declared codes |
| Errs.StatusExamples | health-api/app/sdk/errs/errs.go:126-145 | the individual table entries (400, 404, 401, 403, 429, 503, and 500 for Internal, InternalOnlyLog, DataLoss and Unknown) |
| Errs.Chain | health-api/app/sdk/errs/errs.go:147-151 | the chain `errors.As` walks starts at the error itself |
| Errs.As | health-api/app/sdk/errs/errs.go:147-151 | finds an application error exactly when one is on the wrap chain, and returns the first one found |
| Errs.GetCode | health-api/app/sdk/errs/errs.go:153-160 | the code of the first application error on the chain, Unknown when there is none |
| Errs.GetCodeCases | health-api/app/sdk/errs/errs.go:153-160 | a wrapped application error keeps its code; plain and wrapped plain errors give Unknown |
| Errs.New | health-api/app/sdk/errs/errs.go:88-99 | the error keeps the code and the cause's text, and records the caller's function and "file:line" |
| Errs.Newf | health-api/app/sdk/errs/errs.go:101-104 | the corrected constructor: code and formatted message, with the call site of Newf's caller |
| Errs.NewfAsWritten | health-api/app/sdk/errs/errs.go:101-104 | Newf as written: code and formatted message, with the call site taken one frame too shallow |
| Errs.NewfAsWrittenLosesCaller | health-api/app/sdk/errs/errs.go:88-104 | as written, every error built with Newf names `errs.Newf` as its function, never the real caller |
| Errs.ErrorText | health-api/app/sdk/errs/errs.go:106-109 | an application error's text is its message |
| Errs.Encode | health-api/app/sdk/errs/errs.go:80-118 | the body is a JSON object with exactly the keys "code" and "message", sent as application/json |
| Errs.EncodeRoundTrip | health-api/app/sdk/errs/errs.go:80-118 | a client decoding the body gets back the code and the message |
| Errs.EncodeHidesCallSite | health-api/app/sdk/errs/errs.go:80-118 | the function and file names never reach the client: errors that differ only in them encode identically |
| Strings.NatToDecimal | health-api/foundation/web/web.go:234-236 | `%d` of a natural number: non-empty digits, no leading zero |
| Strings.IntToDecimal | health-api/foundation/web/web.go:234-236 | `%d` of an integer: digits, with a leading '-' for a negative number |
| Strings.DigitChar | health-api/foundation/web/web.go:234-236 | the character of a decimal digit |
| Strings.DecimalRoundTrip | health-api/foundation/web/web.go:234-236 | the decimal rendering reads back as the same number |
| Strings.IntToDecimalInjective | health-api/foundation/web/web.go:234-236 | distinct clock readings give distinct trace IDs |
| HealthBus.QueryHealthChecks | health-api/business/domain/healthbus/healthbus.go:32-57 | the counting loop: a store error gives the zero summary and that error; otherwise the checks are kept as they are, Total is their number, and each status counter counts its status |
| HealthBus.CountsPartition | health-api/business/domain/healthbus/healthbus.go:44-54 | the three counters never add up to more than the number of checks, and equal it exactly when every status is healthy, down or unknown |
| HealthBus.SummaryInvariants | health-api/business/domain/healthbus/healthbus.go:39-54 | Total is the number of checks, the checks pass through unchanged (nil stays nil), and the counters are bounded by Total, reaching it when every status is known |
| GrafanaStore.Load | health-api/business/domain/healthbus/stores/grafanastore/grafanastore.go:38-67 | an empty base URL fails with "grafana not configured"; a transport error, a non-200 status or an undecodable body fails; otherwise it yields the decoded object |
| GrafanaStore.GetString | health-api/business/domain/healthbus/stores/grafanastore/grafanastore.go:339-344 | the value under the key when it is a string, else "" |
| GrafanaStore.StringEntriesSpec | health-api/business/domain/healthbus/stores/grafanastore/grafanastore.go:349-353 | exactly the string-valued entries of an object, with their values |
| GrafanaStore.StringMapSpec | health-api/business/domain/healthbus/stores/grafanastore/grafanastore.go:346-356 | the string entries of the object under the key, empty when the key is missing or not an object |
| GrafanaStore.GetStringMap | health-api/business/domain/healthbus/stores/grafanastore/grafanastore.go:346-356 | the filling loop builds exactly that map |
| GrafanaStore.StatusOf | health-api/business/domain/healthbus/stores/grafanastore/grafanastore.go:121-126 | "firing" is down, "pending" is unknown, every other state (including "" and "normal") is healthy |
| GrafanaStore.LastChecked | health-api/business/domain/healthbus/stores/grafanastore/grafanastore.go:107-119 | the first alert's activeAt when it parses to a non-zero time, otherwise now; so never zero when now is not, and a parsed time is never replaced by now |
| GrafanaStore.AsSlice | health-api/business/domain/healthbus/stores/grafanastore/grafanastore.go:70-135 | appending to a nil slice: the elements are the ones appended |
| GrafanaStore.ObjectsOfAppend | health-api/business/domain/healthbus/stores/grafanastore/grafanastore.go:82-97 | skipping non-objects distributes over concatenation |
| GrafanaStore.AllRulesAppend | health-api/business/domain/healthbus/stores/grafanastore/grafanastore.go:82-97 | the group-then-rule traversal of two group lists is the first's traversal followed by the second's |
| GrafanaStore.AllRulesCons | health-api/business/domain/healthbus/stores/grafanastore/grafanastore.go:82-92 | the traversal of a group list is the first group's rules followed by the rest's |
| GrafanaStore.ChecksOfAppend | health-api/business/domain/healthbus/stores/grafanastore/grafanastore.go:93-136 | projecting rules into checks distributes over concatenation |
| GrafanaStore.ChecksOfCons | health-api/business/domain/healthbus/stores/grafanastore/grafanastore.go:93-136 | the checks of a rule list are the first rule's check, if any, followed by the rest's |
| GrafanaStore.ObjectsOfStep | health-api/business/domain/healthbus/stores/grafanastore/grafanastore.go:93-97 | one more rule adds its object, or nothing for a non-object |
| GrafanaStore.AllRulesStep | health-api/business/domain/healthbus/stores/grafanastore/grafanastore.go:82-92 | one more group adds its rules, or nothing for a non-object or a group without a rule array |
| GrafanaStore.ProjectAs | health-api/business/domain/healthbus/stores/grafanastore/grafanastore.go:207-235 | the check reported for a rule under a target: that target, the mapped state, the computed lastChecked, the probe label |
| GrafanaStore.ProjectRule | health-api/business/domain/healthbus/stores/grafanastore/grafanastore.go:99-133 | a rule is kept exactly when its target label is non-empty, and is then projected under that target |
| GrafanaStore.ChecksStep | health-api/business/domain/healthbus/stores/grafanastore/grafanastore.go:93-136 | one more rule adds its check exactly when it is an object with a non-empty target |
| GrafanaStore.ChecksOfSingle | health-api/business/domain/healthbus/stores/grafanastore/grafanastore.go:99-135 | a single rule yields its check or nothing |
| GrafanaStore.AsSliceAppend | health-api/business/domain/healthbus/stores/grafanastore/grafanastore.go:135 | appending nothing leaves a nil slice nil; appending something makes it non-nil |
| GrafanaStore.AppendGroupChecks | health-api/business/domain/healthbus/stores/grafanastore/grafanastore.go:93-136 | the inner loop appends exactly the checks of the group's rules, in order |
| GrafanaStore.AppendItemCheck | health-api/business/domain/healthbus/stores/grafanastore/grafanastore.go:99-135 | one iteration of the inner loop appends a check exactly for an object rule with a non-empty target |
| GrafanaStore.QueryHealthChecks | health-api/business/domain/healthbus/stores/grafanastore/grafanastore.go:38-140 | the whole query: load failures pass through with no checks; a missing or ill-typed data or groups gives nil and no error; otherwise the checks of all rules in group-then-rule order |
| GrafanaStore.FindRuleSpec | health-api/business/domain/healthbus/stores/grafanastore/grafanastore.go:196-205 | the first rule whose target label equals the argument; none exactly when no rule has it |
| GrafanaStore.FindRuleAppend | health-api/business/domain/healthbus/stores/grafanastore/grafanastore.go:185-237 | a search over two rule lists finds in the first when it can, else in the second |
| GrafanaStore.FindRuleCons | health-api/business/domain/healthbus/stores/grafanastore/grafanastore.go:196-205 | the search takes the first rule when its target matches, else searches the rest |
| GrafanaStore.FindInGroup | health-api/business/domain/healthbus/stores/grafanastore/grafanastore.go:196-205 | the inner search loop finds exactly the first matching rule object of a group |
| GrafanaStore.FindInGroups | health-api/business/domain/healthbus/stores/grafanastore/grafanastore.go:185-237 | the outer search loop finds exactly the first matching rule in traversal order |
| GrafanaStore.FindGroupStep | health-api/business/domain/healthbus/stores/grafanastore/grafanastore.go:185-205 | when earlier groups had no match, the next group decides the search |
| GrafanaStore.QueryHealthCheckByTarget | health-api/business/domain/healthbus/stores/grafanastore/grafanastore.go:143-240 | load failures pass through with the zero check; missing data or groups, or no match, gives "target not found: <target>"; otherwise the first match, reported under the argument |
| GrafanaStore.AlertsOfSpec | health-api/business/domain/healthbus/stores/grafanastore/grafanastore.go:300-320 | one alert per rule object, in order, each built from its rule |
| GrafanaStore.CountStateAppend | health-api/business/domain/healthbus/stores/grafanastore/grafanastore.go:323-330 | counting a state distributes over concatenation |
| GrafanaStore.TallyStep | health-api/business/domain/healthbus/stores/grafanastore/grafanastore.go:320-330 | one more alert adds itself, adds one to Total, and adds one to exactly the counter its state names |
| GrafanaStore.AlertsOfAppend | health-api/business/domain/healthbus/stores/grafanastore/grafanastore.go:289-332 | building alerts distributes over concatenation |
| GrafanaStore.AlertsOfCons | health-api/business/domain/healthbus/stores/grafanastore/grafanastore.go:300-320 | the alerts of a rule list are the first rule's alert followed by the rest's |
| GrafanaStore.AlertsStep | health-api/business/domain/healthbus/stores/grafanastore/grafanastore.go:300-320 | one more item of the rules array adds one alert for an object and none otherwise |
| GrafanaStore.MakeAlert | health-api/business/domain/healthbus/stores/grafanastore/grafanastore.go:306-318 | the title, state, labels and annotations of the rule, and the first alert's activeAt and value when it is an object |
| GrafanaStore.AddAlert | health-api/business/domain/healthbus/stores/grafanastore/grafanastore.go:320-330 | one iteration's update appends the alert, adds one to Total, and bumps the counter its state names, keeping the summary equal to the tally of the alerts seen |
| GrafanaStore.TallyGroup | health-api/business/domain/healthbus/stores/grafanastore/grafanastore.go:300-331 | the inner loop extends the summary by exactly the group's alerts |
| GrafanaStore.QueryAlerts | health-api/business/domain/healthbus/stores/grafanastore/grafanastore.go:243-335 | load failures give the zero summary; missing data or groups give an empty non-nil summary; otherwise the tally of every rule object |
| GrafanaStore.ChecksOfProperties | health-api/business/domain/healthbus/stores/grafanastore/grafanastore.go:99-135 | no more checks than rules; every check has a non-empty target, a known status, no instance, and a non-zero time when now is not zero; all rules targeted means one check each |
| GrafanaStore.EmptyTraversalIsNil | health-api/business/domain/healthbus/stores/grafanastore/grafanastore.go:70-139 | with no rules to keep, the list query returns a nil slice and no error |
| GrafanaStore.UnconfiguredStoreFails | health-api/business/domain/healthbus/stores/grafanastore/grafanastore.go:38-246 | an empty base URL makes all three queries fail with "grafana not configured" and zero results |
| GrafanaStore.FindCheck | health-api/business/domain/healthbus/stores/grafanastore/grafanastore.go:196-205 | the first check with the given target; none exactly when no check has it |
| GrafanaStore.ByTargetIsFirstListed | health-api/business/domain/healthbus/stores/grafanastore/grafanastore.go:99-235 | for a non-empty target, the by-target projection equals the first check of the list query with that target |
| GrafanaStore.ByTargetAgreesWithList | health-api/business/domain/healthbus/stores/grafanastore/grafanastore.go:38-240 | when the list query succeeds, the by-target query returns the first listed check with that target, or "target not found" exactly when none is listed |
| GrafanaStore.CountStateBound | health-api/business/domain/healthbus/stores/grafanastore/grafanastore.go:323-330 | firing, pending and normal together count no more alerts than there are |
| GrafanaStore.AlertsProperties | health-api/business/domain/healthbus/stores/grafanastore/grafanastore.go:274-334 | a loaded response gives no error, a non-nil alert list, Total equal to the number of rule objects and to the list's length, and counters bounded by Total and counting their states |
| GrafanaStore.ChecksNoMoreThanAlerts | health-api/business/domain/healthbus/stores/grafanastore/grafanastore.go:93-321 | the list query never reports more checks than the alerts query reports rules |
| GrafanaStore.ExampleRules | health-api/business/domain/healthbus/stores/grafanastore/grafanastore.go:72-97 | a concrete response: a non-object group, a group without rules and a non-object rule are skipped |
| GrafanaStore.ExampleChecks | health-api/business/domain/healthbus/stores/grafanastore/grafanastore.go:99-135 | the concrete rules give one healthy and one down check, in order |
| GrafanaStore.ExampleTargets | health-api/business/domain/healthbus/stores/grafanastore/grafanastore.go:99-103 | the two concrete rules carry the targets https://example.com and https://down.example |
| GrafanaStore.ExampleCounts | health-api/business/domain/healthbus/healthbus.go:39-54 | those checks summarise to total 2, one healthy, one down |
| GrafanaStore.ExampleSummary | health-api/business/domain/healthbus/stores/grafanastore/grafanastore.go:38-140 | end to end on the concrete response: the list query and the summary |
| GrafanaStore.ExampleMissingTarget | health-api/business/domain/healthbus/stores/grafanastore/grafanastore.go:239 | an unknown target in the concrete response gives "target not found: <target>" |
| Web.EncodeJSONResponse | health-api/foundation/web/web.go:245-251 | a marshalled value is sent as application/json; a marshal failure becomes "marshal json: ..." wrapping the cause |
| Web.Encode | health-api/foundation/web/web.go:245-251 | an application error encodes as its own JSON body |
| Web.HTTPStatusOf | health-api/foundation/web/web.go:134-138 | only a response with an HTTPStatus method has a status: an application error has its table status, JSON data and nil have none |
| Web.WriterState.SetHeader | health-api/foundation/web/web.go:132 | a header set before the status is written is recorded; after it, it does not reach the client |
| Web.WriterState.WriteHeader | health-api/foundation/web/web.go:117-152 | the first status written is kept; later ones are ignored |
| Web.WriterState.Write | health-api/foundation/web/web.go:147 | a write appends to the body and writes 200 first when no status was written |
| Web.ResponseWriter.constructor | health-api/foundation/web/web.go:42-44 | a fresh writer has no headers, no status and no body |
| Web.ResponseWriter.SetHeader | health-api/foundation/web/web.go:132 | the writer's new state is the header update above |
| Web.ResponseWriter.WriteHeader | health-api/foundation/web/web.go:117-152 | the writer's new state is the status update above |
| Web.ResponseWriter.Write | health-api/foundation/web/web.go:147 | the writer's new state is the body write above |
| Web.Values.constructor | health-api/foundation/web/web.go:173-178 | new values carry the trace ID and time, with no status code |
| Web.GenerateTraceID | health-api/foundation/web/web.go:234-236 | the trace ID is non-empty, with only digits after an optional minus sign |
| Web.TraceIdIsClock | health-api/foundation/web/web.go:234-236 | the trace ID's digits read back as the nanosecond clock, with a minus sign exactly for a negative clock |
| Web.GetValues | health-api/foundation/web/web.go:193-203 | the stored values when there are any; otherwise fresh ones with a generated trace ID and the current time |
| Web.RespondOnFreshWriter | health-api/foundation/web/web.go:117-152 | nil gives 204 with no body; an encoding failure gives 500 and an error; otherwise Content-Type, the response's status (200 by default) and the one body |
| Web.RespondAppError | health-api/foundation/web/web.go:117-152 | an application error is answered with its table status and a JSON body that a client decodes back to its code and message |
| Web.Respond | health-api/foundation/web/web.go:116-152 | writes exactly what the response calls for, returns "encode: ..." on an encoding failure, and records the status in the request's values when there are any |
| Web.Param | health-api/foundation/web/web.go:166-169 | a path parameter's value, "" when the pattern has none |
| Web.HandlerContext | health-api/foundation/web/web.go:55-92 | the context carries the writer, and keeps an existing trace ID or generates one |
| Web.PresentBounds | health-api/foundation/web/web.go:106-114 | the non-nil middleware, in order; none exactly when all are nil |
| Web.WrapMiddleware | health-api/foundation/web/web.go:105-114 | the loop from the last middleware to the first makes mw[0] the outermost layer, skipping nils |
| Web.PresentStep | health-api/foundation/web/web.go:107-112 | one loop iteration adds one middleware, or none for a nil |
| Web.PresentAppend | health-api/foundation/web/web.go:106-114 | dropping nils distributes over concatenation |
| Web.WrapCompose | health-api/foundation/web/web.go:47-52 | wrapping in the route middleware, then the app middleware, equals wrapping once in app middleware followed by route middleware |
| Web.WrapNilsIsIdentity | health-api/foundation/web/web.go:109-111 | nil middleware leave the handler unchanged |
| Web.FirstIsOutermost | health-api/foundation/web/web.go:106-114 | the first middleware listed is the outermost |
| Web.PatternParts | health-api/foundation/web/web.go:80-101 | the pattern is the method, a space, then the group and path |
| Web.PatternInjective | health-api/foundation/web/web.go:80 | for methods without a space, two patterns coincide exactly when their methods and their group-and-path strings do |
| Web.App.constructor | health-api/foundation/web/web.go:32-39 | a new app has its middleware, its tracer and no routes |
| Web.App.HandlerFunc | health-api/foundation/web/web.go:46-82 | registers the pattern to the handler wrapped in the app's middleware, then the route's middleware, and changes no other route |
| Web.App.HandlerFuncNoMid | health-api/foundation/web/web.go:84-103 | registers the pattern to the bare handler, and changes no other route |
| Metrics.Set | health-api/app/sdk/metrics/metrics.go:35-38 | the context now carries the shared counters and is otherwise unchanged |
| Metrics.AddRequests | health-api/app/sdk/metrics/metrics.go:40-49 | without the counters in the context, 0 and no change; otherwise one more request and the new count |
| Metrics.AddErrors | health-api/app/sdk/metrics/metrics.go:51-60 | the same for the error counter |
| Metrics.AddPanics | health-api/app/sdk/metrics/metrics.go:62-71 | the same for the panic counter |
| Metrics.AddGoroutines | health-api/app/sdk/metrics/metrics.go:73-82 | the goroutine gauge is set to the current count, not added to |
| Metrics.AddsNeverDecrease | health-api/app/sdk/metrics/metrics.go:40-82 | each call touches only its own counter, and the three Add counters never go down |
| Metrics.Registry.constructor | health-api/app/sdk/metrics/metrics.go:21-28 | all four counters start at 0 |
| Metrics.IncRequests | health-api/app/sdk/metrics/metrics.go:40-49 | the registry's new state and result are those of AddRequests; 0 without a registry |
| Metrics.IncErrors | health-api/app/sdk/metrics/metrics.go:51-60 | the same for AddErrors |
| Metrics.IncPanics | health-api/app/sdk/metrics/metrics.go:62-71 | the same for AddPanics |
| Metrics.SetGoroutines | health-api/app/sdk/metrics/metrics.go:73-82 | the same for AddGoroutines |
| Metrics.Inc | health-api/app/sdk/mid/prometheus.go:41-51 | `WithLabelValues(l).Inc()` adds one for that label set and leaves the others alone |
| Mid.AsGoError | health-api/app/sdk/mid/errors.go:24 | the error a response stands for; an application error stands for itself |
| Mid.ErrorsRewrite | health-api/app/sdk/mid/errors.go:16-40 | non-errors pass through; an error without an application error on its chain, or an internal-only one, becomes Internal "internal server error"; other application errors pass through; the result is never internal-only |
| Mid.ErrorsRewriteIdempotent | health-api/app/sdk/mid/errors.go:16-40 | rewriting a rewritten response changes nothing |
| Mid.CorsHeadersSet | health-api/app/sdk/mid/cors.go:17-19 | on a writer with no status yet, the three CORS headers are set to the origin and the fixed methods and headers lists |
| Mid.CorsBefore | health-api/app/sdk/mid/cors.go:13-28 | with a writer: the headers, then for OPTIONS the status 200 and no call to the handler; without one, nothing is written and the handler is called |
| Mid.MetricsRecord | health-api/app/sdk/mid/metrics.go:14-30 | one more request; the gauge is sampled when the new count is a multiple of 1000; one more error exactly when the response is an error; nothing when the counters are absent |
| Mid.MetricsAfter | health-api/app/sdk/mid/metrics.go:19-28 | the counters after the handler are the ones MetricsRecord gives |
| Mid.PromStatus | health-api/app/sdk/mid/prometheus.go:33-39 | the response's status, 200 when it has none |
| Mid.ErrorLabel | health-api/app/sdk/mid/prometheus.go:46-49 | the error label is the code's name for an application error, "unknown" otherwise |
| Mid.PromRecord | health-api/app/sdk/mid/prometheus.go:41-51 | one more request under (method, path, status); one more error under (method, path, label) exactly when the status is at least 400; the panic counter is left alone |
| Mid.PanicError | health-api/app/sdk/mid/panics.go:18-20 | a recovered panic becomes an Internal error (500) whose message starts with "panic: " |
| Mid.Before | health-api/app/sdk/mid/cors.go:13-28 | Metrics attaches the counters, Cors sets headers and may answer a preflight, the others do nothing before the handler |
| Mid.After | health-api/app/sdk/mid/errors.go:17-40 | a panic passes through every middleware except Panics; Logger and Cors change nothing; only Errors rewrites a returned response |
| Mid.PanicsRecovers | health-api/app/sdk/mid/panics.go:16-26 | a panic becomes the returned Internal error and is counted in both panic counters |
| HealthApp.HealthChecksResponse | health-api/app/domain/healthapp/healthapp.go:28-36 | a business error becomes Internal "query health checks: ..."; a summary is sent as JSON |
| HealthApp.UnconfiguredHealthChecks | health-api/app/domain/healthapp/healthapp.go:29-36 | with no Grafana URL the health handler returns an Internal error, status 500, "query health checks: grafana not configured" |
| HealthApp.ByTargetResponse | health-api/app/domain/healthapp/healthapp.go:38-51 | an empty target is InvalidArgument "target parameter required"; any lookup error is NotFound "health check not found: ..."; a check is sent as JSON |
| HealthApp.EmptyTargetSkipsLookup | health-api/app/domain/healthapp/healthapp.go:40-43 | an empty target is answered without consulting the business layer |
| HealthApp.AlertsResponse | health-api/app/domain/healthapp/healthapp.go:53-61 | a business error becomes Internal "query alerts: ..."; a summary is sent as JSON |
| HealthApp.Handle | health-api/app/domain/healthapp/healthapp.go:63-83 | the probes answer {"status": "ok"} whatever the request |
| HealthApp.Routes | health-api/app/domain/healthapp/route.go:17-32 | the three API routes get the application middleware, the three probes none, and /healthz serves Liveness |
| HealthApp.ApiPatterns | health-api/app/domain/healthapp/route.go:17-32 | the API patterns are "GET /api/v1/health", "GET /api/v1/health/{target}" and "GET /api/v1/alerts" |
| HealthApp.ProbePatterns | health-api/app/domain/healthapp/route.go:17-32 | the probe patterns are "GET /liveness", "GET /readiness" and "GET /healthz" |
| Mux.MiddlewareOrder | health-api/app/sdk/mux/mux.go:30-38 | the stack is Logger outermost, then Errors, Prometheus, Metrics, Panics, and Cors innermost |
| Mux.RouteTablePatterns | health-api/app/domain/healthapp/route.go:18-32 | exactly six patterns; /healthz and /liveness are the same handler; every layered route uses the full stack |
| Mux.WebAPI | health-api/app/sdk/mux/mux.go:27-46 | a new app with the fixed middleware and the CORS origin passed through; no routes without a route adder, the route table with one |
| Mux.RunCons | health-api/app/sdk/mux/mux.go:30-38 | one layer: its Before step, then either its own short answer or the rest, then its After step |
| Mux.RunInner | health-api/app/sdk/mid/panics.go:16-26 | the innermost two layers: the handler's outcome with panics recovered |
| Mux.StackIsPipeline | health-api/app/sdk/mux/mux.go:30-38 | running the six layers equals the explicit chain of the six middleware |
| Mux.StackIsOuter | health-api/app/sdk/mux/mux.go:30-38 | Logger, Errors, Prometheus and Metrics pass the request on, Metrics attaching its instance, and act in turn on the inner result |
| Mux.InnerPreflight | health-api/app/sdk/mid/cors.go:21-25 | on a preflight Cors answers 200 with its headers before Panics reaches the handler |
| Mux.Recovered | health-api/app/sdk/mid/panics.go:16-26 | without a panic the handler's result; with one an Internal error with status 500 |
| Mux.PipelineShape | health-api/app/sdk/mux/mux.go:30-38 | only Cors changes the writer before the handler, and only Errors changes the result after it |
| Mux.PipelineCounts | health-api/app/sdk/mid/metrics.go:14-30 | the request counter goes up by one, the error counter by one for an error result, the panic counters by one for a panic |
| Mux.ServeThroughStack | health-api/app/sdk/mux/mux.go:30-38 | a request that is not a preflight is answered with the rewritten result on the writer Cors prepared |
| Mux.RespondOnCorsWriter | health-api/app/sdk/mid/errors.go:16-40 | an application error on a fresh writer with the CORS headers gets its table status, a decodable body and the allowed origin |
| Mux.PreflightShortCircuits | health-api/app/sdk/mid/cors.go:21-25 | through the stack, a preflight is answered 200 with the CORS headers, whatever the handler |
| Mux.StackNormalisesErrors | health-api/app/sdk/mid/errors.go:16-40 | whatever the handler does, the stack returns a response, and an error response is never internal-only |
| Mux.StackCountsRequest | health-api/app/sdk/mid/metrics.go:14-30 | each request counts once; errors and recovered panics count once in their counters |
| Mux.PanicIsAnswered500 | health-api/app/sdk/mid/panics.go:16-26 | a panicking handler is answered 500 with an Internal "panic: ..." body, and the panic is counted |
| Mux.ApiErrorIsAnswered | health-api/app/sdk/mid/errors.go:16-40 | a handler's application error reaches the client with its table status, code and message |
| Mux.UnconfiguredIsInternal | health-api/app/domain/healthapp/healthapp.go:29-36 | with no Grafana URL the health list is answered 500 Internal "query health checks: grafana not configured" |
| Mux.UnknownTargetIsNotFound | health-api/app/domain/healthapp/healthapp.go:45-48 | a target the store does not know is answered 404 NotFound |
| Mux.ProbeIsOk | health-api/app/domain/healthapp/healthapp.go:63-83 | the probes are answered 200 {"status":"ok"} |
| Mux.RequestsAccumulate | health-api/app/sdk/metrics/metrics.go:40-49 | two requests served in sequence count two |
| Legacy.Prometheus.constructor | health-api/main.go:39-51 | a new client with no queries issued |
| Legacy.Prometheus.Query | health-api/main.go:59 | a query is recorded as issued and answered as the server answers it |
| Legacy.Label | health-api/main.go:85-86 | a sample's label, "" when the sample lacks it |
| Legacy.StatusOf | health-api/main.go:77-83 | a sample is "healthy" exactly when its value is 1, otherwise "down" |
| Legacy.CheckOf | health-api/main.go:85-93 | a listed check takes its target from the instance label and its probe from the probe label, with no instance |
| Legacy.CountHealthy | health-api/main.go:78-80 | never more than the number of samples |
| Legacy.CountDown | health-api/main.go:81-83 | never more than the number of samples |
| Legacy.ChecksOf | health-api/main.go:76-97 | one check per sample, in order |
| Legacy.SummaryOf | health-api/main.go:70-98 | checks are never nil and nothing is unknown; a non-vector result gives the zero summary with an empty list |
| Legacy.CountsSnoc | health-api/main.go:76-83 | one more sample adds one to exactly one of healthy and down |
| Legacy.HealthyPlusDown | health-api/main.go:76-83 | every sample is counted as healthy or as down |
| Legacy.SummaryCounts | health-api/main.go:70-97 | Total equals the number of checks and Healthy plus Down; Unknown is 0; each check is its sample's, healthy exactly when the value is 1 |
| Legacy.Summarize | health-api/main.go:70-98 | the counting loop builds exactly that summary |
| Legacy.SummaryStep | health-api/main.go:76-97 | one more sample adds one to the total, one to exactly one of healthy and down, and appends its check |
| Legacy.HttpError | health-api/main.go:62 | `http.Error`: a plain-text content type, nosniff, the status, and the message with a newline |
| Legacy.WriteJson | health-api/main.go:100-101 | the JSON content type, then the document |
| Legacy.ErrorReplyOnFresh | health-api/main.go:62 | on a fresh writer, an error reply is exactly the two headers, the status and the one line |
| Legacy.ByTargetQuery | health-api/main.go:111 | the by-target query is `probe_success{job="blackbox",instance="<target>"}` |
| Legacy.ByTargetQueryInjective | health-api/main.go:111 | different targets give different queries |
| Legacy.HealthChecksOnFresh | health-api/main.go:53-102 | a query error gives 500; otherwise 200 with the JSON summary |
| Legacy.ByTargetOnFresh | health-api/main.go:123-150 | an empty vector or a non-vector gives 404 "Target not found"; otherwise the first sample's check, under the requested target; a query error gives 500 |
| Legacy.RouteQueries | health-api/main.go:153-187 | at most one query per request; none exactly for healthz and an empty metric name |
| Legacy.Server.constructor | health-api/main.go:47-50 | the server keeps its client and port |
| Legacy.Server.GetHealthChecksHandler | health-api/main.go:53-102 | issues the list query once and writes the list reply for its answer |
| Legacy.Server.GetHealthCheckByTargetHandler | health-api/main.go:104-151 | issues the by-target query once and writes the by-target reply for its answer |
| Legacy.Server.GetMetricsHandler | health-api/main.go:153-182 | an empty name is answered 400 "Metric name is required" with no query issued; otherwise issues that one query and sends its result under the name |
| Legacy.Server.HealthzHandler | health-api/main.go:184-187 | 200 and "OK" |
| Legacy.Server.Dispatch | health-api/main.go:193-198 | each route runs its handler |
| Legacy.Server.Serve | health-api/main.go:201-213 | the three CORS headers, then for OPTIONS 200 with no query and no handler; otherwise the route's handler |
| Legacy.RouteKeepsOtherHeaders | health-api/main.go:100-177 | the handlers set only Content-Type and X-Content-Type-Options, and keep every other header |
| Legacy.ErrorReplyKeeps | health-api/main.go:162 | an http.Error reply keeps every header other than Content-Type and X-Content-Type-Options |
| Legacy.JsonReplyKeeps | health-api/main.go:177-181 | a JSON reply keeps every header other than Content-Type |
| Legacy.CorsOnEveryResponse | health-api/main.go:201-213 | every response carries the three CORS headers; a preflight gets 200 and no body |
| Legacy.EmptyMetricIgnoresPrometheus | health-api/main.go:160-164 | an empty metric name is answered 400 whatever Prometheus would answer, and no query is issued |

## Left out

- HTTP transport is not modelled. This covers `http.Client`, building requests,
  basic auth, timeouts, `ListenAndServe`, and the routing of net/http's
  `ServeMux` and gorilla/mux (method matching, 405 answers, the panic on a
  duplicate pattern). A route is chosen by naming it.
- JSON serialisation to bytes is not modelled. A body is the JSON tree it
  encodes (`JsonValue.Json`). `json.Marshal` of a handler payload is a
  parameter that may fail. The documents the legacy server encodes are kept
  as values. Which fields an application error emits is modelled.
- The Grafana response is taken as already decoded, or as a decode failure.
- Clocks, randomness and the runtime are inputs:
  - `time.Now` is an integer, read once per query: the store calls it again
    for each rule without a parseable time (grafanastore.go:118 and 220), and
    the model gives every such rule of one query the same `now`;
  - RFC 3339 parsing is an abstract partial function;
  - `UnixNano`, `runtime.NumGoroutine`, `debug.Stack` and
    `runtime.Caller`'s frame are passed in.
- fmt formatting is not modelled beyond `%d`. Messages are built from the
  already-formatted text of their causes.
- Floating point is not modelled. The duration histograms are omitted, and the
  sample comparison `Value == 1` is the boolean `valueIsOne`.
- The Logger middleware, the tracer span and all log calls have no observable
  effect in the model (Logger passes the response through).
- The Go runtime's panic machinery is modelled only as the `Panicked` outcome.
  net/http recovering a panic, and `WriteHeader(0)` panicking, are the
  `aborted` flag.
- Concurrency is not modelled: requests are served one after another.
- `mux.DebugMux`, the service `main` (configuration, servers, shutdown), the
  logger and otel packages, and `mid/logger.go` are not part of this model.
  They hold no logic the core depends on.
- `NewHealthAPIServer`'s client-construction error, `Start`'s log lines and
  the legacy `main` are configuration and I/O, so they are not modelled.
- `HealthBus.QueryHealthCheckByTarget` and `HealthBus.QueryAlerts` only
  delegate to the store, so the handlers call the store's functions directly.
- Errors built by the handlers and by the Errors and Panics middleware use the
  corrected `Errs.Newf` (see "## Findings"), so they record the frame of the
  function that calls it: the handler method, or the middleware's inner
  closure (`mid.Errors.func1.1`, `mid.Panics.func1.1.1`). The program as
  written records `errs.Newf` at errs.go:103 for every one of them, as
  `Errs.NewfAsWrittenLosesCaller` proves. These fields only reach the log.
- The Prometheus counter vectors are a value (`Metrics.PromCounters`) threaded
  through a request, not a shared object.
- Web.Respond: the error from `w.Write` ("write: ...") is not modelled,
  because the writer in the model never fails.
- Legacy.HttpError: deleting `Content-Length` is not modelled, because no
  handler sets that header.
- Legacy.Server.GetHealthChecksHandler: the 10-second query timeout and the
  logging of warnings are not modelled. A timed-out query is a query error.

## Findings

| source | as written | input that shows it | evidently intended | confidence | as-written member | corrected member |
|---|---|---|---|---|---|---|
| health-api/app/sdk/errs/errs.go:101-104 | `Newf` calls `New`, whose `runtime.Caller(1)` then names the frame of `Newf` itself | any `errs.Newf(errs.Internal, "query alerts: %s", err)` from `healthapp.QueryAlerts` records `errs.Newf` and errs.go:103 as its source | the function and file:line of the code that called `Newf`, as `New` records for its own callers | not executed | Errs.NewfAsWritten, Errs.NewfAsWrittenLosesCaller | Errs.Newf |
