/** The health business layer: the domain types and the one computation beyond
    delegation, counting statuses into a HealthSummary. */
module HealthBus {
  import opened Wrappers
  import opened Errs

  /** Go's `type Status string`: any string, of which three are the constants. */
  type Status = string

  const StatusHealthy: Status := "healthy"
  const StatusDown: Status := "down"
  const StatusUnknown: Status := "unknown"

  predicate KnownStatus(s: Status) {
    s == StatusHealthy || s == StatusDown || s == StatusUnknown
  }

  /** A point in time; 0 is Go's zero `time.Time`. */
  type Time = int

  const ZeroTime: Time := 0

  datatype HealthCheck = HealthCheck(
    target: string,
    status: Status,
    lastChecked: Time,
    probe: string,
    instance: string)

  const ZeroCheck: HealthCheck := HealthCheck("", "", ZeroTime, "", "")

  datatype HealthSummary = HealthSummary(
    total: int,
    healthy: int,
    down: int,
    unknown: int,
    checks: Slice<HealthCheck>)

  const ZeroSummary: HealthSummary := HealthSummary(0, 0, 0, 0, Nil)

  datatype Alert = Alert(
    uid: string,
    title: string,
    state: string,
    labels: map<string, string>,
    annotations: map<string, string>,
    activeAt: string,
    value: string)

  datatype AlertSummary = AlertSummary(
    total: int,
    firing: int,
    pending: int,
    normal: int,
    alerts: Slice<Alert>)

  const ZeroAlertSummary: AlertSummary := AlertSummary(0, 0, 0, 0, Nil)

  /** The number of checks whose status is `s`. */
  function Count(checks: seq<HealthCheck>, s: Status): nat {
    if checks == [] then 0
    else Count(checks[..|checks| - 1], s) + (if checks[|checks| - 1].status == s then 1 else 0)
  }

  /** The summary of a list of checks: the list itself, its length, and one
      counter per status constant. */
  function Summarize(checks: Slice<HealthCheck>): HealthSummary {
    var cs := checks.Elems();
    HealthSummary(|cs|, Count(cs, StatusHealthy), Count(cs, StatusDown), Count(cs, StatusUnknown), checks)
  }

  /** The three counters never exceed the total, and fill it exactly when every
      status is one of the three constants. */
  lemma {:induction false} CountsPartition(checks: seq<HealthCheck>)
    ensures Count(checks, StatusHealthy) + Count(checks, StatusDown) + Count(checks, StatusUnknown) <= |checks|
    ensures (forall i :: 0 <= i < |checks| ==> KnownStatus(checks[i].status)) <==>
            Count(checks, StatusHealthy) + Count(checks, StatusDown) + Count(checks, StatusUnknown) == |checks|
  {
    if checks != [] {
      var init := checks[..|checks| - 1];
      CountsPartition(init);
      assert forall i :: 0 <= i < |init| ==> init[i] == checks[i];
    }
  }

  lemma SummaryInvariants(checks: Slice<HealthCheck>)
    ensures Summarize(checks).total == |checks.Elems()|
    ensures Summarize(checks).checks == checks
    ensures Summarize(checks).healthy + Summarize(checks).down + Summarize(checks).unknown <= Summarize(checks).total
    ensures (forall c :: c in checks.Elems() ==> KnownStatus(c.status)) ==>
            Summarize(checks).healthy + Summarize(checks).down + Summarize(checks).unknown == Summarize(checks).total
  {
    CountsPartition(checks.Elems());
  }

  /** What `Business.QueryHealthChecks` returns for the store's answer: a store
      error unchanged with the zero summary, otherwise the summary of the checks.
      `QueryHealthCheckByTarget` and `QueryAlerts` hand the store's answer on
      unchanged and need no function of their own. */
  function HealthChecksResult(checks: Slice<HealthCheck>, storeErr: Option<GoError>): (HealthSummary, Option<GoError>) {
    if storeErr.Some? then (ZeroSummary, storeErr) else (Summarize(checks), None)
  }

  /** `Business.QueryHealthChecks`: the loop counts the statuses. */
  method QueryHealthChecks(checks: Slice<HealthCheck>, storeErr: Option<GoError>)
    returns (summary: HealthSummary, err: Option<GoError>)
    ensures (summary, err) == HealthChecksResult(checks, storeErr)
  {
    if storeErr.Some? {
      return ZeroSummary, storeErr;
    }
    var cs := checks.Elems();
    summary := HealthSummary(|cs|, 0, 0, 0, checks);
    var i := 0;
    while i < |cs|
      invariant 0 <= i <= |cs|
      invariant summary == HealthSummary(|cs|, Count(cs[..i], StatusHealthy), Count(cs[..i], StatusDown),
                                         Count(cs[..i], StatusUnknown), checks)
    {
      assert cs[..i + 1][..i] == cs[..i];
      var check := cs[i];
      if check.status == StatusHealthy {
        summary := summary.(healthy := summary.healthy + 1);
      } else if check.status == StatusDown {
        summary := summary.(down := summary.down + 1);
      } else if check.status == StatusUnknown {
        summary := summary.(unknown := summary.unknown + 1);
      }
      i := i + 1;
    }
    assert cs[..i] == cs;
    err := None;
  }
}
