/** Application metrics: the four expvar integers of the one shared metrics
    instance, and the Prometheus counter vectors the middleware increments. */
module Metrics {
  import Web

  // ---------------------------------------------------------------------------
  // The expvar counters

  /** The values of the shared instance's four counters. */
  datatype Counters = Counters(goroutines: nat, requests: nat, errors: nat, panics: nat)

  const Initial: Counters := Counters(0, 0, 0, 0)

  /** The result of an `Add*` call: the counters afterwards and the value returned. */
  datatype Added = Added(counters: Counters, value: nat)

  /** `Set`: the context now carries the shared instance. */
  function Set(ctx: Web.Ctx): (c: Web.Ctx)
    ensures c.metricsAttached && c.hasWriter == ctx.hasWriter && c.traceId == ctx.traceId
  {
    ctx.(metricsAttached := true)
  }

  /** `AddRequests`: without the instance in the context, 0 and no change;
      otherwise one more request, and the new count. */
  function AddRequests(attached: bool, c: Counters): (r: Added)
    ensures !attached ==> r == Added(c, 0)
    ensures attached ==> r.counters == c.(requests := c.requests + 1) && r.value == c.requests + 1
  {
    if attached then Added(c.(requests := c.requests + 1), c.requests + 1) else Added(c, 0)
  }

  function AddErrors(attached: bool, c: Counters): (r: Added)
    ensures !attached ==> r == Added(c, 0)
    ensures attached ==> r.counters == c.(errors := c.errors + 1) && r.value == c.errors + 1
  {
    if attached then Added(c.(errors := c.errors + 1), c.errors + 1) else Added(c, 0)
  }

  function AddPanics(attached: bool, c: Counters): (r: Added)
    ensures !attached ==> r == Added(c, 0)
    ensures attached ==> r.counters == c.(panics := c.panics + 1) && r.value == c.panics + 1
  {
    if attached then Added(c.(panics := c.panics + 1), c.panics + 1) else Added(c, 0)
  }

  /** `AddGoroutines` sets the gauge to the current goroutine count rather than
      adding to it. */
  function AddGoroutines(attached: bool, c: Counters, numGoroutine: nat): (r: Added)
    ensures !attached ==> r == Added(c, 0)
    ensures attached ==> r.counters == c.(goroutines := numGoroutine) && r.value == numGoroutine
  {
    if attached then Added(c.(goroutines := numGoroutine), numGoroutine) else Added(c, 0)
  }

  /** The three `Add` counters never go down, whatever the call. */
  lemma AddsNeverDecrease(attached: bool, c: Counters, numGoroutine: nat)
    ensures var r := AddRequests(attached, c).counters; r.requests >= c.requests && r.errors == c.errors && r.panics == c.panics
    ensures var r := AddErrors(attached, c).counters; r.errors >= c.errors && r.requests == c.requests && r.panics == c.panics
    ensures var r := AddPanics(attached, c).counters; r.panics >= c.panics && r.requests == c.requests && r.errors == c.errors
    ensures var r := AddGoroutines(attached, c, numGoroutine).counters;
            r.requests == c.requests && r.errors == c.errors && r.panics == c.panics
  {
  }

  /** The shared instance itself. */
  class Registry {
    var goroutines: nat
    var requests: nat
    var errors: nat
    var panics: nat

    function Snapshot(): Counters
      reads this
    {
      Counters(goroutines, requests, errors, panics)
    }

    constructor ()
      ensures Snapshot() == Initial
    {
      goroutines, requests, errors, panics := 0, 0, 0, 0;
    }
  }

  /** `AddRequests` on the instance the context carries (`null` when none). */
  method IncRequests(m: Registry?) returns (n: nat)
    modifies m
    ensures m == null ==> n == 0
    ensures m != null ==> Added(m.Snapshot(), n) == AddRequests(true, old(m.Snapshot()))
  {
    if m == null {
      return 0;
    }
    m.requests := m.requests + 1;
    n := m.requests;
  }

  method IncErrors(m: Registry?) returns (n: nat)
    modifies m
    ensures m == null ==> n == 0
    ensures m != null ==> Added(m.Snapshot(), n) == AddErrors(true, old(m.Snapshot()))
  {
    if m == null {
      return 0;
    }
    m.errors := m.errors + 1;
    n := m.errors;
  }

  method IncPanics(m: Registry?) returns (n: nat)
    modifies m
    ensures m == null ==> n == 0
    ensures m != null ==> Added(m.Snapshot(), n) == AddPanics(true, old(m.Snapshot()))
  {
    if m == null {
      return 0;
    }
    m.panics := m.panics + 1;
    n := m.panics;
  }

  method SetGoroutines(m: Registry?, numGoroutine: nat) returns (n: nat)
    modifies m
    ensures m == null ==> n == 0
    ensures m != null ==> Added(m.Snapshot(), n) == AddGoroutines(true, old(m.Snapshot()), numGoroutine)
  {
    if m == null {
      return 0;
    }
    m.goroutines := numGoroutine;
    n := m.goroutines;
  }

  // ---------------------------------------------------------------------------
  // The Prometheus counters

  /** A counter vector's label values, as (method, path, status or error code). */
  type Labels = (string, string, string)

  /** The counters the middleware increments: requests by (method, path,
      status), errors by (method, path, error code) and panics. */
  datatype PromCounters = PromCounters(requestsTotal: map<Labels, nat>, errorsTotal: map<Labels, nat>, panicsTotal: nat)

  const PromInitial: PromCounters := PromCounters(map[], map[], 0)

  /** A counter's value; a label set never incremented reads 0. */
  function Value(v: map<Labels, nat>, l: Labels): nat {
    if l in v then v[l] else 0
  }

  /** `WithLabelValues(l).Inc()`: one more for `l`, the others unchanged. */
  function Inc(v: map<Labels, nat>, l: Labels): (r: map<Labels, nat>)
    ensures Value(r, l) == Value(v, l) + 1
    ensures forall k :: k != l ==> Value(r, k) == Value(v, k)
  {
    v[l := Value(v, l) + 1]
  }
}
