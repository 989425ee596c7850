/** The Grafana-backed store: loads the rule-state document and walks
    `data -> groups[] -> rules[]`, skipping whatever is missing or ill-typed. */
module GrafanaStore {
  import opened Wrappers
  import opened JsonValue
  import opened Errs
  import opened HealthBus
  import Strings

  /** The store's configuration. */
  datatype Store = Store(grafanaURL: string, grafanaUser: string, grafanaPassword: string)

  const RulesPath: string := "/api/prometheus/grafana/api/v1/rules"

  /** The URL every query fetches. */
  function StateURL(s: Store): string {
    s.grafanaURL + RulesPath
  }

  /** Basic authentication is attached only when both user and password are set. */
  predicate UsesBasicAuth(s: Store) {
    s.grafanaUser != "" && s.grafanaPassword != ""
  }

  /** The decoded response body: either the decoder failed, or it produced a JSON value. */
  datatype Body = Undecodable(cause: string) | Decoded(value: Json)

  /** What building and sending the GET request gave. */
  datatype Fetch =
    | RequestInvalid(cause: string)
    | SendFailed(cause: string)
    | Reply(statusCode: int, body: Body)

  /** The rule-state document as `map[string]any`, or the error that stopped the query. */
  datatype Loaded = Loaded(state: Object) | LoadFailed(err: GoError)

  /** The decoder's words when the top-level value is not an object. */
  function UnmarshalText(v: Json): string {
    "json: cannot unmarshal " +
    (match v
     case Bool(_) => "bool"
     case Num(_) => "number"
     case Str(_) => "string"
     case Arr(_) => "array"
     case _ => "object")
    + " into Go value of type map[string]interface {}"
  }

  /** The part every query shares: configuration check, request, status check, decoding.
      Decoding `null` into a map leaves it nil, which reads as an empty object. */
  function Load(s: Store, fetch: Fetch): (r: Loaded)
    ensures s.grafanaURL == "" ==> r == LoadFailed(Plain("grafana not configured"))
    ensures s.grafanaURL != "" && fetch.Reply? && fetch.statusCode != 200 ==>
              r == LoadFailed(Plain("grafana returned status " + Strings.IntToDecimal(fetch.statusCode)))
    ensures r.Loaded? <==> (s.grafanaURL != "" && fetch.Reply? && fetch.statusCode == 200 &&
                            fetch.body.Decoded? && (fetch.body.value.Obj? || fetch.body.value.Null?))
  {
    if s.grafanaURL == "" then LoadFailed(Plain("grafana not configured"))
    else
      match fetch
      case RequestInvalid(c) => LoadFailed(Wrapped("creating state request: " + c, Plain(c)))
      case SendFailed(c) => LoadFailed(Wrapped("querying alert state: " + c, Plain(c)))
      case Reply(code, body) =>
        if code != 200 then LoadFailed(Plain("grafana returned status " + Strings.IntToDecimal(code)))
        else
          match body
          case Undecodable(c) => LoadFailed(Wrapped("decoding state response: " + c, Plain(c)))
          case Decoded(Obj(m)) => Loaded(m)
          case Decoded(Null) => Loaded(map[])
          case Decoded(v) =>
            LoadFailed(Wrapped("decoding state response: " + UnmarshalText(v), Plain(UnmarshalText(v))))
  }

  // ---------------------------------------------------------------------------
  // Tolerant field access

  /** `getString`: the string at `key`, or "" when it is absent or not a string. */
  function GetString(m: Object, key: string): (s: string)
    ensures key !in m || !m[key].Str? ==> s == ""
    ensures key in m && m[key].Str? ==> s == m[key].s
  {
    if key in m && m[key].Str? then m[key].s else ""
  }

  /** The string-valued entries of an object. */
  function StringEntries(v: Object): map<string, string> {
    map k | k in v && v[k].Str? :: v[k].s
  }

  lemma StringEntriesSpec(v: Object)
    ensures forall k :: k in StringEntries(v) <==> k in v && v[k].Str?
    ensures forall k :: k in StringEntries(v) ==> StringEntries(v)[k] == v[k].s
  {
  }

  /** What `getStringMap` returns: the string-valued entries of the object at
      `key`, or an empty map when there is no object there. */
  function StringMap(m: Object, key: string): map<string, string> {
    if key in m && m[key].Obj? then StringEntries(m[key].fields) else map[]
  }

  lemma StringMapSpec(m: Object, key: string)
    ensures forall k :: k in StringMap(m, key) <==> key in m && m[key].Obj? && k in m[key].fields && m[key].fields[k].Str?
    ensures forall k :: k in StringMap(m, key) ==> StringMap(m, key)[k] == m[key].fields[k].s
  {
    if key in m && m[key].Obj? {
      StringEntriesSpec(m[key].fields);
    }
  }

  /** `getStringMap`: fills a fresh map entry by entry. */
  method GetStringMap(m: Object, key: string) returns (result: map<string, string>)
    ensures result == StringMap(m, key)
  {
    result := map[];
    if key in m && m[key].Obj? {
      var v := m[key].fields;
      var pending := v.Keys;
      while pending != {}
        invariant pending <= v.Keys
        invariant result == map k | k in v && k !in pending && v[k].Str? :: v[k].s
        decreases pending
      {
        var k :| k in pending;
        if v[k].Str? {
          result := result[k := v[k].s];
        }
        pending := pending - {k};
      }
    }
  }

  // ---------------------------------------------------------------------------
  // The traversal

  /** `data.groups`, or nothing when either is missing or ill-typed. */
  function GroupItems(state: Object): seq<Json> {
    if "data" in state && state["data"].Obj? && "groups" in state["data"].fields
       && state["data"].fields["groups"].Arr?
    then state["data"].fields["groups"].items
    else []
  }

  /** The objects among `items`, in order. */
  function ObjectsOf(items: seq<Json>): seq<Object> {
    if items == [] then []
    else (if items[0].Obj? then [items[0].fields] else []) + ObjectsOf(items[1..])
  }

  /** A group's rule objects, or none when the group is not an object or has no `rules` array. */
  function GroupRules(g: Json): seq<Object> {
    if g.Obj? && "rules" in g.fields && g.fields["rules"].Arr? then ObjectsOf(g.fields["rules"].items) else []
  }

  /** Every rule object, group by group. */
  function AllRules(groups: seq<Json>): seq<Object> {
    if groups == [] then [] else GroupRules(groups[0]) + AllRules(groups[1..])
  }

  /** Go's `labels[key]`: "" for a missing key. */
  function Label(labels: map<string, string>, key: string): string {
    if key in labels then labels[key] else ""
  }

  /** `labels["target"]` of a rule. */
  function RuleTarget(rule: Object): string {
    Label(StringMap(rule, "labels"), "target")
  }

  /** The fixed state-to-status mapping. */
  function StatusOf(state: string): (s: Status)
    ensures state == "firing" ==> s == StatusDown
    ensures state == "pending" ==> s == StatusUnknown
    ensures state != "firing" && state != "pending" ==> s == StatusHealthy
  {
    if state == "firing" then StatusDown else if state == "pending" then StatusUnknown else StatusHealthy
  }

  /** The first nested alert instance, when `alerts` is a non-empty array whose first element is an object. */
  function FirstAlert(rule: Object): Option<Object> {
    if "alerts" in rule && rule["alerts"].Arr? && |rule["alerts"].items| > 0 && rule["alerts"].items[0].Obj?
    then Some(rule["alerts"].items[0].fields)
    else None
  }

  /** The first alert's `activeAt` when it parses to a non-zero time, else `now`. */
  function LastChecked(rule: Object, now: Time, parse: string -> Option<Time>): (t: Time)
    ensures t == now || (FirstAlert(rule).Some? && parse(GetString(FirstAlert(rule).value, "activeAt")) == Some(t))
    ensures now != ZeroTime ==> t != ZeroTime
    ensures FirstAlert(rule).Some? && parse(GetString(FirstAlert(rule).value, "activeAt")).Some?
            && parse(GetString(FirstAlert(rule).value, "activeAt")).value != ZeroTime
            ==> t == parse(GetString(FirstAlert(rule).value, "activeAt")).value
    ensures FirstAlert(rule).None? || parse(GetString(FirstAlert(rule).value, "activeAt")).None?
            || parse(GetString(FirstAlert(rule).value, "activeAt")).value == ZeroTime
            ==> t == now
  {
    var parsed := if FirstAlert(rule).Some? then parse(GetString(FirstAlert(rule).value, "activeAt")) else None;
    if parsed.Some? && parsed.value != ZeroTime then parsed.value else now
  }

  /** The health check a rule projects to, reported under `target`. */
  function Project(rule: Object, target: string, now: Time, parse: string -> Option<Time>): HealthCheck {
    HealthCheck(target, StatusOf(GetString(rule, "state")), LastChecked(rule, now, parse),
                Label(StringMap(rule, "labels"), "probe"), "")
  }

  /** The checks of the rules that have a target, in order. */
  function ChecksOf(rules: seq<Object>, now: Time, parse: string -> Option<Time>): seq<HealthCheck> {
    if rules == [] then []
    else
      (if RuleTarget(rules[0]) != "" then [Project(rules[0], RuleTarget(rules[0]), now, parse)] else [])
      + ChecksOf(rules[1..], now, parse)
  }

  /** A Go slice built by appending: nil until the first element. */
  function AsSlice<T>(xs: seq<T>): (s: Slice<T>)
    ensures s.Elems() == xs
  {
    if xs == [] then Nil else Made(xs)
  }

  /** What `QueryHealthChecks` returns. */
  function HealthChecks(s: Store, fetch: Fetch, now: Time, parse: string -> Option<Time>)
    : (Slice<HealthCheck>, Option<GoError>)
  {
    match Load(s, fetch)
    case LoadFailed(e) => (Nil, Some(e))
    case Loaded(state) => (AsSlice(ChecksOf(AllRules(GroupItems(state)), now, parse)), None)
  }

  // ---------------------------------------------------------------------------
  // Concatenation lemmas the loops rely on

  lemma {:induction false} ObjectsOfAppend(a: seq<Json>, b: seq<Json>)
    ensures ObjectsOf(a + b) == ObjectsOf(a) + ObjectsOf(b)
  {
    if a != [] {
      assert (a + b)[1..] == a[1..] + b;
      ObjectsOfAppend(a[1..], b);
    } else {
      assert a + b == b;
    }
  }

  lemma AllRulesCons(g: Json, rest: seq<Json>)
    ensures AllRules([g] + rest) == GroupRules(g) + AllRules(rest)
  {
    ConsParts(g, rest);
  }

  lemma {:induction false} AllRulesAppend(a: seq<Json>, b: seq<Json>)
    ensures AllRules(a + b) == AllRules(a) + AllRules(b)
  {
    if a != [] {
      SplitHead(a, b);
      AllRulesCons(a[0], a[1..] + b);
      AllRulesCons(a[0], a[1..]);
      AllRulesAppend(a[1..], b);
      ConcatAssoc(GroupRules(a[0]), AllRules(a[1..]), AllRules(b));
    } else {
      assert a + b == b;
    }
  }

  lemma ChecksOfCons(r: Object, rest: seq<Object>, now: Time, parse: string -> Option<Time>)
    ensures ChecksOf([r] + rest, now, parse) == ChecksOf([r], now, parse) + ChecksOf(rest, now, parse)
  {
    ConsParts(r, rest);
    ConsParts(r, []);
    ConcatNil(if RuleTarget(r) != "" then [Project(r, RuleTarget(r), now, parse)] else []);
  }

  lemma {:induction false} ChecksOfAppend(a: seq<Object>, b: seq<Object>, now: Time, parse: string -> Option<Time>)
    ensures ChecksOf(a + b, now, parse) == ChecksOf(a, now, parse) + ChecksOf(b, now, parse)
  {
    if a != [] {
      SplitHead(a, b);
      ChecksOfCons(a[0], a[1..] + b, now, parse);
      ChecksOfCons(a[0], a[1..], now, parse);
      ChecksOfAppend(a[1..], b, now, parse);
      ConcatAssoc(ChecksOf([a[0]], now, parse), ChecksOf(a[1..], now, parse), ChecksOf(b, now, parse));
    } else {
      assert a + b == b;
    }
  }

  /** Extending a prefix of `items` by one element. */
  lemma ObjectsOfStep(items: seq<Json>, j: nat)
    requires j < |items|
    ensures ObjectsOf(items[..j + 1]) == ObjectsOf(items[..j]) + (if items[j].Obj? then [items[j].fields] else [])
  {
    assert items[..j + 1] == items[..j] + [items[j]];
    ObjectsOfAppend(items[..j], [items[j]]);
  }

  lemma AllRulesStep(groups: seq<Json>, i: nat)
    requires i < |groups|
    ensures AllRules(groups[..i + 1]) == AllRules(groups[..i]) + GroupRules(groups[i])
  {
    assert groups[..i + 1] == groups[..i] + [groups[i]];
    AllRulesAppend(groups[..i], [groups[i]]);
  }

  // ---------------------------------------------------------------------------
  // QueryHealthChecks

  /** The projection of one rule under `target`: the state mapping and the
      `lastChecked` fallback, written as the store writes them. */
  method ProjectAs(r: Object, target: string, now: Time, parse: string -> Option<Time>) returns (check: HealthCheck)
    ensures check == Project(r, target, now, parse)
  {
    var state := GetString(r, "state");
    var labels := GetStringMap(r, "labels");
    var lastChecked := ZeroTime;
    if "alerts" in r && r["alerts"].Arr? && |r["alerts"].items| > 0 {
      var a := r["alerts"].items[0];
      if a.Obj? {
        var activeAt := GetString(a.fields, "activeAt");
        var t := parse(activeAt);
        if t.Some? {
          lastChecked := t.value;
        }
      }
    }
    if lastChecked == ZeroTime {
      lastChecked := now;
    }
    var status := StatusHealthy;
    if state == "firing" {
      status := StatusDown;
    } else if state == "pending" {
      status := StatusUnknown;
    }
    check := HealthCheck(target, status, lastChecked, Label(labels, "probe"), "");
  }

  /** The body of the inner loop for one rule object: skip it when it has no
      target, otherwise compute its check. */
  method ProjectRule(r: Object, now: Time, parse: string -> Option<Time>) returns (keep: bool, check: HealthCheck)
    ensures keep == (RuleTarget(r) != "")
    ensures keep ==> check == Project(r, RuleTarget(r), now, parse)
  {
    var labels := GetStringMap(r, "labels");
    var target := Label(labels, "target");
    keep := target != "";
    check := ZeroCheck;
    if keep {
      check := ProjectAs(r, target, now, parse);
    }
  }

  /** The check a JSON rule item contributes: none for a non-object or an untargeted rule. */
  function ItemChecks(item: Json, now: Time, parse: string -> Option<Time>): seq<HealthCheck> {
    if item.Obj? && RuleTarget(item.fields) != "" then [Project(item.fields, RuleTarget(item.fields), now, parse)] else []
  }

  lemma ChecksStep(rules: seq<Json>, j: nat, now: Time, parse: string -> Option<Time>)
    requires j < |rules|
    ensures ChecksOf(ObjectsOf(rules[..j + 1]), now, parse)
         == ChecksOf(ObjectsOf(rules[..j]), now, parse) + ItemChecks(rules[j], now, parse)
  {
    ObjectsOfStep(rules, j);
    var a := ObjectsOf(rules[..j]);
    if rules[j].Obj? {
      var r := rules[j].fields;
      ChecksOfAppend(a, [r], now, parse);
      ChecksOfSingle(r, now, parse);
    } else {
      ConcatNil(a);
    }
  }

  lemma ChecksOfSingle(r: Object, now: Time, parse: string -> Option<Time>)
    ensures ChecksOf([r], now, parse) == if RuleTarget(r) != "" then [Project(r, RuleTarget(r), now, parse)] else []
  {
    assert [r][1..] == [];
  }

  lemma AsSliceAppend<T>(xs: seq<T>, ys: seq<T>)
    ensures AsSlice(xs + ys) == if ys == [] then AsSlice(xs) else Made(xs + ys)
  {
  }

  /** The inner loop: append the checks of one group's `rules` array. */
  method AppendGroupChecks(checks: Slice<HealthCheck>, rules: seq<Json>, now: Time, parse: string -> Option<Time>)
    returns (out: Slice<HealthCheck>)
    requires checks == AsSlice(checks.Elems())
    ensures out == AsSlice(checks.Elems() + ChecksOf(ObjectsOf(rules), now, parse))
  {
    out := checks;
    ghost var added: seq<HealthCheck> := [];
    var j := 0;
    while j < |rules|
      invariant 0 <= j <= |rules|
      invariant added == ChecksOf(ObjectsOf(rules[..j]), now, parse)
      invariant out == AsSlice(checks.Elems() + added)
    {
      ChecksStep(rules, j, now, parse);
      ghost var extra := ItemChecks(rules[j], now, parse);
      out := AppendItemCheck(out, checks.Elems() + added, rules[j], now, parse);
      ConcatAssoc(checks.Elems(), added, extra);
      added := added + extra;
      j := j + 1;
    }
    assert rules[..j] == rules;
  }

  /** One item of the inner loop: a rule with a target adds its check. */
  method AppendItemCheck(out: Slice<HealthCheck>, ghost prefix: seq<HealthCheck>, item: Json, now: Time,
                         parse: string -> Option<Time>)
    returns (next: Slice<HealthCheck>)
    requires out == AsSlice(prefix)
    ensures next == AsSlice(prefix + ItemChecks(item, now, parse))
  {
    next := out;
    if item.Obj? {
      var keep, check := ProjectRule(item.fields, now, parse);
      if keep {
        next := out.Append(check);
      }
    }
    AsSliceAppend(prefix, ItemChecks(item, now, parse));
  }

  /** `Store.QueryHealthChecks`. */
  method QueryHealthChecks(s: Store, fetch: Fetch, now: Time, parse: string -> Option<Time>)
    returns (checks: Slice<HealthCheck>, err: Option<GoError>)
    ensures (checks, err) == HealthChecks(s, fetch, now, parse)
  {
    var loaded := Load(s, fetch);
    if loaded.LoadFailed? {
      return Nil, Some(loaded.err);
    }
    var stateData := loaded.state;
    checks := Nil;
    err := None;
    if !("data" in stateData && stateData["data"].Obj?) {
      return;
    }
    var data := stateData["data"].fields;
    if !("groups" in data && data["groups"].Arr?) {
      return;
    }
    var groups := data["groups"].items;
    var i := 0;
    while i < |groups|
      invariant 0 <= i <= |groups|
      invariant checks == AsSlice(ChecksOf(AllRules(groups[..i]), now, parse))
    {
      AllRulesStep(groups, i);
      ChecksOfAppend(AllRules(groups[..i]), GroupRules(groups[i]), now, parse);
      var group := groups[i];
      if group.Obj? && "rules" in group.fields && group.fields["rules"].Arr? {
        checks := AppendGroupChecks(checks, group.fields["rules"].items, now, parse);
      }
      i := i + 1;
    }
    assert groups[..i] == groups;
  }

  // ---------------------------------------------------------------------------
  // QueryHealthCheckByTarget

  /** The first rule, in traversal order, whose `labels["target"]` is `target`. */
  function FindRule(rules: seq<Object>, target: string): Option<Object> {
    if rules == [] then None
    else if RuleTarget(rules[0]) == target then Some(rules[0])
    else FindRule(rules[1..], target)
  }

  /** What the walk finds is a rule of the list carrying the target, and it
      finds nothing exactly when no rule carries it. */
  lemma {:induction false} FindRuleSpec(rules: seq<Object>, target: string)
    ensures var r := FindRule(rules, target);
            (r.Some? ==> r.value in rules && RuleTarget(r.value) == target)
            && (r.None? <==> forall x :: x in rules ==> RuleTarget(x) != target)
  {
    if rules != [] {
      FindRuleSpec(rules[1..], target);
      assert forall x :: x in rules <==> x == rules[0] || x in rules[1..];
    }
  }

  lemma {:induction false} FindRuleAppend(a: seq<Object>, b: seq<Object>, target: string)
    ensures FindRule(a + b, target) == if FindRule(a, target).Some? then FindRule(a, target) else FindRule(b, target)
  {
    if a == [] {
      assert a + b == b;
    } else {
      SplitHead(a, b);
      FindRuleCons(a[0], a[1..] + b, target);
      FindRuleCons(a[0], a[1..], target);
      FindRuleAppend(a[1..], b, target);
    }
  }

  lemma FindRuleCons(r: Object, rest: seq<Object>, target: string)
    ensures FindRule([r] + rest, target) == if RuleTarget(r) == target then Some(r) else FindRule(rest, target)
  {
    ConsParts(r, rest);
  }

  function NotFound(target: string): GoError {
    Plain("target not found: " + target)
  }

  /** What `QueryHealthCheckByTarget` returns: the first matching rule projected
      under the requested target, or "target not found". */
  function HealthCheckByTarget(s: Store, fetch: Fetch, target: string, now: Time, parse: string -> Option<Time>)
    : (HealthCheck, Option<GoError>)
  {
    match Load(s, fetch)
    case LoadFailed(e) => (ZeroCheck, Some(e))
    case Loaded(state) =>
      match FindRule(AllRules(GroupItems(state)), target)
      case Some(r) => (Project(r, target, now, parse), None)
      case None => (ZeroCheck, Some(NotFound(target)))
  }

  /** The inner loop of the by-target walk: the first matching rule object of one group. */
  method FindInGroup(rules: seq<Json>, target: string) returns (found: Option<Object>)
    ensures found == FindRule(ObjectsOf(rules), target)
  {
    var j := 0;
    while j < |rules|
      invariant 0 <= j <= |rules|
      invariant FindRule(ObjectsOf(rules[..j]), target) == None
    {
      ObjectsOfStep(rules, j);
      if rules[j].Obj? {
        var r := rules[j].fields;
        FindRuleAppend(ObjectsOf(rules[..j]), [r], target);
        var labels := GetStringMap(r, "labels");
        if Label(labels, "target") == target {
          assert rules == rules[..j + 1] + rules[j + 1..];
          ObjectsOfAppend(rules[..j + 1], rules[j + 1..]);
          FindRuleAppend(ObjectsOf(rules[..j + 1]), ObjectsOf(rules[j + 1..]), target);
          return Some(r);
        }
        assert [r][1..] == [];
      } else {
        assert ObjectsOf(rules[..j + 1]) == ObjectsOf(rules[..j]);
      }
      j := j + 1;
    }
    assert rules[..j] == rules;
    return None;
  }

  /** `Store.QueryHealthCheckByTarget`. */
  method QueryHealthCheckByTarget(s: Store, fetch: Fetch, target: string, now: Time, parse: string -> Option<Time>)
    returns (check: HealthCheck, err: Option<GoError>)
    ensures (check, err) == HealthCheckByTarget(s, fetch, target, now, parse)
  {
    var loaded := Load(s, fetch);
    if loaded.LoadFailed? {
      return ZeroCheck, Some(loaded.err);
    }
    var stateData := loaded.state;
    if !("data" in stateData && stateData["data"].Obj?) {
      return ZeroCheck, Some(NotFound(target));
    }
    var data := stateData["data"].fields;
    if !("groups" in data && data["groups"].Arr?) {
      return ZeroCheck, Some(NotFound(target));
    }
    var found := FindInGroups(data["groups"].items, target);
    if found.Some? {
      check := ProjectAs(found.value, target, now, parse);
      return check, None;
    }
    return ZeroCheck, Some(NotFound(target));
  }

  /** The outer loop of the by-target walk: stops at the first group holding a match. */
  method FindInGroups(groups: seq<Json>, target: string) returns (found: Option<Object>)
    ensures found == FindRule(AllRules(groups), target)
  {
    var i := 0;
    while i < |groups|
      invariant 0 <= i <= |groups|
      invariant FindRule(AllRules(groups[..i]), target) == None
    {
      var group := groups[i];
      if group.Obj? && "rules" in group.fields && group.fields["rules"].Arr? {
        found := FindInGroup(group.fields["rules"].items, target);
        assert found == FindRule(GroupRules(group), target);
        FindGroupStep(groups, i, target);
        if found.Some? {
          return;
        }
      } else {
        FindGroupStep(groups, i, target);
      }
      i := i + 1;
    }
    assert groups[..i] == groups;
    return None;
  }

  /** One group of the by-target walk: a match in group `i` is the first match
      overall when no earlier group had one. */
  lemma FindGroupStep(groups: seq<Json>, i: nat, target: string)
    requires i < |groups|
    requires FindRule(AllRules(groups[..i]), target) == None
    ensures FindRule(AllRules(groups[..i + 1]), target) == FindRule(GroupRules(groups[i]), target)
    ensures FindRule(GroupRules(groups[i]), target).Some? ==>
      FindRule(AllRules(groups), target) == FindRule(GroupRules(groups[i]), target)
  {
    AllRulesStep(groups, i);
    FindRuleAppend(AllRules(groups[..i]), GroupRules(groups[i]), target);
    assert groups == groups[..i + 1] + groups[i + 1..];
    AllRulesAppend(groups[..i + 1], groups[i + 1..]);
    FindRuleAppend(AllRules(groups[..i + 1]), AllRules(groups[i + 1..]), target);
  }

  // ---------------------------------------------------------------------------
  // QueryAlerts

  /** The alert a rule object becomes: every rule is kept. */
  function AlertOf(rule: Object): Alert {
    var first := FirstAlert(rule);
    Alert("", GetString(rule, "name"), GetString(rule, "state"), StringMap(rule, "labels"),
          StringMap(rule, "annotations"),
          if first.Some? then GetString(first.value, "activeAt") else "",
          if first.Some? then GetString(first.value, "value") else "")
  }

  function AlertsOf(rules: seq<Object>): seq<Alert> {
    if rules == [] then [] else [AlertOf(rules[0])] + AlertsOf(rules[1..])
  }

  /** One alert per rule object, in order, each built from its rule. */
  lemma {:induction false} AlertsOfSpec(rules: seq<Object>)
    ensures |AlertsOf(rules)| == |rules|
    ensures forall k :: 0 <= k < |rules| ==> AlertsOf(rules)[k] == AlertOf(rules[k])
  {
    if rules != [] {
      AlertsOfSpec(rules[1..]);
    }
  }

  /** The number of alerts in `state`. */
  function CountState(alerts: seq<Alert>, state: string): nat {
    if alerts == [] then 0 else (if alerts[0].state == state then 1 else 0) + CountState(alerts[1..], state)
  }

  /** The summary of a list of alerts: the list (never nil), its length and the three state counters. */
  function Tally(alerts: seq<Alert>): AlertSummary {
    AlertSummary(|alerts|, CountState(alerts, "firing"), CountState(alerts, "pending"),
                 CountState(alerts, "normal"), Made(alerts))
  }

  /** What `QueryAlerts` returns. */
  function AlertsResult(s: Store, fetch: Fetch): (AlertSummary, Option<GoError>) {
    match Load(s, fetch)
    case LoadFailed(e) => (ZeroAlertSummary, Some(e))
    case Loaded(state) => (Tally(AlertsOf(AllRules(GroupItems(state)))), None)
  }

  lemma {:induction false} CountStateAppend(a: seq<Alert>, b: seq<Alert>, state: string)
    ensures CountState(a + b, state) == CountState(a, state) + CountState(b, state)
  {
    if a == [] {
      assert a + b == b;
    } else {
      assert (a + b)[1..] == a[1..] + b;
      CountStateAppend(a[1..], b, state);
    }
  }

  /** One more alert: the total and the matching counter go up by one. */
  lemma TallyStep(seen: seq<Alert>, a: Alert)
    ensures Tally(seen + [a]) == Tally(seen).(
      total := Tally(seen).total + 1,
      firing := Tally(seen).firing + (if a.state == "firing" then 1 else 0),
      pending := Tally(seen).pending + (if a.state == "pending" then 1 else 0),
      normal := Tally(seen).normal + (if a.state == "normal" then 1 else 0),
      alerts := Made(seen + [a]))
  {
    CountStateAppend(seen, [a], "firing");
    CountStateAppend(seen, [a], "pending");
    CountStateAppend(seen, [a], "normal");
    assert [a][1..] == [];
  }

  lemma {:induction false} AlertsOfAppend(a: seq<Object>, b: seq<Object>)
    ensures AlertsOf(a + b) == AlertsOf(a) + AlertsOf(b)
  {
    if a == [] {
      assert a + b == b;
    } else {
      SplitHead(a, b);
      AlertsOfCons(a[0], a[1..] + b);
      AlertsOfCons(a[0], a[1..]);
      AlertsOfAppend(a[1..], b);
      ConcatAssoc([AlertOf(a[0])], AlertsOf(a[1..]), AlertsOf(b));
    }
  }

  lemma AlertsOfCons(r: Object, rest: seq<Object>)
    ensures AlertsOf([r] + rest) == [AlertOf(r)] + AlertsOf(rest)
  {
    ConsParts(r, rest);
  }

  /** Building one alert, as the loop body does. */
  method MakeAlert(r: Object) returns (alert: Alert)
    ensures alert == AlertOf(r)
  {
    var labels := GetStringMap(r, "labels");
    var annotations := GetStringMap(r, "annotations");
    alert := Alert("", GetString(r, "name"), GetString(r, "state"), labels, annotations, "", "");
    if "alerts" in r && r["alerts"].Arr? && |r["alerts"].items| > 0 {
      var a := r["alerts"].items[0];
      if a.Obj? {
        alert := alert.(activeAt := GetString(a.fields, "activeAt"), value := GetString(a.fields, "value"));
      }
    }
  }

  /** One iteration's update: append the alert, count it, and bump the
      counter its state names. */
  method AddAlert(summary: AlertSummary, ghost seen: seq<Alert>, alert: Alert) returns (out: AlertSummary)
    requires summary == Tally(seen)
    ensures out == Tally(seen + [alert])
  {
    TallyStep(seen, alert);
    out := summary.(alerts := summary.alerts.Append(alert), total := summary.total + 1);
    if alert.state == "firing" {
      out := out.(firing := out.firing + 1);
    } else if alert.state == "pending" {
      out := out.(pending := out.pending + 1);
    } else if alert.state == "normal" {
      out := out.(normal := out.normal + 1);
    }
  }

  /** The inner loop of `QueryAlerts`: append one group's alerts and bump the counters. */
  method TallyGroup(summary: AlertSummary, ghost seen: seq<Alert>, rules: seq<Json>) returns (out: AlertSummary)
    requires summary == Tally(seen)
    ensures out == Tally(seen + AlertsOf(ObjectsOf(rules)))
  {
    out := summary;
    ghost var now := seen;
    var j := 0;
    while j < |rules|
      invariant 0 <= j <= |rules|
      invariant now == seen + AlertsOf(ObjectsOf(rules[..j]))
      invariant out == Tally(now)
    {
      AlertsStep(rules, j);
      ghost var before := AlertsOf(ObjectsOf(rules[..j]));
      if rules[j].Obj? {
        var alert := MakeAlert(rules[j].fields);
        out := AddAlert(out, now, alert);
        ConcatAssoc(seen, before, [alert]);
        now := now + [alert];
      } else {
        ConcatNil(before);
      }
      j := j + 1;
    }
    assert rules[..j] == rules;
  }

  /** The alerts an item of a `rules` array contributes: one for an object. */
  function ItemAlerts(item: Json): seq<Alert> {
    if item.Obj? then [AlertOf(item.fields)] else []
  }

  lemma AlertsStep(rules: seq<Json>, j: nat)
    requires j < |rules|
    ensures AlertsOf(ObjectsOf(rules[..j + 1])) == AlertsOf(ObjectsOf(rules[..j])) + ItemAlerts(rules[j])
  {
    ObjectsOfStep(rules, j);
    if rules[j].Obj? {
      AlertsOfAppend(ObjectsOf(rules[..j]), [rules[j].fields]);
    } else {
      ConcatNil(ObjectsOf(rules[..j]));
    }
  }

  /** `Store.QueryAlerts`. */
  method QueryAlerts(s: Store, fetch: Fetch) returns (summary: AlertSummary, err: Option<GoError>)
    ensures (summary, err) == AlertsResult(s, fetch)
  {
    var loaded := Load(s, fetch);
    if loaded.LoadFailed? {
      return ZeroAlertSummary, Some(loaded.err);
    }
    var stateData := loaded.state;
    summary := AlertSummary(0, 0, 0, 0, Made([]));
    err := None;
    assert summary == Tally([]);
    if !("data" in stateData && stateData["data"].Obj?) {
      return;
    }
    var data := stateData["data"].fields;
    if !("groups" in data && data["groups"].Arr?) {
      return;
    }
    var groups := data["groups"].items;
    var i := 0;
    while i < |groups|
      invariant 0 <= i <= |groups|
      invariant summary == Tally(AlertsOf(AllRules(groups[..i])))
    {
      ghost var before := AlertsOf(AllRules(groups[..i]));
      AllRulesStep(groups, i);
      AlertsOfAppend(AllRules(groups[..i]), GroupRules(groups[i]));
      assert AlertsOf(AllRules(groups[..i + 1])) == before + AlertsOf(GroupRules(groups[i]));
      var group := groups[i];
      if group.Obj? && "rules" in group.fields && group.fields["rules"].Arr? {
        summary := TallyGroup(summary, before, group.fields["rules"].items);
      } else {
        assert before + AlertsOf(GroupRules(group)) == before;
      }
      i := i + 1;
    }
    assert groups[..i] == groups;
  }

  // ---------------------------------------------------------------------------
  // Properties of the three queries

  /** Every kept check has a target, one of the three status constants, an
      empty instance and, when `now` is set, a set timestamp; untargeted rules
      are dropped, so there are never more checks than rules. */
  lemma {:induction false} ChecksOfProperties(rules: seq<Object>, now: Time, parse: string -> Option<Time>)
    ensures |ChecksOf(rules, now, parse)| <= |rules|
    ensures forall c :: c in ChecksOf(rules, now, parse) ==>
              c.target != "" && KnownStatus(c.status) && c.instance == "" && (now != ZeroTime ==> c.lastChecked != ZeroTime)
    ensures (forall k :: 0 <= k < |rules| ==> RuleTarget(rules[k]) != "") ==> |ChecksOf(rules, now, parse)| == |rules|
  {
    if rules != [] {
      ChecksOfProperties(rules[1..], now, parse);
      assert forall k :: 0 <= k < |rules[1..]| ==> rules[1..][k] == rules[k + 1];
    }
  }

  /** A missing `data` or `groups`, or an empty traversal, gives a nil slice and no error. */
  lemma EmptyTraversalIsNil(s: Store, fetch: Fetch, now: Time, parse: string -> Option<Time>)
    requires Load(s, fetch).Loaded?
    requires GroupItems(Load(s, fetch).state) == []
    ensures HealthChecks(s, fetch, now, parse) == (Nil, None)
  {
  }

  /** Without a configured URL no fetch result matters: every query fails with
      "grafana not configured". */
  lemma UnconfiguredStoreFails(s: Store, fetch: Fetch, target: string, now: Time, parse: string -> Option<Time>)
    requires s.grafanaURL == ""
    ensures HealthChecks(s, fetch, now, parse) == (Nil, Some(Plain("grafana not configured")))
    ensures HealthCheckByTarget(s, fetch, target, now, parse) == (ZeroCheck, Some(Plain("grafana not configured")))
    ensures AlertsResult(s, fetch) == (ZeroAlertSummary, Some(Plain("grafana not configured")))
  {
  }

  /** The first check with `target`, in list order. */
  function FindCheck(checks: seq<HealthCheck>, target: string): (r: Option<HealthCheck>)
    ensures r.Some? ==> r.value in checks && r.value.target == target
    ensures r.None? <==> forall c :: c in checks ==> c.target != target
  {
    if checks == [] then None
    else if checks[0].target == target then Some(checks[0])
    else FindCheck(checks[1..], target)
  }

  /** For a non-empty target, the by-target walk finds what the list query
      would list first for that target. (An empty target matches the first
      untargeted rule, which the list query drops.) */
  lemma {:induction false} ByTargetIsFirstListed(rules: seq<Object>, target: string, now: Time, parse: string -> Option<Time>)
    requires target != ""
    ensures FindCheck(ChecksOf(rules, now, parse), target) ==
            match FindRule(rules, target)
            case Some(r) => Some(Project(r, target, now, parse))
            case None => None
  {
    if rules != [] {
      var rest := ChecksOf(rules[1..], now, parse);
      ByTargetIsFirstListed(rules[1..], target, now, parse);
      if RuleTarget(rules[0]) != "" {
        var c := Project(rules[0], RuleTarget(rules[0]), now, parse);
        assert ChecksOf(rules, now, parse) == [c] + rest;
        assert ([c] + rest)[0] == c;
        assert ([c] + rest)[1..] == rest;
        assert c.target == RuleTarget(rules[0]);
      } else {
        assert ChecksOf(rules, now, parse) == rest;
      }
    }
  }

  /** The same at the level of the two queries. */
  lemma ByTargetAgreesWithList(s: Store, fetch: Fetch, target: string, now: Time, parse: string -> Option<Time>)
    requires target != ""
    requires HealthChecks(s, fetch, now, parse).1.None?
    ensures HealthCheckByTarget(s, fetch, target, now, parse) ==
            match FindCheck(HealthChecks(s, fetch, now, parse).0.Elems(), target)
            case Some(c) => (c, None)
            case None => (ZeroCheck, Some(NotFound(target)))
  {
    ByTargetIsFirstListed(AllRules(GroupItems(Load(s, fetch).state)), target, now, parse);
  }

  lemma {:induction false} CountStateBound(alerts: seq<Alert>)
    ensures CountState(alerts, "firing") + CountState(alerts, "pending") + CountState(alerts, "normal") <= |alerts|
  {
    if alerts != [] {
      CountStateBound(alerts[1..]);
    }
  }

  /** The alert summary lists every rule, never as a nil slice, and its three
      counters never exceed the total. */
  lemma AlertsProperties(s: Store, fetch: Fetch)
    requires Load(s, fetch).Loaded?
    ensures AlertsResult(s, fetch).1 == None
    ensures AlertsResult(s, fetch).0.alerts.Made?
    ensures AlertsResult(s, fetch).0.total == |AllRules(GroupItems(Load(s, fetch).state))|
    ensures AlertsResult(s, fetch).0.firing + AlertsResult(s, fetch).0.pending + AlertsResult(s, fetch).0.normal
            <= AlertsResult(s, fetch).0.total
  {
    AlertsOfSpec(AllRules(GroupItems(Load(s, fetch).state)));
    CountStateBound(AlertsOf(AllRules(GroupItems(Load(s, fetch).state))));
  }

  /** Over the same state, there are never more health checks than alerts. */
  lemma ChecksNoMoreThanAlerts(s: Store, fetch: Fetch, now: Time, parse: string -> Option<Time>)
    requires Load(s, fetch).Loaded?
    ensures |HealthChecks(s, fetch, now, parse).0.Elems()| <= AlertsResult(s, fetch).0.total
  {
    AlertsOfSpec(AllRules(GroupItems(Load(s, fetch).state)));
    ChecksOfProperties(AllRules(GroupItems(Load(s, fetch).state)), now, parse);
  }

  // ---------------------------------------------------------------------------
  // A worked example: one group, a healthy and a firing rule

  const ExampleUp: Object :=
    map["labels" := Obj(map["target" := Str("https://example.com"), "probe" := Str("blackbox")]),
        "state" := Str("normal")]
  const ExampleDown: Object :=
    map["labels" := Obj(map["target" := Str("https://down.example"), "probe" := Str("blackbox")]),
        "state" := Str("firing")]
  const ExampleState: Object :=
    map["data" := Obj(map["groups" := Arr([Obj(map["rules" := Arr([Obj(ExampleUp), Obj(ExampleDown)])])])])]

  lemma ExampleTargets()
    ensures RuleTarget(ExampleUp) == "https://example.com"
    ensures RuleTarget(ExampleDown) == "https://down.example"
  {
  }

  lemma ExampleRules()
    ensures AllRules(GroupItems(ExampleState)) == [ExampleUp, ExampleDown]
  {
    var groups := GroupItems(ExampleState);
    assert groups == [Obj(map["rules" := Arr([Obj(ExampleUp), Obj(ExampleDown)])])];
    var items := [Obj(ExampleUp), Obj(ExampleDown)];
    assert ObjectsOf(items) == [ExampleUp, ExampleDown] by {
      assert items[1..] == [Obj(ExampleDown)];
      assert items[1..][1..] == [];
      assert ObjectsOf(items[1..]) == [ExampleDown];
    }
    assert groups[1..] == [];
  }

  lemma ExampleChecks(now: Time, parse: string -> Option<Time>)
    ensures ChecksOf([ExampleUp, ExampleDown], now, parse) == ExampleList(now)
  {
    var rules := [ExampleUp, ExampleDown];
    ExampleTargets();
    assert rules[1..] == [ExampleDown];
    assert rules[1..][1..] == [];
    assert FirstAlert(ExampleUp) == None && FirstAlert(ExampleDown) == None;
    assert Label(StringMap(ExampleUp, "labels"), "probe") == "blackbox";
    assert Label(StringMap(ExampleDown, "labels"), "probe") == "blackbox";
    assert GetString(ExampleUp, "state") == "normal";
    assert GetString(ExampleDown, "state") == "firing";
    assert Project(ExampleUp, "https://example.com", now, parse)
        == HealthCheck("https://example.com", StatusHealthy, now, "blackbox", "");
    assert Project(ExampleDown, "https://down.example", now, parse)
        == HealthCheck("https://down.example", StatusDown, now, "blackbox", "");
    ChecksOfSingle(ExampleUp, now, parse);
    ChecksOfSingle(ExampleDown, now, parse);
    assert rules == [ExampleUp] + [ExampleDown];
    ChecksOfAppend([ExampleUp], [ExampleDown], now, parse);
  }

  function ExampleList(now: Time): seq<HealthCheck> {
    [HealthCheck("https://example.com", StatusHealthy, now, "blackbox", ""),
     HealthCheck("https://down.example", StatusDown, now, "blackbox", "")]
  }

  lemma ExampleCounts(now: Time)
    ensures Summarize(Made(ExampleList(now))) == HealthSummary(2, 1, 1, 0, Made(ExampleList(now)))
  {
    var cs := ExampleList(now);
    var head := cs[..|cs| - 1];
    assert head == [cs[0]];
    assert head[..|head| - 1] == [];
    assert Count(head, StatusHealthy) == 1 && Count(head, StatusDown) == 0 && Count(head, StatusUnknown) == 0;
  }

  const ExampleReply: Fetch := Reply(200, Decoded(Obj(ExampleState)))

  /** The backend state with a healthy and a firing rule summarises to two
      checks, one healthy and one down. */
  lemma ExampleSummary(s: Store, now: Time, parse: string -> Option<Time>)
    requires s.grafanaURL != ""
    ensures HealthChecks(s, ExampleReply, now, parse) == (Made(ExampleList(now)), None)
    ensures Summarize(HealthChecks(s, ExampleReply, now, parse).0) == HealthSummary(2, 1, 1, 0, Made(ExampleList(now)))
  {
    assert Load(s, ExampleReply) == Loaded(ExampleState);
    ExampleRules();
    ExampleChecks(now, parse);
    ExampleCounts(now);
  }

  /** A target no rule carries is not found in the same state. */
  lemma ExampleMissingTarget(s: Store, now: Time, parse: string -> Option<Time>)
    requires s.grafanaURL != ""
    ensures HealthCheckByTarget(s, ExampleReply, "https://missing.example", now, parse)
            == (ZeroCheck, Some(NotFound("https://missing.example")))
  {
    assert Load(s, ExampleReply) == Loaded(ExampleState);
    ExampleRules();
    ExampleTargets();
    var missing := "https://missing.example";
    assert forall x :: x in [ExampleUp, ExampleDown] ==> RuleTarget(x) != missing;
    FindRuleSpec([ExampleUp, ExampleDown], missing);
    assert FindRule([ExampleUp, ExampleDown], missing) == None;
  }
}
