/** The open events over every run of the alert handlers. */
module AlertRuns {
  import opened Common
  import opened Alerts

  datatype Action =
    | EnrollDevice(device: Uuid)
    | DeleteDevice(device: Uuid)
    | CreateRule(id: Uuid, name: string, metric: string, operator: string, threshold: real,
                 severity: Option<string>, enabled: Option<bool>)
    | UpdateRule(id: Uuid, patch: Patch)
    | DeleteRule(id: Uuid)
    | Resolve(event: nat)
    | Telemetry(device: Uuid, metrics: Metrics)
    | Check(device: Uuid)

  /** Generated rule ids are new. */
  predicate Allowed(db: Db, a: Action) { a.CreateRule? ==> !HasRule(db.rules, a.id) }

  function Step(db: Db, a: Action): Db {
    match a
    case EnrollDevice(d) => db.(devices := db.devices + {d})
    case DeleteDevice(d) => AfterDeleteDevice(db, d)
    case CreateRule(id, name, metric, operator, threshold, severity, enabled) =>
      AfterCreateRule(db, id, name, metric, operator, threshold, severity, enabled)
    case UpdateRule(id, p) => db.(rules := PatchAll(db.rules, id, p))
    case DeleteRule(id) => AfterDeleteRule(db, id)
    case Resolve(e) => db.(events := Resolved(db.events, e))
    case Telemetry(d, m) => AfterTelemetry(db, d, m)
    case Check(d) => AfterCheck(db, d)
  }

  function Run(db: Db, actions: seq<Action>): Option<Db>
    decreases |actions|
  {
    if actions == [] then Some(db)
    else if Allowed(db, actions[0]) then Run(Step(db, actions[0]), actions[1..])
    else None
  }

  // ---- the invariant ----

  predicate BothOpen(e: Event, f: Event) {
    e.rule == f.rule && e.device.Some? && e.device == f.device && !e.resolved && !f.resolved
  }

  ghost predicate EventsOk(events: seq<Event>, next: nat) {
    && (forall i, j :: 0 <= i < j < |events| ==> events[i].id != events[j].id && !BothOpen(events[i], events[j]))
    && (forall e :: e in events ==> e.id < next)
  }

  /** Event ids are distinct, and no rule has two open events for one device. */
  ghost predicate Inv(db: Db) { EventsOk(db.events, db.next) }

  lemma {:induction false} FilterOk(events: seq<Event>, keep: Event -> bool, next: nat)
    requires EventsOk(events, next)
    ensures EventsOk(Filter(events, keep), next)
  {
    FilterMembers(events, keep);
    hide BothOpen;
    if events != [] {
      var rest := Filter(events[1..], keep);
      FilterOk(events[1..], keep, next);
      FilterMembers(events[1..], keep);
      forall j | 0 <= j < |rest|
        ensures rest[j].id != events[0].id && !BothOpen(events[0], rest[j])
      {
        assert rest[j] in events[1..];
        var k :| 0 <= k < |events[1..]| && events[1..][k] == rest[j];
        assert rest[j] == events[k + 1];
      }
    }
  }

  lemma CheckRuleOk(db: Db, r: Rule, device: Uuid, m: Metrics)
    requires Inv(db)
    ensures Inv(CheckRule(db, r, device, m))
  {
    hide Triggered;
    var after := CheckRule(db, r, device, m);
    if after != db {
      forall e | e in db.events
        ensures !BothOpen(e, after.events[|db.events|])
      {
        assert !IsOpen(e, r.id, device);
      }
    }
  }

  lemma {:induction false} CheckedOk(db: Db, rules: seq<Rule>, n: nat, device: Uuid, m: Metrics)
    requires Inv(db) && n <= |rules|
    ensures Inv(Checked(db, rules, n, device, m))
  {
    hide Inv, CheckRule;
    if n > 0 {
      CheckedOk(db, rules, n - 1, device, m);
      CheckRuleOk(Checked(db, rules, n - 1, device, m), rules[n - 1], device, m);
    }
  }

  lemma AfterCheckOk(db: Db, device: Uuid)
    requires Inv(db)
    ensures Inv(AfterCheck(db, device))
  {
    hide Inv, FetchedRules;
    if device in db.metrics {
      var rules := FetchedRules(db.rules);
      CheckedOk(db, rules, |rules|, device, db.metrics[device]);
    }
  }

  lemma InvKept(db: Db, a: Action)
    requires Inv(db)
    ensures Inv(Step(db, a))
  {
    hide AfterCheck;
    match a
    case DeleteRule(id) => FilterOk(db.events, OfOtherRule(id), db.next);
    case Telemetry(d, m) => AfterCheckOk(if d in db.devices then db.(metrics := db.metrics[d := m]) else db, d);
    case Check(d) => AfterCheckOk(db, d);
    case _ =>
  }

  lemma {:induction false} InvOverRuns(db: Db, actions: seq<Action>)
    requires Inv(db) && Run(db, actions).Some?
    ensures Inv(Run(db, actions).value)
    decreases |actions|
  {
    hide Inv, Step;
    if actions != [] {
      InvKept(db, actions[0]);
      InvOverRuns(Step(db, actions[0]), actions[1..]);
    }
  }

  function IsOpenFor(rule: Uuid, device: Uuid): Event -> bool { (e: Event) => IsOpen(e, rule, device) }

  function OpenCount(events: seq<Event>, rule: Uuid, device: Uuid): nat { |Filter(events, IsOpenFor(rule, device))| }

  lemma {:induction false} CountOpen(events: seq<Event>, next: nat, rule: Uuid, device: Uuid)
    requires EventsOk(events, next)
    ensures OpenCount(events, rule, device) == if Open(events, rule, device) then 1 else 0
  {
    if events != [] {
      assert events == [events[0]] + events[1..];
      CountOpen(events[1..], next, rule, device);
      if IsOpen(events[0], rule, device) {
        forall e | e in events[1..]
          ensures !IsOpen(e, rule, device)
        {
          var k :| 0 <= k < |events[1..]| && events[1..][k] == e;
          assert !BothOpen(events[0], events[k + 1]);
        }
      }
    }
  }

  /** In every state a run reaches, a rule has at most one unresolved event for a device. */
  lemma AtMostOneOpen(devices: set<Uuid>, actions: seq<Action>, rule: Uuid, device: Uuid)
    requires Run(Db(devices, [], [], map[], 0), actions).Some?
    ensures OpenCount(Run(Db(devices, [], [], map[], 0), actions).value.events, rule, device) <= 1
  {
    InvOverRuns(Db(devices, [], [], map[], 0), actions);
    var db := Run(Db(devices, [], [], map[], 0), actions).value;
    CountOpen(db.events, db.next, rule, device);
  }

  // ---- what one check does ----

  /** Some enabled rule with this id has triggered on `m`. */
  ghost predicate Fires(rules: seq<Rule>, rule: Uuid, m: Metrics) {
    exists r :: r in rules && r.enabled && r.id == rule && Triggered(r, m)
  }

  /** No enabled rule has a null in a column the engine reads. */
  ghost predicate Complete(rules: seq<Rule>) { forall r :: r in rules && r.enabled ==> Decodes(r) }

  lemma Fetched(rules: seq<Rule>)
    ensures Complete(rules) ==> forall r :: r in FetchedRules(rules) <==> r in rules && r.enabled
    ensures !Complete(rules) ==> FetchedRules(rules) == []
  {
    FilterMembers(rules, IsEnabled());
    assert forall r :: r in Filter(rules, IsEnabled()) <==> r in rules && r.enabled;
  }

  lemma OneRuleOpens(db: Db, r: Rule, device: Uuid, m: Metrics, rule: Uuid, other: Uuid)
    ensures Open(CheckRule(db, r, device, m).events, rule, other) <==>
              Open(db.events, rule, other) || (other == device && r.id == rule && Triggered(r, m))
  {
    hide Triggered;
    var after := CheckRule(db, r, device, m);
    if after != db {
      var e := after.events[|db.events|];
      assert after.events == db.events + [e] && e in after.events;
      assert IsOpen(e, r.id, device);
    }
  }

  lemma {:induction false} CheckOpens(db: Db, rules: seq<Rule>, n: nat, device: Uuid, m: Metrics, rule: Uuid,
      other: Uuid)
    requires n <= |rules|
    ensures Open(Checked(db, rules, n, device, m).events, rule, other) <==>
              Open(db.events, rule, other)
                || (other == device && exists i :: 0 <= i < n && rules[i].id == rule && Triggered(rules[i], m))
  {
    hide Triggered, CheckRule, Open;
    if n > 0 {
      CheckOpens(db, rules, n - 1, device, m, rule, other);
      OneRuleOpens(Checked(db, rules, n - 1, device, m), rules[n - 1], device, m, rule, other);
    }
  }

  /** A check opens an event for exactly the enabled rules that trigger, on this device only, unless
      a rule fails to decode; then it opens none. */
  lemma AfterCheckOpens(db: Db, device: Uuid, rule: Uuid, other: Uuid)
    ensures Open(AfterCheck(db, device).events, rule, other) <==>
              Open(db.events, rule, other)
              || (other == device && device in db.metrics && Complete(db.rules)
                && Fires(db.rules, rule, db.metrics[device]))
  {
    hide Triggered, Open, FetchedRules, Complete;
    if device in db.metrics {
      var rules, m := FetchedRules(db.rules), db.metrics[device];
      Fetched(db.rules);
      CheckOpens(db, rules, |rules|, device, m, rule, other);
      if Complete(db.rules) && Fires(db.rules, rule, m) {
        var r :| r in db.rules && r.enabled && r.id == rule && Triggered(r, m);
        assert r in rules;
        var i :| 0 <= i < |rules| && rules[i] == r;
      }
      if i :| 0 <= i < |rules| && rules[i].id == rule && Triggered(rules[i], m) {
        assert rules[i] in rules;
      }
    }
  }

  lemma {:induction false} CheckAppends(db: Db, rules: seq<Rule>, n: nat, device: Uuid, m: Metrics)
    requires n <= |rules|
    ensures var after := Checked(db, rules, n, device, m);
            && after == db.(events := after.events, next := after.next)
            && |db.events| <= |after.events| && after.events[..|db.events|] == db.events
            && forall e :: e in after.events[|db.events|..] ==>
                 !e.resolved && e.device == Some(device)
                 && exists r :: r in rules && r.id == e.rule && Triggered(r, m) && r.severity == Some(e.severity)
  {
    hide Triggered, Open;
    if n > 0 {
      CheckAppends(db, rules, n - 1, device, m);
      var mid, after := Checked(db, rules, n - 1, device, m), Checked(db, rules, n, device, m);
      assert rules[n - 1] in rules;
      if after != mid {
        TriggeredDecodes(rules[n - 1], m);
        var e := Event(mid.next, rules[n - 1].id, Some(device), rules[n - 1].severity.value, false);
        assert after.events[|db.events|..] == mid.events[|db.events|..] + [e];
      }
    }
  }

  lemma TriggeredDecodes(r: Rule, m: Metrics)
    requires Triggered(r, m)
    ensures r.severity.Some?
  {}

  /** A check only appends unresolved events of this device, each with the severity of a triggered rule. */
  lemma AfterCheckAppends(db: Db, device: Uuid)
    ensures var after := AfterCheck(db, device);
            && after == db.(events := after.events, next := after.next)
            && |db.events| <= |after.events| && after.events[..|db.events|] == db.events
            && forall e :: e in after.events[|db.events|..] ==>
                 !e.resolved && e.device == Some(device) && device in db.metrics
                 && exists r :: r in db.rules && r.enabled && r.id == e.rule && Triggered(r, db.metrics[device])
                                && r.severity == Some(e.severity)
  {
    hide Triggered, FetchedRules;
    if device in db.metrics {
      var rules := FetchedRules(db.rules);
      Fetched(db.rules);
      CheckAppends(db, rules, |rules|, device, db.metrics[device]);
    }
  }

  /** After a check, an enabled rule that triggers on the latest metrics has exactly one unresolved
      event if and only if every enabled rule decodes, or it already had one. */
  lemma TriggeredHasExactlyOne(db: Db, device: Uuid, r: Rule)
    requires Inv(db) && device in db.metrics
    requires r in db.rules && r.enabled && Triggered(r, db.metrics[device])
    ensures OpenCount(AfterCheck(db, device).events, r.id, device) == 1 <==>
              Complete(db.rules) || Open(db.events, r.id, device)
  {
    hide Triggered, AfterCheck, Inv;
    AfterCheckOk(db, device);
    var after := AfterCheck(db, device);
    assert EventsOk(after.events, after.next) by { OkEvents(after); }
    CountOpen(after.events, after.next, r.id, device);
    AfterCheckOpens(db, device, r.id, device);
  }

  lemma OkEvents(db: Db)
    requires Inv(db)
    ensures EventsOk(db.events, db.next)
  {}

  /** The row lacks an input of the metric, or the metric has no known name. */
  predicate Missing(m: Metrics, metric: string) {
    && (metric == "cpu_pct" ==> m.cpuPct.None?)
    && (metric == "ram_pct" ==> m.ramUsed.None? || m.ramTotal.None? || m.ramTotal.value <= 0)
    && (metric == "disk_pct" ==> m.diskUsed.None? || m.diskTotal.None? || m.diskTotal.value <= 0.0)
  }

  /** A rule whose inputs are missing from the latest row opens nothing. */
  lemma MissingMetricsOpenNothing(db: Db, device: Uuid, rule: Uuid)
    requires device in db.metrics ==>
      forall r :: r in db.rules && r.id == rule && r.metric.Some? ==> Missing(db.metrics[device], r.metric.value)
    ensures Open(AfterCheck(db, device).events, rule, device) <==> Open(db.events, rule, device)
  {
    hide AfterCheck, Open, Compare;
    AfterCheckOpens(db, device, rule, device);
  }

  /** One enabled rule older than the metric column keeps every other rule from firing. */
  lemma OldRuleSilencesAll(device: Uuid, a: Uuid, b: Uuid)
    requires a != b
    ensures var legacy := Rule(a, "old", None, None, None, Some("warning"), Other("{}"), true);
            var cpu := Rule(b, "cpu", Some("cpu_pct"), Some(">"), Some(90.0), Some("critical"),
                            Columns(Some("cpu_pct"), Some(">"), Some(90.0)), true);
            var m := Metrics(Some(99.0), None, None, None, None);
            var db := Db({device}, [legacy, cpu], [], map[device := m], 0);
            Triggered(cpu, m) && !Open(AfterCheck(db, device).events, b, device)
            && OpenCount(AfterCheck(db.(rules := [cpu]), device).events, b, device) == 1
  {
    var legacy := Rule(a, "old", None, None, None, Some("warning"), Other("{}"), true);
    var cpu := Rule(b, "cpu", Some("cpu_pct"), Some(">"), Some(90.0), Some("critical"),
                    Columns(Some("cpu_pct"), Some(">"), Some(90.0)), true);
    var m := Metrics(Some(99.0), None, None, None, None);
    var db := Db({device}, [legacy, cpu], [], map[device := m], 0);
    hide AfterCheck, OpenCount;
    assert legacy in db.rules && !Complete(db.rules);
    AfterCheckOpens(db, device, b, device);
    assert cpu in [cpu];
    TriggeredHasExactlyOne(db.(rules := [cpu]), device, cpu);
  }

  /** Checking again on the same metrics changes nothing. */
  lemma CheckIsIdempotent(db: Db, device: Uuid)
    ensures AfterCheck(AfterCheck(db, device), device) == AfterCheck(db, device)
  {
    hide Triggered, FetchedRules;
    AfterCheckAppends(db, device);
    if device in db.metrics {
      var rules, m, after := FetchedRules(db.rules), db.metrics[device], AfterCheck(db, device);
      Settled(db, rules, |rules|, device, m, after);
    }
  }

  lemma {:induction false} Settled(db: Db, rules: seq<Rule>, n: nat, device: Uuid, m: Metrics, after: Db)
    requires n <= |rules| && after == Checked(db, rules, |rules|, device, m)
    ensures Checked(after, rules, n, device, m) == after
  {
    hide Triggered, Open;
    if n > 0 {
      Settled(db, rules, n - 1, device, m, after);
      CheckOpens(db, rules, |rules|, device, m, rules[n - 1].id, device);
    }
  }

  // ---- rules and events over runs ----

  /** The rule decodes and its JSON condition says what its columns say. */
  predicate RuleOk(r: Rule) { Decodes(r) && r.condition == Columns(r.metric, r.operator, r.threshold) }

  lemma RulesStayOk(db: Db, a: Action)
    requires forall r :: r in db.rules ==> RuleOk(r)
    ensures forall r :: r in Step(db, a).rules ==> RuleOk(r)
  {
    hide AfterCheck;
    match a
    case DeleteRule(id) => FilterMembers(db.rules, OtherRule(id));
    case Telemetry(d, m) => AfterCheckAppends(if d in db.devices then db.(metrics := db.metrics[d := m]) else db, d);
    case Check(d) => AfterCheckAppends(db, d);
    case UpdateRule(id, p) =>
      forall r | r in PatchAll(db.rules, id, p)
        ensures RuleOk(r)
      {
        var k :| 0 <= k < |db.rules| && PatchAll(db.rules, id, p)[k] == r;
        assert db.rules[k] in db.rules;
      }
    case _ =>
  }

  lemma {:induction false} RulesOverRuns(db: Db, actions: seq<Action>)
    requires (forall r :: r in db.rules ==> RuleOk(r)) && Run(db, actions).Some?
    ensures forall r :: r in Run(db, actions).value.rules ==> RuleOk(r)
    decreases |actions|
  {
    hide RuleOk, Step;
    if actions != [] {
      RulesStayOk(db, actions[0]);
      RulesOverRuns(Step(db, actions[0]), actions[1..]);
    }
  }

  /** From a database whose rules all have their columns, every check at any later time leaves every
      enabled rule that triggers on the latest metrics with exactly one unresolved event. */
  lemma TriggeredHasExactlyOneOverRuns(start: Db, actions: seq<Action>, device: Uuid, r: Rule)
    requires Inv(start) && (forall q :: q in start.rules ==> RuleOk(q)) && Run(start, actions).Some?
    requires var db := Run(start, actions).value;
             device in db.metrics && r in db.rules && r.enabled && Triggered(r, db.metrics[device])
    ensures OpenCount(AfterCheck(Run(start, actions).value, device).events, r.id, device) == 1
  {
    hide Run, Triggered, AfterCheck, OpenCount, Inv, Decodes;
    InvOverRuns(start, actions);
    RulesOverRuns(start, actions);
    assert Complete(Run(start, actions).value.rules);
    TriggeredHasExactlyOne(Run(start, actions).value, device, r);
  }

  /** The event was created, and is resolved or deleted by now. */
  ghost predicate Closed(db: Db, id: nat) {
    id < db.next && forall e :: e in db.events && e.id == id ==> e.resolved
  }

  lemma {:induction false} CheckedClosed(db: Db, rules: seq<Rule>, n: nat, device: Uuid, m: Metrics, id: nat)
    requires Closed(db, id) && n <= |rules|
    ensures Closed(Checked(db, rules, n, device, m), id)
  {
    hide Triggered, Open;
    if n > 0 {
      CheckedClosed(db, rules, n - 1, device, m, id);
    }
  }

  lemma AfterCheckClosed(db: Db, device: Uuid, id: nat)
    requires Closed(db, id)
    ensures Closed(AfterCheck(db, device), id)
  {
    hide Closed, FetchedRules;
    if device in db.metrics {
      CheckedClosed(db, FetchedRules(db.rules), |FetchedRules(db.rules)|, device, db.metrics[device], id);
    }
  }

  lemma StaysClosed(db: Db, a: Action, id: nat)
    requires Closed(db, id)
    ensures Closed(Step(db, a), id)
  {
    hide AfterCheck;
    match a
    case DeleteRule(rule) => FilterMembers(db.events, OfOtherRule(rule));
    case Telemetry(d, m) => AfterCheckClosed(if d in db.devices then db.(metrics := db.metrics[d := m]) else db, d, id);
    case Check(d) => AfterCheckClosed(db, d, id);
    case _ =>
  }

  /** A resolved event never reopens. */
  lemma {:induction false} ResolvedNeverReopens(db: Db, actions: seq<Action>, id: nat)
    requires Closed(db, id) && Run(db, actions).Some?
    ensures Closed(Run(db, actions).value, id)
    decreases |actions|
  {
    hide Closed, Step;
    if actions != [] {
      StaysClosed(db, actions[0], id);
      ResolvedNeverReopens(Step(db, actions[0]), actions[1..], id);
    }
  }

  /** Resolving an open event closes it. */
  lemma ResolveCloses(db: Db, id: nat)
    requires Inv(db) && CanResolve(db.events, id)
    ensures Closed(Step(db, Resolve(id)), id)
  {}
}
