/** Alert rules, alert events and the check made on each telemetry report. */
module Alerts {
  import opened Common

  /** The JSON copy of a rule's columns; rules older than the columns hold some other text. */
  datatype Condition =
    | Columns(metric: Option<string>, operator: Option<string>, threshold: Option<real>)
    | Other(text: string)

  datatype Rule = Rule(id: Uuid, name: string, metric: Option<string>, operator: Option<string>,
                       threshold: Option<real>, severity: Option<string>, condition: Condition, enabled: bool)

  /** `device` becomes null when the device is deleted. */
  datatype Event = Event(id: nat, rule: Uuid, device: Option<Uuid>, severity: string, resolved: bool)

  datatype Metrics = Metrics(cpuPct: Option<real>, ramUsed: Option<int>, ramTotal: Option<int>,
                             diskUsed: Option<real>, diskTotal: Option<real>)

  /** `metrics` is the latest telemetry row of each device; event ids are drawn from `next`. */
  datatype Db = Db(devices: set<Uuid>, rules: seq<Rule>, events: seq<Event>, metrics: map<Uuid, Metrics>, next: nat)

  // ---- evaluating a rule ----

  function MetricValue(m: Metrics, metric: string): Option<real> {
    if metric == "cpu_pct" then m.cpuPct
    else if metric == "ram_pct" then
      if m.ramUsed.Some? && m.ramTotal.Some? && m.ramTotal.value > 0
      then Some(m.ramUsed.value as real / m.ramTotal.value as real * 100.0) else None
    else if metric == "disk_pct" then
      if m.diskUsed.Some? && m.diskTotal.Some? && m.diskTotal.value > 0.0
      then Some(m.diskUsed.value / m.diskTotal.value * 100.0) else None
    else None
  }

  /** `f64::EPSILON`, 2 to the power -52. */
  const EPSILON: real := 1.0 / 4503599627370496.0

  function Abs(x: real): real { if x < 0.0 then -x else x }

  predicate Compare(operator: string, value: real, threshold: real) {
    if operator in [">", "gt"] then value > threshold
    else if operator in [">=", "gte"] then value >= threshold
    else if operator in ["<", "lt"] then value < threshold
    else if operator in ["<=", "lte"] then value <= threshold
    else if operator in ["==", "eq"] then Abs(value - threshold) < EPSILON
    else false
  }

  /** The columns the engine decodes as non-null. */
  predicate Decodes(r: Rule) { r.metric.Some? && r.operator.Some? && r.threshold.Some? && r.severity.Some? }

  predicate Triggered(r: Rule, m: Metrics) {
    && Decodes(r)
    && MetricValue(m, r.metric.value).Some?
    && Compare(r.operator.value, MetricValue(m, r.metric.value).value, r.threshold.value)
  }

  // ---- events ----

  predicate IsOpen(e: Event, rule: Uuid, device: Uuid) { e.rule == rule && e.device == Some(device) && !e.resolved }

  predicate Open(events: seq<Event>, rule: Uuid, device: Uuid) {
    exists e :: e in events && IsOpen(e, rule, device)
  }

  function CheckRule(db: Db, r: Rule, device: Uuid, m: Metrics): Db {
    if Triggered(r, m) && !Open(db.events, r.id, device)
    then db.(events := db.events + [Event(db.next, r.id, Some(device), r.severity.value, false)], next := db.next + 1)
    else db
  }

  function IsEnabled(): Rule -> bool { (r: Rule) => r.enabled }

  /** One row that does not decode fails the whole query, which then counts as empty. */
  function FetchedRules(rules: seq<Rule>): (fetched: seq<Rule>)
    ensures forall r :: r in fetched ==> Decodes(r)
  {
    var found := Filter(rules, IsEnabled());
    if forall r :: r in found ==> Decodes(r) then found else []
  }

  function Checked(db: Db, rules: seq<Rule>, n: nat, device: Uuid, m: Metrics): Db
    requires n <= |rules|
  {
    if n == 0 then db else CheckRule(Checked(db, rules, n - 1, device, m), rules[n - 1], device, m)
  }

  function AfterCheck(db: Db, device: Uuid): Db {
    if device !in db.metrics then db
    else var rules := FetchedRules(db.rules); Checked(db, rules, |rules|, device, db.metrics[device])
  }

  /** The telemetry insert fails its foreign key for an unknown device; the check runs anyway. */
  function AfterTelemetry(db: Db, device: Uuid, m: Metrics): Db {
    AfterCheck(if device in db.devices then db.(metrics := db.metrics[device := m]) else db, device)
  }

  // ---- the rules API ----

  function AfterCreateRule(db: Db, id: Uuid, name: string, metric: string, operator: string, threshold: real,
                           severity: Option<string>, enabled: Option<bool>): Db
  {
    db.(rules := db.rules + [
      Rule(id, name, Some(metric), Some(operator), Some(threshold),
        Some(if severity.Some? then severity.value else "warning"),
           Columns(Some(metric), Some(operator), Some(threshold)), if enabled.Some? then enabled.value else true)])
  }

  datatype Patch = Patch(name: Option<string>, metric: Option<string>, operator: Option<string>,
                         threshold: Option<real>, severity: Option<string>, enabled: Option<bool>)

  function Patched(r: Rule, p: Patch): Rule {
    var metric := if p.metric.Some? then p.metric else r.metric;
    var operator := if p.operator.Some? then p.operator else r.operator;
    var threshold := if p.threshold.Some? then p.threshold else r.threshold;
    Rule(r.id, if p.name.Some? then p.name.value else r.name, metric, operator, threshold,
         if p.severity.Some? then p.severity else r.severity,
         if metric.Some? || operator.Some? || threshold.Some? then Columns(metric, operator, threshold)
           else r.condition,
         if p.enabled.Some? then p.enabled.value else r.enabled)
  }

  predicate HasRule(rules: seq<Rule>, id: Uuid) { exists r :: r in rules && r.id == id }

  function PatchAll(rules: seq<Rule>, id: Uuid, p: Patch): (s: seq<Rule>)
    ensures |s| == |rules|
  {
    seq(|rules|, i requires 0 <= i < |rules| => if rules[i].id == id then Patched(rules[i], p) else rules[i])
  }

  function OtherRule(id: Uuid): Rule -> bool { (r: Rule) => r.id != id }

  function OfOtherRule(id: Uuid): Event -> bool { (e: Event) => e.rule != id }

  function AfterDeleteRule(db: Db, id: Uuid): Db {
    db.(rules := Filter(db.rules, OtherRule(id)), events := Filter(db.events, OfOtherRule(id)))
  }

  predicate CanResolve(events: seq<Event>, id: nat) { exists e :: e in events && e.id == id && !e.resolved }

  function Resolved(events: seq<Event>, id: nat): (s: seq<Event>)
    ensures |s| == |events|
  {
    seq(|events|, i requires 0 <= i < |events| =>
      if events[i].id == id && !events[i].resolved then events[i].(resolved := true) else events[i])
  }

  /** `ON DELETE SET NULL` on events, `ON DELETE CASCADE` on telemetry. */
  function AfterDeleteDevice(db: Db, device: Uuid): Db {
    db.(devices := db.devices - {device}, metrics := db.metrics - {device},
        events := seq(|db.events|, i requires 0 <= i < |db.events| =>
          if db.events[i].device == Some(device) then db.events[i].(device := None) else db.events[i]))
  }

  // ---- the handlers ----

  /** One `UPDATE` for each field of the request on the row, then the condition is brought in step. */
  method UpdateColumns(was: Rule, p: Patch) returns (row: Rule)
    ensures row == Patched(was, p)
  {
    row := was;
    if p.name.Some? {
      row := row.(name := p.name.value);
    }
    if p.metric.Some? {
      row := row.(metric := p.metric);
    }
    if p.operator.Some? {
      row := row.(operator := p.operator);
    }
    if p.threshold.Some? {
      row := row.(threshold := p.threshold);
    }
    if p.severity.Some? {
      row := row.(severity := p.severity);
    }
    if p.enabled.Some? {
      row := row.(enabled := p.enabled.value);
    }
    if row.metric.Some? || row.operator.Some? || row.threshold.Some? {
      row := row.(condition := Columns(row.metric, row.operator, row.threshold));
    }
  }

  class AlertServer {
    var devices: set<Uuid>
    var rules: seq<Rule>
    var events: seq<Event>
    var metrics: map<Uuid, Metrics>
    var next: nat

    ghost function State(): Db
      reads this
    {
      Db(devices, rules, events, metrics, next)
    }

    constructor (devices: set<Uuid>)
      ensures State() == Db(devices, [], [], map[], 0)
    {
      this.devices, this.rules, this.events, this.metrics, this.next := devices, [], [], map[], 0;
    }

    /** `id` is the generated key of the new row. */
    method CreateRule(id: Uuid, name: string, metric: string, operator: string, threshold: real,
                      severity: Option<string>, enabled: Option<bool>)
      modifies this`rules
      ensures State() == AfterCreateRule(old(State()), id, name, metric, operator, threshold, severity, enabled)
    {
      var level := if severity.Some? then severity.value else "warning";
      var on := if enabled.Some? then enabled.value else true;
      var condition := Columns(Some(metric), Some(operator), Some(threshold));
      rules := rules + [Rule(id, name, Some(metric), Some(operator), Some(threshold), Some(level), condition, on)];
    }

    method UpdateRule(id: Uuid, p: Patch) returns (ok: bool)
      modifies this`rules
      ensures ok <==> exists r :: r in old(rules) && r.id == id
      ensures State() == old(State()).(rules := PatchAll(old(rules), id, p))
    {
      ok := HasRule(rules, id);
      var i := 0;
      while i < |rules|
        invariant 0 <= i <= |rules| == |old(rules)|
        invariant forall k :: 0 <= k < |rules| ==>
          rules[k] == if k < i then PatchAll(old(rules), id, p)[k] else old(rules)[k]
      {
        if rules[i].id == id {
          var row := UpdateColumns(rules[i], p);
          rules := rules[i := row];
        }
        i := i + 1;
      }
      assert rules == PatchAll(old(rules), id, p);
    }

    method DeleteRule(id: Uuid) returns (ok: bool)
      modifies this`rules, this`events
      ensures ok <==> exists r :: r in old(rules) && r.id == id
      ensures State() == AfterDeleteRule(old(State()), id)
    {
      ok := HasRule(rules, id);
      rules := Filter(rules, OtherRule(id));
      events := Filter(events, OfOtherRule(id));
    }

    method ResolveEvent(id: nat) returns (ok: bool)
      modifies this`events
      ensures ok <==> exists e :: e in old(events) && e.id == id && !e.resolved
      ensures State() == old(State()).(events := Resolved(old(events), id))
    {
      ok := CanResolve(events, id);
      events := Resolved(events, id);
    }

    method Telemetry(device: Uuid, m: Metrics)
      modifies this`metrics, this`events, this`next
      ensures State() == AfterTelemetry(old(State()), device, m)
    {
      if device in devices {
        metrics := metrics[device := m];
      }
      CheckAlerts(device);
    }

    method CheckAlerts(device: Uuid)
      modifies this`events, this`next
      ensures State() == AfterCheck(old(State()), device)
    {
      hide FetchedRules, Open, MetricValue, Compare;
      var fetched := FetchedRules(rules);
      if |fetched| == 0 {
        return;
      }
      if device !in metrics {
        return;
      }
      var m := metrics[device];
      var i := 0;
      while i < |fetched|
        invariant 0 <= i <= |fetched|
        invariant State() == Checked(old(State()), fetched, i, device, m)
      {
        var rule := fetched[i];
        assert rule in fetched;
        i := i + 1;
        var value := MetricValue(m, rule.metric.value);
        if value.None? {
          continue;
        }
        if Compare(rule.operator.value, value.value, rule.threshold.value) {
          if Open(events, rule.id, device) {
            continue;
          }
          events := events + [Event(next, rule.id, Some(device), rule.severity.value, false)];
          next := next + 1;
        }
      }
    }
  }
}
