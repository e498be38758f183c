/** What alert rules mean to those who write them: operators and metrics by name, and what each request changes. */
module AlertLaws {
  import opened Common
  import opened Alerts
  import opened AlertRuns

  /** `left` stands to `right` as the operator says; equal is closer than 2 to the power -52, times `scale`. */
  predicate Stands(operator: string, left: real, right: real, scale: real) {
    || ((operator == ">" || operator == "gt") && left > right)
    || ((operator == ">=" || operator == "gte") && left >= right)
    || ((operator == "<" || operator == "lt") && left < right)
    || ((operator == "<=" || operator == "lte") && left <= right)
    || ((operator == "==" || operator == "eq") && -scale < (left - right) * 4503599627370496.0 < scale)
  }

  /** `used` of `total` in percent, without the division. */
  predicate Percent(operator: string, used: real, total: real, threshold: real) {
    total > 0.0 && Stands(operator, used * 100.0, threshold * total, total)
  }

  /** The row is as the columns say. */
  predicate Breached(m: Metrics, metric: string, operator: string, threshold: real) {
    || (metric == "cpu_pct" && m.cpuPct.Some? && Stands(operator, m.cpuPct.value, threshold, 1.0))
    || (metric == "ram_pct" && m.ramUsed.Some? && m.ramTotal.Some?
        && Percent(operator, m.ramUsed.value as real, m.ramTotal.value as real, threshold))
    || (metric == "disk_pct" && m.diskUsed.Some? && m.diskTotal.Some?
        && Percent(operator, m.diskUsed.value, m.diskTotal.value, threshold))
  }

  /** An unresolved event of the rule for the device. */
  predicate Alerting(db: Db, rule: Uuid, device: Uuid) {
    exists e :: e in db.events && e.rule == rule && e.device == Some(device) && !e.resolved
  }

  /** No column the check reads is null. */
  predicate Full(r: Rule) { r.metric.Some? && r.operator.Some? && r.threshold.Some? && r.severity.Some? }

  // ---- percentages ----

  lemma Quotient(used: real, total: real, threshold: real)
    requires total > 0.0
    ensures var q := used / total * 100.0;
      && q * total == used * 100.0
      && (q > threshold <==> used * 100.0 > threshold * total)
      && (q < threshold <==> used * 100.0 < threshold * total)
      && (q - threshold) * total == used * 100.0 - threshold * total
  {
    var q := used / total * 100.0;
    assert used / total * total == used;
    assert q * total == used * 100.0;
    Compares(q, threshold, total);
  }

  lemma Compares(a: real, b: real, scale: real)
    requires scale > 0.0
    ensures a < b <==> a * scale < b * scale
    ensures a == b <==> a * scale == b * scale
  {
    assert (b - a) * scale == b * scale - a * scale;
    if a < b {
      assert (b - a) * scale > 0.0;
    } else if a > b {
      assert (a - b) * scale > 0.0;
    }
  }

  /** Closer than 2 to the power -52. */
  lemma CloserThanEpsilon(d: real)
    ensures Abs(d) < EPSILON <==> -1.0 < d * 4503599627370496.0 < 1.0
  {
    var k := 4503599627370496.0;
    assert EPSILON * k == 1.0 && (-EPSILON) * k == -1.0;
    Compares(d, EPSILON, k);
    Compares(-EPSILON, d, k);
  }

  lemma Near(d: real, total: real, scaled: real)
    requires total > 0.0 && scaled == d * total
    ensures Abs(d) < EPSILON <==> -total < scaled * 4503599627370496.0 < total
  {
    CloserThanEpsilon(d);
    hide Abs;
    var e := d * 4503599627370496.0;
    Compares(e, 1.0, total);
    Compares(-1.0, e, total);
    assert e * total == scaled * 4503599627370496.0;
  }

  lemma CompareMeans(operator: string, value: real, threshold: real)
    ensures Compare(operator, value, threshold) <==> Stands(operator, value, threshold, 1.0)
  {
    Near(value - threshold, 1.0, value - threshold);
  }

  lemma PercentMeans(operator: string, used: real, total: real, threshold: real)
    ensures total > 0.0 ==>
              (Compare(operator, used / total * 100.0, threshold) <==> Percent(operator, used, total, threshold))
    ensures total <= 0.0 ==> !Percent(operator, used, total, threshold)
  {
    if total > 0.0 {
      var q := used / total * 100.0;
      Quotient(used, total, threshold);
      Near(q - threshold, total, used * 100.0 - threshold * total);
      Scaled(operator, q, threshold, used * 100.0, threshold * total, total);
    }
  }

  lemma Scaled(operator: string, q: real, threshold: real, left: real, right: real, scale: real)
    requires q > threshold <==> left > right
    requires q < threshold <==> left < right
    requires Abs(q - threshold) < EPSILON <==> -scale < (left - right) * 4503599627370496.0 < scale
    ensures Compare(operator, q, threshold) <==> Stands(operator, left, right, scale)
  {
    hide Abs;
  }

  lemma ValueMeans(m: Metrics, metric: string, operator: string, threshold: real)
    ensures MetricValue(m, metric).Some? && Compare(operator, MetricValue(m, metric).value, threshold)
       <==> Breached(m, metric, operator, threshold)
  {
    hide Compare, Stands, Percent;
    assert "cpu_pct"[0] != "ram_pct"[0];
    if metric == "cpu_pct" && m.cpuPct.Some? {
      CompareMeans(operator, m.cpuPct.value, threshold);
    } else if metric == "ram_pct" && m.ramUsed.Some? && m.ramTotal.Some? {
      PercentMeans(operator, m.ramUsed.value as real, m.ramTotal.value as real, threshold);
    } else if metric == "disk_pct" && m.diskUsed.Some? && m.diskTotal.Some? {
      PercentMeans(operator, m.diskUsed.value, m.diskTotal.value, threshold);
    }
  }

  lemma TriggeredMeans(r: Rule, m: Metrics)
    ensures Triggered(r, m) <==> Full(r) && Breached(m, r.metric.value, r.operator.value, r.threshold.value)
  {
    hide MetricValue, Compare, Breached;
    if Full(r) {
      ValueMeans(m, r.metric.value, r.operator.value, r.threshold.value);
    }
  }

  // ---- a check ----

  /** After a check of full rules, an enabled rule with an id of its own has an open event if and only if it had
      one or its inequality holds on the latest row; an operator or a metric of another name opens nothing. */
  lemma CheckMeans(db: Db, device: Uuid, i: nat)
    requires device in db.metrics && i < |db.rules| && db.rules[i].enabled
    requires forall r :: r in db.rules && r.enabled ==> Full(r)
    requires forall k :: 0 <= k < |db.rules| && k != i ==> db.rules[k].id != db.rules[i].id
    ensures var r := db.rules[i];
      && r in db.rules && Full(r)
      && (Alerting(AfterCheck(db, device), r.id, device) <==>
           Alerting(db, r.id, device)
           || Breached(db.metrics[device], r.metric.value, r.operator.value, r.threshold.value))
  {
    hide Breached, AfterCheck, Triggered;
    var r, m := db.rules[i], db.metrics[device];
    AfterCheckOpens(db, device, r.id, device);
    TriggeredMeans(r, m);
    if Fires(db.rules, r.id, m) {
      var q :| q in db.rules && q.enabled && q.id == r.id && Triggered(q, m);
      var k :| 0 <= k < |db.rules| && db.rules[k] == q;
    }
    assert r in db.rules;
  }

  /** A report from a known device is what its rules are then checked on. */
  lemma TelemetryMeans(db: Db, device: Uuid, m: Metrics, i: nat)
    requires device in db.devices && i < |db.rules| && db.rules[i].enabled
    requires forall r :: r in db.rules && r.enabled ==> Full(r)
    requires forall k :: 0 <= k < |db.rules| && k != i ==> db.rules[k].id != db.rules[i].id
    ensures var r, after := db.rules[i], AfterTelemetry(db, device, m);
      && after.metrics == db.metrics[device := m]
      && r in db.rules && Full(r)
      && (Alerting(after, r.id, device) <==>
           Alerting(db, r.id, device) || Breached(m, r.metric.value, r.operator.value, r.threshold.value))
  {
    hide AfterCheck, Breached;
    CheckMeans(db.(metrics := db.metrics[device := m]), device, i);
    AfterCheckAppends(db.(metrics := db.metrics[device := m]), device);
  }

  /** A report from a device that is not known is not kept. */
  lemma UnknownDeviceKept(db: Db, device: Uuid, m: Metrics)
    requires device !in db.devices
    ensures AfterTelemetry(db, device, m).metrics == db.metrics
  {
    hide AfterCheck;
    AfterCheckAppends(db, device);
  }

  /** An event opened by a check has the severity of its rule. */
  lemma OpenedSeverity(db: Db, device: Uuid, i: nat, e: Event)
    requires i < |db.rules| && forall k :: 0 <= k < |db.rules| && k != i ==> db.rules[k].id != db.rules[i].id
    requires e in AfterCheck(db, device).events && e !in db.events && e.rule == db.rules[i].id
    ensures db.rules[i].severity == Some(e.severity) && db.rules[i].enabled
  {
    hide AfterCheck, Triggered;
    AfterCheckAppends(db, device);
    var after := AfterCheck(db, device).events;
    assert after == after[..|db.events|] + after[|db.events|..];
    assert e in after[|db.events|..];
    var r :| r in db.rules && r.enabled && r.id == e.rule && r.severity == Some(e.severity);
    var k :| 0 <= k < |db.rules| && db.rules[k] == r;
  }

  // ---- the rules API ----

  /** A new rule is checked as it was written; it is a warning and enabled unless the request says otherwise. */
  lemma CreatedRuleMeans(db: Db, id: Uuid, name: string, metric: string, operator: string, threshold: real,
      severity: Option<string>, enabled: Option<bool>, device: Uuid)
    requires device in db.metrics && (forall r :: r in db.rules ==> r.id != id)
    requires forall r :: r in db.rules && r.enabled ==> Full(r)
    requires !Alerting(db, id, device)
    ensures var made := AfterCreateRule(db, id, name, metric, operator, threshold, severity, enabled);
      var after := AfterCheck(made, device);
      && made == db.(rules := made.rules) && |made.rules| == |db.rules| + 1
      && made.rules[..|db.rules|] == db.rules
      && made.rules[|db.rules|].id == id && made.rules[|db.rules|].name == name
      && made.rules[|db.rules|].condition == Columns(Some(metric), Some(operator), Some(threshold))
      && (Alerting(after, id, device) <==>
           enabled != Some(false) && Breached(db.metrics[device], metric, operator, threshold))
      && (forall e :: e in after.events && e !in db.events && e.rule == id ==>
           e.severity == match severity case None => "warning" case Some(s) => s)
  {
    hide AfterCheck, Breached;
    var made := AfterCreateRule(db, id, name, metric, operator, threshold, severity, enabled);
    var after := AfterCheck(made, device);
    var n := |db.rules|;
    assert made.rules[..n] == db.rules && Full(made.rules[n]);
    forall k | 0 <= k < n
      ensures made.rules[k].id != id
    {
      assert db.rules[k] in db.rules;
    }
    FullCreated(db, made);
    if made.rules[n].enabled {
      CheckMeans(made, device, n);
    } else {
      AfterCheckOpens(made, device, id, device);
      hide Triggered;
    }
    forall e | e in after.events && e !in db.events && e.rule == id
      ensures made.rules[n].severity == Some(e.severity)
    {
      OpenedSeverity(made, device, n, e);
    }
  }

  lemma FullCreated(db: Db, made: Db)
    requires |made.rules| == |db.rules| + 1 && made.rules[..|db.rules|] == db.rules
    requires Full(made.rules[|db.rules|]) && forall r :: r in db.rules && r.enabled ==> Full(r)
    ensures forall r :: r in made.rules && r.enabled ==> Full(r)
  {
    hide Full;
    assert made.rules == db.rules + [made.rules[|db.rules|]];
  }

  /** An update changes the named rule, in what the request gives and in nothing else, and brings its condition in
      step with its columns. */
  lemma UpdateMeans(rules: seq<Rule>, id: Uuid, p: Patch, i: nat)
    requires i < |rules|
    ensures var was, now := rules[i], PatchAll(rules, id, p)[i];
      && (was.id != id ==> now == was)
      && (was.id == id ==>
           && now.id == id
           && now.name == (match p.name case None => was.name case Some(n) => n)
           && now.metric == (match p.metric case None => was.metric case Some(_) => p.metric)
           && now.operator == (match p.operator case None => was.operator case Some(_) => p.operator)
           && now.threshold == (match p.threshold case None => was.threshold case Some(_) => p.threshold)
           && now.severity == (match p.severity case None => was.severity case Some(_) => p.severity)
           && now.enabled == (match p.enabled case None => was.enabled case Some(b) => b)
           && (now.metric.None? && now.operator.None? && now.threshold.None? ==> now.condition == was.condition)
           && (now.metric.Some? || now.operator.Some? || now.threshold.Some? ==>
                now.condition == Columns(now.metric, now.operator, now.threshold)))
  {}

  /** A deleted rule takes its events with it, open or not; every other rule and event stays. */
  lemma DeleteRuleMeans(db: Db, id: Uuid, r: Rule, e: Event)
    ensures var after := AfterDeleteRule(db, id);
      && after == db.(rules := after.rules, events := after.events)
      && multiset(after.rules)[r] == (if r.id == id then 0 else multiset(db.rules)[r])
      && multiset(after.events)[e] == (if e.rule == id then 0 else multiset(db.events)[e])
  {
    FilterCount(db.rules, OtherRule(id), r);
    FilterCount(db.events, OfOtherRule(id), e);
  }

  /** Resolving closes the events of that id and leaves every other event as it was. */
  lemma ResolveMeans(db: Db, id: nat, i: nat)
    requires i < |db.events|
    ensures var after := Step(db, Resolve(id));
      && after == db.(events := after.events) && |after.events| == |db.events|
      && after.events[i] == if db.events[i].id == id then db.events[i].(resolved := true) else db.events[i]
  {}

  /** A deleted device takes its telemetry with it; its events stay, without a device, and so alert for none. */
  lemma DeleteDeviceMeans(db: Db, device: Uuid, rule: Uuid, other: Uuid)
    ensures var after := AfterDeleteDevice(db, device);
      && after.rules == db.rules && |after.events| == |db.events|
      && (forall i :: 0 <= i < |db.events| ==>
            after.events[i].id == db.events[i].id && after.events[i].rule == db.events[i].rule
            && after.events[i].severity == db.events[i].severity && after.events[i].resolved == db.events[i].resolved)
      && (Alerting(after, rule, other) <==> other != device && Alerting(db, rule, other))
      && (other in after.devices <==> other != device && other in db.devices)
      && (other in after.metrics <==> other != device && other in db.metrics)
      && (other in after.metrics ==> after.metrics[other] == db.metrics[other])
  {
    var after := AfterDeleteDevice(db, device);
    if other != device && Alerting(db, rule, other) {
      var e :| e in db.events && e.rule == rule && e.device == Some(other) && !e.resolved;
      var i :| 0 <= i < |db.events| && db.events[i] == e;
      assert after.events[i] in after.events;
    }
    if Alerting(after, rule, other) {
      var e :| e in after.events && e.rule == rule && e.device == Some(other) && !e.resolved;
      var i :| 0 <= i < |after.events| && after.events[i] == e;
      assert db.events[i] in db.events;
    }
  }
}
