/**
 * Streaks, deduplication and the alert rate over whole runs of the alert engine
 * (backend/ai_intelligence/alerts.py).
 */
module AlertHistory {
  import opened Common
  import opened Alerts

  datatype Step =
    | EvaluateStep(rule: Rule, metric: Metric, now: int)
    | AcknowledgeStep(id: nat)
    | ResolveStep(id: nat)
    | SuppressStep(id: nat)

  function OrKeep(e: Engine, alerts: Option<seq<Alert>>): Engine {
    if alerts.Some? then e.(alerts := alerts.value) else e
  }

  function StepEngine(digest: string -> string, e: Engine, s: Step): Engine {
    match s
    case EvaluateStep(rule, metric, now) => Evaluate(digest, e, rule, metric, now).0
    case AcknowledgeStep(id) => OrKeep(e, Acknowledge(e.alerts, id))
    case ResolveStep(id) => OrKeep(e, Resolve(e.alerts, id))
    case SuppressStep(id) => OrKeep(e, Suppress(e.alerts, id))
  }

  function RunEngine(digest: string -> string, steps: seq<Step>): Engine {
    if steps == [] then Engine(map[], [])
    else StepEngine(digest, RunEngine(digest, steps[..|steps| - 1]), steps[|steps| - 1])
  }

  // ---------------------------------------------------------------- streaks

  predicate Counts(s: Step, key: string) {
    s.EvaluateStep? && s.rule.key == key && s.rule.enabled && !s.metric.MetricRaised?
  }

  /** Strictly beyond the threshold on the operator's side, or on it when the operator includes it. */
  predicate Crosses(rule: Rule, value: real) {
    var gap := value - rule.threshold;
    || (gap > 0.0 && rule.operator in {Gt, Gte})
    || (gap < 0.0 && rule.operator in {Lt, Lte})
    || (gap == 0.0 && rule.operator in {Gte, Lte})
  }

  predicate Breached(s: Step)
    requires s.EvaluateStep?
  {
    s.metric.Measured? && Crosses(s.rule, s.metric.value)
  }

  /** The enabled evaluations of a rule that did not raise, in order. */
  function Checks(steps: seq<Step>, key: string): (r: seq<Step>)
    ensures forall i :: 0 <= i < |r| ==> Counts(r[i], key)
  {
    if steps == [] then []
    else
      var s := steps[|steps| - 1];
      Checks(steps[..|steps| - 1], key) + if Counts(s, key) then [s] else []
  }

  /** Whether each of them had data and breached. */
  function Breaches(steps: seq<Step>, key: string): seq<bool> {
    var checks := Checks(steps, key);
    seq(|checks|, i requires 0 <= i < |checks| => Breached(checks[i]))
  }

  /** n is the length of the longest all-true suffix. */
  predicate LongestTrueSuffix(b: seq<bool>, n: nat) {
    && n <= |b|
    && (forall i :: |b| - n <= i < |b| ==> b[i])
    && (n < |b| ==> !b[|b| - n - 1])
  }

  lemma CountAfterStep(digest: string -> string, e: Engine, s: Step, key: string)
    ensures BreachCount(StepEngine(digest, e, s), key)
         == if !Counts(s, key) then BreachCount(e, key) else if Breached(s) then BreachCount(e, key) + 1 else 0
  {
    hide OpenAlert, DedupKey;
  }

  lemma SuffixGrows(b: seq<bool>, n: nat, last: bool)
    requires LongestTrueSuffix(b, n)
    ensures LongestTrueSuffix(b + [last], if last then n + 1 else 0)
  {
  }

  /** The stored breach count is the current streak of the evaluations that counted. */
  lemma {:induction false} BreachCountIsTheStreak(digest: string -> string, steps: seq<Step>, key: string)
    ensures LongestTrueSuffix(Breaches(steps, key), BreachCount(RunEngine(digest, steps), key))
  {
    hide LongestTrueSuffix, StepEngine, BreachCount, Breached;
    if steps == [] {
      NoStreakYet(key);
    } else {
      var before, s := steps[..|steps| - 1], steps[|steps| - 1];
      BreachCountIsTheStreak(digest, before, key);
      CountAfterStep(digest, RunEngine(digest, before), s, key);
      assert RunEngine(digest, steps) == StepEngine(digest, RunEngine(digest, before), s);
      if Counts(s, key) {
        SuffixGrows(Breaches(before, key), BreachCount(RunEngine(digest, before), key), Breached(s));
        assert Breaches(steps, key) == Breaches(before, key) + [Breached(s)];
      } else {
        assert Checks(steps, key) == Checks(before, key);
      }
    }
  }

  lemma NoStreakYet(key: string)
    ensures LongestTrueSuffix([], BreachCount(Engine(map[], []), key))
  {
  }

  /** An alert is created only after that many measured values in a row beyond the threshold, and at least one. */
  lemma FiredAfterStreak(digest: string -> string, steps: seq<Step>, s: Step) returns (n: nat)
    requires s.EvaluateStep? && Evaluate(digest, RunEngine(digest, steps), s.rule, s.metric, s.now).1.Fired?
    ensures LongestTrueSuffix(Breaches(steps + [s], s.rule.key), n)
    ensures n >= s.rule.consecutiveChecks && n >= 1
    ensures var checks := Checks(steps + [s], s.rule.key);
      n <= |checks| && forall i :: |checks| - n <= i < |checks| ==>
        checks[i].metric.Measured? && Crosses(checks[i].rule, checks[i].metric.value)
  {
    hide Evaluate, Checks;
    n := Streak(digest, steps, s);
    FiredCount(digest, RunEngine(digest, steps), s.rule, s.metric, s.now);
    var checks := Checks(steps + [s], s.rule.key);
    forall i | |checks| - n <= i < |checks| ensures Breached(checks[i]) {
      assert Breaches(steps + [s], s.rule.key)[i];
    }
  }

  /** The stored count after an evaluation is the streak that ends in it. */
  lemma Streak(digest: string -> string, steps: seq<Step>, s: Step) returns (n: nat)
    requires s.EvaluateStep?
    ensures LongestTrueSuffix(Breaches(steps + [s], s.rule.key), n)
    ensures n == BreachCount(Evaluate(digest, RunEngine(digest, steps), s.rule, s.metric, s.now).0, s.rule.key)
  {
    hide Breaches, LongestTrueSuffix, Evaluate;
    var all := steps + [s];
    assert all[..|all| - 1] == steps;
    BreachCountIsTheStreak(digest, all, s.rule.key);
    n := BreachCount(RunEngine(digest, all), s.rule.key);
  }

  lemma FiredCount(digest: string -> string, e: Engine, rule: Rule, metric: Metric, now: int)
    requires Evaluate(digest, e, rule, metric, now).1.Fired?
    ensures var n := BreachCount(Evaluate(digest, e, rule, metric, now).0, rule.key);
      n >= rule.consecutiveChecks && n >= 1
  {
    hide OpenAlert;
    hide DedupKey;
  }

  // ---------------------------------------------------------------- what an outcome says

  /** Some alert under the key still needs attention. */
  ghost predicate SomeOpen(alerts: seq<Alert>, dedup: string) {
    exists i :: 0 <= i < |alerts| && alerts[i].dedup == dedup && IsOpen(alerts[i])
  }

  /** Every alert under the key is strictly older than the cooldown. */
  ghost predicate AllOld(alerts: seq<Alert>, dedup: string, cooldown: int, now: int) {
    forall i :: 0 <= i < |alerts| && alerts[i].dedup == dedup ==> now - alerts[i].triggeredAt > cooldown
  }

  /** The outcome of an evaluation whose streak, itself included, is n. */
  ghost predicate OutcomeIs(digest: string -> string, alerts: seq<Alert>, rule: Rule, metric: Metric, now: int, n: nat,
      o: Outcome)
  {
    var crossed := rule.enabled && metric.Measured? && Crosses(rule, metric.value);
    var due := crossed && n >= rule.consecutiveChecks;
    var key := digest(rule.key + "|" + rule.feature + "::" + rule.provider + "::" + rule.model);
    && (o.Disabled? <==> !rule.enabled)
    && (o.Failed? <==> rule.enabled && metric.MetricRaised?)
    && (o.WithoutData? <==> rule.enabled && metric.NoData?)
    && (o.Ok? <==> rule.enabled && metric.Measured? && !crossed)
    && (o.Breaching? <==> crossed && !due)
    && (o.Deduplicated? <==> due && SomeOpen(alerts, key))
    && (o.CoolingDown? <==>
          due && !SomeOpen(alerts, key) && !AllOld(alerts, key, rule.cooldownMinutes * MINUTE, now))
    && (o.Fired? <==> due && !SomeOpen(alerts, key) && AllOld(alerts, key, rule.cooldownMinutes * MINUTE, now))
  }

  /** What an evaluation does to the alert table: one new alert, one refreshed, or nothing. */
  ghost predicate TableIs(digest: string -> string, before: seq<Alert>, after: seq<Alert>, rule: Rule, metric: Metric,
      now: int, n: nat, o: Outcome)
  {
    match o
    case Fired(id) =>
      && id == |before| && |after| == id + 1 && after[..id] == before && metric.Measured?
      && after[id].ruleKey == rule.key && after[id].dedup == DedupKey(digest, rule) && after[id].status == Triggered
      && after[id].triggeredAt == now && after[id].breachCount == n && after[id].value == metric.value
    case Deduplicated(id) =>
      && id < |before| && before[id].dedup == DedupKey(digest, rule) && IsOpen(before[id]) && metric.Measured?
      && after == before[id := before[id].(breachCount := n, value := metric.value)]
    case _ => after == before
  }

  lemma DedupKeyIs(digest: string -> string, rule: Rule)
    ensures DedupKey(digest, rule) == digest(rule.key + "|" + rule.feature + "::" + rule.provider + "::" + rule.model)
  {
    var scope := rule.feature + "::" + rule.provider + "::" + rule.model;
    assert rule.key + "|" + scope == rule.key + "|" + rule.feature + "::" + rule.provider + "::" + rule.model;
  }

  lemma EvaluationTells(digest: string -> string, e: Engine, rule: Rule, metric: Metric, now: int)
    ensures var (e', o) := Evaluate(digest, e, rule, metric, now);
      && OutcomeIs(digest, e.alerts, rule, metric, now, BreachCount(e', rule.key), o)
      && TableIs(digest, e.alerts, e'.alerts, rule, metric, now, BreachCount(e', rule.key), o)
  {
    hide DedupKey, OpenAlert;
    DedupKeyIs(digest, rule);
    var current := OpenAlert(e.alerts, DedupKey(digest, rule));
    if current.Some? {
      assert SomeOpen(e.alerts, DedupKey(digest, rule));
    }
  }

  /** After any run, the next evaluation answers and does exactly what the values measured so far call for. */
  lemma OutcomeFollowsTheReadings(digest: string -> string, steps: seq<Step>, s: Step) returns (n: nat)
    requires s.EvaluateStep?
    ensures LongestTrueSuffix(Breaches(steps + [s], s.rule.key), n)
    ensures var alerts := RunEngine(digest, steps).alerts;
      var (e', o) := Evaluate(digest, RunEngine(digest, steps), s.rule, s.metric, s.now);
      && OutcomeIs(digest, alerts, s.rule, s.metric, s.now, n, o)
      && TableIs(digest, alerts, e'.alerts, s.rule, s.metric, s.now, n, o)
  {
    hide Evaluate, LongestTrueSuffix, OutcomeIs, TableIs, Breaches;
    n := Streak(digest, steps, s);
    EvaluationTells(digest, RunEngine(digest, steps), s.rule, s.metric, s.now);
  }

  predicate AnswersOk(digest: string -> string, e: Engine, rule: Rule, op: Operator, value: real, now: int) {
    Evaluate(digest, e, rule.(operator := op), Measured(value), now).1.Ok?
  }

  /**
   * An enabled rule is content on one side of its threshold: opposite operators never agree, the
   * inclusive ones differ from the strict ones exactly on the threshold, moving further out never makes
   * a breach good, and an unknown operator is always content.
   */
  lemma OperatorsOppose(digest: string -> string, e: Engine, rule: Rule, value: real, further: real, now: int)
    requires rule.enabled
    ensures AnswersOk(digest, e, rule, Gt, value, now) <==> !AnswersOk(digest, e, rule, Lte, value, now)
    ensures AnswersOk(digest, e, rule, Gte, value, now) <==> !AnswersOk(digest, e, rule, Lt, value, now)
    ensures AnswersOk(digest, e, rule, Gt, value, now) != AnswersOk(digest, e, rule, Gte, value, now)
      <==> value == rule.threshold
    ensures AnswersOk(digest, e, rule, Gt, rule.threshold, now) && AnswersOk(digest, e, rule, OtherOperator, value, now)
    ensures further >= value && !AnswersOk(digest, e, rule, Gt, value, now) ==>
      !AnswersOk(digest, e, rule, Gt, further, now)
    ensures further <= value && !AnswersOk(digest, e, rule, Lt, value, now) ==>
      !AnswersOk(digest, e, rule, Lt, further, now)
    ensures value > rule.threshold ==> !AnswersOk(digest, e, rule, Gt, value, now)
  {
    hide Evaluate, TableIs, SomeOpen, AllOld;
    forall op, v: real
      ensures AnswersOk(digest, e, rule, op, v, now) <==> !Crosses(rule.(operator := op), v)
    {
      EvaluationTells(digest, e, rule.(operator := op), Measured(v), now);
    }
  }

  // ---------------------------------------------------------------- whose alerts are deduplicated

  /** The text holds no separator of a dedup key. */
  predicate Separable(text: string) {
    forall i :: 0 <= i < |text| ==> text[i] != '|' && text[i] != ':'
  }

  /** A text up to the first c, and what follows it. */
  lemma SplitsOnce(a: string, b: string, c: char, x: string, y: string)
    requires a + [c] + x == b + [c] + y
    requires c !in a && c !in b
    ensures a == b && x == y
  {
    var t, u := a + [c] + x, b + [c] + y;
    assert t[|a|] == c && u[|b|] == c;
    assert forall i :: 0 <= i < |a| ==> t[i] == a[i];
    assert forall i :: 0 <= i < |b| ==> u[i] == b[i];
    assert |a| == |b|;
    assert (a + [c] + x)[..|a|] == a && (b + [c] + y)[..|b|] == b;
    assert (a + [c] + x)[|a| + 1..] == x && (b + [c] + y)[|b| + 1..] == y;
  }

  /** With a digest that keeps texts apart, two rules share a dedup key exactly when they are one rule on one scope. */
  lemma DedupKeyIff(digest: string -> string, r: Rule, q: Rule)
    requires forall a, b :: digest(a) == digest(b) ==> a == b
    requires Separable(r.key) && Separable(r.feature) && Separable(r.provider)
    requires Separable(q.key) && Separable(q.feature) && Separable(q.provider)
    ensures DedupKey(digest, r) == DedupKey(digest, q)
      <==> r.key == q.key && r.feature == q.feature && r.provider == q.provider && r.model == q.model
  {
    if DedupKey(digest, r) == DedupKey(digest, q) {
      SplitsOnce(r.key, q.key, '|', ScopeKey(r), ScopeKey(q));
      assert ScopeKey(r) == r.feature + [':'] + (":" + r.provider + "::" + r.model);
      assert ScopeKey(q) == q.feature + [':'] + (":" + q.provider + "::" + q.model);
      SplitsOnce(r.feature, q.feature, ':', ":" + r.provider + "::" + r.model, ":" + q.provider + "::" + q.model);
      var x, y := ":" + r.provider + "::" + r.model, ":" + q.provider + "::" + q.model;
      assert x[1..] == r.provider + [':'] + (":" + r.model) && y[1..] == q.provider + [':'] + (":" + q.model);
      SplitsOnce(r.provider, q.provider, ':', ":" + r.model, ":" + q.model);
      assert (":" + r.model)[1..] == r.model && (":" + q.model)[1..] == q.model;
    }
  }

  /** Otherwise a separator may stand in a name, and two scopes share their alerts. */
  lemma ScopesMayCollide(digest: string -> string, r: Rule)
    ensures var q := r.(feature := "a::b", provider := "c");
      DedupKey(digest, q) == DedupKey(digest, r.(feature := "a", provider := "b::c"))
  {
    assert "a::b" + "::" + "c" + "::" + r.model == "a" + "::" + "b::c" + "::" + r.model;
  }

  // ---------------------------------------------------------------- deduplication

  ghost predicate OneOpenPerKey(alerts: seq<Alert>) {
    forall i, j :: 0 <= i < j < |alerts| && alerts[i].dedup == alerts[j].dedup ==>
      !(IsOpen(alerts[i]) && IsOpen(alerts[j]))
  }

  /** What a step may do to the table: keep each alert's key and time, never reopen, append at most one. */
  ghost predicate Tended(before: seq<Alert>, after: seq<Alert>) {
    && |before| <= |after| <= |before| + 1
    && (forall i :: 0 <= i < |before| ==>
         && after[i].dedup == before[i].dedup
         && after[i].triggeredAt == before[i].triggeredAt
         && (IsOpen(after[i]) ==> IsOpen(before[i]))
         && (before[i].status == Resolved ==> after[i].status == Resolved))
    && (|after| > |before| ==>
         forall i :: 0 <= i < |before| && before[i].dedup == after[|before|].dedup ==> !IsOpen(after[i]))
  }

  lemma StepTends(digest: string -> string, e: Engine, s: Step)
    ensures Tended(e.alerts, StepEngine(digest, e, s).alerts)
  {
    hide DedupKey;
  }

  /** In every reachable state at most one alert per dedup key is open. */
  lemma {:induction false} OneOpenAlertPerKey(digest: string -> string, steps: seq<Step>)
    ensures OneOpenPerKey(RunEngine(digest, steps).alerts)
  {
    if steps != [] {
      hide StepEngine;
      OneOpenAlertPerKey(digest, steps[..|steps| - 1]);
      StepTends(digest, RunEngine(digest, steps[..|steps| - 1]), steps[|steps| - 1]);
    }
  }

  /** A closed alert never reopens, and a resolved one stays resolved. */
  lemma {:induction false} ClosedStaysClosed(digest: string -> string, steps: seq<Step>, later: seq<Step>, i: nat)
    requires i < |RunEngine(digest, steps).alerts| && !IsOpen(RunEngine(digest, steps).alerts[i])
    ensures var after := RunEngine(digest, steps + later).alerts;
      && i < |after| && !IsOpen(after[i])
      && (RunEngine(digest, steps).alerts[i].status == Resolved ==> after[i].status == Resolved)
    decreases |later|
  {
    hide StepEngine;
    if later == [] {
      assert steps + later == steps;
    } else {
      var n := |later| - 1;
      ClosedStaysClosed(digest, steps, later[..n], i);
      assert (steps + later)[..|steps| + n] == steps + later[..n];
      StepTends(digest, RunEngine(digest, steps + later[..n]), later[n]);
    }
  }

  /**
   * What the lifecycle actions do to a status: acknowledging only takes triggered alerts further,
   * resolving closes any alert for good, suppressing any but a resolved one; no action touches
   * anything else.
   */
  lemma ActionsMoveStatuses(digest: string -> string, e: Engine, s: Step, i: nat)
    requires i < |e.alerts| && !s.EvaluateStep?
    ensures var before, after := e.alerts, StepEngine(digest, e, s).alerts;
      && |after| == |before| && StepEngine(digest, e, s).breach == e.breach
      && (s.id != i ==> after[i] == before[i])
      && after[i].(status := before[i].status) == before[i]
      && (s.id == i ==>
            && (s.AcknowledgeStep? ==>
                  after[i].status == if before[i].status.Triggered? then Acknowledged else before[i].status)
            && (s.ResolveStep? ==> after[i].status == Resolved)
            && (s.SuppressStep? ==> after[i].status == if before[i].status.Resolved? then Resolved else Suppressed))
    ensures Acknowledge(e.alerts, i).Some? <==> e.alerts[i].status in {Triggered, Acknowledged}
    ensures Resolve(e.alerts, i).Some? <==> e.alerts[i].status != Resolved
    ensures Suppress(e.alerts, i).Some? <==> e.alerts[i].status != Resolved
  {
  }

  // ---------------------------------------------------------------- the rate bound

  /** Every evaluation under this dedup key has at least this cooldown. */
  predicate CooledFor(digest: string -> string, s: Step, dedup: string, cooldown: nat) {
    s.EvaluateStep? && DedupKey(digest, s.rule) == dedup ==> s.rule.cooldownMinutes * MINUTE >= cooldown
  }

  /** Later alerts under the key come strictly more than the cooldown after every earlier one. */
  ghost predicate Spaced(alerts: seq<Alert>, dedup: string, cooldown: nat) {
    forall i, j :: 0 <= i < j < |alerts| && alerts[i].dedup == dedup && alerts[j].dedup == dedup ==>
      alerts[j].triggeredAt > alerts[i].triggeredAt + cooldown
  }

  lemma NewAlertIsLate(digest: string -> string, e: Engine, s: Step, dedup: string, cooldown: nat)
    requires CooledFor(digest, s, dedup, cooldown)
    ensures var after := StepEngine(digest, e, s).alerts;
      |after| > |e.alerts| && after[|e.alerts|].dedup == dedup ==>
        forall i :: 0 <= i < |e.alerts| && e.alerts[i].dedup == dedup ==>
          after[|e.alerts|].triggeredAt > e.alerts[i].triggeredAt + cooldown
  {
    hide DedupKey;
    hide OpenAlert;
  }

  /**
   * Any two alerts of a scope are strictly more than its cooldown apart, whatever was resolved or
   * suppressed in between.
   */
  lemma {:induction false} AlertsAreSpaced(digest: string -> string, steps: seq<Step>, dedup: string, cooldown: nat)
    requires forall k :: 0 <= k < |steps| ==> CooledFor(digest, steps[k], dedup, cooldown)
    ensures Spaced(RunEngine(digest, steps).alerts, dedup, cooldown)
  {
    if steps != [] {
      hide StepEngine;
      var e := RunEngine(digest, steps[..|steps| - 1]);
      var s := steps[|steps| - 1];
      AlertsAreSpaced(digest, steps[..|steps| - 1], dedup, cooldown);
      StepTends(digest, e, s);
      NewAlertIsLate(digest, e, s, dedup, cooldown);
    }
  }

  predicate InWindow(a: Alert, dedup: string, start: int, length: nat) {
    a.dedup == dedup && start <= a.triggeredAt <= start + length
  }

  function CountInWindow(alerts: seq<Alert>, dedup: string, start: int, length: nat): nat {
    if alerts == [] then 0
    else CountInWindow(alerts[..|alerts| - 1], dedup, start, length)
         + if InWindow(alerts[|alerts| - 1], dedup, start, length) then 1 else 0
  }

  lemma MulStep(n: int, c: int)
    ensures n * c == (n - 1) * c + c
  {
  }

  lemma {:induction false} SpacingFillsTheWindow(alerts: seq<Alert>, dedup: string, cooldown: nat, start: int,
      length: nat) returns (last: nat)
    requires Spaced(alerts, dedup, cooldown) && CountInWindow(alerts, dedup, start, length) > 0
    ensures last < |alerts| && InWindow(alerts[last], dedup, start, length)
    ensures (CountInWindow(alerts, dedup, start, length) - 1) * cooldown <= alerts[last].triggeredAt - start
  {
    var n := |alerts| - 1;
    var before := CountInWindow(alerts[..n], dedup, start, length);
    if before == 0 {
      last := n;
    } else {
      last := SpacingFillsTheWindow(alerts[..n], dedup, cooldown, start, length);
      if InWindow(alerts[n], dedup, start, length) {
        MulStep(before, cooldown);
        last := n;
      }
    }
  }

  lemma QuotientBound(n: int, c: int, w: int)
    requires c > 0 && n * c <= w
    ensures n <= w / c
  {
    var over := w / c + 1 - n;
    assert over * c == (w / c) * c + c - n * c;
    assert over * c > 0;
  }

  /**
   * Any window of length W, both ends included, holds at most floor(W / C) + 1 alerts of a scope with
   * cooldown C > 0.
   */
  lemma AlertRateIsBounded(digest: string -> string, steps: seq<Step>, dedup: string, cooldown: nat, start: int,
      length: nat)
    requires cooldown > 0 && forall k :: 0 <= k < |steps| ==> CooledFor(digest, steps[k], dedup, cooldown)
    ensures CountInWindow(RunEngine(digest, steps).alerts, dedup, start, length) <= length / cooldown + 1
  {
    hide RunEngine, CooledFor;
    var alerts := RunEngine(digest, steps).alerts;
    AlertsAreSpaced(digest, steps, dedup, cooldown);
    var n := CountInWindow(alerts, dedup, start, length);
    if n > 0 {
      var last := SpacingFillsTheWindow(alerts, dedup, cooldown, start, length);
      QuotientBound(n - 1, cooldown, length);
    }
  }

  // ---------------------------------------------------------------- a sweep over all rules

  function TagSum(results: seq<Outcome>): nat {
    Tagged(results, DisabledTag) + Tagged(results, ErrorTag) + Tagged(results, NoDataTag) + Tagged(results, OkTag)
    + Tagged(results, BreachedTag) + Tagged(results, DeduplicatedTag) + Tagged(results, CooldownTag)
      + Tagged(results, TriggeredTag)
  }

  /** The per-outcome counts add up to the number of rules evaluated. */
  lemma {:induction false} CountsAddUp(results: seq<Outcome>)
    ensures TagSum(results) == |results|
  {
    if results != [] {
      CountsAddUp(results[..|results| - 1]);
    }
  }

  /**
   * Every rule swept is enabled, so none is reported disabled; and the table grows by exactly the alerts
   * reported triggered.
   */
  lemma {:induction false} SweepReportsItsAlerts(digest: string -> string, e: Engine, rules: seq<Rule>,
      metric: string -> Metric, now: int)
    requires forall i :: 0 <= i < |rules| ==> rules[i].enabled
    ensures var (e', results) := EvaluateAll(digest, e, rules, metric, now);
      && Tagged(results, DisabledTag) == 0
      && |e'.alerts| == |e.alerts| + Tagged(results, TriggeredTag)
  {
    hide Evaluate, Tagged;
    if rules == [] {
      NothingTagged(DisabledTag);
      NothingTagged(TriggeredTag);
    } else {
      var n := |rules| - 1;
      SweepReportsItsAlerts(digest, e, rules[..n], metric, now);
      var (e1, results) := EvaluateAll(digest, e, rules[..n], metric, now);
      var (e2, outcome) := Evaluate(digest, e1, rules[n], metric(rules[n].key), now);
      EvaluateReportsItsAlert(digest, e1, rules[n], metric(rules[n].key), now);
      TaggedOneMore(results, outcome, DisabledTag);
      TaggedOneMore(results, outcome, TriggeredTag);
      EvaluateAllAppend(digest, e, rules[..n], rules[n], metric, now);
      assert rules == rules[..n] + [rules[n]];
      hide EvaluateAll;
    }
  }

  /** What one metric says about a rule. */
  datatype Finding = Errored | Missing | Within | Beyond

  function FindingOf(rule: Rule, metric: Metric): Finding {
    match metric
    case MetricRaised => Errored
    case NoData => Missing
    case Measured(value) => if Crosses(rule, value) then Beyond else Within
  }

  function CountFindings(rules: seq<Rule>, metric: string -> Metric, f: Finding): nat {
    if rules == [] then 0
    else
      var last := rules[|rules| - 1];
      CountFindings(rules[..|rules| - 1], metric, f) + if FindingOf(last, metric(last.key)) == f then 1 else 0
  }

  lemma TagIsTheFinding(digest: string -> string, e: Engine, rule: Rule, metric: Metric, now: int)
    requires rule.enabled
    ensures var tag := TagOf(Evaluate(digest, e, rule, metric, now).1);
      match FindingOf(rule, metric)
      case Errored => tag == ErrorTag
      case Missing => tag == NoDataTag
      case Within => tag == OkTag
      case Beyond => tag in {BreachedTag, DeduplicatedTag, CooldownTag, TriggeredTag}
    ensures var outcome := Evaluate(digest, e, rule, metric, now).1;
      && (TagOf(outcome) == BreachedTag <==> outcome.Breaching?)
      && (TagOf(outcome) == DeduplicatedTag <==> outcome.Deduplicated?)
      && (TagOf(outcome) == CooldownTag <==> outcome.CoolingDown?)
  {
    hide Evaluate, SomeOpen, AllOld, TableIs;
    EvaluationTells(digest, e, rule, metric, now);
  }

  function BeyondTags(results: seq<Outcome>): nat {
    Tagged(results, BreachedTag) + Tagged(results, DeduplicatedTag) + Tagged(results, CooldownTag)
    + Tagged(results, TriggeredTag)
  }

  ghost predicate CountsTell(results: seq<Outcome>, rules: seq<Rule>, metric: string -> Metric) {
    && Tagged(results, ErrorTag) == CountFindings(rules, metric, Errored)
    && Tagged(results, NoDataTag) == CountFindings(rules, metric, Missing)
    && Tagged(results, OkTag) == CountFindings(rules, metric, Within)
    && BeyondTags(results) == CountFindings(rules, metric, Beyond)
  }

  /** A sweep's counts, told from the metrics alone: errors, missing data, values within and values beyond. */
  lemma {:induction false} SweepCountsTell(digest: string -> string, e: Engine, rules: seq<Rule>,
      metric: string -> Metric, now: int)
    requires forall i :: 0 <= i < |rules| ==> rules[i].enabled
    ensures CountsTell(EvaluateAll(digest, e, rules, metric, now).1, rules, metric)
  {
    hide Evaluate, CountsTell;
    if rules == [] {
      NoCountsTell(metric);
    } else {
      var n := |rules| - 1;
      SweepCountsTell(digest, e, rules[..n], metric, now);
      var (e1, results) := EvaluateAll(digest, e, rules[..n], metric, now);
      CountsTellMore(digest, e1, results, rules[..n], rules[n], metric, now);
      assert rules == rules[..n] + [rules[n]];
    }
  }

  lemma NoCountsTell(metric: string -> Metric)
    ensures CountsTell([], [], metric)
  {
  }

  lemma CountsTellMore(digest: string -> string, e: Engine, results: seq<Outcome>, rules: seq<Rule>, rule: Rule,
      metric: string -> Metric, now: int)
    requires rule.enabled && CountsTell(results, rules, metric)
    ensures CountsTell(results + [Evaluate(digest, e, rule, metric(rule.key), now).1], rules + [rule], metric)
  {
    hide Evaluate, Tagged, FindingOf, TagOf;
    var outcome := Evaluate(digest, e, rule, metric(rule.key), now).1;
    TagIsTheFinding(digest, e, rule, metric(rule.key), now);
    forall t ensures Tagged(results + [outcome], t) == Tagged(results, t) + if TagOf(outcome) == t then 1 else 0 {
      TaggedOneMore(results, outcome, t);
    }
    assert (rules + [rule])[..|rules|] == rules;
  }

  lemma NothingTagged(t: Tag)
    ensures Tagged([], t) == 0
  {
  }

  lemma TaggedOneMore(results: seq<Outcome>, outcome: Outcome, t: Tag)
    ensures Tagged(results + [outcome], t) == Tagged(results, t) + if TagOf(outcome) == t then 1 else 0
  {
    assert (results + [outcome])[..|results|] == results;
  }

  lemma EvaluateReportsItsAlert(digest: string -> string, e: Engine, rule: Rule, metric: Metric, now: int)
    requires rule.enabled
    ensures var (e', o) := Evaluate(digest, e, rule, metric, now);
      && !o.Disabled?
      && |e'.alerts| == |e.alerts| + if o.Fired? then 1 else 0
  {
    hide OpenAlert;
    hide DedupKey;
  }
}
