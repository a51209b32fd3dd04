/** Alert rules, their evaluation and the alert lifecycle (backend/ai_intelligence/alerts.py). */
module Alerts {
  import opened Common

  /** Clock ticks (microseconds) in a minute. */
  const MINUTE: int := 60_000_000

  datatype Operator = Gt | Gte | Lt | Lte | OtherOperator

  datatype Rule = Rule(
    key: string, feature: string, provider: string, model: string, enabled: bool,
    operator: Operator, threshold: real, consecutiveChecks: nat, cooldownMinutes: nat)

  /** What computing a rule's metric gave. */
  datatype Metric = MetricRaised | NoData | Measured(value: real)

  datatype AlertStatus = Triggered | Acknowledged | Resolved | Suppressed

  datatype Alert = Alert(ruleKey: string, dedup: string, status: AlertStatus, triggeredAt: int, breachCount: nat,
      value: real)

  /** `breach` holds each rule's stored `breach_count`; a rule never evaluated has none yet. */
  datatype Engine = Engine(breach: map<string, nat>, alerts: seq<Alert>)

  datatype Outcome =
    | Disabled | Failed | WithoutData | Ok | Breaching | Deduplicated(alert: nat) | CoolingDown | Fired(alert: nat)

  predicate IsBreach(rule: Rule, value: real) {
    match rule.operator
    case Gt => value > rule.threshold
    case Gte => value >= rule.threshold
    case Lt => value < rule.threshold
    case Lte => value <= rule.threshold
    case OtherOperator => false
  }

  function ScopeKey(rule: Rule): string {
    rule.feature + "::" + rule.provider + "::" + rule.model
  }

  /** `digest` stands for the truncated hash. */
  function DedupKey(digest: string -> string, rule: Rule): string {
    digest(rule.key + "|" + ScopeKey(rule))
  }

  predicate IsOpen(a: Alert) {
    a.status in {Triggered, Acknowledged}
  }

  /** The most recent open alert under a dedup key. */
  function OpenAlert(alerts: seq<Alert>, dedup: string): (r: Option<nat>)
    ensures r.Some? ==> r.value < |alerts| && alerts[r.value].dedup == dedup && IsOpen(alerts[r.value])
    ensures r.None? ==> forall i :: 0 <= i < |alerts| && alerts[i].dedup == dedup ==> !IsOpen(alerts[i])
  {
    if alerts == [] then None
    else
      var n := |alerts| - 1;
      if alerts[n].dedup == dedup && IsOpen(alerts[n]) then Some(n) else OpenAlert(alerts[..n], dedup)
  }

  predicate RecentAlert(alerts: seq<Alert>, dedup: string, since: int) {
    exists i :: 0 <= i < |alerts| && alerts[i].dedup == dedup && alerts[i].triggeredAt >= since
  }

  function BreachCount(e: Engine, key: string): nat {
    if key in e.breach then e.breach[key] else 0
  }

  /** `evaluate_rule`. */
  function Evaluate(digest: string -> string, e: Engine, rule: Rule, metric: Metric, now: int): (Engine, Outcome) {
    if !rule.enabled then (e, Disabled)
    else match metric
      case MetricRaised => (e, Failed)
      case NoData => (e.(breach := e.breach[rule.key := 0]), WithoutData)
      case Measured(value) =>
        var breached := IsBreach(rule, value);
        var count := if breached then BreachCount(e, rule.key) + 1 else 0;
        var e1 := e.(breach := e.breach[rule.key := count]);
        if !breached || count < rule.consecutiveChecks then (e1, if breached then Breaching else Ok)
        else Raise(digest, e1, rule, value, count, now)
  }

  /** The part of `evaluate_rule` after the streak is long enough. */
  function Raise(digest: string -> string, e: Engine, rule: Rule, value: real, count: nat,
      now: int): (Engine, Outcome)
  {
    var dedup := DedupKey(digest, rule);
    match OpenAlert(e.alerts, dedup)
    case Some(i) => (e.(alerts := e.alerts[i := e.alerts[i].(breachCount := count, value := value)]), Deduplicated(i))
    case None =>
      if RecentAlert(e.alerts, dedup, now - rule.cooldownMinutes * MINUTE) then (e, CoolingDown)
      else (e.(alerts := e.alerts + [Alert(rule.key, dedup, Triggered, now, count, value)]), Fired(|e.alerts|))
  }

  /** The lifecycle actions; None when the alert is missing or the action is not allowed. */
  function Acknowledge(alerts: seq<Alert>, id: nat): Option<seq<Alert>> {
    if id < |alerts| && IsOpen(alerts[id]) then Some(alerts[id := alerts[id].(status := Acknowledged)]) else None
  }

  function Resolve(alerts: seq<Alert>, id: nat): Option<seq<Alert>> {
    if id < |alerts| && alerts[id].status != Resolved then Some(alerts[id := alerts[id].(status := Resolved)]) else None
  }

  function Suppress(alerts: seq<Alert>, id: nat): Option<seq<Alert>> {
    if id < |alerts| && alerts[id].status != Resolved then Some(alerts[id := alerts[id].(status := Suppressed)])
      else None
  }

  // ---------------------------------------------------------------- evaluating every rule

  datatype Tag = DisabledTag | ErrorTag | NoDataTag | OkTag | BreachedTag | DeduplicatedTag | CooldownTag | TriggeredTag

  function TagOf(o: Outcome): Tag {
    match o
    case Disabled => DisabledTag
    case Failed => ErrorTag
    case WithoutData => NoDataTag
    case Ok => OkTag
    case Breaching => BreachedTag
    case Deduplicated(_) => DeduplicatedTag
    case CoolingDown => CooldownTag
    case Fired(_) => TriggeredTag
  }

  function Enabled(rules: seq<Rule>): (r: seq<Rule>)
    ensures forall rule :: rule in r <==> rule in rules && rule.enabled
  {
    if rules == [] then []
    else Enabled(rules[..|rules| - 1]) + if rules[|rules| - 1].enabled then [rules[|rules| - 1]] else []
  }

  function EvaluateAll(digest: string -> string, e: Engine, rules: seq<Rule>, metric: string -> Metric,
      now: int): (r: (Engine, seq<Outcome>))
    ensures |r.1| == |rules|
  {
    if rules == [] then (e, [])
    else
      var n := |rules| - 1;
      var (e1, results) := EvaluateAll(digest, e, rules[..n], metric, now);
      var (e2, o) := Evaluate(digest, e1, rules[n], metric(rules[n].key), now);
      (e2, results + [o])
  }

  lemma EvaluateAllAppend(digest: string -> string, e: Engine, rules: seq<Rule>, rule: Rule, metric: string -> Metric,
      now: int)
    ensures var (e1, results) := EvaluateAll(digest, e, rules, metric, now);
      var (e2, o) := Evaluate(digest, e1, rule, metric(rule.key), now);
      EvaluateAll(digest, e, rules + [rule], metric, now) == (e2, results + [o])
  {
    hide Evaluate;
    assert (rules + [rule])[..|rules|] == rules;
  }

  function Tagged(results: seq<Outcome>, t: Tag): nat {
    if results == [] then 0
    else Tagged(results[..|results| - 1], t) + if TagOf(results[|results| - 1]) == t then 1 else 0
  }

  function CountOf(counts: map<Tag, nat>, t: Tag): nat {
    if t in counts then counts[t] else 0
  }

  class AlertEngine {
    var breach: map<string, nat>
    var alerts: seq<Alert>
    const digest: string -> string

    constructor (digest: string -> string)
      ensures this.digest == digest && State() == Engine(map[], [])
    {
      this.digest, breach, alerts := digest, map[], [];
    }

    function State(): Engine
      reads this
    {
      Engine(breach, alerts)
    }

    method EvaluateRule(rule: Rule, metric: Metric, now: int) returns (outcome: Outcome)
      modifies this
      ensures (State(), outcome) == Evaluate(digest, old(State()), rule, metric, now)
    {
      if !rule.enabled { return Disabled; }
      if metric.MetricRaised? { return Failed; }
      if metric.NoData? {
        breach := breach[rule.key := 0];
        return WithoutData;
      }
      var breached := IsBreach(rule, metric.value);
      var count := if breached then BreachCount(State(), rule.key) + 1 else 0;
      breach := breach[rule.key := count];
      if !breached || count < rule.consecutiveChecks {
        return if breached then Breaching else Ok;
      }
      var dedup := DedupKey(digest, rule);
      var open := OpenAlert(alerts, dedup);
      if open.Some? {
        alerts := alerts[open.value := alerts[open.value].(breachCount := count, value := metric.value)];
        return Deduplicated(open.value);
      }
      if RecentAlert(alerts, dedup, now - rule.cooldownMinutes * MINUTE) { return CoolingDown; }
      alerts := alerts + [Alert(rule.key, dedup, Triggered, now, count, metric.value)];
      outcome := Fired(|alerts| - 1);
    }

    /** `evaluate_all_rules`: every enabled rule once, with a count per outcome. */
    method EvaluateAllRules(rules: seq<Rule>, metric: string -> Metric, now: int)
      returns (results: seq<Outcome>, counts: map<Tag, nat>)
      modifies this
      ensures (State(), results) == EvaluateAll(digest, old(State()), Enabled(rules), metric, now)
      ensures forall t :: CountOf(counts, t) == Tagged(results, t)
    {
      hide Evaluate;
      results := [];
      var i := 0;
      while i < |rules|
        invariant i <= |rules|
        invariant (State(), results) == EvaluateAll(digest, old(State()), Enabled(rules[..i]), metric, now)
      {
        assert rules[..i + 1][..i] == rules[..i];
        if rules[i].enabled {
          assert Enabled(rules[..i + 1]) == Enabled(rules[..i]) + [rules[i]];
          EvaluateAllAppend(digest, old(State()), Enabled(rules[..i]), rules[i], metric, now);
          var o := EvaluateRule(rules[i], metric(rules[i].key), now);
          results := results + [o];
        } else {
          assert Enabled(rules[..i + 1]) == Enabled(rules[..i]);
        }
        i := i + 1;
      }
      assert rules[..i] == rules;
      counts := CountTags(results);
    }

    static method CountTags(results: seq<Outcome>) returns (counts: map<Tag, nat>)
      ensures forall t :: CountOf(counts, t) == Tagged(results, t)
    {
      counts := map[];
      var i := 0;
      while i < |results|
        invariant i <= |results|
        invariant forall t :: CountOf(counts, t) == Tagged(results[..i], t)
      {
        assert results[..i + 1][..i] == results[..i];
        var tag := TagOf(results[i]);
        counts := counts[tag := CountOf(counts, tag) + 1];
        i := i + 1;
      }
      assert results[..i] == results;
    }

    method AcknowledgeAlert(id: nat) returns (ok: bool)
      modifies this`alerts
      ensures ok == Acknowledge(old(alerts), id).Some?
      ensures alerts == if ok then Acknowledge(old(alerts), id).value else old(alerts)
    {
      if id >= |alerts| || alerts[id].status !in {Triggered, Acknowledged} { return false; }
      alerts := alerts[id := alerts[id].(status := Acknowledged)];
      ok := true;
    }

    method ResolveAlert(id: nat) returns (ok: bool)
      modifies this`alerts
      ensures ok == Resolve(old(alerts), id).Some?
      ensures alerts == if ok then Resolve(old(alerts), id).value else old(alerts)
    {
      if id >= |alerts| || alerts[id].status == Resolved { return false; }
      alerts := alerts[id := alerts[id].(status := Resolved)];
      ok := true;
    }

    method SuppressAlert(id: nat) returns (ok: bool)
      modifies this`alerts
      ensures ok == Suppress(old(alerts), id).Some?
      ensures alerts == if ok then Suppress(old(alerts), id).value else old(alerts)
    {
      if id >= |alerts| || alerts[id].status == Resolved { return false; }
      alerts := alerts[id := alerts[id].(status := Suppressed)];
      ok := true;
    }
  }
}
