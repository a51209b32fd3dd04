/** What every loop head of a run satisfies: bounds, bookkeeping and who may act (backend/agents/session.py). */
module SessionHistory {
  import opened Common
  import opened Privacy
  import opened Tools
  import opened Cost
  import opened Transcript
  import opened Session

  /** The loop state after n turns, if the run gets that far. */
  function HeadAt(cfg: Config, o: Oracle, row: RunRow, l0: LoopState, n: nat): Option<LoopState> {
    if n == 0 then Some(l0)
    else match HeadAt(cfg, o, row, l0, n - 1)
      case None => None
      case Some(l) =>
        if Guard(cfg, o, l.count).Some? then None
        else match Turn(cfg, o, row, l)
          case Continue(next) => Some(next)
          case Stop(_) => None
  }

  /** How a run ends when h is the last loop head it reaches. */
  predicate EndsAt(cfg: Config, o: Oracle, row: RunRow, h: LoopState, final: Final) {
    match Guard(cfg, o, h.count)
    case Some(reason) => final == Halted(h, reason)
    case None => Turn(cfg, o, row, h) == Stop(final)
  }

  /** Every run ends, and it ends at one of its loop heads. */
  lemma {:induction false} LastHead(cfg: Config, o: Oracle, row: RunRow, l0: LoopState, n: nat) returns (m: nat)
    requires HeadAt(cfg, o, row, l0, n).Some?
    requires RunLoop(cfg, o, row, l0) == RunLoop(cfg, o, row, HeadAt(cfg, o, row, l0, n).value)
    ensures HeadAt(cfg, o, row, l0, m).Some?
    ensures EndsAt(cfg, o, row, HeadAt(cfg, o, row, l0, m).value, RunLoop(cfg, o, row, l0))
    decreases Max(0, cfg.limits.maxTurns - HeadAt(cfg, o, row, l0, n).value.count.turns)
  {
    hide Turn;
    var l := HeadAt(cfg, o, row, l0, n).value;
    m := n;
    if Guard(cfg, o, l.count).None? && Turn(cfg, o, row, l).Continue? {
      TurnAdvances(cfg, o, row, l);
      m := LastHead(cfg, o, row, l0, n + 1);
    }
  }

  lemma FirstToLast(cfg: Config, o: Oracle, row: RunRow, l0: LoopState) returns (m: nat)
    ensures HeadAt(cfg, o, row, l0, m).Some?
    ensures EndsAt(cfg, o, row, HeadAt(cfg, o, row, l0, m).value, RunLoop(cfg, o, row, l0))
  {
    hide Turn, Guard, RunLoop;
    m := LastHead(cfg, o, row, l0, 0);
  }

  // ---------------------------------------------------------------- one turn, seen from outside

  const FAILURES: set<Event> := {DeniedCall, ReadFailed, UnknownKind}
  const ACCEPTED: set<Event> := {ReadOk, ReadFailed, ProposedChange}

  predicate Extends<T(==)>(before: seq<T>, after: seq<T>, extra: nat) {
    |after| == |before| + extra && after[..|before|] == before
  }

  /** What the events say happened to the counters and tables. */
  ghost predicate Accounted(cfg: Config, r: Response, l: LoopState, next: LoopState) {
    && r.Reply?
    && Extends(l.events, next.events, 1)
    && var e := next.events[|l.events|];
    && var accepted := if e in ACCEPTED then 1 else 0;
    && next.count == l.count.(
         turns := l.count.turns + 1, input := l.count.input + r.input, output := l.count.output + r.output,
         cost := l.count.cost + IncrementalCost(cfg, r), toolCalls := l.count.toolCalls + accepted,
         failures := if e == ReadOk then 0 else if e in FAILURES then l.count.failures + 1 else l.count.failures)
    && Extends(l.calls, next.calls, accepted)
    && Extends(l.proposals, next.proposals, if e == ProposedChange then 1 else 0)
    && Extends(l.sequence, next.sequence, if e in ACCEPTED + {DeniedCall} then 1 else 0)
    && (e in ACCEPTED + {DeniedCall} ==> (next.sequence[|l.sequence|].1 != Denied <==> e in ACCEPTED))
  }

  lemma ToolTurnAccounted(cfg: Config, o: Oracle, row: RunRow, l: LoopState, turn: nat, call: Data)
    requires call.ToolCall? && ToolTurn(cfg, o, row, l, turn, call).Continue?
    ensures var next := ToolTurn(cfg, o, row, l, turn, call).loop;
      && Extends(l.events, next.events, 1)
      && var e := next.events[|l.events|];
      && var accepted := if e in ACCEPTED then 1 else 0;
      && e in ACCEPTED + {DeniedCall}
      && next.count == l.count.(toolCalls := l.count.toolCalls + accepted,
           failures := if e == ReadOk then 0 else if e in FAILURES then l.count.failures + 1 else l.count.failures)
      && Extends(l.calls, next.calls, accepted)
      && Extends(l.proposals, next.proposals, if e == ProposedChange then 1 else 0)
      && Extends(l.sequence, next.sequence, 1)
      && (next.sequence[|l.sequence|].1 != Denied <==> e in ACCEPTED)
  {
    hide PlanToolCall;
    hide ReadCall;
    hide Persisted;
    hide SanitizeDict;
  }

  lemma TurnAccounted(cfg: Config, o: Oracle, row: RunRow, l: LoopState)
    requires Turn(cfg, o, row, l).Continue?
    ensures Accounted(cfg, o.response(l.count.turns), l, Turn(cfg, o, row, l).loop)
  {
    hide IncrementalCost;
    hide ToolTurn;
    var r := o.response(l.count.turns);
    if r.data.ToolCall? {
      ToolTurnAccounted(cfg, o, row, l.(count := Charged(cfg, l.count, r)), l.count.turns, r.data);
    }
  }

  /** The provider's answer on a turn was a successful one of a kind the loop does not know. */
  predicate AnswersUnknown(o: Oracle, turn: nat) {
    var r := o.response(turn);
    r.Reply? && r.success && r.data.Unknown?
  }

  ghost predicate AnsweredUnknown(o: Oracle, n: nat) {
    exists i: nat :: i < n && AnswersUnknown(o, i)
  }

  lemma TurnUnknownIff(cfg: Config, o: Oracle, row: RunRow, l: LoopState)
    requires Turn(cfg, o, row, l).Continue?
    ensures var next := Turn(cfg, o, row, l).loop;
      && Extends(l.events, next.events, 1)
      && (next.events[|l.events|] == UnknownKind <==> AnswersUnknown(o, l.count.turns))
  {
    hide IncrementalCost;
    hide ToolTurn;
    var r := o.response(l.count.turns);
    if r.data.ToolCall? {
      ToolTurnAccounted(cfg, o, row, l.(count := Charged(cfg, l.count, r)), l.count.turns, r.data);
    }
  }

  /** The history of a run shows an unknown kind exactly when the provider gave one. */
  lemma {:induction false} UnknownIff(cfg: Config, o: Oracle, row: RunRow, wire: seq<Wire>, rows: seq<Message>, n: nat)
    ensures var h := HeadAt(cfg, o, row, Fresh(wire, rows), n);
      h.Some? ==> h.value.count.turns == n && (UnknownKind in h.value.events <==> AnsweredUnknown(o, n))
  {
    hide Turn;
    if n > 0 && HeadAt(cfg, o, row, Fresh(wire, rows), n).Some? {
      UnknownIff(cfg, o, row, wire, rows, n - 1);
      var l := HeadAt(cfg, o, row, Fresh(wire, rows), n - 1).value;
      TurnAdvances(cfg, o, row, l);
      TurnUnknownIff(cfg, o, row, l);
      var next := Turn(cfg, o, row, l).loop;
      assert next.events == l.events + [next.events[|l.events|]];
      AnsweredOneMore(o, n - 1);
    }
  }

  lemma AnsweredOneMore(o: Oracle, n: nat)
    ensures AnsweredUnknown(o, n + 1) <==> AnsweredUnknown(o, n) || AnswersUnknown(o, n)
  {
  }

  // ---------------------------------------------------------------- bookkeeping

  function Tally(events: seq<Event>, kinds: set<Event>): nat {
    if events == [] then 0
    else Tally(events[..|events| - 1], kinds) + if events[|events| - 1] in kinds then 1 else 0
  }

  /** The turns since the last successful read (all of them when there is none). */
  function SinceLastRead(events: seq<Event>): (s: seq<Event>)
    ensures |s| <= |events| && s == events[|events| - |s|..]
    ensures ReadOk !in s
    ensures |s| < |events| ==> events[|events| - |s| - 1] == ReadOk
  {
    if events == [] || events[|events| - 1] == ReadOk then []
    else SinceLastRead(events[..|events| - 1]) + [events[|events| - 1]]
  }

  function NotDenied(sequence: seq<(string, Verdict)>): nat {
    if sequence == [] then 0
    else NotDenied(sequence[..|sequence| - 1]) + if sequence[|sequence| - 1].1 != Denied then 1 else 0
  }

  /** The live counters are exactly what the history and the written rows say. */
  ghost predicate Booked(l: LoopState) {
    && l.count.turns == |l.events|
    && l.count.failures == Tally(SinceLastRead(l.events), FAILURES)
    && l.count.toolCalls == Tally(l.events, ACCEPTED)
    && l.count.toolCalls == |l.calls|
    && l.count.toolCalls == NotDenied(l.sequence)
    && |l.proposals| == Tally(l.events, {ProposedChange})
  }

  lemma TallyExtends(before: seq<Event>, after: seq<Event>, kinds: set<Event>)
    requires Extends(before, after, 1)
    ensures Tally(after, kinds) == Tally(before, kinds) + if after[|before|] in kinds then 1 else 0
  {
    assert after[..|after| - 1] == before;
  }

  lemma FailuresExtend(before: seq<Event>, after: seq<Event>)
    requires Extends(before, after, 1)
    ensures Tally(SinceLastRead(after), FAILURES)
         == if after[|before|] == ReadOk then 0
            else Tally(SinceLastRead(before), FAILURES) + if after[|before|] in FAILURES then 1 else 0
  {
    assert after[..|after| - 1] == before;
    if after[|before|] != ReadOk {
      TallyExtends(SinceLastRead(before), SinceLastRead(after), FAILURES);
    }
  }

  lemma NotDeniedExtends(before: seq<(string, Verdict)>, after: seq<(string, Verdict)>, extra: nat)
    requires extra <= 1 && Extends(before, after, extra)
    ensures NotDenied(after) == NotDenied(before) + if extra == 1 && after[|before|].1 != Denied then 1 else 0
  {
    if extra == 0 {
      assert after == before;
    } else {
      assert after[..|after| - 1] == before;
    }
  }

  lemma BookedStep(cfg: Config, r: Response, l: LoopState, next: LoopState)
    requires Booked(l) && Accounted(cfg, r, l, next)
    ensures Booked(next)
  {
    hide IncrementalCost;
    hide Tally;
    hide SinceLastRead;
    hide NotDenied;
    TallyExtends(l.events, next.events, ACCEPTED);
    TallyExtends(l.events, next.events, {ProposedChange});
    FailuresExtend(l.events, next.events);
    NotDeniedExtends(l.sequence, next.sequence, |next.sequence| - |l.sequence|);
  }

  lemma {:induction false} BookkeepingMatchesHistory(cfg: Config, o: Oracle, row: RunRow, wire: seq<Wire>,
      rows: seq<Message>, n: nat)
    ensures var h := HeadAt(cfg, o, row, Fresh(wire, rows), n);
      h.Some? ==> Booked(h.value) && h.value.count.turns == n
  {
    hide Turn;
    if n > 0 && HeadAt(cfg, o, row, Fresh(wire, rows), n).Some? {
      BookkeepingMatchesHistory(cfg, o, row, wire, rows, n - 1);
      var l := HeadAt(cfg, o, row, Fresh(wire, rows), n - 1).value;
      TurnAccounted(cfg, o, row, l);
      BookedStep(cfg, o.response(l.count.turns), l, Turn(cfg, o, row, l).loop);
    }
  }

  ghost predicate Unreported(o: Oracle) {
    forall i: nat :: o.response(i).Reply? ==>
      o.response(i).reportedCost.None? || o.response(i).reportedCost.value <= 0.0
  }

  /** When no turn reports a cost, the accumulated cost is one estimate on the total tokens. */
  lemma {:induction false} CostIsOneEstimate(cfg: Config, o: Oracle, row: RunRow, wire: seq<Wire>, rows: seq<Message>,
      n: nat)
    requires Unreported(o)
    ensures var h := HeadAt(cfg, o, row, Fresh(wire, rows), n);
      h.Some? ==>
        h.value.count.cost == EstimatedCost(cfg.provider, cfg.model, h.value.count.input, h.value.count.output)
  {
    hide Turn;
    if n > 0 && HeadAt(cfg, o, row, Fresh(wire, rows), n).Some? {
      CostIsOneEstimate(cfg, o, row, wire, rows, n - 1);
      var l := HeadAt(cfg, o, row, Fresh(wire, rows), n - 1).value;
      var r := o.response(l.count.turns);
      TurnAccounted(cfg, o, row, l);
      EstimateIsAdditive(cfg.provider, cfg.model, l.count.input, l.count.output, r.input, r.output);
    }
  }

  /** With the shipped provider names and no reported cost, the cost guardrail can never be what stops a run. */
  lemma CostGuardIsInert(cfg: Config, o: Oracle, row: RunRow, wire: seq<Wire>, rows: seq<Message>)
    requires Unreported(o) && (cfg.provider == "llm" || cfg.provider == "mock_llm")
    requires cfg.limits.maxCost > 0.0
    ensures var final := RunLoop(cfg, o, row, Fresh(wire, rows));
      !final.raised && final.row.status.Terminated? ==> final.row.reason != ReasonText(MaxCost)
  {
    hide Turn;
    var m := LastHead(cfg, o, row, Fresh(wire, rows), 0);
    var h := HeadAt(cfg, o, row, Fresh(wire, rows), m).value;
    CostIsOneEstimate(cfg, o, row, wire, rows, m);
    AgentProvidersAreUnpriced(cfg.provider, cfg.model, h.count.input, h.count.output);
    if Guard(cfg, o, h.count).Some? {
      ReasonsDiffer(Guard(cfg, o, h.count).value);
    } else {
      StoppingTurn(cfg, o, row, h);
    }
  }

  lemma ReasonsDiffer(r: Reason)
    requires r != MaxCost
    ensures ReasonText(r) != ReasonText(MaxCost)
  {
    if r.MaxTurns? {
      assert ReasonText(r)[4] == 't';
    } else if r.MaxToolCalls? {
      assert ReasonText(r)[4] == 't';
    } else if r.MaxTokens? {
      assert ReasonText(r)[4] == 't';
    } else {
      assert ReasonText(r)[0] != 'm';
    }
  }

  // ---------------------------------------------------------------- bounds

  /** A turn that stops the run never touches the tool-call or failure counters without an exception. */
  lemma StoppingTurn(cfg: Config, o: Oracle, row: RunRow, l: LoopState)
    requires Turn(cfg, o, row, l).Stop?
    ensures var final := Turn(cfg, o, row, l).final;
      && final.loop.count.turns == l.count.turns + 1
      && final.loop.count.toolCalls <= l.count.toolCalls + 1
      && final.loop.count.failures <= l.count.failures + 1
      && (if final.raised then final.row == row
          else final.row.status in {Completed, FailedRun} && final.row.totals == final.loop.count)
      && var r := o.response(l.count.turns);
      && (r.Raised? ==> final.raised && final.loop.count == l.count.(turns := l.count.turns + 1))
      && (r.Reply? ==>
            && final.loop.count.input == l.count.input + r.input
            && final.loop.count.output == l.count.output + r.output
            && final.loop.count.cost == l.count.cost + IncrementalCost(cfg, r))
  {
    hide IncrementalCost;
    hide SanitizeDict;
    hide PlanToolCall;
    hide ReadCall;
  }

  /** All six limits are respected strictly at every provider call; this is what a caller relies on. */
  ghost predicate WithinLimits(cfg: Config, o: Oracle, c: Counters) {
    && c.turns < cfg.limits.maxTurns
    && c.toolCalls < cfg.limits.maxToolCalls
    && c.input + c.output < cfg.limits.maxTokens
    && c.cost < cfg.limits.maxCost
    && c.failures < cfg.failureLimit
    && o.elapsedMs(c.turns) < cfg.limits.timeoutSeconds * 1000
  }

  lemma GuardIsTheLimits(cfg: Config, o: Oracle, c: Counters)
    ensures Guard(cfg, o, c).None? <==> WithinLimits(cfg, o, c)
  {
  }

  function Tokens(c: Counters): nat {
    c.input + c.output
  }

  function TokensOf(r: Response): nat {
    if r.Raised? then 0 else r.input + r.output
  }

  function CostOf(cfg: Config, r: Response): real {
    if r.Raised? then 0.0 else IncrementalCost(cfg, r)
  }

  /** At a head: nothing over its limit, tokens and cost over by at most the response just received. */
  ghost predicate AtMostOneOver(cfg: Config, o: Oracle, c: Counters) {
    && c.turns <= Max(0, cfg.limits.maxTurns)
    && c.toolCalls <= Max(0, cfg.limits.maxToolCalls)
    && c.failures <= Max(0, cfg.failureLimit)
    && (c.turns > 0 ==>
         var last := o.response(c.turns - 1);
         && Tokens(c) < cfg.limits.maxTokens + TokensOf(last)
         && c.cost < cfg.limits.maxCost + CostOf(cfg, last))
    && (c.turns == 0 ==> Tokens(c) == 0 && c.cost == 0.0)
  }

  lemma {:induction false} HeadsWithinBounds(cfg: Config, o: Oracle, row: RunRow, wire: seq<Wire>, rows: seq<Message>,
      n: nat)
    ensures var h := HeadAt(cfg, o, row, Fresh(wire, rows), n);
      h.Some? ==> AtMostOneOver(cfg, o, h.value.count)
  {
    hide IncrementalCost;
    hide Turn;
    if n > 0 && HeadAt(cfg, o, row, Fresh(wire, rows), n).Some? {
      HeadsWithinBounds(cfg, o, row, wire, rows, n - 1);
      TurnAccounted(cfg, o, row, HeadAt(cfg, o, row, Fresh(wire, rows), n - 1).value);
    }
  }

  lemma BoundedLastHead(cfg: Config, o: Oracle, row: RunRow, wire: seq<Wire>, rows: seq<Message>) returns (h: LoopState)
    ensures EndsAt(cfg, o, row, h, RunLoop(cfg, o, row, Fresh(wire, rows)))
    ensures AtMostOneOver(cfg, o, h.count)
  {
    hide RunLoop;
    hide Turn;
    hide EndsAt;
    var m := LastHead(cfg, o, row, Fresh(wire, rows), 0);
    h := HeadAt(cfg, o, row, Fresh(wire, rows), m).value;
    HeadsWithinBounds(cfg, o, row, wire, rows, m);
  }

  /**
   * Whatever provider, executors and clock do, a run ends, with every counter within its limit and
   * tokens and cost beyond theirs by at most one response; and it is reported finished unless an
   * exception escaped.
   */
  lemma RunIsBounded(cfg: Config, o: Oracle, row: RunRow, wire: seq<Wire>, rows: seq<Message>)
    ensures var final := RunLoop(cfg, o, row, Fresh(wire, rows));
      && AtMostOneOver(cfg, o, final.loop.count)
      && (!final.raised ==>
            final.row.status in {Completed, Terminated, FailedRun} && final.row.totals == final.loop.count)
      && (final.raised ==> final.row == row)
  {
    hide RunLoop;
    hide HeadAt;
    hide Turn;
    hide Persisted;
    hide StopSentence;
    hide IncrementalCost;
    hide GuardrailReason;
    var h := BoundedLastHead(cfg, o, row, wire, rows);
    GuardIsTheLimits(cfg, o, h.count);
    if Guard(cfg, o, h.count).None? {
      StoppingTurn(cfg, o, row, h);
    }
  }

  /** Zero means "unset" for every override but cost, where it stops the run before the first provider call. */
  lemma ZeroCostOverrideStopsAtOnce(cfg: Config, o: Oracle, row: RunRow, wire: seq<Wire>, rows: seq<Message>,
                                    overrides: Overrides, defaults: Limits)
    requires cfg.limits == EffectiveLimits(overrides, defaults) && overrides.maxCost == Some(0.0)
    ensures RunLoop(cfg, o, row, Fresh(wire, rows)).loop.count == NO_COUNTS
    ensures RunLoop(cfg, o, row, Fresh(wire, rows)).row.status == Terminated
    ensures overrides.(maxCost := None) == Overrides(Some(0), Some(0), Some(0), None, Some(0)) ==>
      cfg.limits == defaults.(maxCost := 0.0)
  {
    hide Turn;
  }

  // ---------------------------------------------------------------- who may act

  /**
   * Rows of immediate execution name permitted read-only tools; every other action is a proposal at the
   * right ceiling.
   */
  ghost predicate ActsWithinPermission(cfg: Config, l: LoopState) {
    && (forall i :: 0 <= i < |l.calls| ==>
         && l.calls[i].tool in cfg.registry
         && MayUse(cfg.permission, cfg.registry[l.calls[i].tool].capability)
         && (l.calls[i].status == ProposedCall <==> !cfg.registry[l.calls[i].tool].capability.ReadOnly?))
    && (forall i :: 0 <= i < |l.proposals| ==>
         && l.proposals[i].tool in cfg.registry
         && (l.proposals[i].approval == AdminOnly <==> cfg.registry[l.proposals[i].tool].capability.HighRisk?)
         && MayUse(cfg.permission, cfg.registry[l.proposals[i].tool].capability))
  }

  lemma ToolTurnActsWithinPermission(cfg: Config, o: Oracle, row: RunRow, l: LoopState, turn: nat, call: Data)
    requires Keyed(cfg.registry) && ActsWithinPermission(cfg, l)
    requires call.ToolCall? && ToolTurn(cfg, o, row, l, turn, call).Continue?
    ensures ActsWithinPermission(cfg, ToolTurn(cfg, o, row, l, turn, call).loop)
  {
    hide PlanToolCall;
    hide Persisted;
    hide SanitizeDict;
    hide Capabilities;
    PlanIsTheGate(cfg.registry, cfg.permission, cfg.allowlist, call.name, Arguments(call));
  }

  lemma {:induction false} SessionActsWithinPermission(cfg: Config, o: Oracle, row: RunRow, wire: seq<Wire>,
      rows: seq<Message>, n: nat)
    requires Keyed(cfg.registry)
    ensures var h := HeadAt(cfg, o, row, Fresh(wire, rows), n);
      h.Some? ==> ActsWithinPermission(cfg, h.value)
  {
    hide ToolTurn;
    hide IncrementalCost;
    hide Capabilities;
    if n > 0 && HeadAt(cfg, o, row, Fresh(wire, rows), n).Some? {
      SessionActsWithinPermission(cfg, o, row, wire, rows, n - 1);
      var l := HeadAt(cfg, o, row, Fresh(wire, rows), n - 1).value;
      var r := o.response(l.count.turns);
      if r.data.ToolCall? {
        ToolTurnActsWithinPermission(cfg, o, row, l.(count := Charged(cfg, l.count, r)), l.count.turns, r.data);
      }
    }
  }
}
