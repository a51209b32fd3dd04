/**
 * What a run's stored rows, counters and ending say about the answers it was given
 * (backend/agents/session.py).
 */
module SessionStory {
  import opened Common
  import opened Json
  import opened Privacy
  import opened Sanitizer
  import opened Tools
  import opened Cost
  import opened Transcript
  import opened Session
  import opened SessionHistory

  // ---------------------------------------------------------------- stored rows and counters

  predicate Good(result: Value) {
    result.Obj? && Truthy(Get(result.fields, "ok"))
  }

  /** The stored error is the result's, cut to 500 characters, and empty when there is none. */
  predicate ErrorTells(row: ToolCallRow)
    requires row.result.Obj?
  {
    var e := Get(row.result.fields, "error");
    && (!Truthy(e) ==> row.error == "")
    && (e.Str? ==> row.error <= e.s && |row.error| == Min(|e.s|, 500))
  }

  /** The status of a stored call is what its decision and its result say. */
  predicate RowTells(row: ToolCallRow) {
    match row.decision
    case ReadAllowed => && row.result.Obj? && ErrorTells(row)
                        && row.status == if Good(row.result) then Executed else FailedCall
    case Proposed => row.status == ProposedCall
    case Denied => false
  }

  /** How the turn behind a stored call went. */
  function EventOf(row: ToolCallRow): Event {
    if row.decision.Proposed? then ProposedChange else if Good(row.result) then ReadOk else ReadFailed
  }

  function EventsOf(calls: seq<ToolCallRow>): seq<Event> {
    seq(|calls|, i requires 0 <= i < |calls| => EventOf(calls[i]))
  }

  function Accepted(events: seq<Event>): seq<Event> {
    if events == [] then []
    else
      var last := events[|events| - 1];
      Accepted(events[..|events| - 1]) + if last in {ReadOk, ReadFailed, ProposedChange} then [last] else []
  }

  /** The tool sequence without its denials. */
  function Allowed(sequence: seq<(string, Verdict)>): seq<(string, Verdict)> {
    if sequence == [] then []
    else
      var last := sequence[|sequence| - 1];
      Allowed(sequence[..|sequence| - 1]) + if last.1.Denied? then [] else [last]
  }

  function VerdictsOf(calls: seq<ToolCallRow>): seq<(string, Verdict)> {
    seq(|calls|, i requires 0 <= i < |calls| => (calls[i].tool, calls[i].decision))
  }

  /** Every accepted turn has its row, in order, and went as the row's result says. */
  ghost predicate Tells(l: LoopState) {
    && (forall i :: 0 <= i < |l.calls| ==> RowTells(l.calls[i]))
    && Accepted(l.events) == EventsOf(l.calls)
    && Allowed(l.sequence) == VerdictsOf(l.calls)
    && (DeniedCall in l.events ==> SomeDenied(l.sequence))
  }

  predicate SomeDenied(sequence: seq<(string, Verdict)>) {
    exists i :: 0 <= i < |sequence| && sequence[i].1.Denied?
  }

  /** One tool turn: at most one more row, event and verdict, and they belong together. */
  ghost predicate TellsMore(l: LoopState, next: LoopState) {
    && Extends(l.events, next.events, 1)
    && (|| (next.calls == l.calls && next.events[|l.events|] == DeniedCall
            && Extends(l.sequence, next.sequence, 1) && next.sequence[|l.sequence|].1.Denied?)
        || (&& Extends(l.calls, next.calls, 1) && Extends(l.sequence, next.sequence, 1)
            && var row := next.calls[|l.calls|];
            && RowTells(row) && next.events[|l.events|] == EventOf(row)
            && next.sequence[|l.sequence|] == (row.tool, row.decision)))
  }

  lemma ReadCallTells(cfg: Config, tool: Tool, args: Value, attempts: (Attempt, Attempt))
    requires ReadCall(cfg, tool, args, attempts).Some?
    ensures var row := ReadCall(cfg, tool, args, attempts).value;
      RowTells(row) && row.decision == ReadAllowed && row.tool == tool.name
  {
    hide SanitizedOutcome, SanitizeDict, Execute, Maskable, Get;
  }

  lemma ToolTurnTells(cfg: Config, o: Oracle, row: RunRow, l: LoopState, turn: nat, call: Data)
    requires Keyed(cfg.registry) && call.ToolCall? && ToolTurn(cfg, o, row, l, turn, call).Continue?
    ensures TellsMore(l, ToolTurn(cfg, o, row, l, turn, call).loop)
  {
    hide ReadCall, ExchangeRows, ExchangeWire, SanitizeDict, Capabilities, Good, ErrorTells, ErrorEnvelope;
    PlanIsTheGate(cfg.registry, cfg.permission, cfg.allowlist, call.name, Arguments(call));
    match PlanOf(cfg, call)
    case Read(tool) => ReadCallTells(cfg, tool, Arguments(call), o.attempts(turn));
    case _ =>
  }

  lemma AcceptedMore(events: seq<Event>, e: Event)
    ensures Accepted(events + [e]) == Accepted(events) + if e in {ReadOk, ReadFailed, ProposedChange} then [e] else []
  {
    assert (events + [e])[..|events|] == events;
  }

  lemma AllowedMore(sequence: seq<(string, Verdict)>, v: (string, Verdict))
    ensures Allowed(sequence + [v]) == Allowed(sequence) + if v.1.Denied? then [] else [v]
  {
    assert (sequence + [v])[..|sequence|] == sequence;
  }

  lemma Grown<T>(before: seq<T>, after: seq<T>)
    requires Extends(before, after, 1)
    ensures after == before + [after[|before|]]
  {
  }

  lemma StillTells(l: LoopState, next: LoopState)
    requires Tells(l) && TellsMore(l, next)
    ensures Tells(next)
  {
    hide Accepted, Allowed, RowTells;
    Grown(l.events, next.events);
    AcceptedMore(l.events, next.events[|l.events|]);
    Grown(l.sequence, next.sequence);
    AllowedMore(l.sequence, next.sequence[|l.sequence|]);
    if SomeDenied(l.sequence) {
      var i :| 0 <= i < |l.sequence| && l.sequence[i].1.Denied?;
      assert next.sequence[i].1.Denied?;
    }
    if |next.calls| > |l.calls| {
      Grown(l.calls, next.calls);
      var row := next.calls[|l.calls|];
      assert EventsOf(next.calls) == EventsOf(l.calls) + [EventOf(row)];
      assert VerdictsOf(next.calls) == VerdictsOf(l.calls) + [(row.tool, row.decision)];
      EventIsAccepted(row);
    }
  }

  lemma EventIsAccepted(row: ToolCallRow)
    requires RowTells(row)
    ensures EventOf(row) in {ReadOk, ReadFailed, ProposedChange} && !row.decision.Denied?
  {
  }

  lemma OtherTurnTells(l: LoopState, next: LoopState)
    requires Tells(l) && next.calls == l.calls && next.sequence == l.sequence
    requires Extends(l.events, next.events, 1) && next.events[|l.events|] in {Passed, UnknownKind}
    ensures Tells(next)
  {
    hide Allowed, RowTells;
    Grown(l.events, next.events);
    AcceptedMore(l.events, next.events[|l.events|]);
  }

  /**
   * At every loop head the accepted turns are the stored calls, in order: each went as the decision and
   * the result of its row say, and so do the row's status and error and the tool sequence.
   */
  lemma {:induction false} HeadsTell(cfg: Config, o: Oracle, row: RunRow, wire: seq<Wire>, rows: seq<Message>, n: nat)
    requires Keyed(cfg.registry)
    ensures var h := HeadAt(cfg, o, row, Fresh(wire, rows), n);
      h.Some? ==> Tells(h.value)
  {
    hide ToolTurn, IncrementalCost, Tells, TellsMore, Guard;
    if n == 0 {
      NothingTells(wire, rows);
    } else if HeadAt(cfg, o, row, Fresh(wire, rows), n).Some? {
      HeadsTell(cfg, o, row, wire, rows, n - 1);
      var l := HeadAt(cfg, o, row, Fresh(wire, rows), n - 1).value;
      var r := o.response(l.count.turns);
      var charged := l.(count := Charged(cfg, l.count, r));
      CountsDoNotTell(l, charged);
      if r.data.ToolCall? {
        ToolTurnTells(cfg, o, row, charged, l.count.turns, r.data);
        StillTells(charged, Turn(cfg, o, row, l).loop);
      } else {
        OtherTurnTells(charged, Turn(cfg, o, row, l).loop);
      }
    }
  }

  lemma NothingTells(wire: seq<Wire>, rows: seq<Message>)
    ensures Tells(Fresh(wire, rows))
  {
  }

  lemma CountsDoNotTell(l: LoopState, charged: LoopState)
    requires Tells(l) && charged.calls == l.calls && charged.sequence == l.sequence && charged.events == l.events
    ensures Tells(charged)
  {
  }

  // ---------------------------------------------------------------- failures, from what is stored

  lemma {:induction false} NoFailures(events: seq<Event>)
    requires forall i :: 0 <= i < |events| ==> events[i] !in FAILURES
    ensures Tally(SinceLastRead(events), FAILURES) == 0
  {
    if events != [] && events[|events| - 1] != ReadOk {
      NoFailures(events[..|events| - 1]);
      assert SinceLastRead(events)[..|SinceLastRead(events)| - 1] == SinceLastRead(events[..|events| - 1]);
    }
  }

  lemma {:induction false} FailedReadIsAccepted(events: seq<Event>)
    requires ReadFailed in events
    ensures ReadFailed in Accepted(events)
  {
    var n := |events| - 1;
    if events[n] != ReadFailed {
      FailedReadIsAccepted(events[..n]);
    }
  }

  /** A denial in the tool sequence, a stored read without a good result, or an answer of an unknown kind. */
  ghost predicate SomethingFailed(o: Oracle, l: LoopState, n: nat) {
    || SomeDenied(l.sequence)
    || (exists i :: 0 <= i < |l.calls| && l.calls[i].decision == ReadAllowed && !Good(l.calls[i].result))
    || AnsweredUnknown(o, n)
  }

  /** The failure counter is raised by nothing else. */
  lemma FailuresHaveACause(cfg: Config, o: Oracle, row: RunRow, wire: seq<Wire>, rows: seq<Message>, n: nat)
    requires Keyed(cfg.registry)
    ensures var h := HeadAt(cfg, o, row, Fresh(wire, rows), n);
      h.Some? && h.value.count.failures > 0 ==> SomethingFailed(o, h.value, n)
  {
    hide HeadAt, Tells, SomethingFailed, Tally, SinceLastRead;
    var h := HeadAt(cfg, o, row, Fresh(wire, rows), n);
    if h.Some? && !SomethingFailed(o, h.value, n) {
      HeadsTell(cfg, o, row, wire, rows, n);
      UnknownIff(cfg, o, row, wire, rows, n);
      BookkeepingMatchesHistory(cfg, o, row, wire, rows, n);
      NothingFailed(o, h.value, n);
    }
  }

  lemma NothingFailed(o: Oracle, l: LoopState, n: nat)
    requires Tells(l) && !SomethingFailed(o, l, n) && (UnknownKind in l.events <==> AnsweredUnknown(o, n))
    ensures Tally(SinceLastRead(l.events), FAILURES) == 0
  {
    hide Tally, SinceLastRead, AnsweredUnknown, Good, Accepted, Allowed;
    assert ReadFailed !in EventsOf(l.calls) by {
      forall i | 0 <= i < |l.calls| ensures EventOf(l.calls[i]) != ReadFailed {
        NotDenied(l.calls[i]);
      }
    }
    if ReadFailed in l.events {
      FailedReadIsAccepted(l.events);
    }
    NoFailures(l.events);
  }

  lemma NotDenied(row: ToolCallRow)
    requires RowTells(row)
    ensures !row.decision.Denied?
  {
  }

  // ---------------------------------------------------------------- how a run ends

  /** The text of a reason names the first limit, in the order of the checks, that was reached. */
  ghost predicate NamesFirstLimit(cfg: Config, c: Counters, elapsedMs: int, reason: string) {
    var lim := cfg.limits;
    var turns, calls, tokens := c.turns < lim.maxTurns, c.toolCalls < lim.maxToolCalls, Tokens(c) < lim.maxTokens;
    var cost, time := c.cost < lim.maxCost, elapsedMs < 1000 * lim.timeoutSeconds;
    && (reason == "max_turns_exceeded" <==> !turns)
    && (reason == "max_tool_calls_exceeded" <==> turns && !calls)
    && (reason == "max_tokens_exceeded" <==> turns && calls && !tokens)
    && (reason == "max_cost_exceeded" <==> turns && calls && tokens && !cost)
    && (reason == "timeout" <==> turns && calls && tokens && cost && !time)
    && (reason == "consecutive_tool_failures" <==> turns && calls && tokens && cost && time)
    && (turns && calls && tokens && cost && time ==> c.failures >= cfg.failureLimit)
  }

  lemma ReasonTextIs(r: Reason)
    ensures ReasonText(r) == "max_turns_exceeded" <==> r.MaxTurns?
    ensures ReasonText(r) == "max_tool_calls_exceeded" <==> r.MaxToolCalls?
    ensures ReasonText(r) == "max_tokens_exceeded" <==> r.MaxTokens?
    ensures ReasonText(r) == "max_cost_exceeded" <==> r.MaxCost?
    ensures ReasonText(r) == "timeout" <==> r.Timeout?
    ensures ReasonText(r) == "consecutive_tool_failures" <==> r.ConsecutiveFailures?
  {
    assert |ReasonText(r)| == match r
      case MaxTurns => 18
      case MaxToolCalls => 23
      case MaxTokens => 19
      case MaxCost => 17
      case Timeout => 7
      case ConsecutiveFailures => 25;
  }

  lemma GuardNamesFirstLimit(cfg: Config, c: Counters, elapsedMs: int)
    ensures var stop := GuardrailReason(cfg.limits, cfg.failureLimit, c, elapsedMs);
      stop.Some? ==> NamesFirstLimit(cfg, c, elapsedMs, ReasonText(stop.value))
  {
    var stop := GuardrailReason(cfg.limits, cfg.failureLimit, c, elapsedMs);
    if stop.Some? {
      ReasonTextIs(stop.value);
      hide ReasonText;
    }
  }

  /** The last answer of a run, and what it left: rows are the transcript before it. */
  ghost predicate EndsWith(cfg: Config, o: Oracle, final: Final, rows: seq<Message>) {
    var c, row := final.loop.count, final.row;
    && row.totals == c
    && match row.status
       case Terminated =>
         && NamesFirstLimit(cfg, c, o.elapsedMs(c.turns), row.reason)
         && |final.loop.rows| == |rows| + 1 && final.loop.rows[|rows|].role == Assistant
       case Completed =>
         && c.turns > 0 && row.reason == ""
         && var r := o.response(c.turns - 1);
         && r.Reply? && r.success && r.data.Text?
         && |final.loop.rows| == |rows| + 1
         && var last := final.loop.rows[|rows|];
         last.role == Assistant && last.meta == NoMeta && last.content == SanitizeText(r.data.content, TEXT_LIMIT)
       case FailedRun =>
         && c.turns > 0 && row.reason == "provider_failure"
         && var r := o.response(c.turns - 1);
         r.Reply? && !r.success && final.loop.rows == rows
       case _ => false
  }

  lemma SanitizedTextTwice(s: string, limit: nat)
    ensures SanitizeText(SanitizeText(s, limit), limit) == SanitizeText(s, limit)
  {
    var t := SanitizeText(s, limit);
    StrippedHasNone(s);
    NothingToStrip(t);
  }

  lemma {:induction false} StrippedHasNone(s: string)
    ensures forall i :: 0 <= i < |Stripped(s)| ==> Stripped(s)[i] != '\0' && Stripped(s)[i] != '\r'
  {
    if s != "" {
      StrippedHasNone(s[1..]);
    }
  }

  lemma {:induction false} NothingToStrip(s: string)
    requires forall i :: 0 <= i < |s| ==> s[i] != '\0' && s[i] != '\r'
    ensures Stripped(s) == s
  {
    if s != "" {
      NothingToStrip(s[1..]);
      assert [s[0]] + s[1..] == s;
    }
  }

  lemma {:induction false} StrippedInParts(a: string, b: string)
    ensures Stripped(a + b) == Stripped(a) + Stripped(b)
  {
    if a == "" {
      assert a + b == b;
    } else {
      assert (a + b)[1..] == a[1..] + b;
      StrippedInParts(a[1..], b);
    }
  }

  lemma StrippedAround(a: string, c: char, b: string)
    ensures Stripped(a + [c] + b) == Stripped(a) + (if c in {'\0', '\r'} then [] else [c]) + Stripped(b)
    ensures Stripped(a + b) == Stripped(a) + Stripped(b)
  {
    StrippedInParts(a + [c], b);
    StrippedInParts(a, [c]);
    StrippedInParts(a, b);
    StrippedOfOne(c);
  }

  /** Cleaning drops NUL and CR and keeps every other character, in order; only then is the text cut. */
  lemma CleaningDropsNulAndCr(a: string, c: char, b: string, limit: nat)
    ensures c in {'\0', '\r'} ==> SanitizeText(a + [c] + b, limit) == SanitizeText(a + b, limit)
    ensures c !in {'\0', '\r'} && |a + b| < limit ==>
      SanitizeText(a + [c] + b, limit) == SanitizeText(a, limit) + [c] + SanitizeText(b, limit)
    ensures |SanitizeText(a, limit)| <= limit
    ensures '\0' !in SanitizeText(a, limit) && '\r' !in SanitizeText(a, limit)
  {
    StrippedAround(a, c, b);
    StrippedHasNone(a);
    StrippedShortens(a);
    StrippedShortens(b);
    hide Stripped;
    assert Stripped(a) + [] + Stripped(b) == Stripped(a) + Stripped(b);
  }

  lemma StrippedOfOne(c: char)
    ensures Stripped([c]) == if c in {'\0', '\r'} then [] else [c]
  {
    assert [c][1..] == "" && Stripped("") == "";
  }

  lemma {:induction false} StrippedShortens(s: string)
    ensures |Stripped(s)| <= |s|
  {
    if s != "" {
      StrippedShortens(s[1..]);
    }
  }

  /**
   * A run that no exception left ends in one of three ways: with the model's text, cleaned, as the last
   * message; with a provider failure and no message; or at the first limit reached, by its name.
   */
  lemma EndingTells(cfg: Config, o: Oracle, row: RunRow, wire: seq<Wire>, rows: seq<Message>) returns (h: LoopState)
    ensures var final := RunLoop(cfg, o, row, Fresh(wire, rows));
      !final.raised ==> EndsWith(cfg, o, final, h.rows) && h.rows <= final.loop.rows
  {
    hide RunLoop, HeadAt, Guard, Stripped, IncrementalCost, ToolTurn, NamesFirstLimit, SanitizeText, StopSentence;
    var m := FirstToLast(cfg, o, row, Fresh(wire, rows));
    h := HeadAt(cfg, o, row, Fresh(wire, rows), m).value;
    var final := RunLoop(cfg, o, row, Fresh(wire, rows));
    if Guard(cfg, o, h.count).Some? {
      GuardNames(cfg, o, h.count);
    } else if !final.raised {
      var r := o.response(h.count.turns);
      if r.success && r.data.ToolCall? {
        ToolTurnsRaise(cfg, o, row, h.(count := Charged(cfg, h.count, r)), h.count.turns, r.data);
      } else if r.data.Text? {
        SanitizedTextTwice(r.data.content, TEXT_LIMIT);
      }
    }
  }

  lemma GuardNames(cfg: Config, o: Oracle, c: Counters)
    ensures Guard(cfg, o, c).Some? ==>
      NamesFirstLimit(cfg, c, o.elapsedMs(c.turns), ReasonText(Guard(cfg, o, c).value))
  {
    hide NamesFirstLimit, GuardrailReason, ReasonText;
    GuardNamesFirstLimit(cfg, c, o.elapsedMs(c.turns));
  }

  lemma ToolTurnsRaise(cfg: Config, o: Oracle, row: RunRow, l: LoopState, turn: nat, call: Data)
    requires call.ToolCall? && ToolTurn(cfg, o, row, l, turn, call).Stop?
    ensures ToolTurn(cfg, o, row, l, turn, call).final.raised
  {
    hide ReadCall, ExchangeRows, ExchangeWire, SanitizeDict, PlanToolCall;
  }

  /** A stopped run says so with the words of its reason, and without underscores. */
  lemma StopSentenceReads(r: Reason, i: nat)
    requires i < |ReasonText(r)|
    ensures var sentence, reason := StopSentence(r), ReasonText(r);
      && |sentence| == 18 + |reason| + 1 && sentence[..18] == "I stopped because "
      && (sentence[18 + i] == reason[i] || (reason[i] == '_' && sentence[18 + i] == ' ')) && sentence[18 + i] != '_'
  {
    hide ReasonText;
    assert |"I stopped because "| == 18;
  }

  lemma {:induction false} GetIs(fields: seq<(Key, Value)>, k: nat, key: string)
    requires k < |fields| && fields[k].0 == Name(key) && forall j :: 0 <= j < k ==> fields[j].0 != Name(key)
    ensures Get(fields, key) == fields[k].1
  {
    if k > 0 {
      GetIs(fields[1..], k - 1, key);
    }
  }

  /** The model is told that its proposal exists and waits for approval, by key and the start of its summary. */
  lemma ModelIsToldToWait(reply: ProposalReply)
    ensures var told := ProposalPayload(reply).fields;
      && Get(told, "proposal_created") == Bool(true) && Get(told, "pending_approval") == Bool(true)
      && Get(told, "status") == Str("pending") && Get(told, "proposal_key") == Str(reply.key)
      && var summary := Get(told, "summary");
      summary.Str? && summary.s <= reply.summary && |summary.s| == Min(|reply.summary|, 400)
  {
    hide Get;
    var told := ProposalPayload(reply).fields;
    KeysDiffer();
    GetIs(told, 0, "proposal_created");
    GetIs(told, 1, "proposal_key");
    GetIs(told, 2, "summary");
    GetIs(told, 3, "status");
    GetIs(told, 4, "pending_approval");
  }

  lemma KeysDiffer()
    ensures "proposal_created" != "proposal_key" && "proposal_created" != "pending_approval"
    ensures "proposal_key" != "pending_approval" && "summary" != "status"
    ensures |"summary"| == 7 && |"status"| == 6 && |"proposal_key"| == 12
  {
    assert |"proposal_created"| == 16 && |"pending_approval"| == 16;
    assert "proposal_created"[1] == 'r' && "pending_approval"[1] == 'e';
  }

  // ---------------------------------------------------------------- cost and limits

  predicate Reports(r: Response) {
    r.Reply? && r.reportedCost.Some? && r.reportedCost.value > 0.0
  }

  /** What the first n answers report, and the tokens of those that report nothing. */
  function Reported(o: Oracle, n: nat): real {
    if n == 0 then 0.0
    else Reported(o, n - 1) + if Reports(o.response(n - 1)) then o.response(n - 1).reportedCost.value else 0.0
  }

  function SilentInput(o: Oracle, n: nat): nat {
    if n == 0 then 0
    else
      var r := o.response(n - 1);
      SilentInput(o, n - 1) + if r.Raised? || Reports(r) then 0 else r.input
  }

  function SilentOutput(o: Oracle, n: nat): nat {
    if n == 0 then 0
    else
      var r := o.response(n - 1);
      SilentOutput(o, n - 1) + if r.Raised? || Reports(r) then 0 else r.output
  }

  lemma {:induction false} HeadHeard(cfg: Config, o: Oracle, row: RunRow, wire: seq<Wire>, rows: seq<Message>, n: nat)
    ensures var h := HeadAt(cfg, o, row, Fresh(wire, rows), n);
      h.Some? ==> h.value.count.turns == n && (n > 0 ==> o.response(n - 1).Reply?)
  {
    hide Turn, Guard;
    if n > 0 && HeadAt(cfg, o, row, Fresh(wire, rows), n).Some? {
      HeadHeard(cfg, o, row, wire, rows, n - 1);
      TurnAccounted(cfg, o, row, HeadAt(cfg, o, row, Fresh(wire, rows), n - 1).value);
    }
  }

  /** The accumulated cost is what was reported, and one estimate on the tokens of the answers that reported nothing. */
  lemma {:induction false} CostIsReportsAndEstimate(cfg: Config, o: Oracle, row: RunRow, wire: seq<Wire>,
      rows: seq<Message>, n: nat)
    ensures var h := HeadAt(cfg, o, row, Fresh(wire, rows), n);
      h.Some? ==>
        h.value.count.cost
        == Reported(o, n) + EstimatedCost(cfg.provider, cfg.model, SilentInput(o, n), SilentOutput(o, n))
  {
    hide Turn, Guard, EstimatedCost;
    if n == 0 {
      NothingCosts(cfg.provider, cfg.model);
    } else if HeadAt(cfg, o, row, Fresh(wire, rows), n).Some? {
      CostIsReportsAndEstimate(cfg, o, row, wire, rows, n - 1);
      HeadHeard(cfg, o, row, wire, rows, n - 1);
      var l := HeadAt(cfg, o, row, Fresh(wire, rows), n - 1).value;
      var r := o.response(n - 1);
      TurnAccounted(cfg, o, row, l);
      EstimateIsAdditive(cfg.provider, cfg.model, SilentInput(o, n - 1), SilentOutput(o, n - 1), r.input, r.output);
    }
  }

  lemma NothingCosts(provider: string, model: string)
    ensures EstimatedCost(provider, model, 0, 0) == 0.0
  {
  }

  /** Each override replaces its own default, and nothing else. */
  lemma OverridesReplaceTheirs(o: Overrides, d: Limits)
    ensures var l := EffectiveLimits(o, d);
      && (o.maxTurns.Some? && o.maxTurns.value > 0 ==> l.maxTurns == o.maxTurns.value)
      && (o.maxToolCalls.Some? && o.maxToolCalls.value > 0 ==> l.maxToolCalls == o.maxToolCalls.value)
      && (o.maxTokens.Some? && o.maxTokens.value > 0 ==> l.maxTokens == o.maxTokens.value)
      && (o.timeoutSeconds.Some? && o.timeoutSeconds.value > 0 ==> l.timeoutSeconds == o.timeoutSeconds.value)
      && (o.maxCost.Some? ==> l.maxCost == o.maxCost.value)
    ensures EffectiveLimits(Overrides(None, None, None, None, None), d) == d
  {
  }
}
