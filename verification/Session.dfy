/** The bounded turn loop of an agent run (backend/agents/session.py), as a function and as the loop itself. */
module Session {
  import opened Common
  import opened Json
  import opened Privacy
  import opened Sanitizer
  import opened Tools
  import opened Cost
  import opened Transcript

  // ---------------------------------------------------------------- configuration

  /** Per-agent overrides; unset and zero both mean "use the default", except for cost. */
  datatype Overrides = Overrides(
    maxTurns: Option<nat>, maxToolCalls: Option<nat>, maxTokens: Option<nat>,
    maxCost: Option<real>, timeoutSeconds: Option<nat>)

  datatype Limits = Limits(maxTurns: int, maxToolCalls: int, maxTokens: int, maxCost: real, timeoutSeconds: int)

  function OrDefault(override: Option<nat>, default: int): int {
    if override.Some? && override.value != 0 then override.value else default
  }

  function EffectiveLimits(o: Overrides, d: Limits): Limits {
    Limits(
      OrDefault(o.maxTurns, d.maxTurns),
      OrDefault(o.maxToolCalls, d.maxToolCalls),
      OrDefault(o.maxTokens, d.maxTokens),
      if o.maxCost.Some? then o.maxCost.value else d.maxCost,
      OrDefault(o.timeoutSeconds, d.timeoutSeconds))
  }

  /** Text formatting the loop does not look into: JSON dumps, `str()`, denial sentences. */
  datatype Formats = Formats(dumps: Value -> string, repr: Value -> string, denial: Denial -> string)

  datatype Config = Config(
    limits: Limits, failureLimit: int, permission: Permission, allowlist: seq<string>,
    registry: Registry, provider: string, model: string, formats: Formats)

  // ---------------------------------------------------------------- the outside world

  datatype Data =
    | Text(content: string)
    | Pass
    | ToolCall(name: string, arguments: JsonValue, callId: string)
    | Unknown(kind: string)

  datatype Response =
    | Raised
    | Reply(success: bool, input: nat, output: nat, reportedCost: Option<real>, data: Data)

  datatype ProposalReply = ProposalReply(key: string, summary: string)

  /** What provider, clock, executors and proposal store answer on each turn; all arbitrary. */
  datatype Oracle = Oracle(
    response: nat -> Response,
    elapsedMs: nat -> int,
    attempts: nat -> (Attempt, Attempt),
    proposal: nat -> ProposalReply)

  // ---------------------------------------------------------------- loop state

  datatype CallStatus = Executed | FailedCall | ProposedCall

  datatype ToolCallRow = ToolCallRow(
    tool: string, arguments: Value, status: CallStatus, decision: Verdict, result: Value, error: string)

  datatype Approval = AnyStaff | AdminOnly

  datatype ProposalRequest = ProposalRequest(tool: string, arguments: Value, callId: string, approval: Approval)

  /** How a turn that kept the loop going went (history, for stating what the counters mean). */
  datatype Event = Passed | DeniedCall | ReadOk | ReadFailed | ProposedChange | UnknownKind

  datatype Counters = Counters(turns: nat, toolCalls: nat, failures: nat, input: nat, output: nat, cost: real)

  const NO_COUNTS := Counters(0, 0, 0, 0, 0, 0.0)

  datatype LoopState = LoopState(
    count: Counters, wire: seq<Wire>, rows: seq<Message>, sequence: seq<(string, Verdict)>,
    calls: seq<ToolCallRow>, proposals: seq<ProposalRequest>, events: seq<Event>)

  datatype RunStatus = PendingRun | Running | Completed | Terminated | FailedRun

  datatype RunRow = RunRow(status: RunStatus, reason: string, totals: Counters)

  /** Where the loop ends; `raised` when it ends by an exception, totals then unwritten. */
  datatype Final = Final(loop: LoopState, row: RunRow, raised: bool)

  datatype Next = Continue(loop: LoopState) | Stop(final: Final)

  function Fresh(wire: seq<Wire>, rows: seq<Message>): LoopState {
    LoopState(NO_COUNTS, wire, rows, [], [], [], [])
  }

  // ---------------------------------------------------------------- guardrails

  datatype Reason = MaxTurns | MaxToolCalls | MaxTokens | MaxCost | Timeout | ConsecutiveFailures

  function ReasonText(r: Reason): string {
    match r
    case MaxTurns => "max_turns_exceeded"
    case MaxToolCalls => "max_tool_calls_exceeded"
    case MaxTokens => "max_tokens_exceeded"
    case MaxCost => "max_cost_exceeded"
    case Timeout => "timeout"
    case ConsecutiveFailures => "consecutive_tool_failures"
  }

  function StopSentence(r: Reason): string {
    var text := ReasonText(r);
    "I stopped because " + seq(|text|, i requires 0 <= i < |text| => if text[i] == '_' then ' ' else text[i]) + "."
  }

  function GuardrailReason(lim: Limits, failureLimit: int, c: Counters, elapsedMs: int): Option<Reason> {
    if c.turns >= lim.maxTurns then Some(MaxTurns)
    else if c.toolCalls >= lim.maxToolCalls then Some(MaxToolCalls)
    else if c.input + c.output >= lim.maxTokens then Some(MaxTokens)
    else if c.cost >= lim.maxCost then Some(MaxCost)
    else if elapsedMs >= lim.timeoutSeconds * 1000 then Some(Timeout)
    else if c.failures >= failureLimit then Some(ConsecutiveFailures)
    else None
  }

  function Guard(cfg: Config, o: Oracle, c: Counters): Option<Reason> {
    GuardrailReason(cfg.limits, cfg.failureLimit, c, o.elapsedMs(c.turns))
  }

  // ---------------------------------------------------------------- one turn

  /** `_incremental_cost`: a positive reported cost wins over the estimate. */
  function IncrementalCost(cfg: Config, r: Response): real
    requires r.Reply?
  {
    if r.reportedCost.Some? && r.reportedCost.value > 0.0 then r.reportedCost.value
    else EstimatedCost(cfg.provider, cfg.model, r.input, r.output)
  }

  function Charged(cfg: Config, c: Counters, r: Response): Counters
    requires r.Reply?
  {
    c.(turns := c.turns + 1, input := c.input + r.input, output := c.output + r.output,
       cost := c.cost + IncrementalCost(cfg, r))
  }

  /** A tool_calls frame and its result, in the transcript ... */
  function ExchangeRows(cfg: Config, rows: seq<Message>, callId: string, name: string, args: Value,
      payload: string): seq<Message>
    requires args.Obj?
  {
    var framed := Persisted(rows, Assistant, "", FrameMeta(callId, name, SanitizeDict(cfg.formats.repr, args)),
      TEXT_LIMIT);
    Persisted(framed, ToolRole, payload, ResultMeta(callId), RESULT_LIMIT)
  }

  /** ... and on the live wire. */
  function ExchangeWire(wire: seq<Wire>, callId: string, name: string, args: Value, payload: string): seq<Wire> {
    wire + [FrameWire("", callId, name, args), ToolWire(callId, payload)]
  }

  function Exchanged(cfg: Config, l: LoopState, callId: string, name: string, args: Value, payload: string): LoopState
    requires args.Obj?
  {
    l.(rows := ExchangeRows(cfg, l.rows, callId, name, args, payload),
       wire := ExchangeWire(l.wire, callId, name, args, payload))
  }

  /** The error column: `(outcome.get("error") or "")[:500]`, which raises on numbers and dicts. */
  function ErrorColumn(repr: Value -> string, e: Value): Option<string> {
    if !Truthy(e) then Some("")
    else match e
      case Str(s) => Some(Take(s, 500))
      case Arr(items) => Some(repr(Arr(Take(items, 500))))
      case _ => None
  }

  /** `_record_read_call`: the stored row, or None when an exception escapes. */
  function ReadCall(cfg: Config, tool: Tool, args: Value, attempts: (Attempt, Attempt)): (r: Option<ToolCallRow>)
    ensures r.Some? ==> args.Obj?
  {
    match Execute(attempts.0, attempts.1)
    case Propagated(_) => None
    case Envelope(value) =>
      var outcome := SanitizedOutcome(cfg.formats.repr, value, 0);
      if !Maskable(cfg.formats.repr, value, 0) || !args.Obj? || !outcome.Obj? then None
      else
        var ok := Truthy(Get(outcome.fields, "ok"));
        match ErrorColumn(cfg.formats.repr, Get(outcome.fields, "error"))
        case None => None
        case Some(error) =>
          Some(ToolCallRow(tool.name, SanitizeDict(cfg.formats.repr, args),
                           if ok then Executed else FailedCall, ReadAllowed, outcome, error))
  }

  function ApprovalFor(c: Capability): Approval {
    if c.HighRisk? then AdminOnly else AnyStaff
  }

  function ProposalPayload(reply: ProposalReply): Value {
    Obj([(Name("proposal_created"), Bool(true)), (Name("proposal_key"), Str(reply.key)),
         (Name("summary"), Str(Take(reply.summary, 400))), (Name("status"), Str("pending")),
         (Name("pending_approval"), Bool(true))])
  }

  function Raise(l: LoopState, row: RunRow): Next {
    Stop(Final(l, row, true))
  }

  function RefuseTurn(cfg: Config, row: RunRow, l: LoopState, call: Data, args: Value, denial: Denial): Next
    requires call.ToolCall?
  {
    var l2 := l.(count := l.count.(failures := l.count.failures + 1));
    if !args.Obj? then Raise(l2, row)
    else
      Continue(Exchanged(cfg, l2, call.callId, call.name, args,
                         cfg.formats.dumps(ErrorEnvelope(cfg.formats.denial(denial))))
               .(events := l.events + [DeniedCall]))
  }

  function ReadTurn(cfg: Config, row: RunRow, l: LoopState, call: Data, args: Value, tool: Tool,
      attempts: (Attempt, Attempt)): Next
    requires call.ToolCall?
  {
    var l2 := l.(count := l.count.(toolCalls := l.count.toolCalls + 1));
    match ReadCall(cfg, tool, args, attempts)
    case None => Raise(l2, row)
    case Some(record) =>
      var ok := record.status.Executed?;
      var l3 := l2.(calls := l.calls + [record],
                    count := l2.count.(failures := if ok then 0 else l.count.failures + 1));
      var payload := cfg.formats.dumps(SanitizedOutcome(cfg.formats.repr, record.result, 0));
      Continue(Exchanged(cfg, l3, call.callId, tool.name, args, payload)
               .(events := l.events + [if ok then ReadOk else ReadFailed]))
  }

  function ProposeTurn(cfg: Config, row: RunRow, l: LoopState, call: Data, args: Value, tool: Tool,
      reply: ProposalReply): Next
    requires call.ToolCall?
  {
    var l2 := l.(count := l.count.(toolCalls := l.count.toolCalls + 1));
    if !args.Obj? then Raise(l2, row)
    else
      var stored := SanitizeDict(cfg.formats.repr, args);
      var l3 := l2.(
        calls := l.calls + [ToolCallRow(tool.name, stored, ProposedCall, Proposed, Obj([]), "")],
        proposals := l.proposals + [ProposalRequest(tool.name, stored, call.callId, ApprovalFor(tool.capability))]);
      Continue(Exchanged(cfg, l3, call.callId, tool.name, args, cfg.formats.dumps(ProposalPayload(reply)))
               .(events := l.events + [ProposedChange]))
  }

  /** `data.get("arguments") or {}`. */
  function Arguments(call: Data): Value
    requires call.ToolCall?
  {
    if Truthy(call.arguments) then call.arguments else Obj([])
  }

  function PlanOf(cfg: Config, call: Data): Plan
    requires call.ToolCall?
  {
    PlanToolCall(cfg.registry, cfg.permission, cfg.allowlist, call.name, Arguments(call))
  }

  function ToolTurn(cfg: Config, o: Oracle, row: RunRow, l: LoopState, turn: nat, call: Data): Next
    requires call.ToolCall?
  {
    var plan := PlanOf(cfg, call);
    var l1 := l.(sequence := l.sequence + [(call.name, plan.Verdict())]);
    match plan
    case Refuse(denial) => RefuseTurn(cfg, row, l1, call, Arguments(call), denial)
    case Read(tool) => ReadTurn(cfg, row, l1, call, Arguments(call), tool, o.attempts(turn))
    case Propose(tool) => ProposeTurn(cfg, row, l1, call, Arguments(call), tool, o.proposal(turn))
  }

  function UnknownTurn(cfg: Config, l: LoopState, kind: string): LoopState {
    var payload := cfg.formats.dumps(ErrorEnvelope("unknown model response: " + kind));
    l.(count := l.count.(failures := l.count.failures + 1),
       rows := Persisted(l.rows, ToolRole, payload, NoMeta, TEXT_LIMIT),
       events := l.events + [UnknownKind])
  }

  /** Everything between two guard checks. */
  function Turn(cfg: Config, o: Oracle, row: RunRow, l: LoopState): Next {
    var turn := l.count.turns;
    var r := o.response(turn);
    if r.Raised? then Raise(l.(count := l.count.(turns := turn + 1)), row)
    else
      var l1 := l.(count := Charged(cfg, l.count, r));
      if !r.success then Stop(Final(l1, RunRow(FailedRun, "provider_failure", l1.count), false))
      else match r.data
        case Text(content) =>
          var text := SanitizeText(content, TEXT_LIMIT);
          Stop(Final(l1.(rows := Persisted(l1.rows, Assistant, text, NoMeta, TEXT_LIMIT)),
                     RunRow(Completed, "", l1.count), false))
        case Pass => Continue(l1.(events := l1.events + [Passed]))
        case ToolCall(_, _, _) => ToolTurn(cfg, o, row, l1, turn, r.data)
        case Unknown(kind) => Continue(UnknownTurn(cfg, l1, kind))
  }

  function Halted(l: LoopState, reason: Reason): Final {
    Final(l.(rows := Persisted(l.rows, Assistant, StopSentence(reason), NoMeta, TEXT_LIMIT)),
          RunRow(Terminated, ReasonText(reason), l.count), false)
  }

  lemma ToolTurnKeepsTurns(cfg: Config, o: Oracle, row: RunRow, l: LoopState, turn: nat, call: Data)
    requires call.ToolCall?
    ensures ToolTurn(cfg, o, row, l, turn, call).Continue? ==>
      ToolTurn(cfg, o, row, l, turn, call).loop.count.turns == l.count.turns
  {
  }

  lemma TurnAdvances(cfg: Config, o: Oracle, row: RunRow, l: LoopState)
    ensures Turn(cfg, o, row, l).Continue? ==> Turn(cfg, o, row, l).loop.count.turns == l.count.turns + 1
  {
    var r := o.response(l.count.turns);
    if r.Reply? && r.data.ToolCall? {
      ToolTurnKeepsTurns(cfg, o, row, l.(count := Charged(cfg, l.count, r)), l.count.turns, r.data);
    }
  }

  /** `_loop`. */
  function RunLoop(cfg: Config, o: Oracle, row: RunRow, l: LoopState): Final
    decreases Max(0, cfg.limits.maxTurns - l.count.turns)
  {
    match Guard(cfg, o, l.count)
    case Some(reason) => Halted(l, reason)
    case None =>
      TurnAdvances(cfg, o, row, l);
      match Turn(cfg, o, row, l)
      case Stop(final) => final
      case Continue(next) => RunLoop(cfg, o, row, next)
  }

  // ---------------------------------------------------------------- the imperative session

  class AgentRun {
    var status: RunStatus
    var reason: string
    var totals: Counters
    var toolSequence: seq<(string, Verdict)>

    constructor ()
      ensures Row() == RunRow(PendingRun, "", NO_COUNTS) && toolSequence == []
    {
      status, reason, totals, toolSequence := PendingRun, "", NO_COUNTS, [];
    }

    function Row(): RunRow
      reads this
    {
      RunRow(status, reason, totals)
    }

    /** `_apply_totals` and the status a run ends with. */
    method Finish(status: RunStatus, reason: string, c: Counters)
      modifies this`status, this`reason, this`totals
      ensures Row() == RunRow(status, reason, c)
    {
      this.totals := c;
      this.status, this.reason := status, reason;
    }
  }

  /** The in-memory `messages` list handed to the provider. */
  class MessageList {
    var items: seq<Wire>

    constructor (items: seq<Wire>)
      ensures this.items == items
    {
      this.items := items;
    }

    method Extend(more: seq<Wire>)
      modifies this
      ensures items == old(items) + more
    {
      items := items + more;
    }
  }

  /** The tables a session writes: messages, tool calls and proposals. */
  class Tables {
    var rows: seq<Message>
    var calls: seq<ToolCallRow>
    var proposals: seq<ProposalRequest>

    constructor ()
      ensures rows == [] && calls == [] && proposals == []
    {
      rows, calls, proposals := [], [], [];
    }

    method PersistMessage(role: Role, content: string, meta: Meta, limit: nat)
      modifies this`rows
      ensures rows == Persisted(old(rows), role, content, meta, limit)
    {
      var last := if rows == [] then 0 else rows[|rows| - 1].sequence;
      rows := rows + [Message(role, SanitizeText(content, limit), last + 1, meta)];
    }
  }

  class AgentSession {
    const cfg: Config
    const tables: Tables

    constructor (cfg: Config, tables: Tables)
      ensures this.cfg == cfg && this.tables == tables
    {
      this.cfg, this.tables := cfg, tables;
    }

    /** The loop state these objects make up, given the loop's local variables. */
    ghost function State(live: MessageList, c: Counters, sequence: seq<(string, Verdict)>,
        events: seq<Event>): LoopState
      reads this, tables, live
    {
      LoopState(c, live.items, tables.rows, sequence, tables.calls, tables.proposals, events)
    }

    method PersistToolCallFrame(callId: string, name: string, args: Value)
      requires args.Obj?
      modifies tables`rows
      ensures tables.rows == Persisted(old(tables.rows), Assistant, "",
                FrameMeta(callId, name, SanitizeDict(cfg.formats.repr, args)), TEXT_LIMIT)
    {
      tables.PersistMessage(Assistant, "", FrameMeta(callId, name, SanitizeDict(cfg.formats.repr, args)), TEXT_LIMIT);
    }

    /** Frame and result go to the transcript and to the live list together. */
    method Exchange(live: MessageList, callId: string, name: string, args: Value, payload: string, ghost l: LoopState)
      requires args.Obj? && l.rows == tables.rows && l.wire == live.items
      modifies tables`rows, live
      ensures var l' := Exchanged(cfg, l, callId, name, args, payload);
        tables.rows == l'.rows && live.items == l'.wire
    {
      PersistToolCallFrame(callId, name, args);
      tables.PersistMessage(ToolRole, payload, ResultMeta(callId), RESULT_LIMIT);
      live.Extend([FrameWire("", callId, name, args), ToolWire(callId, payload)]);
    }

    method RecordReadCall(tool: Tool, args: Value, attempts: (Attempt, Attempt)) returns (record: Option<ToolCallRow>)
      modifies tables`calls
      ensures record == ReadCall(cfg, tool, args, attempts)
      ensures tables.calls == old(tables.calls) + (if record.Some? then [record.value] else [])
    {
      record := ReadCall(cfg, tool, args, attempts);
      if record.Some? {
        tables.calls := tables.calls + [record.value];
      }
    }

    /** The proposal branch's rows: the audited call and the pending proposal. */
    method CreateProposal(tool: Tool, args: Value, callId: string)
      requires args.Obj?
      modifies tables`calls, tables`proposals
      ensures var stored := SanitizeDict(cfg.formats.repr, args);
        && tables.calls == old(tables.calls) + [ToolCallRow(tool.name, stored, ProposedCall, Proposed, Obj([]), "")]
        && tables.proposals == old(tables.proposals)
          + [ProposalRequest(tool.name, stored, callId, ApprovalFor(tool.capability))]
    {
      var stored := SanitizeDict(cfg.formats.repr, args);
      tables.calls := tables.calls + [ToolCallRow(tool.name, stored, ProposedCall, Proposed, Obj([]), "")];
      tables.proposals := tables.proposals + [ProposalRequest(tool.name, stored, callId, ApprovalFor(tool.capability))];
    }

    method RefuseCall(live: MessageList, call: Data, args: Value, denial: Denial, c: Counters, ghost row: RunRow,
        ghost l: LoopState)
      returns (raised: bool, c': Counters, ghost events: seq<Event>)
      requires call.ToolCall? && l == State(live, c, l.sequence, l.events)
      modifies tables, live
      ensures var l' := State(live, c', l.sequence, events);
        RefuseTurn(cfg, row, l, call, args, denial) == if raised then Raise(l', row) else Continue(l')
    {
      c', events := c.(failures := c.failures + 1), l.events;
      var payload := cfg.formats.dumps(ErrorEnvelope(cfg.formats.denial(denial)));
      raised := !args.Obj?;
      if !raised {
        Exchange(live, call.callId, call.name, args, payload, l);
        events := events + [DeniedCall];
      }
    }

    method ExecuteRead(live: MessageList, call: Data, args: Value, tool: Tool, attempts: (Attempt, Attempt),
        c: Counters, ghost row: RunRow, ghost l: LoopState)
      returns (raised: bool, c': Counters, ghost events: seq<Event>)
      requires call.ToolCall? && l == State(live, c, l.sequence, l.events)
      modifies tables, live
      ensures var l' := State(live, c', l.sequence, events);
        ReadTurn(cfg, row, l, call, args, tool, attempts) == if raised then Raise(l', row) else Continue(l')
    {
      hide ReadCall;
      hide Persisted;
      hide SanitizeDict;
      c', events := c.(toolCalls := c.toolCalls + 1), l.events;
      var record := RecordReadCall(tool, args, attempts);
      raised := record.None?;
      if !raised {
        var ok := record.value.status.Executed?;
        c' := c'.(failures := if ok then 0 else c.failures + 1);
        var payload := cfg.formats.dumps(SanitizedOutcome(cfg.formats.repr, record.value.result, 0));
        Exchange(live, call.callId, tool.name, args, payload, l);
        events := events + [if ok then ReadOk else ReadFailed];
      }
    }

    method ProposeCall(live: MessageList, call: Data, args: Value, tool: Tool, reply: ProposalReply, c: Counters,
                       ghost row: RunRow, ghost l: LoopState)
      returns (raised: bool, c': Counters, ghost events: seq<Event>)
      requires call.ToolCall? && l == State(live, c, l.sequence, l.events)
      modifies tables, live
      ensures var l' := State(live, c', l.sequence, events);
        ProposeTurn(cfg, row, l, call, args, tool, reply) == if raised then Raise(l', row) else Continue(l')
    {
      c', events := c.(toolCalls := c.toolCalls + 1), l.events;
      raised := !args.Obj?;
      if !raised {
        CreateProposal(tool, args, call.callId);
        Exchange(live, call.callId, tool.name, args, cfg.formats.dumps(ProposalPayload(reply)), l);
        events := events + [ProposedChange];
      }
    }

    /** The tool_call branch of the loop body. */
    method HandleToolCall(run: AgentRun, live: MessageList, o: Oracle, turn: nat, call: Data, c: Counters,
                          sequence: seq<(string, Verdict)>, ghost row: RunRow, ghost l: LoopState)
      returns (raised: bool, c': Counters, sequence': seq<(string, Verdict)>, ghost events: seq<Event>)
      requires call.ToolCall? && l == State(live, c, sequence, l.events)
      modifies run`toolSequence, tables, live
      ensures run.toolSequence == sequence' != []
      ensures var l' := State(live, c', sequence', events);
        ToolTurn(cfg, o, row, l, turn, call) == if raised then Raise(l', row) else Continue(l')
    {
      var args := Arguments(call);
      var plan := PlanOf(cfg, call);
      sequence' := sequence + [(call.name, plan.Verdict())];
      run.toolSequence := sequence';
      ghost var l1 := State(live, c, sequence', l.events);
      match plan {
        case Refuse(denial) =>
          raised, c', events := RefuseCall(live, call, args, denial, c, row, l1);
        case Read(tool) =>
          raised, c', events := ExecuteRead(live, call, args, tool, o.attempts(turn), c, row, l1);
        case Propose(tool) =>
          raised, c', events := ProposeCall(live, call, args, tool, o.proposal(turn), c, row, l1);
      }
    }

    /** One provider call and what follows it, up to the next guard check. */
    method ProviderTurn(run: AgentRun, live: MessageList, o: Oracle, c: Counters, sequence: seq<(string, Verdict)>,
                        ghost row: RunRow, ghost l: LoopState)
      returns (stopped: bool, raised: bool, c': Counters, sequence': seq<(string, Verdict)>, ghost events: seq<Event>)
      requires l == State(live, c, sequence, l.events) && row == run.Row()
      requires sequence != [] ==> run.toolSequence == sequence
      modifies run, tables, live
      ensures sequence' != [] ==> run.toolSequence == sequence'
      ensures Turn(cfg, o, row, l) ==
        if stopped then Stop(Final(State(live, c', sequence', events), run.Row(), raised))
        else Continue(State(live, c', sequence', events))
      ensures !stopped ==> !raised && run.Row() == row
    {
      stopped, raised, c', sequence', events := true, false, c, sequence, l.events;
      var response := o.response(c.turns);
      if response.Raised? {
        raised, c' := true, c.(turns := c.turns + 1);
        return;
      }
      c' := Charged(cfg, c, response);
      if !response.success {
        run.Finish(FailedRun, "provider_failure", c');
        return;
      }
      match response.data {
        case Text(content) =>
          tables.PersistMessage(Assistant, SanitizeText(content, TEXT_LIMIT), NoMeta, TEXT_LIMIT);
          run.Finish(Completed, "", c');
        case Pass =>
          stopped, events := false, events + [Passed];
        case ToolCall(_, _, _) =>
          raised, c', sequence', events :=
            HandleToolCall(run, live, o, c.turns, response.data, c', sequence, row, l.(count := c'));
          stopped := raised;
        case Unknown(kind) =>
          c' := c'.(failures := c'.failures + 1);
          var payload := cfg.formats.dumps(ErrorEnvelope("unknown model response: " + kind));
          tables.PersistMessage(ToolRole, payload, NoMeta, TEXT_LIMIT);
          stopped, events := false, events + [UnknownKind];
      }
    }

    /** The turn loop; `raised` reports an escaping exception. */
    method Loop(run: AgentRun, o: Oracle, live: MessageList) returns (raised: bool)
      requires tables.calls == [] && tables.proposals == []
      modifies run, tables, live
      ensures var final := RunLoop(cfg, o, old(run.Row()), Fresh(old(live.items), old(tables.rows)));
        && raised == final.raised
        && run.Row() == final.row
        && State(live, final.loop.count, final.loop.sequence, final.loop.events) == final.loop
        && (final.loop.sequence != [] ==> run.toolSequence == final.loop.sequence)
    {
      ghost var row := run.Row();
      ghost var start := Fresh(live.items, tables.rows);
      var c := NO_COUNTS;
      var toolSequence: seq<(string, Verdict)> := [];
      ghost var events: seq<Event> := [];
      while true
        invariant run.Row() == row
        invariant toolSequence != [] ==> run.toolSequence == toolSequence
        invariant RunLoop(cfg, o, row, start) == RunLoop(cfg, o, row, State(live, c, toolSequence, events))
        decreases Max(0, cfg.limits.maxTurns - c.turns)
      {
        ghost var l := State(live, c, toolSequence, events);
        var stop := Guard(cfg, o, c);
        if stop.Some? {
          tables.PersistMessage(Assistant, StopSentence(stop.value), NoMeta, TEXT_LIMIT);
          run.Finish(Terminated, ReasonText(stop.value), c);
          return false;
        }
        TurnAdvances(cfg, o, row, l);
        var stopped;
        stopped, raised, c, toolSequence, events := ProviderTurn(run, live, o, c, toolSequence, row, l);
        if stopped {
          return;
        }
      }
    }
  }
}
