/** The in-memory message list of a run against the list rebuilt from its transcript (backend/agents/session.py). */
module LiveHistory {
  import opened Json
  import opened Privacy
  import opened Sanitizer
  import opened Tools
  import opened Transcript
  import opened Session
  import opened SessionHistory

  /** A transcript whose wire form does not end in an unanswered frame, as after a user message. */
  predicate Settled(rows: seq<Message>) {
    var body := WireBody(rows);
    body == [] || !body[|body| - 1].FrameWire?
  }

  predicate FitsWindow(rows: seq<Message>, window: nat) {
    window == 0 || |rows| <= window
  }

  // ---------------------------------------------------------------- what one turn writes

  /** A tool exchange: frame and result, the same two facts in the transcript and on the live wire. */
  ghost predicate Exchange(cfg: Config, rows: seq<Message>, wire: seq<Wire>, rows': seq<Message>, wire': seq<Wire>) {
    && Extends(rows, rows', 2)
    && Extends(wire, wire', 2)
    && var frame, result := rows'[|rows|], rows'[|rows| + 1];
    && IsFrame(frame) && result.role == ToolRole && result.meta == ResultMeta(frame.meta.callId)
    && frame.sequence == NextSequence(rows) && result.sequence == frame.sequence + 1
    && WireOf(frame) == [Durable(cfg.formats.repr, wire'[|wire|])]
    && WireOf(result) == [Durable(cfg.formats.repr, wire'[|wire| + 1])]
  }

  /** An unknown response: a result row that answers no frame, and nothing on the live wire. */
  ghost predicate Stray(rows: seq<Message>, rows': seq<Message>) {
    && Extends(rows, rows', 1)
    && var result := rows'[|rows|];
    && result.role == ToolRole && result.meta == NoMeta && result.sequence == NextSequence(rows)
  }

  ghost predicate Written(cfg: Config, l: LoopState, next: LoopState) {
    && Extends(l.events, next.events, 1)
    && match next.events[|l.events|]
       case Passed => next.rows == l.rows && next.wire == l.wire
       case UnknownKind => Stray(l.rows, next.rows) && next.wire == l.wire
       case _ => Exchange(cfg, l.rows, l.wire, next.rows, next.wire)
  }

  lemma ExchangeWrites(cfg: Config, rows: seq<Message>, wire: seq<Wire>, callId: string, name: string, args: Value,
      payload: string)
    requires args.Obj?
    ensures Exchange(cfg, rows, wire, ExchangeRows(cfg, rows, callId, name, args, payload),
                     ExchangeWire(wire, callId, name, args, payload))
  {
    assert SanitizeText("", TEXT_LIMIT) == "";
  }

  lemma ToolTurnWrites(cfg: Config, o: Oracle, row: RunRow, l: LoopState, turn: nat, call: Data)
    requires call.ToolCall? && ToolTurn(cfg, o, row, l, turn, call).Continue?
    ensures var next := ToolTurn(cfg, o, row, l, turn, call).loop;
      && Extends(l.events, next.events, 1)
      && next.events[|l.events|] in ACCEPTED + {DeniedCall}
      && Exchange(cfg, l.rows, l.wire, next.rows, next.wire)
  {
    hide PlanToolCall;
    hide ReadCall;
    hide ExchangeRows;
    hide ExchangeWire;
    hide Exchange;
    hide SanitizeDict;
    var args := Arguments(call);
    match PlanOf(cfg, call)
    case Refuse(denial) =>
      ExchangeWrites(cfg, l.rows, l.wire, call.callId, call.name, args,
        cfg.formats.dumps(ErrorEnvelope(cfg.formats.denial(denial))));
    case Read(tool) =>
      var record := ReadCall(cfg, tool, args, o.attempts(turn)).value;
      ExchangeWrites(cfg, l.rows, l.wire, call.callId, tool.name, args,
                     cfg.formats.dumps(SanitizedOutcome(cfg.formats.repr, record.result, 0)));
    case Propose(tool) =>
      ExchangeWrites(cfg, l.rows, l.wire, call.callId, tool.name, args,
        cfg.formats.dumps(ProposalPayload(o.proposal(turn))));
  }

  lemma TurnWrites(cfg: Config, o: Oracle, row: RunRow, l: LoopState)
    requires Turn(cfg, o, row, l).Continue?
    ensures Written(cfg, l, Turn(cfg, o, row, l).loop)
  {
    hide IncrementalCost;
    hide ToolTurn;
    hide Exchange;
    var r := o.response(l.count.turns);
    if r.data.ToolCall? {
      ToolTurnWrites(cfg, o, row, l.(count := Charged(cfg, l.count, r)), l.count.turns, r.data);
    }
  }

  // ---------------------------------------------------------------- live list and rebuilt list

  lemma WireBodyAppend(rows: seq<Message>, m: Message)
    ensures WireBody(rows + [m]) == WireBody(rows) + WireOf(m)
  {
    assert (rows + [m])[..|rows|] == rows;
  }

  /** What the run added to the live list since its first loop head. */
  function Added(wire0: seq<Wire>, wire: seq<Wire>): seq<Wire> {
    if |wire0| <= |wire| then wire[|wire0|..] else []
  }

  /** Rebuilding sees the durable form of everything added, and one extra message per unknown response. */
  ghost predicate InStep(cfg: Config, wire0: seq<Wire>, rows0: seq<Message>, l: LoopState) {
    && wire0 <= l.wire
    && rows0 <= l.rows
    && |WireBody(l.rows)| == |WireBody(rows0)| + |Added(wire0, l.wire)| + Tally(l.events, {UnknownKind})
    && (UnknownKind !in l.events ==>
         WireBody(l.rows) == WireBody(rows0) + DurableAll(cfg.formats.repr, Added(wire0, l.wire)))
    && (l.rows == rows0 || l.rows[|l.rows| - 1].role == ToolRole)
  }

  lemma ExchangeAppends(cfg: Config, rows: seq<Message>, wire: seq<Wire>, rows': seq<Message>, wire': seq<Wire>)
    requires Exchange(cfg, rows, wire, rows', wire')
    ensures WireBody(rows') == WireBody(rows) + DurableAll(cfg.formats.repr, wire'[|wire|..])
  {
    hide WireBody;
    hide Durable;
    hide WireOf;
    var frame, result := rows'[|rows|], rows'[|rows| + 1];
    assert rows' == rows + [frame] + [result];
    WireBodyAppend(rows, frame);
    WireBodyAppend(rows + [frame], result);
    assert DurableAll(cfg.formats.repr, wire'[|wire|..])
        == [Durable(cfg.formats.repr, wire'[|wire|])] + [Durable(cfg.formats.repr, wire'[|wire| + 1])];
  }

  lemma AddedGrows(repr: Value -> string, wire0: seq<Wire>, wire: seq<Wire>, wire': seq<Wire>, extra: nat)
    requires wire0 <= wire && Extends(wire, wire', extra)
    ensures wire0 <= wire'
    ensures |Added(wire0, wire')| == |Added(wire0, wire)| + extra
    ensures DurableAll(repr, Added(wire0, wire'))
      == DurableAll(repr, Added(wire0, wire)) + DurableAll(repr, wire'[|wire|..])
  {
    hide Durable;
    assert Added(wire0, wire') == Added(wire0, wire) + wire'[|wire|..];
  }

  lemma InStepAfter(cfg: Config, wire0: seq<Wire>, rows0: seq<Message>, l: LoopState, next: LoopState)
    requires InStep(cfg, wire0, rows0, l) && Written(cfg, l, next)
    ensures InStep(cfg, wire0, rows0, next)
  {
    hide WireBody;
    hide Tally;
    hide DurableAll;
    hide WireOf;
    hide Added;
    TallyExtends(l.events, next.events, {UnknownKind});
    var e := next.events[|l.events|];
    assert next.events == l.events + [e];
    match e
    case Passed =>
    case UnknownKind =>
      var m := next.rows[|l.rows|];
      assert next.rows == l.rows + [m];
      WireBodyAppend(l.rows, m);
      ResultWire(m);
    case _ =>
      ExchangeAppends(cfg, l.rows, l.wire, next.rows, next.wire);
      AddedGrows(cfg.formats.repr, wire0, l.wire, next.wire, 2);
      TwoDurable(cfg.formats.repr, next.wire[|l.wire|..]);
  }

  lemma TwoDurable(repr: Value -> string, wire: seq<Wire>)
    ensures |DurableAll(repr, wire)| == |wire|
  {
  }

  lemma ResultWire(m: Message)
    requires m.role == ToolRole
    ensures WireOf(m) == [ToolWire(CallId(m.meta), m.content)]
  {
  }

  lemma {:induction false} HeadsInStep(cfg: Config, o: Oracle, row: RunRow, wire0: seq<Wire>, rows0: seq<Message>,
      n: nat)
    ensures var h := HeadAt(cfg, o, row, Fresh(wire0, rows0), n);
      h.Some? ==> InStep(cfg, wire0, rows0, h.value)
  {
    hide Turn;
    hide InStep;
    if n == 0 {
      StartInStep(cfg, wire0, rows0);
    } else if HeadAt(cfg, o, row, Fresh(wire0, rows0), n).Some? {
      HeadsInStep(cfg, o, row, wire0, rows0, n - 1);
      var l := HeadAt(cfg, o, row, Fresh(wire0, rows0), n - 1).value;
      TurnWrites(cfg, o, row, l);
      InStepAfter(cfg, wire0, rows0, l, Turn(cfg, o, row, l).loop);
    }
  }

  lemma StartInStep(cfg: Config, wire0: seq<Wire>, rows0: seq<Message>)
    ensures InStep(cfg, wire0, rows0, Fresh(wire0, rows0))
  {
  }

  lemma {:induction false} SomeUnknown(events: seq<Event>)
    ensures Tally(events, {UnknownKind}) == 0 <==> UnknownKind !in events
  {
    if events != [] {
      SomeUnknown(events[..|events| - 1]);
      assert events == events[..|events| - 1] + [events[|events| - 1]];
    }
  }

  lemma {:induction false} LastWire(rows: seq<Message>)
    requires rows != [] && rows[|rows| - 1].role == ToolRole
    ensures WireBody(rows) != [] && WireBody(rows)[|WireBody(rows)| - 1].ToolWire?
  {
  }

  /** Keeping in step, a run's transcript rebuilds to its live list exactly without unknown kinds in its history. */
  lemma InStepRebuilds(cfg: Config, window: nat, systemPrompt: string, rows0: seq<Message>, l: LoopState)
    requires Settled(rows0) && FitsWindow(l.rows, window)
    requires InStep(cfg, BuildMessages(window, systemPrompt, rows0), rows0, l)
    ensures var wire0 := BuildMessages(window, systemPrompt, rows0);
      (BuildMessages(window, systemPrompt, l.rows) == wire0 + DurableAll(cfg.formats.repr, Added(wire0, l.wire)))
      <==> UnknownKind !in l.events
  {
    hide Durable, Tally, WireBody;
    SomeUnknown(l.events);
    if l.rows != rows0 {
      LastWire(l.rows);
    }
    assert BuildMessages(window, systemPrompt, rows0) == [SystemWire(systemPrompt)] + WireBody(rows0);
    assert BuildMessages(window, systemPrompt, l.rows) == [SystemWire(systemPrompt)] + WireBody(l.rows);
  }

  /**
   * The live list and the transcript agree: at every loop head, rebuilding the wire from the
   * transcript gives the message list the run started with followed by the durable form of what it
   * added since. This holds exactly as long as the provider has given no unknown response kind.
   */
  lemma RebuiltEqualsLive(cfg: Config, o: Oracle, row: RunRow, window: nat, systemPrompt: string, rows0: seq<Message>,
      n: nat)
    requires Settled(rows0)
    requires HeadAt(cfg, o, row, Fresh(BuildMessages(window, systemPrompt, rows0), rows0), n).Some?
    requires FitsWindow(HeadAt(cfg, o, row, Fresh(BuildMessages(window, systemPrompt, rows0), rows0), n).value.rows,
      window)
    ensures var wire0 := BuildMessages(window, systemPrompt, rows0);
      var l := HeadAt(cfg, o, row, Fresh(wire0, rows0), n).value;
      && wire0 <= l.wire
      && (BuildMessages(window, systemPrompt, l.rows) == wire0 + DurableAll(cfg.formats.repr, Added(wire0, l.wire))
          <==> !AnsweredUnknown(o, n))
  {
    hide AnsweredUnknown, HeadAt, DurableAll, Added, BuildMessages, Settled, FitsWindow;
    var wire0 := BuildMessages(window, systemPrompt, rows0);
    UnknownIff(cfg, o, row, wire0, rows0, n);
    HeadsInStep(cfg, o, row, wire0, rows0, n);
    InStepRebuilds(cfg, window, systemPrompt, rows0, HeadAt(cfg, o, row, Fresh(wire0, rows0), n).value);
  }
}
