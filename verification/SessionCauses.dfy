/**
 * When an exception escapes a run, told from what provider and executors answer, and what a run stores
 * (backend/agents/session.py).
 */
module SessionCauses {
  import opened Common
  import opened Json
  import opened Privacy
  import opened Sanitizer
  import opened Tools
  import opened Transcript
  import opened Session
  import opened SessionHistory

  // ---------------------------------------------------------------- escaping exceptions

  /** An `error` entry that is neither falsy, nor text, nor a list: slicing it raises. */
  predicate BadErrorEntry(cfg: Config, attempts: (Attempt, Attempt)) {
    match Execute(attempts.0, attempts.1)
    case Propagated(_) => false
    case Envelope(value) =>
      var outcome := SanitizedOutcome(cfg.formats.repr, value, 0);
      outcome.Obj?
      && var e := Get(outcome.fields, "error");
      Truthy(e) && !e.Str? && !e.Arr?
  }

  /** A result with a value under a key that is not a string, where the sanitiser looks: masking raises. */
  predicate UnmaskableResult(cfg: Config, attempts: (Attempt, Attempt)) {
    var e := Execute(attempts.0, attempts.1);
    e.Envelope? && !Maskable(cfg.formats.repr, e.value, 0)
  }

  /** Whether an exception leaves the loop on a turn, given what the turn is answered. */
  predicate Escapes(cfg: Config, o: Oracle, turn: nat) {
    var r := o.response(turn);
    if r.Raised? then true
    else if !r.success || !r.data.ToolCall? then false
    else match PlanOf(cfg, r.data)
      case Read(_) =>
        var attempts := o.attempts(turn);
        || !Arguments(r.data).Obj?
        || (attempts.0.RaisedTypeError? && attempts.1.RaisedOther?)
        || UnmaskableResult(cfg, attempts)
        || BadErrorEntry(cfg, attempts)
      case _ => !Arguments(r.data).Obj?
  }

  /** The plainest: an envelope whose data is keyed by a number. */
  lemma NumberKeyIsUnmaskable(cfg: Config, key: string, text: string, second: Attempt)
    ensures var data := Obj([(Odd(key), Str(text))]);
      UnmaskableResult(cfg, (Returned(Obj([(Name("ok"), Bool(true)), (Name("data"), data)])), second))
  {
    var data := Obj([(Odd(key), Str(text))]);
    var value := Obj([(Name("ok"), Bool(true)), (Name("data"), data)]);
    assert value.fields[0].0 == Name("ok");
    assert CategoryOf("data") == Plain by {
      DataIsPlain();
    }
    assert MaskValue(cfg.formats.repr, Name("data"), data) == data;
    assert !Maskable(cfg.formats.repr, data, 1) by {
      assert data.fields[0].0.Odd? && !data.fields[0].1.Null?;
    }
    assert value.fields[1] == (Name("data"), data);
  }

  lemma DataIsPlain()
    ensures CategoryOf("data") == Plain
  {
    var k := Lower("data");
    assert k == "data";
    assert |k| == 4 && k[0] == 'd';
  }

  lemma ReadCallIsNoneIff(cfg: Config, tool: Tool, args: Value, attempts: (Attempt, Attempt))
    ensures ReadCall(cfg, tool, args, attempts).None?
      <==> || !args.Obj?
           || (attempts.0.RaisedTypeError? && attempts.1.RaisedOther?)
           || UnmaskableResult(cfg, attempts)
           || BadErrorEntry(cfg, attempts)
  {
    ExecuteWrapsUnlessRetryRaises(attempts.0, attempts.1);
    hide SanitizeDict;
  }

  lemma TurnRaisesIff(cfg: Config, o: Oracle, row: RunRow, l: LoopState)
    ensures Turn(cfg, o, row, l).Stop? && Turn(cfg, o, row, l).final.raised <==> Escapes(cfg, o, l.count.turns)
  {
    hide PlanToolCall, Exchanged, ReadCall, BadErrorEntry, UnmaskableResult, SanitizeDict, IncrementalCost,
      SanitizeText;
    var r := o.response(l.count.turns);
    if r.Reply? && r.success && r.data.ToolCall? && PlanOf(cfg, r.data).Read? {
      ReadCallIsNoneIff(cfg, PlanOf(cfg, r.data).tool, Arguments(r.data), o.attempts(l.count.turns));
    }
  }

  /** The run gets past the guard and calls the provider on a turn. */
  ghost predicate Reaches(cfg: Config, o: Oracle, row: RunRow, l0: LoopState, n: nat) {
    HeadAt(cfg, o, row, l0, n).Some? && Guard(cfg, o, HeadAt(cfg, o, row, l0, n).value.count).None?
  }

  lemma {:induction false} RunGoesThroughHeads(cfg: Config, o: Oracle, row: RunRow, l0: LoopState, n: nat)
    requires HeadAt(cfg, o, row, l0, n).Some?
    ensures RunLoop(cfg, o, row, l0) == RunLoop(cfg, o, row, HeadAt(cfg, o, row, l0, n).value)
  {
    hide Turn, Guard;
    if n > 0 {
      RunGoesThroughHeads(cfg, o, row, l0, n - 1);
    }
  }

  /** An exception escapes a run exactly when the run reaches a turn whose answers let one escape. */
  lemma RunRaisesIff(cfg: Config, o: Oracle, row: RunRow, wire: seq<Wire>, rows: seq<Message>)
    ensures RunLoop(cfg, o, row, Fresh(wire, rows)).raised
      <==> exists n: nat :: Reaches(cfg, o, row, Fresh(wire, rows), n) && Escapes(cfg, o, n)
  {
    hide RunLoop, HeadAt, Turn, Guard, Escapes, Fresh;
    var l0 := Fresh(wire, rows);
    var final := RunLoop(cfg, o, row, l0);
    if final.raised {
      var m := LastHeadOfRun(cfg, o, row, wire, rows);
      TurnRaisesIff(cfg, o, row, HeadAt(cfg, o, row, l0, m).value);
      assert Reaches(cfg, o, row, l0, m) && Escapes(cfg, o, m);
    }
    if n: nat :| Reaches(cfg, o, row, l0, n) && Escapes(cfg, o, n) {
      RaisingHead(cfg, o, row, wire, rows, n);
    }
  }

  lemma LastHeadOfRun(cfg: Config, o: Oracle, row: RunRow, wire: seq<Wire>, rows: seq<Message>) returns (m: nat)
    ensures var h := HeadAt(cfg, o, row, Fresh(wire, rows), m);
      && h.Some? && h.value.count.turns == m
      && (RunLoop(cfg, o, row, Fresh(wire, rows)).raised ==>
            && Guard(cfg, o, h.value.count).None?
            && Turn(cfg, o, row, h.value) == Stop(RunLoop(cfg, o, row, Fresh(wire, rows))))
  {
    hide RunLoop, HeadAt, Turn, Guard, Persisted, StopSentence;
    m := FirstToLast(cfg, o, row, Fresh(wire, rows));
    UnknownIff(cfg, o, row, wire, rows, m);
  }

  lemma RaisingHead(cfg: Config, o: Oracle, row: RunRow, wire: seq<Wire>, rows: seq<Message>, n: nat)
    requires Reaches(cfg, o, row, Fresh(wire, rows), n) && Escapes(cfg, o, n)
    ensures RunLoop(cfg, o, row, Fresh(wire, rows)).raised
  {
    hide HeadAt, Turn, Guard, Escapes, Fresh;
    var h := HeadAt(cfg, o, row, Fresh(wire, rows), n).value;
    RunGoesThroughHeads(cfg, o, row, Fresh(wire, rows), n);
    UnknownIff(cfg, o, row, wire, rows, n);
    TurnRaisesIff(cfg, o, row, h);
  }

  // ---------------------------------------------------------------- what a run stores

  /** A stored tree that a second sanitising would not change, under masked arguments. */
  predicate CleanRow(cfg: Config, row: ToolCallRow) {
    && Bounded(row.result, MAX_DEPTH) && Masked(cfg.formats.repr, row.result)
    && row.arguments.Obj? && SanitizeDict(cfg.formats.repr, row.arguments) == row.arguments
  }

  predicate CleanRequest(cfg: Config, p: ProposalRequest) {
    p.arguments.Obj? && SanitizeDict(cfg.formats.repr, p.arguments) == p.arguments
  }

  ghost predicate StoresClean(cfg: Config, l: LoopState) {
    && (forall i :: 0 <= i < |l.calls| ==> CleanRow(cfg, l.calls[i]))
    && (forall i :: 0 <= i < |l.proposals| ==> CleanRequest(cfg, l.proposals[i]))
  }

  lemma ReadCallIsClean(cfg: Config, tool: Tool, args: Value, attempts: (Attempt, Attempt))
    requires ReadCall(cfg, tool, args, attempts).Some?
    ensures CleanRow(cfg, ReadCall(cfg, tool, args, attempts).value)
  {
    hide SanitizedOutcome, SanitizeDict, Bounded, Masked;
    OutcomeIsBoundedAndMasked(cfg.formats.repr, Execute(attempts.0, attempts.1).value, 0);
    SanitizeDictIdempotent(cfg.formats.repr, args);
    MaskedDictIsDict(cfg.formats.repr, args);
  }

  lemma MaskedDictIsDict(repr: Value -> string, args: Value)
    requires args.Obj?
    ensures SanitizeDict(repr, args).Obj?
  {
  }

  lemma ProposedIsClean(cfg: Config, tool: Tool, args: Value, callId: string)
    requires args.Obj?
    ensures var stored := SanitizeDict(cfg.formats.repr, args);
      && CleanRow(cfg, ToolCallRow(tool.name, stored, ProposedCall, Proposed, Obj([]), ""))
      && CleanRequest(cfg, ProposalRequest(tool.name, stored, callId, ApprovalFor(tool.capability)))
  {
    hide SanitizeDict;
    SanitizeDictIdempotent(cfg.formats.repr, args);
    MaskedDictIsDict(cfg.formats.repr, args);
  }

  lemma ToolTurnStoresClean(cfg: Config, o: Oracle, row: RunRow, l: LoopState, turn: nat, call: Data)
    requires StoresClean(cfg, l)
    requires call.ToolCall? && ToolTurn(cfg, o, row, l, turn, call).Continue?
    ensures StoresClean(cfg, ToolTurn(cfg, o, row, l, turn, call).loop)
  {
    hide PlanToolCall, ReadCall, ExchangeRows, ExchangeWire, SanitizeDict, CleanRow, CleanRequest;
    var args := Arguments(call);
    match PlanOf(cfg, call)
    case Refuse(_) =>
    case Read(tool) => ReadCallIsClean(cfg, tool, args, o.attempts(turn));
    case Propose(tool) => ProposedIsClean(cfg, tool, args, call.callId);
  }

  /** At every loop head, stored results are bounded and masked, and stored arguments are masked. */
  lemma {:induction false} HeadsStoreClean(cfg: Config, o: Oracle, row: RunRow, wire: seq<Wire>, rows: seq<Message>,
      n: nat)
    ensures var h := HeadAt(cfg, o, row, Fresh(wire, rows), n);
      h.Some? ==> StoresClean(cfg, h.value)
  {
    hide ToolTurn, IncrementalCost, CleanRow, CleanRequest;
    if n > 0 && HeadAt(cfg, o, row, Fresh(wire, rows), n).Some? {
      HeadsStoreClean(cfg, o, row, wire, rows, n - 1);
      var l := HeadAt(cfg, o, row, Fresh(wire, rows), n - 1).value;
      var r := o.response(l.count.turns);
      if r.data.ToolCall? {
        ToolTurnStoresClean(cfg, o, row, l.(count := Charged(cfg, l.count, r)), l.count.turns, r.data);
      }
    }
  }
}
