/** The shape of transcripts written by runs, and of the wire rebuilt from them (backend/agents/session.py). */
module WireShape {
  import opened Common
  import opened Tools
  import opened Transcript
  import opened Session
  import opened SessionHistory
  import opened LiveHistory

  /** Every tool result directly follows the frame it answers. */
  predicate Answered(rows: seq<Message>) {
    forall i :: 0 <= i < |rows| && rows[i].role == ToolRole ==>
      i > 0 && IsFrame(rows[i - 1]) && rows[i].meta == ResultMeta(rows[i - 1].meta.callId)
  }

  /** Sequence numbers are 1..n in order. */
  predicate Numbered(rows: seq<Message>) {
    forall i :: 0 <= i < |rows| ==> rows[i].sequence == i + 1
  }

  predicate NoSystemRows(rows: seq<Message>) {
    forall i :: 0 <= i < |rows| ==> rows[i].role != System
  }

  ghost predicate WellShaped(rows: seq<Message>) {
    Answered(rows) && Numbered(rows) && NoSystemRows(rows)
  }

  // ---------------------------------------------------------------- one run

  ghost predicate Shaping(rows0: seq<Message>, l: LoopState) {
    && rows0 <= l.rows
    && Numbered(l.rows) && NoSystemRows(l.rows)
    && (Answered(l.rows) <==> UnknownKind !in l.events)
  }

  lemma StrayBreaksShape(rows: seq<Message>, rows': seq<Message>)
    requires Stray(rows, rows')
    ensures !Answered(rows')
  {
    assert rows'[|rows|].meta == NoMeta;
  }

  lemma ExchangeKeepsShape(cfg: Config, rows: seq<Message>, wire: seq<Wire>, rows': seq<Message>, wire': seq<Wire>)
    requires Exchange(cfg, rows, wire, rows', wire')
    ensures Answered(rows') <==> Answered(rows)
  {
    hide Durable;
    hide WireOf;
    assert forall i :: 0 <= i < |rows| ==> rows'[i] == rows[i];
  }

  lemma ShapingAfter(cfg: Config, rows0: seq<Message>, l: LoopState, next: LoopState)
    requires Shaping(rows0, l) && Written(cfg, l, next)
    ensures Shaping(rows0, next)
  {
    hide Durable;
    hide WireOf;
    hide Answered;
    var e := next.events[|l.events|];
    assert next.events == l.events + [e];
    match e
    case Passed =>
    case UnknownKind => StrayBreaksShape(l.rows, next.rows);
    case _ => ExchangeKeepsShape(cfg, l.rows, l.wire, next.rows, next.wire);
  }

  lemma {:induction false} HeadsAreShaping(cfg: Config, o: Oracle, row: RunRow, wire0: seq<Wire>, rows0: seq<Message>,
      n: nat)
    requires WellShaped(rows0)
    ensures var h := HeadAt(cfg, o, row, Fresh(wire0, rows0), n);
      h.Some? ==> Shaping(rows0, h.value)
  {
    hide Turn;
    if n > 0 && HeadAt(cfg, o, row, Fresh(wire0, rows0), n).Some? {
      hide Shaping;
      HeadsAreShaping(cfg, o, row, wire0, rows0, n - 1);
      var l := HeadAt(cfg, o, row, Fresh(wire0, rows0), n - 1).value;
      TurnWrites(cfg, o, row, l);
      ShapingAfter(cfg, rows0, l, Turn(cfg, o, row, l).loop);
    }
  }

  /**
   * Along a run numbers stay 1..n, and every tool result follows its frame exactly until the provider
   * gives an unknown kind.
   */
  lemma HeadsShaping(cfg: Config, o: Oracle, row: RunRow, wire0: seq<Wire>, rows0: seq<Message>, n: nat)
    requires WellShaped(rows0)
    ensures var h := HeadAt(cfg, o, row, Fresh(wire0, rows0), n);
      h.Some? ==>
        && rows0 <= h.value.rows
        && Numbered(h.value.rows) && NoSystemRows(h.value.rows)
        && (Answered(h.value.rows) <==> !AnsweredUnknown(o, n))
  {
    hide HeadAt, Answered, Numbered, NoSystemRows, AnsweredUnknown;
    HeadsAreShaping(cfg, o, row, wire0, rows0, n);
    UnknownIff(cfg, o, row, wire0, rows0, n);
  }

  /** The provider never answers with a kind the loop does not know. */
  ghost predicate KnownKinds(o: Oracle) {
    forall i: nat :: !AnswersUnknown(o, i)
  }

  /** The last thing a run writes is nothing or one plain assistant text. */
  lemma StoppingRows(cfg: Config, o: Oracle, row: RunRow, h: LoopState, final: Final)
    requires EndsAt(cfg, o, row, h, final)
    ensures final.loop.rows == h.rows ||
      (Extends(h.rows, final.loop.rows, 1)
       && var m := final.loop.rows[|h.rows|];
          m.role == Assistant && m.meta == NoMeta && m.sequence == NextSequence(h.rows))
  {
    hide IncrementalCost;
    hide PlanToolCall;
    hide ReadCall;
    hide ExchangeRows;
    hide SanitizeText;
    hide StopSentence;
  }

  /** A whole run, started on a well-shaped transcript by a provider with known kinds, leaves it well-shaped. */
  lemma RunKeepsShape(cfg: Config, o: Oracle, row: RunRow, wire0: seq<Wire>, rows0: seq<Message>)
    requires WellShaped(rows0) && KnownKinds(o)
    ensures var final := RunLoop(cfg, o, row, Fresh(wire0, rows0));
      rows0 <= final.loop.rows && WellShaped(final.loop.rows)
  {
    hide RunLoop;
    hide EndsAt;
    var final := RunLoop(cfg, o, row, Fresh(wire0, rows0));
    var h := LastHeadOf(cfg, o, row, Fresh(wire0, rows0));
    StoppingRows(cfg, o, row, h, final);
  }

  lemma LastHeadOf(cfg: Config, o: Oracle, row: RunRow, l0: LoopState) returns (h: LoopState)
    requires WellShaped(l0.rows) && KnownKinds(o) && l0 == Fresh(l0.wire, l0.rows)
    ensures EndsAt(cfg, o, row, h, RunLoop(cfg, o, row, l0))
    ensures l0.rows <= h.rows && WellShaped(h.rows)
  {
    hide RunLoop;
    hide EndsAt;
    hide Turn;
    var m := LastHead(cfg, o, row, l0, 0);
    h := HeadAt(cfg, o, row, l0, m).value;
    HeadsShaping(cfg, o, row, l0.wire, l0.rows, m);
  }

  // ---------------------------------------------------------------- any number of runs, cut anywhere

  /** One question and its run; `cut` is how many of the run's own rows reached the table. */
  datatype Asked = Asked(cfg: Config, oracle: Oracle, row: RunRow, question: string, systemPrompt: string,
      window: nat, cut: nat)

  function Question(before: seq<Message>, run: Asked): seq<Message> {
    Persisted(before, User, run.question, NoMeta, TEXT_LIMIT)
  }

  function AfterRun(rows: seq<Message>, run: Asked): seq<Message> {
    var final := RunLoop(run.cfg, run.oracle, run.row, Fresh(BuildMessages(run.window, run.systemPrompt, rows), rows));
    Take(final.loop.rows, |rows| + run.cut)
  }

  function TranscriptAfter(history: seq<Asked>): seq<Message> {
    if history == [] then []
    else
      var run := history[|history| - 1];
      AfterRun(Question(TranscriptAfter(history[..|history| - 1]), run), run)
  }

  lemma ShapeOfPrefix(rows: seq<Message>, n: nat)
    requires WellShaped(rows)
    ensures WellShaped(Take(rows, n))
  {
  }

  lemma QuestionKeepsShape(before: seq<Message>, run: Asked)
    requires WellShaped(before)
    ensures WellShaped(Question(before, run))
  {
    hide SanitizeText;
  }

  lemma RunAfterShape(rows: seq<Message>, run: Asked)
    requires WellShaped(rows) && KnownKinds(run.oracle)
    ensures WellShaped(AfterRun(rows, run))
  {
    hide RunLoop;
    hide BuildMessages;
    hide WellShaped;
    var wire := BuildMessages(run.window, run.systemPrompt, rows);
    RunKeepsShape(run.cfg, run.oracle, run.row, wire, rows);
    ShapeOfPrefix(RunLoop(run.cfg, run.oracle, run.row, Fresh(wire, rows)).loop.rows, |rows| + run.cut);
  }

  /** Over any sequence of runs, each possibly cut short at any row, the transcript stays well-shaped. */
  lemma {:induction false} TranscriptsAreWellShaped(history: seq<Asked>)
    requires forall i :: 0 <= i < |history| ==> KnownKinds(history[i].oracle)
    ensures WellShaped(TranscriptAfter(history))
  {
    hide AfterRun;
    hide Question;
    hide KnownKinds;
    if history != [] {
      var before := TranscriptAfter(history[..|history| - 1]);
      var run := history[|history| - 1];
      TranscriptsAreWellShaped(history[..|history| - 1]);
      QuestionKeepsShape(before, run);
      RunAfterShape(Question(before, run), run);
    }
  }

  // ---------------------------------------------------------------- the rebuilt wire

  lemma {:induction false} WireBodyIsRowByRow(rows: seq<Message>)
    requires NoSystemRows(rows)
    ensures |WireBody(rows)| == |rows|
    ensures forall i :: 0 <= i < |rows| ==> WireOf(rows[i]) == [WireBody(rows)[i]]
  {
    if rows != [] {
      WireBodyIsRowByRow(rows[..|rows| - 1]);
    }
  }

  lemma BodyIsAnswered(w: seq<Message>, i: nat)
    requires NoSystemRows(w) && i < |w| && w[i].role == ToolRole
    requires i > 0 ==> IsFrame(w[i - 1]) && w[i].meta == ResultMeta(w[i - 1].meta.callId)
    ensures |WireBody(w)| == |w|
    ensures i > 0 ==>
      && WireBody(w)[i - 1].FrameWire? && WireBody(w)[i].ToolWire?
      && WireBody(w)[i - 1].callId == WireBody(w)[i].callId
  {
    hide WireBody;
    WireBodyIsRowByRow(w);
  }

  lemma WindowIsAnswered(rows: seq<Message>, window: nat, i: nat)
    requires WellShaped(rows) && i < |WireBody(Window(rows, window))| && WireBody(Window(rows, window))[i].ToolWire?
    ensures var body := WireBody(Window(rows, window));
      i > 0 ==> body[i - 1].FrameWire? && body[i - 1].callId == body[i].callId
    ensures FitsWindow(rows, window) ==> i > 0
  {
    hide WireBody;
    hide Numbered;
    var w := Window(rows, window);
    var k := |rows| - |w|;
    assert forall j :: 0 <= j < |w| ==> w[j] == rows[k + j];
    WireBodyIsRowByRow(w);
    assert WireOf(w[i]) == [WireBody(w)[i]];
    BodyIsAnswered(w, i);
  }

  /**
   * Each tool message directly follows the frame with its id, except possibly the first message
   * when the window splits a pair; and the wire never ends in an unanswered frame.
   */
  lemma WireIsWellFormed(window: nat, systemPrompt: string, rows: seq<Message>)
    requires WellShaped(rows)
    ensures var wire := BuildMessages(window, systemPrompt, rows);
      && wire[0] == SystemWire(systemPrompt)
      && !wire[|wire| - 1].FrameWire?
      && (forall i :: 2 <= i < |wire| && wire[i].ToolWire? ==>
            wire[i - 1].FrameWire? && wire[i - 1].callId == wire[i].callId)
      && (FitsWindow(rows, window) && |wire| > 1 ==> !wire[1].ToolWire?)
  {
    hide WireBody;
    hide WellShaped;
    hide Window;
    var inner := WireBody(Window(rows, window));
    var body := [SystemWire(systemPrompt)] + inner;
    forall i | 0 <= i < |inner| && inner[i].ToolWire?
      ensures i > 0 ==> body[i].FrameWire? && body[i].callId == body[i + 1].callId
      ensures FitsWindow(rows, window) ==> i > 0
    {
      WindowIsAnswered(rows, window, i);
    }
  }
}
