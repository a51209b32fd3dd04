/**
 * From question to finished run: creation checks, dispatch and execution (backend/agents/services.py,
 * session.py, tasks.py).
 */
module RunLifecycle {
  import opened Common
  import opened Json
  import opened PromptTemplate
  import opened Tools
  import opened Transcript
  import opened Session
  import opened SessionCauses
  import opened SessionHistory
  import opened LiveHistory
  import opened WireShape

  // ---------------------------------------------------------------- what both checks look at

  datatype Audience = StaffAudience | UsersAudience | PublicAudience

  datatype Viewer = Viewer(authenticated: bool, isStaff: bool, role: string)

  /** `feature` is the linked AI feature, if any, and whether it is available to the user. */
  datatype Agent = Agent(active: bool, audience: Audience, feature: Option<bool>, promptKey: string,
      instructions: string)

  datatype Provider = Missing | MockProvider | LiveProvider

  /** `rendered` is how `render_prompt` ends for the agent's prompt key. */
  datatype Setup = Setup(
    conversationActive: bool, agent: Option<Agent>, user: Option<Viewer>,
    provider: Provider, mockAllowed: bool, rendered: Rendering, window: nat)

  predicate IsAuthenticated(user: Option<Viewer>) {
    user.Some? && user.value.authenticated
  }

  predicate IsStaffOrAdmin(user: Option<Viewer>) {
    IsAuthenticated(user) && (user.value.isStaff || user.value.role == "admin")
  }

  // ---------------------------------------------------------------- checks

  /** `create_run`'s checks; None means accepted. */
  function CreateCheck(s: Setup): Option<string> {
    if s.agent.None? then Some("agent_unbound")
    else if !s.agent.value.active then Some("agent_not_active")
    else if s.agent.value.audience.StaffAudience? && !IsStaffOrAdmin(s.user) then Some("agent_staff_only")
    else if s.agent.value.audience.UsersAudience? && !IsAuthenticated(s.user) then Some("agent_users_only")
    else if s.agent.value.feature == Some(false) then Some("feature_unavailable")
    else None
  }

  /** `_validate_run`. */
  function ValidateRun(s: Setup): Option<string> {
    if !s.conversationActive then Some("conversation_not_active")
    else if s.agent.None? then Some("agent_unbound")
    else if !s.agent.value.active then Some("agent_not_active")
    else if s.agent.value.audience.StaffAudience? && !IsStaffOrAdmin(s.user) then Some("agent_staff_only")
    else if s.agent.value.audience.UsersAudience? && !IsAuthenticated(s.user) then Some("agent_users_only")
    else if s.agent.value.feature == Some(false) then Some("feature_unavailable")
    else None
  }

  const PROMPT_LIMIT: nat := 12000

  datatype Prompt = Prompt(text: string) | NoPrompt(reason: string)

  function Joined(rendered: string, instructions: string): string {
    if rendered == "" then instructions
    else if instructions == "" then rendered
    else rendered + "\n\n" + instructions
  }

  /**
   * `_build_system_prompt`. Without an active version, or with a variable missing, it falls back to
   * the inline instructions; only a definition that is not a dict raises past it.
   */
  function SystemPrompt(a: Agent, rendered: Rendering): Prompt {
    if a.promptKey != "" && rendered.DefinitionIsNotADict? then NoPrompt("internal_error")
    else if a.promptKey != "" && !rendered.Rendered? && a.instructions == "" then NoPrompt("prompt_unavailable")
    else
      var text := Joined(if a.promptKey != "" && rendered.Rendered? then rendered.text else "", a.instructions);
      if text == "" then NoPrompt("agent_has_no_prompt_configured")
      else Prompt(SanitizeText(text, PROMPT_LIMIT))
  }

  /** Why a run fails before its first turn, if it does. */
  function Refusal(s: Setup): Option<string> {
    if ValidateRun(s).Some? then ValidateRun(s)
    else if s.provider.Missing? || (s.provider.MockProvider? && !s.mockAllowed) then Some("provider_not_configured")
    else
      var prompt := SystemPrompt(s.agent.value, s.rendered);
      if prompt.NoPrompt? then Some(prompt.reason) else None
  }

  function FirstWire(s: Setup, rows: seq<Message>): seq<Wire>
    requires Refusal(s).None?
  {
    BuildMessages(s.window, SystemPrompt(s.agent.value, s.rendered).text, rows)
  }

  /** `execute`: the loop and the run row it leaves behind. */
  function Executed(cfg: Config, o: Oracle, s: Setup, row: RunRow, rows: seq<Message>): Final {
    var running := row.(status := Running);
    match Refusal(s)
    case Some(reason) => Final(Fresh([], rows), running.(status := FailedRun, reason := reason), false)
    case None =>
      var final := RunLoop(cfg, o, running, Fresh(FirstWire(s, rows), rows));
      if final.raised then final.(row := final.row.(status := FailedRun, reason := "internal_error")) else final
  }

  predicate Finished(status: RunStatus) {
    status.Completed? || status.Terminated? || status.FailedRun?
  }

  /** `execute_agent_run`: a finished run is not executed again. */
  function Dispatched(cfg: Config, o: Oracle, s: Setup, row: RunRow, rows: seq<Message>): (RunRow, seq<Message>) {
    if Finished(row.status) then (row, rows)
    else
      var final := Executed(cfg, o, s, row, rows);
      (final.row, final.loop.rows)
  }

  // ---------------------------------------------------------------- the imperative forms

  /** `create_run`: checks, a pending run and the user's message. */
  method CreateRun(tables: Tables, s: Setup, question: string) returns (error: Option<string>, run: AgentRun)
    modifies tables`rows
    ensures error == CreateCheck(s)
    ensures error.Some? ==> tables.rows == old(tables.rows)
    ensures error.None? ==> tables.rows == Persisted(old(tables.rows), User, question, NoMeta, TEXT_LIMIT)
    ensures fresh(run) && run.Row() == RunRow(PendingRun, "", NO_COUNTS)
  {
    run := new AgentRun();
    error := CreateCheck(s);
    if error.None? {
      tables.PersistMessage(User, question, NoMeta, TEXT_LIMIT);
    }
  }

  /** `AgentSession.execute`, which never raises. */
  method Execute(session: AgentSession, run: AgentRun, o: Oracle, s: Setup)
    requires session.tables.calls == [] && session.tables.proposals == []
    modifies run, session.tables
    ensures var final := Executed(session.cfg, o, s, old(run.Row()), old(session.tables.rows));
      && run.Row() == final.row
      && session.tables.rows == final.loop.rows
      && session.tables.calls == final.loop.calls
      && session.tables.proposals == final.loop.proposals
  {
    hide RunLoop, SystemPrompt, ValidateRun, BuildMessages;
    run.status := Running;
    var refusal := Refusal(s);
    if refusal.Some? {
      run.status, run.reason := FailedRun, refusal.value;
    } else {
      var live := new MessageList(FirstWire(s, session.tables.rows));
      var raised := session.Loop(run, o, live);
      if raised {
        run.status, run.reason := FailedRun, "internal_error";
      }
    }
  }

  method Dispatch(session: AgentSession, run: AgentRun, o: Oracle, s: Setup)
    requires session.tables.calls == [] && session.tables.proposals == []
    modifies run, session.tables
    ensures (run.Row(), session.tables.rows) == Dispatched(session.cfg, o, s, old(run.Row()), old(session.tables.rows))
  {
    hide Executed;
    if run.status.PendingRun? || run.status.Running? {
      Execute(session, run, o, s);
    }
  }

  // ---------------------------------------------------------------- what the checks promise each other

  /** Execution re-checks what creation checked: between the two only closing the conversation adds a refusal. */
  lemma ChecksAgree(s: Setup)
    ensures ValidateRun(s).None? <==> s.conversationActive && CreateCheck(s).None?
    ensures s.conversationActive ==> ValidateRun(s) == CreateCheck(s)
    ensures ValidateRun(s).None? ==> s.agent.Some?
  {
  }

  /**
   * A run gets past the prompt exactly when it has some text, inline or rendered, and rendering raises
   * nothing but validation errors.
   */
  lemma PromptExistsIff(a: Agent, rendered: Rendering)
    ensures SystemPrompt(a, rendered).Prompt? <==>
      if a.promptKey == "" then a.instructions != ""
      else !rendered.DefinitionIsNotADict? && (a.instructions != "" || (rendered.Rendered? && rendered.text != ""))
  {
  }

  /** Why an agent has no prompt: a definition that is not a dict, a template that cannot be rendered, or no text. */
  lemma NoPromptBecause(a: Agent, rendered: Rendering)
    requires SystemPrompt(a, rendered).NoPrompt?
    ensures var reason := SystemPrompt(a, rendered).reason;
      if a.promptKey != "" && rendered.DefinitionIsNotADict? then reason == "internal_error"
      else a.instructions == "" && reason == if a.promptKey != "" && !rendered.Rendered? then "prompt_unavailable"
        else "agent_has_no_prompt_configured"
  {
  }

  /** A used placeholder whose definition is not a dict fails every run of the agent, inline instructions or not. */
  lemma BadDefinitionFailsTheRun(cfg: Config, o: Oracle, s: Setup, row: RunRow, rows: seq<Message>,
      word: char -> bool, template: string, defs: Definitions, context: map<string, string>, name: string)
    requires ValidateRun(s).None? && s.agent.Some? && s.agent.value.promptKey != ""
    requires s.provider.LiveProvider? || (s.provider.MockProvider? && s.mockAllowed)
    requires s.rendered == Render(word, template, defs, context)
    requires Required(defs) <= context.Keys && name in Names(word, template) && name in defs && defs[name].NotDict?
    ensures Executed(cfg, o, s, row, rows).row.status == FailedRun
    ensures Executed(cfg, o, s, row, rows).row.reason == "internal_error"
  {
    hide RunLoop, Names, ValidateRun, BuildMessages;
    assert Required(defs) - context.Keys == {};
  }

  /** Who an agent serves: staff and admins, anyone signed in, or everyone. */
  predicate Serves(audience: Audience, user: Option<Viewer>) {
    match audience
    case PublicAudience => true
    case UsersAudience => user.Some? && user.value.authenticated
    case StaffAudience => user.Some? && user.value.authenticated && (user.value.role == "admin" || user.value.isStaff)
  }

  /** A question is taken exactly by an active agent that serves its user and whose feature is not switched off. */
  lemma QuestionTakenIff(s: Setup)
    ensures CreateCheck(s).None? <==>
      && s.agent.Some?
      && var a := s.agent.value;
      a.active && Serves(a.audience, s.user) && a.feature != Some(false)
    ensures CreateCheck(s) == Some("agent_unbound") <==> s.agent.None?
    ensures CreateCheck(s) == Some("agent_not_active") <==> s.agent.Some? && !s.agent.value.active
    ensures s.agent.Some? && s.agent.value.active && !Serves(s.agent.value.audience, s.user) ==>
      CreateCheck(s) == Some(if s.agent.value.audience.StaffAudience? then "agent_staff_only" else "agent_users_only")
    ensures s.agent.Some? && s.agent.value.active && Serves(s.agent.value.audience, s.user) ==>
      CreateCheck(s) == if s.agent.value.feature == Some(false) then Some("feature_unavailable") else None
  {
    assert |"agent_unbound"| == 13 && |"agent_not_active"| == 16 && |"agent_staff_only"| == 16;
    assert "agent_not_active"[6] == 'n' && "agent_staff_only"[6] == 's' && "agent_users_only"[6] == 'u';
    assert |"feature_unavailable"| == 19;
  }

  /** A run gets to its loop exactly with an open conversation, a usable provider and a prompt. */
  lemma RunStartsIff(s: Setup)
    ensures Refusal(s).None? <==>
      && s.conversationActive && CreateCheck(s).None?
      && (s.provider.LiveProvider? || (s.provider.MockProvider? && s.mockAllowed))
      && SystemPrompt(s.agent.value, s.rendered).Prompt?
  {
    ChecksAgree(s);
    hide SystemPrompt, ValidateRun, CreateCheck;
  }

  /**
   * The prompt is the rendered template, a blank line and the inline instructions, whichever there are,
   * cleaned and cut.
   */
  lemma PromptIsTemplateThenInstructions(a: Agent, rendered: Rendering)
    requires SystemPrompt(a, rendered).Prompt?
    ensures var text := SystemPrompt(a, rendered).text;
      var template := if a.promptKey != "" && rendered.Rendered? then rendered.text else "";
      && |text| <= 12000
      && (template != "" && a.instructions != "" ==>
            text == SanitizeText(template + "\n\n" + a.instructions, 12000))
      && (template == "" ==> text == SanitizeText(a.instructions, 12000))
      && (a.instructions == "" ==> text == SanitizeText(template, 12000))
  {
    hide Stripped;
  }

  // ---------------------------------------------------------------- execution

  /** Whatever happens outside, an executed run is finished, so dispatching it again does nothing. */
  lemma ExecutionFinishes(cfg: Config, o: Oracle, s: Setup, row: RunRow, rows: seq<Message>)
    ensures Finished(Executed(cfg, o, s, row, rows).row.status)
    ensures AtMostOneOver(cfg, o, Executed(cfg, o, s, row, rows).loop.count)
  {
    hide RunLoop, SystemPrompt, ValidateRun, BuildMessages;
    if Refusal(s).None? {
      RunIsBounded(cfg, o, row.(status := Running), FirstWire(s, rows), rows);
    }
  }

  lemma SecondDispatchIsIdle(cfg: Config, o: Oracle, s: Setup, row: RunRow, rows: seq<Message>, o': Oracle, s': Setup)
    ensures var first := Dispatched(cfg, o, s, row, rows);
      Dispatched(cfg, o', s', first.0, first.1) == first
  {
    hide Executed;
    ExecutionFinishes(cfg, o, s, row, rows);
  }

  /** A run refused before its first turn writes nothing and calls nothing. */
  lemma RefusedRunLeavesNoTrace(cfg: Config, o: Oracle, s: Setup, row: RunRow, rows: seq<Message>)
    requires Refusal(s).Some?
    ensures var final := Executed(cfg, o, s, row, rows);
      && final.loop.rows == rows && final.loop.calls == [] && final.loop.proposals == []
      && final.loop.count == NO_COUNTS && final.row.status == FailedRun && final.row.totals == row.totals
  {
  }

  /** The first state of the loop of a run that is not refused. */
  function Start(s: Setup, rows: seq<Message>): LoopState
    requires Refusal(s).None?
  {
    Fresh(FirstWire(s, rows), rows)
  }

  /** Some turn of the loop is reached whose answers let an exception escape. */
  ghost predicate SomeTurnEscapes(cfg: Config, o: Oracle, s: Setup, rows: seq<Message>)
    requires Refusal(s).None?
  {
    exists n: nat :: Reaches(cfg, o, RunRow(Running, "", NO_COUNTS), Start(s, rows), n) && Escapes(cfg, o, n)
  }

  /**
   * A new run's recorded totals are those of its loop exactly unless it reaches a turn whose answers
   * let an exception escape: then they stay zero, although turns were taken.
   */
  lemma TotalsAreRecordedIff(cfg: Config, o: Oracle, s: Setup, rows: seq<Message>)
    ensures var final := Executed(cfg, o, s, RunRow(PendingRun, "", NO_COUNTS), rows);
      && (final.row.totals == final.loop.count <==> Refusal(s).Some? || !SomeTurnEscapes(cfg, o, s, rows))
      && (Refusal(s).None? && SomeTurnEscapes(cfg, o, s, rows) ==>
            final.row.totals == NO_COUNTS && final.loop.count.turns > 0 && final.row.reason == "internal_error")
  {
    hide RunLoop, SystemPrompt, ValidateRun, BuildMessages, HeadAt, Turn, Guard, AtMostOneOver, Persisted, StopSentence;
    hide Reaches, Escapes;
    var running := RunRow(Running, "", NO_COUNTS);
    if Refusal(s).None? {
      var wire := FirstWire(s, rows);
      RunIsBounded(cfg, o, running, wire, rows);
      RunRaisesIff(cfg, o, running, wire, rows);
      var h := BoundedLastHead(cfg, o, running, wire, rows);
      if Guard(cfg, o, h.count).None? {
        StoppingTurn(cfg, o, running, h);
      }
    }
  }

  /**
   * A plain such run: on the first turn, under positive limits, the model asks for a tool with a JSON
   * list as arguments.
   */
  lemma ListArgumentsLoseTotals(cfg: Config, s: Setup, rows: seq<Message>, name: string, items: seq<Value>,
      callId: string, input: nat, output: nat, attempts: (Attempt, Attempt), reply: ProposalReply)
    requires Refusal(s).None? && cfg.failureLimit > 0
    requires var l := cfg.limits;
      l.maxTurns > 0 && l.maxToolCalls > 0 && l.maxTokens > 0 && l.maxCost > 0.0 && l.timeoutSeconds > 0
    requires items != [] && IsJson(Arr(items))
    ensures var answer := Reply(true, input, output, None, ToolCall(name, Arr(items), callId));
      var o := Oracle(_ => answer, _ => 0, _ => attempts, _ => reply);
      var final := Executed(cfg, o, s, RunRow(PendingRun, "", NO_COUNTS), rows);
      && SomeTurnEscapes(cfg, o, s, rows)
      && final.loop.count.turns == 1 && final.loop.count.input == input && final.loop.count.output == output
      && final.row == RunRow(FailedRun, "internal_error", NO_COUNTS)
  {
    hide SystemPrompt, ValidateRun, BuildMessages, Turn, Escapes;
    var answer := Reply(true, input, output, None, ToolCall(name, Arr(items), callId));
    var o := Oracle(_ => answer, _ => 0, _ => attempts, _ => reply);
    ListTurnRaises(cfg, o, RunRow(Running, "", NO_COUNTS), Start(s, rows), name, items, callId);
    assert Reaches(cfg, o, RunRow(Running, "", NO_COUNTS), Start(s, rows), 0) && Escapes(cfg, o, 0);
  }

  lemma ListTurnRaises(cfg: Config, o: Oracle, row: RunRow, l: LoopState, name: string, items: seq<Value>,
      callId: string)
    requires l.count == NO_COUNTS && items != [] && IsJson(Arr(items))
    requires var r := o.response(0);
      r.Reply? && r.success && r.data == ToolCall(name, Arr(items), callId)
    ensures Escapes(cfg, o, 0)
    ensures var next, r := Turn(cfg, o, row, l), o.response(0);
      && next.Stop? && next.final.raised && next.final.row == row
      && next.final.loop.count.turns == 1 && next.final.loop.count.input == r.input
      && next.final.loop.count.output == r.output
  {
    hide PlanToolCall, IncrementalCost, Persisted, SanitizeText;
  }

  // ---------------------------------------------------------------- whole conversations

  datatype Ask = Ask(cfg: Config, oracle: Oracle, setup: Setup, question: string)

  function Asking(rows: seq<Message>, ask: Ask): seq<Message> {
    Persisted(rows, User, ask.question, NoMeta, TEXT_LIMIT)
  }

  function AfterAsk(rows: seq<Message>, ask: Ask): seq<Message> {
    if CreateCheck(ask.setup).Some? then rows
    else Dispatched(ask.cfg, ask.oracle, ask.setup, RunRow(PendingRun, "", NO_COUNTS), Asking(rows, ask)).1
  }

  function Chat(asks: seq<Ask>): seq<Message> {
    if asks == [] then [] else AfterAsk(Chat(asks[..|asks| - 1]), asks[|asks| - 1])
  }

  lemma AskKeepsShape(rows: seq<Message>, ask: Ask)
    requires WellShaped(rows) && KnownKinds(ask.oracle)
    ensures rows <= AfterAsk(rows, ask) && WellShaped(AfterAsk(rows, ask))
  {
    hide RunLoop, SystemPrompt, ValidateRun, CreateCheck, BuildMessages, KnownKinds, SanitizeText;
    var asked := Asking(rows, ask);
    assert WellShaped(asked);
    hide Answered, Numbered, NoSystemRows;
    if Refusal(ask.setup).None? {
      RunKeepsShape(ask.cfg, ask.oracle, RunRow(Running, "", NO_COUNTS), FirstWire(ask.setup, asked), asked);
    }
  }

  /** A question that is taken becomes the next message of the conversation, before anything its run writes. */
  lemma QuestionIsAsked(rows: seq<Message>, ask: Ask)
    requires WellShaped(rows) && KnownKinds(ask.oracle)
    ensures CreateCheck(ask.setup).Some? ==> AfterAsk(rows, ask) == rows
    ensures CreateCheck(ask.setup).None? ==>
      var after := AfterAsk(rows, ask);
      && |rows| < |after| && rows <= after
      && after[|rows|] == Message(User, SanitizeText(ask.question, 8000), NextSequence(rows), NoMeta)
  {
    hide RunLoop, SystemPrompt, ValidateRun, CreateCheck, BuildMessages, KnownKinds, SanitizeText;
    var asked := Asking(rows, ask);
    assert WellShaped(asked);
    hide Answered, Numbered, NoSystemRows;
    if Refusal(ask.setup).None? {
      RunKeepsShape(ask.cfg, ask.oracle, RunRow(Running, "", NO_COUNTS), FirstWire(ask.setup, asked), asked);
    }
  }

  /**
   * A conversation only grows, and keeps its shape over any sequence of questions, refused and failing
   * ones included.
   */
  lemma {:induction false} ChatIsWellShaped(asks: seq<Ask>)
    requires forall i :: 0 <= i < |asks| ==> KnownKinds(asks[i].oracle)
    ensures WellShaped(Chat(asks))
  {
    hide AfterAsk, KnownKinds, WellShaped;
    if asks != [] {
      ChatIsWellShaped(asks[..|asks| - 1]);
      AskKeepsShape(Chat(asks[..|asks| - 1]), asks[|asks| - 1]);
    } else {
      EmptyIsWellShaped();
    }
  }

  lemma EmptyIsWellShaped()
    ensures WellShaped([])
  {
  }

  /** Any question asked in any conversation starts its run with live list and transcript in step, and they stay so. */
  lemma AskedRunIsInStep(rows: seq<Message>, ask: Ask, n: nat)
    requires Refusal(ask.setup).None?
    requires HeadAt(ask.cfg, ask.oracle, RunRow(Running, "", NO_COUNTS),
                    Fresh(FirstWire(ask.setup, Asking(rows, ask)), Asking(rows, ask)), n).Some?
    requires FitsWindow(HeadAt(ask.cfg, ask.oracle, RunRow(Running, "", NO_COUNTS),
                    Fresh(FirstWire(ask.setup, Asking(rows, ask)), Asking(rows, ask)), n).value.rows, ask.setup.window)
    ensures var wire0 := FirstWire(ask.setup, Asking(rows, ask));
      var l := HeadAt(ask.cfg, ask.oracle, RunRow(Running, "", NO_COUNTS), Fresh(wire0, Asking(rows, ask)), n).value;
      && wire0 <= l.wire
      && (FirstWire(ask.setup, l.rows) == wire0 + DurableAll(ask.cfg.formats.repr, Added(wire0, l.wire))
          <==> !AnsweredUnknown(ask.oracle, n))
  {
    hide HeadAt, AnsweredUnknown, SystemPrompt, BuildMessages, DurableAll, Added;
    QuestionSettles(rows, ask);
    RebuiltEqualsLive(ask.cfg, ask.oracle, RunRow(Running, "", NO_COUNTS), ask.setup.window,
                      SystemPrompt(ask.setup.agent.value, ask.setup.rendered).text, Asking(rows, ask), n);
  }

  lemma QuestionSettles(rows: seq<Message>, ask: Ask)
    ensures Settled(Asking(rows, ask))
  {
    hide SanitizeText;
    WireBodyAppend(rows, Asking(rows, ask)[|rows|]);
  }
}
