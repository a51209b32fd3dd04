/**
 * Agent runs as steps of the proposal world: the composition of session loop and proposal lifecycle
 * (backend/agents/session.py, backend/agents/services.py).
 */
module SessionSteps {
  import opened Common
  import opened Json
  import opened Privacy
  import opened Sanitizer
  import opened Tools
  import opened Transcript
  import opened Session
  import opened SessionHistory
  import opened Proposals
  import opened ProposalSafety
  import opened ProposalCeilings

  /** The step a turn of the loop is, seen from the proposal world. */
  function StepOf(cfg: Config, owner: Option<nat>, o: Oracle, turn: nat): Step {
    var r := o.response(turn);
    if r.Reply? && r.success && r.data.ToolCall?
    then AgentTurn(cfg.permission, cfg.allowlist, owner, r.data.name, r.data.arguments, o.attempts(turn))
    else Tick(0)
  }

  /** What may happen between two turns: reviewers, owners, applications, the clock and the sweep. */
  predicate IsOther(s: Step) {
    !s.AgentTurn? && !s.RegisterTool? && !s.EmitStep?
  }

  ghost predicate OthersBetween(between: nat -> seq<Step>) {
    forall i: nat, k :: 0 <= k < |between(i)| ==> IsOther(between(i)[k])
  }

  /** The first n turns of a run, each after whatever others do in between. */
  function StepsOf(cfg: Config, owner: Option<nat>, o: Oracle, between: nat -> seq<Step>, n: nat): seq<Step> {
    if n == 0 then []
    else StepsOf(cfg, owner, o, between, n - 1) + between(n - 1) + [StepOf(cfg, owner, o, n - 1)]
  }

  function SettingOf(cfg: Config, ttl: int, sameRoom: (Value, Value) -> bool): Setting {
    Setting(cfg.formats.repr, ttl, sameRoom)
  }

  // ---------------------------------------------------------------- what a session's rows say happened

  /** What stays the same of a proposal row from its creation on, but for the deadline that its time gives it. */
  datatype Claim = Claim(tool: string, arguments: Value, approval: Approval, owner: Option<nat>)

  function ClaimOf(p: Proposal): Claim {
    Claim(p.tool, p.arguments, p.approval, p.owner)
  }

  function ClaimsOf(ps: seq<Proposal>): seq<Claim> {
    seq(|ps|, i requires 0 <= i < |ps| => ClaimOf(ps[i]))
  }

  /** The rows a run's requests are stored as. */
  function RequestsOf(qs: seq<ProposalRequest>, owner: Option<nat>): seq<Claim> {
    seq(|qs|, i requires 0 <= i < |qs| => Claim(qs[i].tool, qs[i].arguments, qs[i].approval, owner))
  }

  /** The executor calls made during runs. */
  function ReadsOf(log: seq<Record>): seq<Record> {
    if log == [] then []
    else
      var last := log[|log| - 1];
      ReadsOf(log[..|log| - 1]) + if last.Execution? && last.origin.DuringRun? then [last] else []
  }

  /** A call of a read-only tool made for a run. */
  predicate IsRead(cfg: Config, r: Record) {
    && r.Execution? && r.origin.DuringRun? && r.arguments.Obj?
    && r.tool in cfg.registry && r.capability == cfg.registry[r.tool].capability && r.capability.ReadOnly?
  }

  predicate RaisesTypeError(r: Record) {
    r.Execution? && r.attempt.RaisedTypeError?
  }

  /**
   * The executor calls that a stored read call stands for: one, or two after a TypeError, and its result
   * is what they gave.
   */
  ghost predicate Behind(cfg: Config, row: ToolCallRow, calls: seq<Record>) {
    && 1 <= |calls| <= 2
    && (forall i :: 0 <= i < |calls| ==>
         IsRead(cfg, calls[i]) && calls[i].tool == row.tool
           && SanitizeDict(cfg.formats.repr, calls[i].arguments) == row.arguments)
    && (|calls| == 2 <==> RaisesTypeError(calls[0]))
    && var e := Execute(calls[0].attempt, calls[|calls| - 1].attempt);
    && e.Envelope? && row.result == SanitizedOutcome(cfg.formats.repr, e.value, 0)
  }

  /** A log is made up of the executor calls behind the stored read calls, in order, and nothing else. */
  ghost predicate Explained(cfg: Config, rows: seq<ToolCallRow>, log: seq<Record>)
    decreases |rows|
  {
    if rows == [] then log == []
    else
      var front, row := rows[..|rows| - 1], rows[|rows| - 1];
      if row.decision != ReadAllowed then Explained(cfg, front, log)
      else (exists m :: 0 <= m <= |log| && Splits(cfg, front, row, log, m))
  }

  ghost predicate Splits(cfg: Config, front: seq<ToolCallRow>, row: ToolCallRow, log: seq<Record>, m: nat)
    requires m <= |log|
    decreases |front| + 1, 0
  {
    Explained(cfg, front, log[..m]) && Behind(cfg, row, log[m..])
  }

  // ---------------------------------------------------------------- one turn

  /** What the step of a turn adds to the world, against what the turn adds to the session. */
  ghost predicate Performs(cfg: Config, owner: Option<nat>, ttl: int, l: LoopState, next: LoopState, raised: bool,
      w: World, w': World) {
    && w'.now == w.now && w'.tools == w.tools
    && l.proposals <= next.proposals
    && |w'.store.proposals| == |w.store.proposals| + |next.proposals| - |l.proposals|
    && w.store.proposals <= w'.store.proposals
    && ClaimsOf(w'.store.proposals[|w.store.proposals|..]) == RequestsOf(next.proposals[|l.proposals|..], owner)
    && (forall q :: |w.store.proposals| <= q < |w'.store.proposals| ==>
         w'.store.proposals[q].status == PendingReview && w'.store.proposals[q].expiresAt == Some(w.now + ttl))
    && l.calls <= next.calls && |next.calls| <= |l.calls| + 1
    && w.store.log <= w'.store.log
    && var calls := w'.store.log[|w.store.log|..];
    && (forall i :: 0 <= i < |calls| ==> IsRead(cfg, calls[i]))
    && if |next.calls| > |l.calls| && next.calls[|l.calls|].decision == ReadAllowed
       then Behind(cfg, next.calls[|l.calls|], calls)
       else if raised && |next.calls| == |l.calls| then |calls| <= 2
       else calls == []
  }

  /** The loop state a turn leaves, and whether an exception escapes it. */
  function LoopAfter(next: Next): LoopState {
    match next
    case Continue(l) => l
    case Stop(final) => final.loop
  }

  predicate Escaped(next: Next) {
    next.Stop? && next.final.raised
  }

  lemma NothingPerformed(cfg: Config, owner: Option<nat>, ttl: int, l: LoopState, next: LoopState, raised: bool,
      w: World)
    requires next.proposals == l.proposals && next.calls == l.calls
    ensures Performs(cfg, owner, ttl, l, next, raised, w, w)
  {
  }

  lemma ReadPerforms(cfg: Config, owner: Option<nat>, row: RunRow, l: LoopState, call: Data, tool: Tool,
      attempts: (Attempt, Attempt), w: World, ttl: int)
    requires call.ToolCall? && tool.name in cfg.registry && cfg.registry[tool.name] == tool && tool.capability.ReadOnly?
    ensures var args := Arguments(call);
      var next := ReadTurn(cfg, row, l, call, args, tool, attempts);
      var calls := Calls(DuringRun, tool.name, tool.capability, args, attempts, w.now);
      Performs(cfg, owner, ttl, l, LoopAfter(next), Escaped(next), w, w.(store := w.store.(log := w.store.log + calls)))
  {
    hide SanitizeDict, SanitizedOutcome, ExchangeRows, ExchangeWire, ErrorColumn, Execute, Calls;
    var args := Arguments(call);
    var calls := Calls(DuringRun, tool.name, tool.capability, args, attempts, w.now);
    assert (w.store.log + calls)[|w.store.log|..] == calls;
    if !args.Obj? {
      NoCalls(DuringRun, tool.name, tool.capability, args, attempts, w.now);
    } else {
      CallsOfApplication(DuringRun, tool.name, tool.capability, args, attempts, w.now);
      CallsShowResult(tool, args, attempts, w.now);
    }
  }

  lemma CallsShowResult(tool: Tool, args: Value, attempts: (Attempt, Attempt), now: int)
    requires args.Obj?
    ensures var calls := Calls(DuringRun, tool.name, tool.capability, args, attempts, now);
      && |calls| >= 1 && (|calls| == 2 <==> RaisesTypeError(calls[0]))
      && calls[0].Execution? && calls[|calls| - 1].Execution?
      && Execute(calls[0].attempt, calls[|calls| - 1].attempt) == Execute(attempts.0, attempts.1)
  {
  }

  lemma ProposePerforms(cfg: Config, owner: Option<nat>, row: RunRow, l: LoopState, call: Data, tool: Tool,
      reply: ProposalReply, w: World, ttl: int)
    requires call.ToolCall?
    ensures var args := Arguments(call);
      var next := ProposeTurn(cfg, row, l, call, args, tool, reply);
      var store := if args.Obj? then Created(w.store, tool, SanitizeDict(cfg.formats.repr, args), owner, w.now, ttl)
        else w.store;
      Performs(cfg, owner, ttl, l, LoopAfter(next), Escaped(next), w, w.(store := store))
  {
    hide SanitizeDict, ExchangeRows, ExchangeWire, ProposalPayload;
  }

  lemma RefusePerforms(cfg: Config, owner: Option<nat>, row: RunRow, l: LoopState, call: Data, args: Value,
      denial: Denial, w: World, ttl: int)
    requires call.ToolCall?
    ensures var next := RefuseTurn(cfg, row, l, call, args, denial);
      Performs(cfg, owner, ttl, l, LoopAfter(next), Escaped(next), w, w)
  {
    hide ExchangeRows, ExchangeWire, ErrorEnvelope;
  }

  lemma PlannedTool(cfg: Config, call: Data)
    requires call.ToolCall? && Keyed(cfg.registry)
    ensures PlanOf(cfg, call).Read? ==>
      var tool := PlanOf(cfg, call).tool;
      tool.name in cfg.registry && cfg.registry[tool.name] == tool && tool.capability.ReadOnly?
  {
    PlanIsTheGate(cfg.registry, cfg.permission, cfg.allowlist, call.name, Arguments(call));
  }

  lemma ToolTurnPerforms(cfg: Config, owner: Option<nat>, o: Oracle, row: RunRow, l: LoopState, turn: nat, call: Data,
      w: World, ttl: int, sameRoom: (Value, Value) -> bool)
    requires Keyed(cfg.registry) && w.tools == cfg.registry && call.ToolCall?
    ensures var next := ToolTurn(cfg, o, row, l, turn, call);
      var s := AgentTurn(cfg.permission, cfg.allowlist, owner, call.name, call.arguments, o.attempts(turn));
      Performs(cfg, owner, ttl, l, LoopAfter(next), Escaped(next), w, StepWorld(SettingOf(cfg, ttl, sameRoom), w, s))
  {
    hide PlanToolCall, ReadTurn, ProposeTurn, RefuseTurn, Calls, Created, SanitizeDict, Behind, IsRead, RequestsOf,
      ClaimsOf;
    var l1 := l.(sequence := l.sequence + [(call.name, PlanOf(cfg, call).Verdict())]);
    PlannedTool(cfg, call);
    match PlanOf(cfg, call)
    case Refuse(denial) => RefusePerforms(cfg, owner, row, l1, call, Arguments(call), denial, w, ttl);
    case Read(tool) => ReadPerforms(cfg, owner, row, l1, call, tool, o.attempts(turn), w, ttl);
    case Propose(tool) => ProposePerforms(cfg, owner, row, l1, call, tool, o.proposal(turn), w, ttl);
  }

  /** Every turn, whatever it ends in, performs its step: same new proposals, and the executor calls its rows tell. */
  lemma TurnPerforms(cfg: Config, owner: Option<nat>, o: Oracle, row: RunRow, l: LoopState, w: World, ttl: int,
      sameRoom: (Value, Value) -> bool)
    requires Keyed(cfg.registry) && w.tools == cfg.registry
    ensures var next := Turn(cfg, o, row, l);
      Performs(cfg, owner, ttl, l, LoopAfter(next), Escaped(next), w,
               StepWorld(SettingOf(cfg, ttl, sameRoom), w, StepOf(cfg, owner, o, l.count.turns)))
  {
    hide ToolTurn, IncrementalCost, Persisted, SanitizeText, AgentStore, Performs;
    var r := o.response(l.count.turns);
    var next := Turn(cfg, o, row, l);
    var w' := StepWorld(SettingOf(cfg, ttl, sameRoom), w, StepOf(cfg, owner, o, l.count.turns));
    if r.Reply? && r.success && r.data.ToolCall? {
      var l1 := l.(count := Charged(cfg, l.count, r));
      ToolTurnPerforms(cfg, owner, o, row, l1, l.count.turns, r.data, w, ttl, sameRoom);
      PerformsIgnoresCounts(cfg, owner, ttl, l, l1, LoopAfter(next), Escaped(next), w, w');
    } else {
      assert w' == w;
      NothingPerformed(cfg, owner, ttl, l, LoopAfter(next), Escaped(next), w);
    }
  }

  lemma PerformsIgnoresCounts(cfg: Config, owner: Option<nat>, ttl: int, l: LoopState, l1: LoopState, next: LoopState,
      raised: bool, w: World, w': World)
    requires Performs(cfg, owner, ttl, l1, next, raised, w, w') && l1.proposals == l.proposals && l1.calls == l.calls
    ensures Performs(cfg, owner, ttl, l, next, raised, w, w')
  {
    hide Behind, IsRead, RequestsOf, ClaimsOf;
  }

  // ---------------------------------------------------------------- what others do

  lemma ReadsOneMore(log: seq<Record>, r: Record)
    ensures ReadsOf(log + [r]) == ReadsOf(log) + if r.Execution? && r.origin.DuringRun? then [r] else []
  {
    assert (log + [r])[..|log|] == log;
  }

  lemma {:induction false} ReadsAppend(log: seq<Record>, more: seq<Record>)
    ensures ReadsOf(log + more) == ReadsOf(log) + ReadsOf(more)
  {
    if more == [] {
      assert log + more == log;
    } else {
      hide ReadsOf;
      var n := |more| - 1;
      var last := if more[n].Execution? && more[n].origin.DuringRun? then [more[n]] else [];
      ReadsAppend(log, more[..n]);
      assert log + more == (log + more[..n]) + [more[n]] && more == more[..n] + [more[n]];
      ReadsOneMore(log + more[..n], more[n]);
      ReadsOneMore(more[..n], more[n]);
      Regrouped(ReadsOf(log), ReadsOf(more[..n]), last);
    }
  }

  lemma {:induction false} ReadsOfReads(calls: seq<Record>)
    requires forall i :: 0 <= i < |calls| ==> calls[i].Execution? && calls[i].origin.DuringRun?
    ensures ReadsOf(calls) == calls
  {
    if calls != [] {
      ReadsOfReads(calls[..|calls| - 1]);
    }
  }

  lemma {:induction false} NoReads(more: seq<Record>)
    requires forall i :: 0 <= i < |more| && more[i].Execution? ==> !more[i].origin.DuringRun?
    ensures ReadsOf(more) == []
  {
    if more != [] {
      NoReads(more[..|more| - 1]);
    }
  }

  /** Others neither create proposals nor call executors for a run; they only move rows on. */
  lemma OtherStep(setting: Setting, w: World, s: Step)
    requires IsOther(s)
    ensures var w' := StepWorld(setting, w, s);
      w'.tools == w.tools && ClaimsOf(w'.store.proposals) == ClaimsOf(w.store.proposals)
      && ReadsOf(w'.store.log) == ReadsOf(w.store.log)
  {
    hide Apply, ConsentOutcome, ReadsOf, Supports, MeetsCeiling, ClaimsOf;
    var store := StepStore(setting, w, s);
    if s.ApplyStep? {
      ApplyAdds(w, s.pid, s.attempts, s.taken);
    } else if s.ConsentStep? {
      ConsentAdds(setting, w, s);
    } else if s.Tick? {
      SameRowsOfItself(w.store.proposals);
    } else {
      DeskAdds(setting, w, s);
      DeskKeepsLength(setting, w, s);
    }
    SameClaims(w.store.proposals, store.proposals);
    var more := store.log[|w.store.log|..];
    assert store.log == w.store.log + more;
    ReadsAppend(w.store.log, more);
    NoReads(more);
  }

  lemma SameRowsOfItself(ps: seq<Proposal>)
    ensures SameRows(ps, ps)
  {
  }

  lemma DeskKeepsLength(setting: Setting, w: World, s: Step)
    requires IsDesk(s) && !s.EmitStep?
    ensures |StepStore(setting, w, s).proposals| == |w.store.proposals|
  {
    hide Supports, MeetsCeiling;
  }

  lemma SameClaims(before: seq<Proposal>, after: seq<Proposal>)
    requires SameRows(before, after) && |before| == |after|
    ensures ClaimsOf(after) == ClaimsOf(before)
  {
  }

  lemma {:induction false} OtherSteps(setting: Setting, w: World, steps: seq<Step>)
    requires forall k :: 0 <= k < |steps| ==> IsOther(steps[k])
    ensures var w' := RunWorld(setting, w, steps);
      w'.tools == w.tools && ClaimsOf(w'.store.proposals) == ClaimsOf(w.store.proposals)
      && ReadsOf(w'.store.log) == ReadsOf(w.store.log)
    decreases |steps|
  {
    hide StepWorld, ReadsOf, ClaimsOf, IsOther;
    if steps != [] {
      OtherStep(setting, w, steps[0]);
      OtherSteps(setting, StepWorld(setting, w, steps[0]), steps[1..]);
    }
  }

  // ---------------------------------------------------------------- whole runs

  /** A session state and a world its steps lead to: same requests, and reads that its read rows explain. */
  ghost predicate Agree(cfg: Config, owner: Option<nat>, store: Store, l: LoopState, w: World) {
    && w.tools == cfg.registry
    && ClaimsOf(w.store.proposals) == ClaimsOf(store.proposals) + RequestsOf(l.proposals, owner)
    && ReadsOf(store.log) <= ReadsOf(w.store.log)
    && Explained(cfg, l.calls, ReadsOf(w.store.log)[|ReadsOf(store.log)|..])
  }

  lemma RequestsOfMore(qs: seq<ProposalRequest>, more: seq<ProposalRequest>, owner: Option<nat>)
    requires qs <= more
    ensures RequestsOf(more, owner) == RequestsOf(qs, owner) + RequestsOf(more[|qs|..], owner)
  {
  }

  lemma ClaimsOfMore(ps: seq<Proposal>, more: seq<Proposal>)
    requires ps <= more
    ensures ClaimsOf(more) == ClaimsOf(ps) + ClaimsOf(more[|ps|..])
  {
  }

  lemma ExplainedMore(cfg: Config, rows: seq<ToolCallRow>, row: ToolCallRow, log: seq<Record>, calls: seq<Record>)
    requires Explained(cfg, rows, log)
    requires if row.decision == ReadAllowed then Behind(cfg, row, calls) else calls == []
    ensures Explained(cfg, rows + [row], log + calls)
  {
    hide Behind;
    assert (rows + [row])[..|rows|] == rows;
    assert (log + calls)[..|log|] == log && (log + calls)[|log|..] == calls;
    if row.decision == ReadAllowed {
      assert Splits(cfg, rows, row, log + calls, |log|);
    } else {
      assert log + calls == log;
    }
  }

  /** The claims and reads that a performed turn adds. */
  lemma PerformedAdds(cfg: Config, owner: Option<nat>, ttl: int, l: LoopState, next: LoopState, raised: bool,
      w: World, w': World)
    requires Performs(cfg, owner, ttl, l, next, raised, w, w')
    ensures RequestsOf(next.proposals, owner)
      == RequestsOf(l.proposals, owner) + RequestsOf(next.proposals[|l.proposals|..], owner)
    ensures ClaimsOf(w'.store.proposals)
      == ClaimsOf(w.store.proposals) + RequestsOf(next.proposals[|l.proposals|..], owner)
    ensures ReadsOf(w'.store.log) == ReadsOf(w.store.log) + w'.store.log[|w.store.log|..]
  {
    hide Behind, RequestsOf, ClaimsOf, ReadsOf;
    RequestsOfMore(l.proposals, next.proposals, owner);
    ClaimsOfMore(w.store.proposals, w'.store.proposals);
    var calls := w'.store.log[|w.store.log|..];
    assert w'.store.log == w.store.log + calls;
    ReadsAppend(w.store.log, calls);
    ReadsOfReads(calls);
  }

  /** Reads explained so far, and one turn's, are explained. */
  lemma ExplainedAfter(cfg: Config, l: LoopState, next: LoopState, log: seq<Record>, calls: seq<Record>)
    requires Explained(cfg, l.calls, log)
    requires l.calls <= next.calls && |next.calls| <= |l.calls| + 1
    requires if |next.calls| > |l.calls| && next.calls[|l.calls|].decision == ReadAllowed
      then Behind(cfg, next.calls[|l.calls|], calls) else calls == []
    ensures Explained(cfg, next.calls, log + calls)
  {
    hide Explained, Behind;
    if |next.calls| > |l.calls| {
      assert next.calls == l.calls + [next.calls[|l.calls|]];
      ExplainedMore(cfg, l.calls, next.calls[|l.calls|], log, calls);
    } else {
      assert next.calls == l.calls && log + calls == log;
    }
  }

  lemma Suffix<T>(start: seq<T>, middle: seq<T>, more: seq<T>)
    requires start <= middle
    ensures start <= middle + more && (middle + more)[|start|..] == middle[|start|..] + more
  {
  }

  lemma Regrouped<T>(a: seq<T>, b: seq<T>, c: seq<T>)
    ensures (a + b) + c == a + (b + c)
  {
  }

  lemma AgreeAfter(cfg: Config, owner: Option<nat>, ttl: int, store: Store, l: LoopState, next: LoopState, raised: bool,
      w: World, w': World)
    requires Agree(cfg, owner, store, l, w) && Performs(cfg, owner, ttl, l, next, raised, w, w')
    requires !raised || |next.calls| > |l.calls|
    ensures Agree(cfg, owner, store, next, w')
  {
    hide Explained, Behind, RequestsOf, ClaimsOf, ReadsOf, IsRead;
    PerformedAdds(cfg, owner, ttl, l, next, raised, w, w');
    var calls := w'.store.log[|w.store.log|..];
    Suffix(ReadsOf(store.log), ReadsOf(w.store.log), calls);
    ExplainedAfter(cfg, l, next, ReadsOf(w.store.log)[|ReadsOf(store.log)|..], calls);
    Regrouped(ClaimsOf(store.proposals), RequestsOf(l.proposals, owner),
      RequestsOf(next.proposals[|l.proposals|..], owner));
  }

  lemma {:induction false} RunConcat(setting: Setting, w: World, steps: seq<Step>, more: seq<Step>)
    ensures RunWorld(setting, w, steps + more) == RunWorld(setting, RunWorld(setting, w, steps), more)
    decreases |steps|
  {
    hide StepWorld;
    if steps == [] {
      assert steps + more == more;
    } else {
      assert (steps + more)[1..] == steps[1..] + more;
      RunConcat(setting, StepWorld(setting, w, steps[0]), steps[1..], more);
    }
  }

  lemma RunOne(setting: Setting, w: World, s: Step)
    ensures RunWorld(setting, w, [s]) == StepWorld(setting, w, s)
  {
    hide StepWorld;
    assert [s][1..] == [];
    assert RunWorld(setting, StepWorld(setting, w, s), []) == StepWorld(setting, w, s);
  }

  /** The world just before turn n, when others have done what they do before it. */
  function WorldAt(cfg: Config, owner: Option<nat>, o: Oracle, setting: Setting, between: nat -> seq<Step>, w: World,
      n: nat)
    : World
  {
    RunWorld(setting, w, StepsOf(cfg, owner, o, between, n) + between(n))
  }

  lemma NextWorld(cfg: Config, owner: Option<nat>, o: Oracle, setting: Setting, between: nat -> seq<Step>, w: World,
      n: nat)
    ensures RunWorld(setting, w, StepsOf(cfg, owner, o, between, n + 1))
         == StepWorld(setting, WorldAt(cfg, owner, o, setting, between, w, n), StepOf(cfg, owner, o, n))
    ensures WorldAt(cfg, owner, o, setting, between, w, n)
         == RunWorld(setting, RunWorld(setting, w, StepsOf(cfg, owner, o, between, n)), between(n))
  {
    hide StepWorld, StepOf, RunWorld;
    var done := StepsOf(cfg, owner, o, between, n);
    RunConcat(setting, w, done, between(n));
    RunConcat(setting, w, done + between(n), [StepOf(cfg, owner, o, n)]);
    RunOne(setting, WorldAt(cfg, owner, o, setting, between, w, n), StepOf(cfg, owner, o, n));
    assert StepsOf(cfg, owner, o, between, n + 1) == done + between(n) + [StepOf(cfg, owner, o, n)];
  }

  lemma AgreeAmongOthers(cfg: Config, owner: Option<nat>, store: Store, l: LoopState, setting: Setting, w: World,
      steps: seq<Step>)
    requires Agree(cfg, owner, store, l, w)
    requires forall k :: 0 <= k < |steps| ==> IsOther(steps[k])
    ensures Agree(cfg, owner, store, l, RunWorld(setting, w, steps))
  {
    hide Explained, ClaimsOf, ReadsOf, RequestsOf, RunWorld, IsOther;
    OtherSteps(setting, w, steps);
  }

  lemma BetweenIsOther(between: nat -> seq<Step>, n: nat)
    requires OthersBetween(between)
    ensures forall k :: 0 <= k < |between(n)| ==> IsOther(between(n)[k])
  {
  }

  lemma AgreeingTools(cfg: Config, owner: Option<nat>, store: Store, l: LoopState, w: World)
    requires Agree(cfg, owner, store, l, w)
    ensures w.tools == cfg.registry
  {
  }

  lemma StartAgrees(cfg: Config, owner: Option<nat>, wire: seq<Wire>, rows: seq<Message>, w: World)
    requires w.tools == cfg.registry
    ensures Agree(cfg, owner, w.store, Fresh(wire, rows), w)
  {
  }

  /** At every loop head the session agrees with the world that its turns, and others between them, lead to. */
  lemma {:induction false} HeadsAgree(cfg: Config, owner: Option<nat>, o: Oracle, row: RunRow, wire: seq<Wire>,
      rows: seq<Message>, setting: Setting, between: nat -> seq<Step>, w: World, n: nat)
    requires Keyed(cfg.registry) && w.tools == cfg.registry
    requires setting.repr == cfg.formats.repr && OthersBetween(between)
    ensures var h := HeadAt(cfg, o, row, Fresh(wire, rows), n);
      h.Some? ==> Agree(cfg, owner, w.store, h.value, RunWorld(setting, w, StepsOf(cfg, owner, o, between, n)))
    ensures var h := HeadAt(cfg, o, row, Fresh(wire, rows), n);
      h.Some? ==> Agree(cfg, owner, w.store, h.value, WorldAt(cfg, owner, o, setting, between, w, n))
  {
    hide Turn, Guard, StepWorld, Agree, Performs, StepOf, OthersBetween;
    if HeadAt(cfg, o, row, Fresh(wire, rows), n).Some? {
      NextWorld(cfg, owner, o, setting, between, w, n);
      if n == 0 {
        StartAgrees(cfg, owner, wire, rows, w);
      } else {
        HeadsAgree(cfg, owner, o, row, wire, rows, setting, between, w, n - 1);
        var l := HeadAt(cfg, o, row, Fresh(wire, rows), n - 1).value;
        UnknownIff(cfg, o, row, wire, rows, n - 1);
        NextWorld(cfg, owner, o, setting, between, w, n - 1);
        var before := WorldAt(cfg, owner, o, setting, between, w, n - 1);
        AgreeingTools(cfg, owner, w.store, l, before);
        SettingIs(cfg, setting);
        TurnPerforms(cfg, owner, o, row, l, before, setting.ttl, setting.sameRoom);
        AgreeAfter(cfg, owner, setting.ttl, w.store, l, Turn(cfg, o, row, l).loop, false, before,
          StepWorld(setting, before, StepOf(cfg, owner, o, n - 1)));
      }
      BetweenIsOther(between, n);
      AgreeAmongOthers(cfg, owner, w.store, HeadAt(cfg, o, row, Fresh(wire, rows), n).value, setting,
        RunWorld(setting, w, StepsOf(cfg, owner, o, between, n)), between(n));
    }
  }

  lemma SettingIs(cfg: Config, setting: Setting)
    requires setting.repr == cfg.formats.repr
    ensures setting == SettingOf(cfg, setting.ttl, setting.sameRoom)
  {
  }

  /**
   * A whole run, whatever reviewers, owners, applications, the clock and the sweep do between its
   * turns, is a sequence of agent turns of the proposal world: the proposals created are exactly those
   * it requested, and the executors called during runs are exactly those behind its stored read calls,
   * but for the one read, if any, whose exception ended the run.
   */
  lemma RunIsAgentTurns(cfg: Config, owner: Option<nat>, o: Oracle, row: RunRow, wire: seq<Wire>, rows: seq<Message>,
      setting: Setting, between: nat -> seq<Step>, w: World)
    returns (n: nat, told: seq<Record>, untold: seq<Record>)
    requires Keyed(cfg.registry) && w.tools == cfg.registry
    requires setting.repr == cfg.formats.repr && OthersBetween(between)
    ensures var final := RunLoop(cfg, o, row, Fresh(wire, rows));
      var w' := RunWorld(setting, w, StepsOf(cfg, owner, o, between, n));
      && ClaimsOf(w'.store.proposals) == ClaimsOf(w.store.proposals) + RequestsOf(final.loop.proposals, owner)
      && ReadsOf(w'.store.log) == ReadsOf(w.store.log) + told + untold
      && Explained(cfg, final.loop.calls, told)
      && (untold != [] ==> final.raised)
      && |untold| <= 2 && forall i :: 0 <= i < |untold| ==> IsRead(cfg, untold[i])
  {
    hide RunLoop, HeadAt, Turn, Guard, StepWorld, RunWorld, Explained, Behind, RequestsOf, ClaimsOf, ReadsOf, StepOf;
    hide Persisted, StopSentence, IsRead, OthersBetween, StepsOf;
    var m := FirstToLast(cfg, o, row, Fresh(wire, rows));
    var h := HeadAt(cfg, o, row, Fresh(wire, rows), m).value;
    var final := RunLoop(cfg, o, row, Fresh(wire, rows));
    HeadsAgree(cfg, owner, o, row, wire, rows, setting, between, w, m);
    UnknownIff(cfg, o, row, wire, rows, m);
    if Guard(cfg, o, h.count).Some? {
      n := m;
      var there := RunWorld(setting, w, StepsOf(cfg, owner, o, between, m));
      told, untold := ReadsOf(there.store.log)[|ReadsOf(w.store.log)|..], [];
    } else {
      n := m + 1;
      NextWorld(cfg, owner, o, setting, between, w, m);
      var before := WorldAt(cfg, owner, o, setting, between, w, m);
      SettingIs(cfg, setting);
      TurnPerforms(cfg, owner, o, row, h, before, setting.ttl, setting.sameRoom);
      var after := StepWorld(setting, before, StepOf(cfg, owner, o, m));
      if final.raised && |final.loop.calls| == |h.calls| {
        PerformedAdds(cfg, owner, setting.ttl, h, final.loop, true, before, after);
        told := ReadsOf(before.store.log)[|ReadsOf(w.store.log)|..];
        untold := after.store.log[|before.store.log|..];
        assert final.loop.calls == h.calls;
      } else {
        AgreeAfter(cfg, owner, setting.ttl, w.store, h, final.loop, final.raised, before, after);
        told, untold := ReadsOf(after.store.log)[|ReadsOf(w.store.log)|..], [];
      }
    }
  }
}
