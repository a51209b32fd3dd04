/** How often the executor behind a proposal is called (backend/agents/services.py, backend/agents/tools.py). */
module ProposalCalls {
  import opened Common
  import opened Json
  import opened Tools
  import opened Proposals
  import opened ProposalSafety

  /** The executor calls made for one proposal. */
  function CallCount(log: seq<Record>, pid: nat): nat {
    if log == [] then 0
    else
      var r := log[|log| - 1];
      CallCount(log[..|log| - 1], pid) + if r.Execution? && r.origin == FromProposal(pid) then 1 else 0
  }

  /** A step applies the proposal, under its approval or its owner's consent, and gets as far as its executor. */
  predicate ReachesExecutor(w: World, s: Step, pid: nat) {
    && (s.ApplyStep? || s.ConsentStep?) && s.pid == pid && pid < |w.store.proposals|
    && var p := w.store.proposals[pid];
    && (if s.ApplyStep? then p.status == Approved && !IsExpired(p, w.now)
        else CheckOwner(p, s.user, s.kind, s.admitted, w.now).None?)
    && p.tool in w.tools && w.tools[p.tool].accepts(CallArguments(p))
  }

  /** The executor calls of a step that reaches the executor. */
  function CallsMade(s: Step): nat
    requires s.ApplyStep? || s.ConsentStep?
  {
    if s.attempts.0.RaisedTypeError? then 2 else 1
  }

  lemma {:induction false} CountAppend(log: seq<Record>, more: seq<Record>, pid: nat)
    ensures CallCount(log + more, pid) == CallCount(log, pid) + CallCount(more, pid)
  {
    if more == [] {
      assert log + more == log;
    } else {
      var n := |more| - 1;
      assert (log + more)[..|log| + n] == log + more[..n];
      CountAppend(log, more[..n], pid);
    }
  }

  lemma {:induction false} CountOfSame(calls: seq<Record>, origin: Origin, pid: nat)
    requires forall i :: 0 <= i < |calls| ==> calls[i].Execution? && calls[i].origin == origin
    ensures CallCount(calls, pid) == if origin == FromProposal(pid) then |calls| else 0
  {
    if calls != [] {
      CountOfSame(calls[..|calls| - 1], origin, pid);
    }
  }

  lemma ApplyCalls(w: World, q: nat, attempts: (Attempt, Attempt), taken: bool, pid: nat)
    requires Safe(w)
    ensures CallCount(After(w.store, Apply(w.store, w.tools, q, attempts, taken, w.now)).log, pid)
         == CallCount(w.store.log, pid)
            + if !ReachesExecutor(w, ApplyStep(q, attempts, taken), pid) then 0
              else if attempts.0.RaisedTypeError? then 2 else 1
  {
    hide Execute, Succeeded, Calls, CallCount, Authorised, NothingYet, Encodable;
    if ReachesExecutor(w, ApplyStep(q, attempts, taken), q) {
      var p := w.store.proposals[q];
      ArgumentsAreDict(p, w.store.log, q);
      hide RowTells;
      var calls := Calls(FromProposal(q), p.tool, w.tools[p.tool].capability, CallArguments(p), attempts, w.now);
      CallsOfApplication(FromProposal(q), p.tool, w.tools[p.tool].capability, CallArguments(p), attempts, w.now);
      CountAppend(w.store.log, calls, pid);
      CountOfSame(calls, FromProposal(q), pid);
      CountOther(w.store.log + calls, Application(q, Succeeded(ResultOf(attempts)), w.now), pid);
    }
  }

  /** The envelope of an application, if it has one. */
  function ResultOf(attempts: (Attempt, Attempt)): Value {
    var e := Execute(attempts.0, attempts.1);
    if e.Envelope? then e.value else Null
  }

  lemma CountOther(log: seq<Record>, r: Record, pid: nat)
    requires !r.Execution?
    ensures CallCount(log + [r], pid) == CallCount(log, pid)
  {
    assert (log + [r])[..|log|] == log;
  }

  lemma ConsentCalls(setting: Setting, w: World, s: Step, pid: nat)
    requires Safe(w) && s.ConsentStep?
    ensures CallCount(After(w.store, ConsentOutcome(setting, w, s)).log, pid)
         == CallCount(w.store.log, pid) + if ReachesExecutor(w, s, pid) then CallsMade(s) else 0
  {
    hide Safe, CallCount, Supports, ConsentedRows, Apply;
    if s.pid < |w.store.proposals| && w.store.proposals[s.pid].status != Applied
       && CheckOwner(w.store.proposals[s.pid], s.user, s.kind, s.admitted, w.now).None? {
      var given := Given(setting, w, s);
      GivenIsSafe(setting, w, s);
      ApplyCalls(given, s.pid, s.attempts, s.taken, pid);
      CountOther(w.store.log, Consent(s.pid, s.user, w.now), pid);
      GivenReaches(setting, w, s, pid);
      ApplyOutcome(given, s.pid, s.attempts, s.taken);
    }
  }

  /** Once consent is given, its application reaches the executor exactly when the step does. */
  lemma GivenReaches(setting: Setting, w: World, s: Step, pid: nat)
    requires s.ConsentStep? && s.pid < |w.store.proposals|
    requires CheckOwner(w.store.proposals[s.pid], s.user, s.kind, s.admitted, w.now).None?
    ensures ReachesExecutor(Given(setting, w, s), ApplyStep(s.pid, s.attempts, s.taken), pid)
      <==> ReachesExecutor(w, s, pid)
    ensures Given(setting, w, s).store.proposals[s.pid].status == Approved
  {
    hide Supports;
  }

  /** An application of an approved row that does not reach the executor is refused and changes nothing. */
  lemma ApplyOutcome(w: World, pid: nat, attempts: (Attempt, Attempt), taken: bool)
    requires pid < |w.store.proposals| && w.store.proposals[pid].status == Approved
    ensures Apply(w.store, w.tools, pid, attempts, taken, w.now).Refused?
      <==> !ReachesExecutor(w, ApplyStep(pid, attempts, taken), pid)
    ensures Apply(w.store, w.tools, pid, attempts, taken, w.now).Done?
      <==> ReachesExecutor(w, ApplyStep(pid, attempts, taken), pid) && Commits(attempts, taken)
    ensures Apply(w.store, w.tools, pid, attempts, taken, w.now).Done? ==>
      Closed(Apply(w.store, w.tools, pid, attempts, taken, w.now).store.proposals[pid])
  {
    hide Calls, Execute, Encodable, Succeeded;
  }

  lemma TurnCalls(setting: Setting, w: World, s: Step, pid: nat)
    requires s.AgentTurn?
    ensures CallCount(AgentStore(setting, w, s).log, pid) == CallCount(w.store.log, pid)
  {
    hide CallCount, Calls, Capabilities;
    var args := if Truthy(s.arguments) then s.arguments else Obj([]);
    match PlanToolCall(w.tools, s.permission, s.allowlist, s.name, args)
    case Read(tool) =>
      var calls := Calls(DuringRun, tool.name, tool.capability, args, s.attempts, w.now);
      if args.Obj? {
        CallsOfApplication(DuringRun, tool.name, tool.capability, args, s.attempts, w.now);
      } else {
        NoCalls(DuringRun, tool.name, tool.capability, args, s.attempts, w.now);
      }
      CountAppend(w.store.log, calls, pid);
      CountOfSame(calls, DuringRun, pid);
    case _ =>
  }

  lemma ReviewCalls(w: World, q: nat, reviewer: Option<User>, user: User, kind: ConsentKind, admitted: bool, pid: nat)
    ensures CallCount(After(w.store, Approve(w.store, q, reviewer, w.now)).log, pid) == CallCount(w.store.log, pid)
    ensures After(w.store, OwnerRejects(w.store, q, user, kind, admitted, w.now)).log == w.store.log
  {
    hide Supports;
    CountOther(w.store.log, Approval(q, reviewer, w.now), pid);
  }

  /** A step that reaches the executor calls it once, or twice after a TypeError; no other step calls it. */
  lemma StepCalls(setting: Setting, w: World, s: Step, pid: nat)
    requires Safe(w)
    ensures CallCount(StepWorld(setting, w, s).store.log, pid)
         == CallCount(w.store.log, pid) + if ReachesExecutor(w, s, pid) then CallsMade(s) else 0
  {
    hide CallCount, AgentStore, Apply, Approve, OwnerRejects, ConsentOutcome, Safe, SweptAll;
    match s
    case AgentTurn(_, _, _, _, _, _) => TurnCalls(setting, w, s, pid);
    case ApproveStep(q, reviewer) => ReviewCalls(w, q, reviewer, NOBODY, BookmarkConsent, true, pid);
    case ApplyStep(q, attempts, taken) => ApplyCalls(w, q, attempts, taken, pid);
    case ConsentStep(_, _, _, _, _, _) => ConsentCalls(setting, w, s, pid);
    case OwnerRejectStep(q, user, kind, admitted) => ReviewCalls(w, q, None, user, kind, admitted, pid);
    case _ =>
  }

  // ---------------------------------------------------------------- whole runs

  /** The calls of a run, step by step. */
  function RunCalls(setting: Setting, w: World, steps: seq<Step>, pid: nat): nat
    decreases |steps|
  {
    if steps == [] then 0
    else (if ReachesExecutor(w, steps[0], pid) then CallsMade(steps[0]) else 0)
         + RunCalls(setting, StepWorld(setting, w, steps[0]), steps[1..], pid)
  }

  predicate NeverReaches(setting: Setting, w: World, steps: seq<Step>, pid: nat)
    decreases |steps|
  {
    steps == []
    || (!ReachesExecutor(w, steps[0], pid) && NeverReaches(setting, StepWorld(setting, w, steps[0]), steps[1..], pid))
  }

  /**
   * The first application that reaches the executor does not start with a TypeError, and if it does
   * not commit no later one reaches the executor.
   */
  predicate FirstReachSettles(setting: Setting, w: World, steps: seq<Step>, pid: nat)
    decreases |steps|
  {
    if steps == [] then true
    else
      var s, next := steps[0], StepWorld(setting, w, steps[0]);
      if !ReachesExecutor(w, s, pid) then FirstReachSettles(setting, next, steps[1..], pid)
      else
        && !s.attempts.0.RaisedTypeError?
        && (Commits(s.attempts, s.taken) || NeverReaches(setting, next, steps[1..], pid))
  }

  lemma {:induction false} CallsAddUp(setting: Setting, w: World, steps: seq<Step>, pid: nat)
    requires Safe(w)
    ensures CallCount(RunWorld(setting, w, steps).store.log, pid)
         == CallCount(w.store.log, pid) + RunCalls(setting, w, steps, pid)
    decreases |steps|
  {
    hide Safe, StepWorld, CallCount;
    if steps != [] {
      SafeAfterStep(setting, w, steps[0]);
      StepCalls(setting, w, steps[0], pid);
      CallsAddUp(setting, StepWorld(setting, w, steps[0]), steps[1..], pid);
    }
  }

  lemma CommittingCloses(setting: Setting, w: World, s: Step, pid: nat)
    requires Safe(w) && ReachesExecutor(w, s, pid) && Commits(s.attempts, s.taken)
    ensures var w' := StepWorld(setting, w, s);
      pid < |w'.store.proposals| && Closed(w'.store.proposals[pid])
  {
    hide Safe, Commits, Supports, ConsentedRows, Apply;
    if s.ApplyStep? {
      ApplyOutcome(w, pid, s.attempts, s.taken);
      ApplyKeepsLength(w, pid, s.attempts, s.taken);
    } else {
      GivenReaches(setting, w, s, pid);
      ApplyOutcome(Given(setting, w, s), pid, s.attempts, s.taken);
      ApplyKeepsLength(Given(setting, w, s), pid, s.attempts, s.taken);
    }
  }

  lemma ApplyKeepsLength(w: World, pid: nat, attempts: (Attempt, Attempt), taken: bool)
    ensures var o := Apply(w.store, w.tools, pid, attempts, taken, w.now);
      o.Done? ==> |o.store.proposals| == |w.store.proposals|
  {
    hide Calls, Execute, Encodable, Succeeded;
  }

  lemma {:induction false} ClosedNeverReaches(setting: Setting, w: World, steps: seq<Step>, pid: nat)
    requires pid < |w.store.proposals| && Closed(w.store.proposals[pid])
    ensures NeverReaches(setting, w, steps, pid)
    decreases |steps|
  {
    hide StepWorld;
    if steps != [] {
      TerminalStep(setting, w, steps[0], pid);
      ClosedNeverReaches(setting, StepWorld(setting, w, steps[0]), steps[1..], pid);
    }
  }

  lemma {:induction false} NoCallsIff(setting: Setting, w: World, steps: seq<Step>, pid: nat)
    ensures RunCalls(setting, w, steps, pid) == 0 <==> NeverReaches(setting, w, steps, pid)
    decreases |steps|
  {
    hide StepWorld, ReachesExecutor;
    if steps != [] {
      NoCallsIff(setting, StepWorld(setting, w, steps[0]), steps[1..], pid);
    }
  }

  lemma {:induction false} OneCallIff(setting: Setting, w: World, steps: seq<Step>, pid: nat)
    requires Safe(w)
    ensures RunCalls(setting, w, steps, pid) <= 1 <==> FirstReachSettles(setting, w, steps, pid)
    decreases |steps|
  {
    hide StepWorld, ReachesExecutor, Safe, Commits, Closed;
    if steps != [] {
      var s, next := steps[0], StepWorld(setting, w, steps[0]);
      SafeAfterStep(setting, w, s);
      OneCallIff(setting, next, steps[1..], pid);
      NoCallsIff(setting, next, steps[1..], pid);
      if ReachesExecutor(w, s, pid) {
        AppliesOrConsents(w, s, pid);
        if Commits(s.attempts, s.taken) {
          CommittingCloses(setting, w, s, pid);
          ClosedNeverReaches(setting, next, steps[1..], pid);
        }
      }
    }
  }

  lemma AppliesOrConsents(w: World, s: Step, pid: nat)
    requires ReachesExecutor(w, s, pid)
    ensures s.ApplyStep? || s.ConsentStep?
  {
  }

  /**
   * Over any interleaving, a proposal's executor is called at most once if and only if the first
   * application that reaches it does not start with a TypeError and, should it be undone, no later
   * one reaches it.
   */
  lemma CalledAtMostOnceIff(setting: Setting, now: int, tools: Registry, steps: seq<Step>, pid: nat)
    ensures var w := World(now, tools, Store([], []));
      CallCount(RunWorld(setting, w, steps).store.log, pid) <= 1 <==> FirstReachSettles(setting, w, steps, pid)
  {
    hide Safe, RunWorld, FirstReachSettles;
    var w := World(now, tools, Store([], []));
    EmptyIsSafe(w);
    CallsAddUp(setting, w, steps, pid);
    OneCallIff(setting, w, steps, pid);
  }

  // ---------------------------------------------------------------- applications that are undone

  lemma UndoneApplication(setting: Setting, w: World, s: Step, pid: nat)
    requires s.ApplyStep? && ReachesExecutor(w, s, pid) && !Commits(s.attempts, s.taken)
    ensures var w' := StepWorld(setting, w, s);
      w'.now == w.now && w'.tools == w.tools && w'.store.proposals == w.store.proposals
  {
    hide Commits, Calls;
  }

  /**
   * An application that is undone, for whatever reason, leaves the proposal approved, so it can be
   * applied, and its executor called, again.
   */
  lemma UndoneApplicationRunsAgain(setting: Setting, w: World, s: Step, again: Step, pid: nat)
    requires Safe(w) && s.ApplyStep? && again.ApplyStep? && again.pid == pid
    requires ReachesExecutor(w, s, pid) && !Commits(s.attempts, s.taken)
    ensures var w' := StepWorld(setting, w, s);
      && w'.store.proposals == w.store.proposals
      && ReachesExecutor(w', again, pid)
      && CallCount(StepWorld(setting, w', again).store.log, pid)
         == CallCount(w.store.log, pid) + CallsMade(s) + CallsMade(again)
  {
    hide Safe, CallCount, StepWorld, Commits;
    UndoneApplication(setting, w, s, pid);
    SafeAfterStep(setting, w, s);
    StepCalls(setting, w, s, pid);
    StepCalls(setting, StepWorld(setting, w, s), again, pid);
  }

  /**
   * The three causes: a result that JSON cannot hold, writes the database refuses, and an exception
   * after a TypeError.
   */
  lemma CausesOfUndoing(attempts: (Attempt, Attempt), taken: bool)
    ensures !Commits(attempts, taken) <==>
      || (attempts.0.RaisedTypeError? && attempts.1.RaisedOther?)
      || !taken
      || !Encodable(ResultOf(attempts))
  {
    ExecuteWrapsUnlessRetryRaises(attempts.0, attempts.1);
    hide Execute, Encodable;
  }

  /** An executor that succeeds and reports a date is such a cause, without any TypeError. */
  lemma DateInResultIsUndone(text: string, second: Attempt)
    ensures !Commits((Returned(Obj([(Name("ok"), Bool(true)), (Name("at"), Other(text))])), second), true)
  {
    var value := Obj([(Name("ok"), Bool(true)), (Name("at"), Other(text))]);
    assert value.fields[0].0 == Name("ok");
    assert !Encodable(value.fields[1].1);
  }
}
