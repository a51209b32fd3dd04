/**
 * Approval ceilings, owner consent and tool capabilities that may change (backend/agents/services.py,
 * backend/agents/tools.py, backend/negotiation_agent/services.py).
 */
module ProposalCeilings {
  import opened Common
  import opened Json
  import opened Privacy
  import opened Tools
  import opened Session
  import opened Proposals
  import opened ProposalSafety
  import opened ProposalCalls

  /** Re-registering keeps a tool's capability, and the autopilot proposes its own, state-changing tools only. */
  predicate Stable(w: World, s: Step) {
    match s
    case RegisterTool(tool) => tool.name in w.tools ==> w.tools[tool.name].capability == tool.capability
    case EmitStep(slug, _, _) =>
      var name := AUTOPILOT_PREFIX + "." + slug;
      name in w.tools && w.tools[name].capability.StateChanging?
    case _ => true
  }

  predicate StableRun(setting: Setting, w: World, steps: seq<Step>)
    decreases |steps|
  {
    steps == [] || (Stable(w, steps[0]) && StableRun(setting, StepWorld(setting, w, steps[0]), steps[1..]))
  }

  /** Proposals carry the ceiling of the capability their tool has, and ran at that capability. */
  ghost predicate CeilingsMatch(w: World) {
    && Keyed(w.tools)
    && (forall pid :: 0 <= pid < |w.store.proposals| ==>
         var p := w.store.proposals[pid];
         && p.tool in w.tools && !w.tools[p.tool].capability.ReadOnly?
         && p.approval == ApprovalFor(w.tools[p.tool].capability))
    && (forall k :: 0 <= k < |w.store.log| ==>
         var r := w.store.log[k];
         r.Execution? ==> r.tool in w.tools && w.tools[r.tool].capability == r.capability)
  }

  /** New records and rows that match. */
  lemma CeilingsMatchMore(w: World, store: Store)
    requires CeilingsMatch(w) && w.store.log <= store.log && SameRows(w.store.proposals, store.proposals)
    requires forall pid :: |w.store.proposals| <= pid < |store.proposals| ==>
      var p := store.proposals[pid];
      && p.tool in w.tools && !w.tools[p.tool].capability.ReadOnly?
      && p.approval == ApprovalFor(w.tools[p.tool].capability)
    requires forall k :: |w.store.log| <= k < |store.log| && store.log[k].Execution? ==>
      store.log[k].tool in w.tools && w.tools[store.log[k].tool].capability == store.log[k].capability
    ensures CeilingsMatch(w.(store := store))
  {
    assert forall k :: 0 <= k < |w.store.log| ==> store.log[k] == w.store.log[k];
  }

  /** What an application adds: calls of the row's tool, and perhaps its commit. */
  lemma ApplyAdds(w: World, pid: nat, attempts: (Attempt, Attempt), taken: bool)
    ensures var store := After(w.store, Apply(w.store, w.tools, pid, attempts, taken, w.now));
      && w.store.log <= store.log
      && SameRows(w.store.proposals, store.proposals) && |store.proposals| == |w.store.proposals|
      && (forall q :: 0 <= q < |store.proposals| && q != pid ==> store.proposals[q] == w.store.proposals[q])
      && (forall q :: 0 <= q < |store.proposals| ==>
            store.proposals[q].status == w.store.proposals[q].status || Closed(store.proposals[q]))
      && forall k :: |w.store.log| <= k < |store.log| && store.log[k].Execution? ==>
           && ReachesExecutor(w, ApplyStep(pid, attempts, taken), pid)
           && store.log[k].origin == FromProposal(pid) && store.log[k].tool == w.store.proposals[pid].tool
           && store.log[k].capability == w.tools[w.store.proposals[pid].tool].capability
  {
    hide Execute, Encodable, Succeeded, Attempts;
  }

  lemma ConsentAdds(setting: Setting, w: World, s: Step)
    requires s.ConsentStep?
    ensures var store := After(w.store, ConsentOutcome(setting, w, s));
      && w.store.log <= store.log
      && SameRows(w.store.proposals, store.proposals) && |store.proposals| == |w.store.proposals|
      && (forall q :: 0 <= q < |store.proposals| ==>
            || store.proposals[q].status == w.store.proposals[q].status
            || Closed(store.proposals[q]) || store.proposals[q].status == Expired)
      && forall k :: |w.store.log| <= k < |store.log| && store.log[k].Execution? ==>
           && ReachesExecutor(w, s, s.pid)
           && store.log[k].origin == FromProposal(s.pid) && store.log[k].tool == w.store.proposals[s.pid].tool
           && store.log[k].capability == w.tools[w.store.proposals[s.pid].tool].capability
  {
    hide Supports, ConsentedRows, Apply, Commits;
    if s.pid < |w.store.proposals| && w.store.proposals[s.pid].status != Applied
       && CheckOwner(w.store.proposals[s.pid], s.user, s.kind, s.admitted, w.now).None? {
      var given := Given(setting, w, s);
      ConsentedRowsAreSame(setting, w.store.proposals, s.pid, s.user, s.kind, w.now);
      GivenReaches(setting, w, s, s.pid);
      ApplyAdds(given, s.pid, s.attempts, s.taken);
      ApplyOutcome(given, s.pid, s.attempts, s.taken);
      var store := After(w.store, ConsentOutcome(setting, w, s));
      var applied := After(given.store, ConsentOutcome(setting, w, s));
      if !ConsentOutcome(setting, w, s).Refused? {
        assert store.log == applied.log;
        assert forall k :: 0 <= k < |w.store.log| ==> applied.log[k] == w.store.log[k];
        assert given.store.log[|w.store.log|] == Consent(s.pid, s.user, w.now) == applied.log[|w.store.log|];
      }
    }
  }

  lemma TurnAdds(setting: Setting, w: World, s: Step)
    requires s.AgentTurn?
    ensures var store := AgentStore(setting, w, s);
      && w.store.log <= store.log && SameRows(w.store.proposals, store.proposals)
      && (forall pid :: 0 <= pid < |w.store.proposals| ==> store.proposals[pid] == w.store.proposals[pid])
      && (Keyed(w.tools) ==>
            && (forall pid :: |w.store.proposals| <= pid < |store.proposals| ==>
                  var p := store.proposals[pid];
                  && p.tool in w.tools && !w.tools[p.tool].capability.ReadOnly?
                  && p.approval == ApprovalFor(w.tools[p.tool].capability))
            && (forall k :: |w.store.log| <= k < |store.log| ==>
                  && store.log[k].Execution? && store.log[k].origin.DuringRun? && store.log[k].capability.ReadOnly?
                  && store.log[k].tool in w.tools
                  && w.tools[store.log[k].tool].capability == store.log[k].capability))
  {
    hide Capabilities, SanitizeDict, Attempts;
  }

  lemma StoreOfStep(setting: Setting, w: World, s: Step)
    ensures s.Tick? || s.RegisterTool? ==> StepStore(setting, w, s) == w.store
    ensures s.AgentTurn? ==> StepStore(setting, w, s) == AgentStore(setting, w, s)
    ensures s.ApplyStep? ==>
      StepStore(setting, w, s) == After(w.store, Apply(w.store, w.tools, s.pid, s.attempts, s.taken, w.now))
    ensures s.ConsentStep? ==> StepStore(setting, w, s) == After(w.store, ConsentOutcome(setting, w, s))
  {
    hide AgentStore, Apply, ConsentOutcome;
  }

  /** Steps that review, dismiss or emit proposals. */
  predicate IsDesk(s: Step) {
    s.ApproveStep? || s.RejectStep? || s.OwnerRejectStep? || s.ExpireStep? || s.EmitStep?
  }

  lemma DeskAdds(setting: Setting, w: World, s: Step)
    requires IsDesk(s) && Stable(w, s)
    ensures var store := StepStore(setting, w, s);
      && w.store.log <= store.log && SameRows(w.store.proposals, store.proposals)
      && (forall k :: |w.store.log| <= k < |store.log| ==> !store.log[k].Execution?)
      && (forall q :: 0 <= q < |w.store.proposals| ==>
            || store.proposals[q].status == w.store.proposals[q].status
            || store.proposals[q].status in {Rejected, Expired}
            || (w.store.proposals[q].status == PendingReview && store.proposals[q].status == Approved))
      && forall q :: |w.store.proposals| <= q < |store.proposals| ==>
           var p := store.proposals[q];
           p.tool in w.tools && w.tools[p.tool].capability.StateChanging? && p.approval.AnyStaff?
  {
    hide Supports, MeetsCeiling;
  }

  lemma CeilingsMatchAfterStep(setting: Setting, w: World, s: Step)
    requires CeilingsMatch(w) && Stable(w, s)
    ensures CeilingsMatch(StepWorld(setting, w, s))
  {
    hide StepStore, Apply, AgentStore, ConsentOutcome, Supports;
    var store := StepStore(setting, w, s);
    StoreOfStep(setting, w, s);
    match s
    case Tick(_) =>
    case RegisterTool(_) =>
    case AgentTurn(_, _, _, _, _, _) =>
      TurnAdds(setting, w, s);
      CeilingsMatchMore(w, store);
    case ApplyStep(pid, attempts, taken) =>
      ApplyAdds(w, pid, attempts, taken);
      CeilingsMatchMore(w, store);
    case ConsentStep(_, _, _, _, _, _) =>
      ConsentAdds(setting, w, s);
      CeilingsMatchMore(w, store);
    case _ =>
      DeskAdds(setting, w, s);
      CeilingsMatchMore(w, store);
  }

  // ---------------------------------------------------------------- high-risk calls and admins

  predicate AdminAuthority(a: Record) {
    match a
    case Approval(_, reviewer, _) => IsAdminRole(reviewer)
    case Consent(_, owner, _) => IsAdminRole(Some(owner))
    case _ => false
  }

  /** A high-risk call is made for a proposal, under the authority of a strict admin. */
  ghost predicate AdminBehind(log: seq<Record>, k: nat)
    requires k < |log|
  {
    var r := log[k];
    r.Execution? && r.capability.HighRisk? ==>
      && r.origin.FromProposal?
      && var a := Authority(log[..k], r.origin.pid);
      a.Some? && AdminAuthority(a.value)
  }

  ghost predicate AdminBehindAll(log: seq<Record>) {
    forall k: nat :: k < |log| ==> AdminBehind(log, k)
  }

  /** A consent by an owner below the admin role that gets a high-risk tool called. */
  predicate LowConsent(w: World, s: Step) {
    && s.ConsentStep? && ReachesExecutor(w, s, s.pid)
    && w.tools[w.store.proposals[s.pid].tool].capability.HighRisk? && !IsAdminRole(Some(s.user))
  }

  predicate NoLowConsent(setting: Setting, w: World, steps: seq<Step>)
    decreases |steps|
  {
    steps == [] || (!LowConsent(w, steps[0]) && NoLowConsent(setting, StepWorld(setting, w, steps[0]), steps[1..]))
  }

  /** Between steps an approved row is a reviewed one: consents commit together with their application. */
  ghost predicate Reviewed(s: Store) {
    forall pid: nat :: pid < |s.proposals| && s.proposals[pid].status == Approved ==>
      Authority(s.log, pid).Some? && Authority(s.log, pid).value.Approval?
  }

  lemma AdminBehindMore(before: seq<Record>, after: seq<Record>)
    requires before <= after
    ensures AdminBehindAll(after) <==>
      AdminBehindAll(before) && forall k: nat :: |before| <= k < |after| ==> AdminBehind(after, k)
  {
    hide Authority, AdminAuthority;
    forall k: nat | k < |before| ensures AdminBehind(after, k) <==> AdminBehind(before, k) {
      assert after[..k] == before[..k] && after[k] == before[k];
    }
  }

  /** Calls for one proposal at one capability, under the authority that the history before them shows. */
  lemma AdminBehindCalls(log: seq<Record>, calls: seq<Record>, rest: seq<Record>, pid: nat, capability: Capability)
    requires forall i :: 0 <= i < |calls| ==>
      calls[i].Execution? && calls[i].origin == FromProposal(pid) && calls[i].capability == capability
    requires forall i :: 0 <= i < |rest| ==> !rest[i].Execution?
    ensures AdminBehindAll(log + calls + rest) <==>
      && AdminBehindAll(log)
      && (calls == [] || !capability.HighRisk?
        || (Authority(log, pid).Some? && AdminAuthority(Authority(log, pid).value)))
  {
    hide Authority, AdminAuthority;
    var after := log + calls + rest;
    AdminBehindMore(log, after);
    forall k: nat | |log| <= k < |after|
      ensures AdminBehind(after, k) <==>
        || k >= |log| + |calls| || !capability.HighRisk?
        || (Authority(log, pid).Some? && AdminAuthority(Authority(log, pid).value))
    {
      if k < |log| + |calls| {
        assert after[..k] == log + calls[..k - |log|] && after[k] == calls[k - |log|];
        CallsAreSilent(log, calls[..k - |log|], pid);
      } else {
        assert after[k] == rest[k - |log| - |calls|];
      }
    }
    if calls != [] {
      assert AdminBehindAll(after) ==> AdminBehind(after, |log|);
    }
  }

  /** The records of an application that reaches the executor. */
  lemma ApplyRecords(w: World, pid: nat, attempts: (Attempt, Attempt), taken: bool) returns (rest: seq<Record>)
    requires ReachesExecutor(w, ApplyStep(pid, attempts, taken), pid)
    ensures var p := w.store.proposals[pid];
      var calls := Calls(FromProposal(pid), p.tool, w.tools[p.tool].capability, CallArguments(p), attempts, w.now);
      After(w.store, Apply(w.store, w.tools, pid, attempts, taken, w.now)).log == w.store.log + calls + rest
    ensures forall i :: 0 <= i < |rest| ==> rest[i].Application?
  {
    hide Execute, Encodable, Calls, Succeeded;
    var o := Apply(w.store, w.tools, pid, attempts, taken, w.now);
    rest := if o.Done? then [Application(pid, Succeeded(Execute(attempts.0, attempts.1).value), w.now)] else [];
  }

  /** Calls under a given authority, committed or not. */
  lemma AdminAfterApply(w: World, pid: nat, attempts: (Attempt, Attempt), taken: bool)
    requires Safe(w)
    ensures var log := After(w.store, Apply(w.store, w.tools, pid, attempts, taken, w.now)).log;
      AdminBehindAll(log) <==>
        && AdminBehindAll(w.store.log)
        && (ReachesExecutor(w, ApplyStep(pid, attempts, taken), pid)
            && w.tools[w.store.proposals[pid].tool].capability.HighRisk? ==>
              Authority(w.store.log, pid).Some? && AdminAuthority(Authority(w.store.log, pid).value))
  {
    hide Authority, AdminAuthority, AdminBehindAll, Calls, Safe;
    if ReachesExecutor(w, ApplyStep(pid, attempts, taken), pid) {
      var p := w.store.proposals[pid];
      GivenArguments(w, pid);
      var capability := w.tools[p.tool].capability;
      var calls := Calls(FromProposal(pid), p.tool, capability, CallArguments(p), attempts, w.now);
      CallsOfApplication(FromProposal(pid), p.tool, capability, CallArguments(p), attempts, w.now);
      var rest := ApplyRecords(w, pid, attempts, taken);
      AdminBehindCalls(w.store.log, calls, rest, pid, capability);
    } else {
      SilentApply(w, pid, attempts, taken);
    }
  }

  lemma SilentApply(w: World, pid: nat, attempts: (Attempt, Attempt), taken: bool)
    requires !ReachesExecutor(w, ApplyStep(pid, attempts, taken), pid)
    ensures After(w.store, Apply(w.store, w.tools, pid, attempts, taken, w.now)) == w.store
  {
  }

  lemma AdminAfterConsent(setting: Setting, w: World, s: Step)
    requires Safe(w) && s.ConsentStep?
    ensures AdminBehindAll(After(w.store, ConsentOutcome(setting, w, s)).log)
      <==> AdminBehindAll(w.store.log) && !LowConsent(w, s)
  {
    hide AdminBehindAll, Safe, Supports, ConsentedRows, Apply;
    if s.pid < |w.store.proposals| && w.store.proposals[s.pid].status != Applied
       && CheckOwner(w.store.proposals[s.pid], s.user, s.kind, s.admitted, w.now).None? {
      var given := Given(setting, w, s);
      GivenIsSafe(setting, w, s);
      GivenReaches(setting, w, s, s.pid);
      ApplyOutcome(given, s.pid, s.attempts, s.taken);
      AdminAfterApply(given, s.pid, s.attempts, s.taken);
      var consent := Consent(s.pid, s.user, w.now);
      OneMoreRecord(w.store.log, consent, s.pid);
      ConsentedRowsAreSame(setting, w.store.proposals, s.pid, s.user, s.kind, w.now);
      AdminAfterOne(w.store.log, consent);
    }
  }

  lemma AdminAfterOne(log: seq<Record>, r: Record)
    requires !r.Execution?
    ensures AdminBehindAll(log + [r]) <==> AdminBehindAll(log)
  {
    AdminBehindMore(log, log + [r]);
    assert AdminBehind(log + [r], |log|);
  }

  /** A reviewed row under the admin ceiling was approved by an admin. */
  lemma ReviewedByAdmin(w: World, pid: nat)
    requires Safe(w) && CeilingsMatch(w) && Reviewed(w.store)
    requires pid < |w.store.proposals| && w.store.proposals[pid].status == Approved
    requires w.tools[w.store.proposals[pid].tool].capability.HighRisk?
    ensures Authority(w.store.log, pid).Some? && AdminAuthority(Authority(w.store.log, pid).value)
  {
    hide Authority, Authorised;
    assert RowTells(w.store.proposals[pid], w.store.log, pid);
  }

  lemma AdminAfterStep(setting: Setting, w: World, s: Step)
    requires Safe(w) && CeilingsMatch(w) && Reviewed(w.store)
    ensures AdminBehindAll(StepWorld(setting, w, s).store.log) <==> AdminBehindAll(w.store.log) && !LowConsent(w, s)
  {
    hide AdminBehindAll, Safe, Apply, AgentStore, ConsentOutcome, Reviewed, LowConsent, Supports;
    if s.ConsentStep? {
      AdminAfterConsent(setting, w, s);
    } else {
      OnlyConsentsAreLow(w, s);
      match s
      case AgentTurn(_, _, _, _, _, _) => AdminAfterTurn(setting, w, s);
      case ApplyStep(pid, attempts, taken) =>
        AdminAfterApply(w, pid, attempts, taken);
        if ReachesExecutor(w, s, pid) && w.tools[w.store.proposals[pid].tool].capability.HighRisk? {
          ReviewedByAdmin(w, pid);
        }
      case ApproveStep(pid, reviewer) => AdminAfterOne(w.store.log, Approval(pid, reviewer, w.now));
      case _ =>
    }
  }

  lemma OnlyConsentsAreLow(w: World, s: Step)
    ensures LowConsent(w, s) ==> s.ConsentStep?
  {
  }

  lemma AdminAfterTurn(setting: Setting, w: World, s: Step)
    requires s.AgentTurn? && Keyed(w.tools)
    ensures AdminBehindAll(AgentStore(setting, w, s).log) <==> AdminBehindAll(w.store.log)
  {
    hide AgentStore;
    TurnAdds(setting, w, s);
    AdminBehindMore(w.store.log, AgentStore(setting, w, s).log);
  }

  lemma ReviewedAfterStep(setting: Setting, w: World, s: Step)
    requires Safe(w) && Reviewed(w.store)
    ensures Reviewed(StepStore(setting, w, s))
  {
    hide Apply, AgentStore, ConsentOutcome, Safe, Authority, Supports;
    var store := StepStore(setting, w, s);
    match s
    case AgentTurn(_, _, _, _, _, _) => ReviewedAfterTurn(setting, w, s);
    case ApplyStep(pid, attempts, taken) => ReviewedAfterApply(w, pid, attempts, taken);
    case ConsentStep(_, _, _, _, _, _) => ReviewedAfterConsent(setting, w, s);
    case ApproveStep(pid, reviewer) =>
      forall q: nat
        ensures Authority(w.store.log + [Approval(pid, reviewer, w.now)], q)
             == if q == pid then Some(Approval(pid, reviewer, w.now)) else Authority(w.store.log, q)
      {
        OneMoreRecord(w.store.log, Approval(pid, reviewer, w.now), q);
      }
    case _ =>
  }

  lemma ReviewedAfterTurn(setting: Setting, w: World, s: Step)
    requires Safe(w) && Reviewed(w.store) && s.AgentTurn?
    ensures Reviewed(AgentStore(setting, w, s))
  {
    hide Safe, Authority, Capabilities, SanitizeDict, Calls;
    var args := if Truthy(s.arguments) then s.arguments else Obj([]);
    match PlanToolCall(w.tools, s.permission, s.allowlist, s.name, args)
    case Read(tool) =>
      var calls := Calls(DuringRun, tool.name, tool.capability, args, s.attempts, w.now);
      CallsAreCalls(DuringRun, tool.name, tool.capability, args, s.attempts, w.now);
      forall q: nat ensures Authority(w.store.log + calls, q) == Authority(w.store.log, q) {
        CallsAreSilent(w.store.log, calls, q);
      }
    case _ =>
  }

  lemma CallsAreCalls(origin: Origin, tool: string, capability: Capability, args: Value, attempts: (Attempt, Attempt),
      now: int)
    ensures var calls := Calls(origin, tool, capability, args, attempts, now);
      forall i :: 0 <= i < |calls| ==> calls[i].Execution?
  {
  }

  lemma ReviewedAfterApply(w: World, pid: nat, attempts: (Attempt, Attempt), taken: bool)
    requires Reviewed(w.store)
    ensures Reviewed(After(w.store, Apply(w.store, w.tools, pid, attempts, taken, w.now)))
  {
    hide Authority, Apply;
    AppliedAuthority(w, pid, attempts, taken);
    ApplyAdds(w, pid, attempts, taken);
  }

  lemma {:induction false} ApplicationsAreSilent(log: seq<Record>, rest: seq<Record>, q: nat)
    requires forall i :: 0 <= i < |rest| ==> rest[i].Application?
    ensures Authority(log + rest, q) == Authority(log, q)
  {
    if rest == [] {
      assert log + rest == log;
    } else {
      var n := |rest| - 1;
      ApplicationsAreSilent(log, rest[..n], q);
      assert log + rest == (log + rest[..n]) + [rest[n]];
      OneMoreRecord(log + rest[..n], rest[n], q);
    }
  }

  lemma AuthorityOfApplied(log: seq<Record>, calls: seq<Record>, rest: seq<Record>, q: nat, tool: string,
      capability: Capability, args: Value, attempts: (Attempt, Attempt), pid: nat, now: int)
    requires calls == Calls(FromProposal(pid), tool, capability, args, attempts, now)
    requires forall i :: 0 <= i < |rest| ==> rest[i].Application?
    ensures Authority(log + calls + rest, q) == Authority(log, q)
  {
    CallsAreCalls(FromProposal(pid), tool, capability, args, attempts, now);
    CallsAreSilent(log, calls, q);
    ApplicationsAreSilent(log + calls, rest, q);
  }

  lemma ReviewedAfterConsent(setting: Setting, w: World, s: Step)
    requires Safe(w) && Reviewed(w.store) && s.ConsentStep?
    ensures Reviewed(After(w.store, ConsentOutcome(setting, w, s)))
  {
    hide Safe, Authority, Supports, Apply, ConsentedRows;
    if s.pid < |w.store.proposals| && w.store.proposals[s.pid].status != Applied
       && CheckOwner(w.store.proposals[s.pid], s.user, s.kind, s.admitted, w.now).None? {
      var given := Given(setting, w, s);
      var consent := Consent(s.pid, s.user, w.now);
      ConsentedRowsAreSame(setting, w.store.proposals, s.pid, s.user, s.kind, w.now);
      GivenReaches(setting, w, s, s.pid);
      ApplyOutcome(given, s.pid, s.attempts, s.taken);
      ApplyAdds(given, s.pid, s.attempts, s.taken);
      AppliedAuthority(given, s.pid, s.attempts, s.taken);
      forall q: nat
        ensures Authority(given.store.log, q) == if q == s.pid then Some(consent) else Authority(w.store.log, q)
      {
        OneMoreRecord(w.store.log, consent, q);
      }
    }
  }

  lemma AppliedAuthority(w: World, pid: nat, attempts: (Attempt, Attempt), taken: bool)
    ensures forall q: nat ::
      Authority(After(w.store, Apply(w.store, w.tools, pid, attempts, taken, w.now)).log, q)
        == Authority(w.store.log, q)
  {
    hide Authority, Apply;
    if ReachesExecutor(w, ApplyStep(pid, attempts, taken), pid) {
      var p := w.store.proposals[pid];
      var calls := Calls(FromProposal(pid), p.tool, w.tools[p.tool].capability, CallArguments(p), attempts, w.now);
      var rest := ApplyRecords(w, pid, attempts, taken);
      forall q: nat ensures Authority(w.store.log + calls + rest, q) == Authority(w.store.log, q) {
        AuthorityOfApplied(w.store.log, calls, rest, q, p.tool, w.tools[p.tool].capability, CallArguments(p),
          attempts, pid, w.now);
      }
    } else {
      SilentApply(w, pid, attempts, taken);
    }
  }

  lemma {:induction false} AdminAfterRun(setting: Setting, w: World, steps: seq<Step>)
    requires Safe(w) && CeilingsMatch(w) && Reviewed(w.store) && StableRun(setting, w, steps)
    ensures AdminBehindAll(RunWorld(setting, w, steps).store.log)
      <==> AdminBehindAll(w.store.log) && NoLowConsent(setting, w, steps)
    decreases |steps|
  {
    hide Safe, CeilingsMatch, Reviewed, StepWorld, Stable, AdminBehindAll, LowConsent;
    if steps != [] {
      SafeAfterStep(setting, w, steps[0]);
      CeilingsMatchAfterStep(setting, w, steps[0]);
      StepReviewed(setting, w, steps[0]);
      AdminAfterStep(setting, w, steps[0]);
      AdminAfterRun(setting, StepWorld(setting, w, steps[0]), steps[1..]);
    }
  }

  lemma StepReviewed(setting: Setting, w: World, s: Step)
    requires Safe(w) && Reviewed(w.store)
    ensures Reviewed(StepWorld(setting, w, s).store)
  {
    hide Safe, Reviewed;
    ReviewedAfterStep(setting, w, s);
  }

  /**
   * While re-registering a tool keeps its capability, every high-risk call is made under the authority
   * of a strict admin if and only if no owner below the admin role consents to a proposal of a
   * high-risk tool and gets it called.
   */
  lemma HighRiskNeedsAdminIff(setting: Setting, now: int, tools: Registry, steps: seq<Step>)
    requires Keyed(tools) && StableRun(setting, World(now, tools, Store([], [])), steps)
    ensures var w := World(now, tools, Store([], []));
      AdminBehindAll(RunWorld(setting, w, steps).store.log) <==> NoLowConsent(setting, w, steps)
  {
    hide RunWorld, NoLowConsent, StableRun;
    var w := World(now, tools, Store([], []));
    EmptyIsSafe(w);
    AdminAfterRun(setting, w, steps);
  }

  const OWNER := User(1, true, false, false, "landlord")
  const ACCEPT := Tool("negotiation.accept", HighRisk, true, _ => true)

  function ProposeAccept(): Step {
    AgentTurn(Admin, [], Some(1), "negotiation.accept", Obj([]), (SUCCESS, SUCCESS))
  }

  function ConsentToAccept(): Step {
    ConsentStep(0, OWNER, NegotiationConsent, true, (SUCCESS, SUCCESS), true)
  }

  /** Such a run: a landlord consents to the acceptance that their own conversation proposed. */
  lemma OwnerConsentsToHighRisk(setting: Setting)
    requires setting.ttl > 0
    ensures var w0 := World(0, map[], Store([], []));
      var steps := [RegisterTool(ACCEPT), ProposeAccept(), ConsentToAccept()];
      && StableRun(setting, w0, steps)
      && !AdminBehindAll(RunWorld(setting, w0, steps).store.log)
  {
    hide RunWorld, StableRun, AdminBehindAll;
    var w0 := World(0, map[], Store([], []));
    var steps := [RegisterTool(ACCEPT), ProposeAccept(), ConsentToAccept()];
    var w1 := StepWorld(setting, w0, steps[0]);
    var w2 := StepWorld(setting, w1, steps[1]);
    AcceptIsProposed(setting, w0);
    ThreeStableSteps(setting, w0, steps[0], steps[1], steps[2]);
    ThreeNoLow(setting, w0, steps[0], steps[1], steps[2]);
    HighRiskNeedsAdminIff(setting, 0, map[], steps);
  }

  lemma AcceptIsProposed(setting: Setting, w0: World)
    requires w0 == World(0, map[], Store([], [])) && setting.ttl > 0
    ensures LowConsent(StepWorld(setting, StepWorld(setting, w0, RegisterTool(ACCEPT)), ProposeAccept()),
      ConsentToAccept())
  {
    var w1 := StepWorld(setting, w0, RegisterTool(ACCEPT));
    var w2 := StepWorld(setting, w1, ProposeAccept());
    var stored := SanitizeDict(setting.repr, Obj([]));
    assert w2.store.proposals == [NewProposal("negotiation.accept", stored, AdminOnly, Some(1), 0, setting.ttl)];
  }

  lemma ThreeNoLow(setting: Setting, w: World, a: Step, b: Step, c: Step)
    requires LowConsent(StepWorld(setting, StepWorld(setting, w, a), b), c)
    ensures !NoLowConsent(setting, w, [a, b, c])
  {
    hide StepWorld, LowConsent;
    var w1 := StepWorld(setting, w, a);
    var w2 := StepWorld(setting, w1, b);
    assert [a, b, c][1..] == [b, c] && [b, c][1..] == [c];
    assert !NoLowConsent(setting, w2, [c]);
    assert !NoLowConsent(setting, w1, [b, c]);
  }

  // ---------------------------------------------------------------- raising a capability

  /** High-risk calls were made for proposals under the admin ceiling only. */
  ghost predicate AdminForHighRisk(w: World) {
    forall k :: 0 <= k < |w.store.log| ==>
      var r := w.store.log[k];
      r.Execution? && r.origin.FromProposal? && r.capability.HighRisk? ==>
        r.origin.pid < |w.store.proposals| && w.store.proposals[r.origin.pid].approval.AdminOnly?
  }

  /** One application keeps that exactly as long as it does not call a tool now high-risk under a staff ceiling. */
  lemma ApplyKeepsCeilingIff(w: World, pid: nat, attempts: (Attempt, Attempt), taken: bool)
    requires Safe(w) && AdminForHighRisk(w) && ReachesExecutor(w, ApplyStep(pid, attempts, taken), pid)
    ensures AdminForHighRisk(w.(store := After(w.store, Apply(w.store, w.tools, pid, attempts, taken, w.now))))
      <==> !(w.tools[w.store.proposals[pid].tool].capability.HighRisk? && w.store.proposals[pid].approval.AnyStaff?)
  {
    hide Safe, Calls, Apply;
    var store := After(w.store, Apply(w.store, w.tools, pid, attempts, taken, w.now));
    var p := w.store.proposals[pid];
    GivenArguments(w, pid);
    ApplyAdds(w, pid, attempts, taken);
    CallsOfApplication(FromProposal(pid), p.tool, w.tools[p.tool].capability, CallArguments(p), attempts, w.now);
    var rest := ApplyRecords(w, pid, attempts, taken);
    assert store.log[|w.store.log|].Execution?;
    assert forall k :: 0 <= k < |w.store.log| ==> store.log[k] == w.store.log[k];
  }

  predicate Open(p: Proposal, now: int) {
    p.status in {PendingReview, Approved} && !IsExpired(p, now)
  }

  /** An open, unexpired proposal of a tool that any staff member may approve. */
  predicate Exposed(w: World, pid: nat, name: string) {
    && pid < |w.store.proposals|
    && var p := w.store.proposals[pid];
    p.tool == name && p.approval.AnyStaff? && Open(p, w.now)
  }

  /** No high-risk tool has such a proposal, and none was called for one. */
  ghost predicate Covered(w: World) {
    && Keyed(w.tools) && AdminForHighRisk(w)
    && (forall pid :: 0 <= pid < |w.store.proposals| ==> w.store.proposals[pid].tool in w.tools)
    && (forall pid: nat, name :: name in w.tools && w.tools[name].capability.HighRisk? ==> !Exposed(w, pid, name))
  }

  /** Rows that do not open, calls for rows that are not exposed, and new rows under the right ceiling. */
  lemma CoveredMore(w: World, store: Store)
    requires Covered(w) && w.store.log <= store.log && SameRows(w.store.proposals, store.proposals)
    requires forall q :: 0 <= q < |w.store.proposals| && Open(store.proposals[q], w.now) ==>
      Open(w.store.proposals[q], w.now)
    requires forall q :: |w.store.proposals| <= q < |store.proposals| ==>
      store.proposals[q].tool in w.tools
      && (w.tools[store.proposals[q].tool].capability.HighRisk? ==> store.proposals[q].approval.AdminOnly?)
    requires forall k | |w.store.log| <= k < |store.log| && store.log[k].Execution?
      && store.log[k].origin.FromProposal? ::
      && store.log[k].origin.pid < |w.store.proposals|
      && var p := w.store.proposals[store.log[k].origin.pid];
      && p.tool in w.tools && store.log[k].capability == w.tools[p.tool].capability && Open(p, w.now)
    ensures Covered(w.(store := store))
  {
    var w' := w.(store := store);
    hide Open;
    forall q: nat, name | name in w.tools && w.tools[name].capability.HighRisk? ensures !Exposed(w', q, name) {
      assert !Exposed(w, q, name);
    }
    forall k | 0 <= k < |store.log|
      ensures
        var r := store.log[k];
        r.Execution? && r.origin.FromProposal? && r.capability.HighRisk? ==>
          r.origin.pid < |store.proposals| && store.proposals[r.origin.pid].approval.AdminOnly?
    {
      if k < |w.store.log| {
        assert store.log[k] == w.store.log[k];
      } else if store.log[k].Execution? && store.log[k].origin.FromProposal? {
        var pid := store.log[k].origin.pid;
        assert w.tools[w.store.proposals[pid].tool].capability.HighRisk? ==>
          !Exposed(w, pid, w.store.proposals[pid].tool);
      }
    }
  }

  lemma CoveredAfterSetting(setting: Setting, w: World, s: Step)
    requires Covered(w) && Stable(w, s) && (s.Tick? || s.RegisterTool?)
    ensures Covered(StepWorld(setting, w, s))
  {
    var w' := StepWorld(setting, w, s);
    forall q: nat, name | name in w'.tools && w'.tools[name].capability.HighRisk? ensures !Exposed(w', q, name) {
      if name in w.tools {
        assert !Exposed(w, q, name);
      }
    }
  }

  lemma CoveredAfterStep(setting: Setting, w: World, s: Step)
    requires Covered(w) && Stable(w, s)
    ensures Covered(StepWorld(setting, w, s))
  {
    hide Covered, StepStore, Apply, AgentStore, ConsentOutcome, Supports;
    var store := StepStore(setting, w, s);
    CoveredTools(w);
    StoreOfStep(setting, w, s);
    match s
    case Tick(_) => CoveredAfterSetting(setting, w, s);
    case RegisterTool(_) => CoveredAfterSetting(setting, w, s);
    case AgentTurn(_, _, _, _, _, _) =>
      TurnAdds(setting, w, s);
      CoveredMore(w, store);
    case ApplyStep(pid, attempts, taken) =>
      ApplyAdds(w, pid, attempts, taken);
      CoveredMore(w, store);
    case ConsentStep(_, _, _, _, _, _) =>
      ConsentAdds(setting, w, s);
      CoveredMore(w, store);
    case _ =>
      DeskAdds(setting, w, s);
      CoveredMore(w, store);
  }

  lemma CoveredTools(w: World)
    requires Covered(w)
    ensures Keyed(w.tools)
    ensures forall pid :: 0 <= pid < |w.store.proposals| ==> w.store.proposals[pid].tool in w.tools
  {
  }

  /** Every stable run keeps high-risk tools covered; an empty store is. */
  lemma {:induction false} CoveredAfterRun(setting: Setting, w: World, steps: seq<Step>)
    requires Covered(w) && StableRun(setting, w, steps)
    ensures Covered(RunWorld(setting, w, steps))
    decreases |steps|
  {
    hide Covered, StepWorld, Stable;
    if steps != [] {
      CoveredAfterStep(setting, w, steps[0]);
      CoveredAfterRun(setting, StepWorld(setting, w, steps[0]), steps[1..]);
    }
  }

  /** Whatever stably happens from here on, high-risk calls are made for proposals with an admin ceiling only. */
  ghost predicate Harmless(setting: Setting, w: World) {
    forall steps :: StableRun(setting, w, steps) ==> AdminForHighRisk(RunWorld(setting, w, steps))
  }

  /**
   * Registering a tool as high-risk is harmless for every later stable run if and only if no open,
   * unexpired proposal under a staff ceiling names the tool. Its schema does not matter, as a later
   * registration at the same capability may widen it.
   */
  lemma RaisingIsHarmlessIff(setting: Setting, w: World, tool: Tool)
    requires Safe(w) && Covered(w) && tool.capability.HighRisk?
    ensures Harmless(setting, StepWorld(setting, w, RegisterTool(tool)))
      <==> !exists pid: nat :: Exposed(w, pid, tool.name)
  {
    hide Safe, StableRun, RunWorld;
    var w' := StepWorld(setting, w, RegisterTool(tool));
    SafeAfterStep(setting, w, RegisterTool(tool));
    if pid: nat :| Exposed(w, pid, tool.name) {
      var steps := ExposedRun(setting, w, tool, pid);
      assert !AdminForHighRisk(RunWorld(setting, w', steps));
    } else {
      RaisedIsCovered(w, tool);
      forall steps | StableRun(setting, w', steps) ensures AdminForHighRisk(RunWorld(setting, w', steps)) {
        CoveredAfterRun(setting, w', steps);
      }
    }
  }

  lemma RaisedIsCovered(w: World, tool: Tool)
    requires Covered(w) && !exists pid: nat :: Exposed(w, pid, tool.name)
    ensures Covered(w.(tools := w.tools[tool.name := tool]))
  {
    var w' := w.(tools := w.tools[tool.name := tool]);
    forall q: nat, name | name in w'.tools && w'.tools[name].capability.HighRisk? ensures !Exposed(w', q, name) {
      if name == tool.name {
        assert !Exposed(w, q, tool.name);
      } else {
        assert !Exposed(w, q, name);
      }
    }
  }

  /** The tool, accepting any arguments. */
  function Permissive(tool: Tool): Tool {
    tool.(accepts := _ => true)
  }

  /** The stable run that calls the raised tool for an exposed proposal: widen its schema, approve if need be, apply. */
  lemma ExposedRun(setting: Setting, w: World, tool: Tool, pid: nat) returns (steps: seq<Step>)
    requires Safe(w) && tool.capability.HighRisk? && Exposed(w, pid, tool.name)
    ensures var w' := StepWorld(setting, w, RegisterTool(tool));
      StableRun(setting, w', steps) && !AdminForHighRisk(RunWorld(setting, w', steps))
  {
    hide Safe, StableRun, RunWorld;
    var w1 := StepWorld(setting, w, RegisterTool(tool));
    var widen, approve, apply := RegisterTool(Permissive(tool)), ApproveStep(pid, STAFF),
      ApplyStep(pid, (SUCCESS, SUCCESS), true);
    var w2 := StepWorld(setting, w1, widen);
    var w3 := StepWorld(setting, w2, approve);
    SafeAfterStep(setting, w, RegisterTool(tool));
    SafeAfterStep(setting, w1, widen);
    SafeAfterStep(setting, w2, approve);
    if w.store.proposals[pid].status == Approved {
      steps := [widen, apply];
      TwoStableSteps(setting, w1, widen, apply);
      StaffCallOfHighRisk(setting, w2, pid);
    } else {
      steps := [widen, approve, apply];
      ThreeStableSteps(setting, w1, widen, approve, apply);
      assert w3.store.proposals[pid].status == Approved;
      StaffCallOfHighRisk(setting, w3, pid);
    }
  }

  lemma StaffCallOfHighRisk(setting: Setting, w: World, pid: nat)
    requires Safe(w) && pid < |w.store.proposals|
    requires var p := w.store.proposals[pid];
      && p.status == Approved && p.approval.AnyStaff? && !IsExpired(p, w.now)
      && p.tool in w.tools && w.tools[p.tool].capability.HighRisk? && w.tools[p.tool].accepts(CallArguments(p))
    ensures !AdminForHighRisk(StepWorld(setting, w, ApplyStep(pid, (SUCCESS, SUCCESS), true)))
  {
    hide Calls;
    var p := w.store.proposals[pid];
    GivenArguments(w, pid);
    SuccessCommits();
    CallsOfApplication(FromProposal(pid), p.tool, HighRisk, CallArguments(p), (SUCCESS, SUCCESS), w.now);
    var w' := StepWorld(setting, w, ApplyStep(pid, (SUCCESS, SUCCESS), true));
    var r := w'.store.log[|w.store.log|];
    assert r.Execution? && r.origin == FromProposal(pid) && r.capability.HighRisk?;
    assert w'.store.proposals[pid].approval.AnyStaff?;
  }

  lemma TwoStableSteps(setting: Setting, w: World, a: Step, b: Step)
    requires Stable(w, a) && Stable(StepWorld(setting, w, a), b)
    ensures StableRun(setting, w, [a, b])
    ensures RunWorld(setting, w, [a, b]) == StepWorld(setting, StepWorld(setting, w, a), b)
  {
    hide StepWorld, Stable;
    var w1 := StepWorld(setting, w, a);
    assert [a, b][1..] == [b] && [b][1..] == [];
    assert StableRun(setting, w1, [b]);
    assert RunWorld(setting, w1, [b]) == RunWorld(setting, StepWorld(setting, w1, b), []);
  }

  lemma ThreeStableSteps(setting: Setting, w: World, a: Step, b: Step, c: Step)
    requires Stable(w, a) && Stable(StepWorld(setting, w, a), b)
      && Stable(StepWorld(setting, StepWorld(setting, w, a), b), c)
    ensures StableRun(setting, w, [a, b, c])
    ensures RunWorld(setting, w, [a, b, c]) == StepWorld(setting, StepWorld(setting, StepWorld(setting, w, a), b), c)
  {
    hide StepWorld, Stable;
    assert [a, b, c][1..] == [b, c];
    TwoStableSteps(setting, StepWorld(setting, w, a), b, c);
  }

  // ---------------------------------------------------------------- such a raise, concretely

  lemma FirstStep(setting: Setting, w: World, s: Step, steps: seq<Step>)
    ensures RunWorld(setting, w, [s] + steps) == RunWorld(setting, StepWorld(setting, w, s), steps)
  {
    hide StepWorld;
    assert ([s] + steps)[1..] == steps;
  }

  lemma FiveSteps(setting: Setting, w: World, a: Step, b: Step, c: Step, d: Step, e: Step)
    ensures RunWorld(setting, w, [a, b, c, d, e])
         == StepWorld(setting, StepWorld(setting, StepWorld(setting,
              StepWorld(setting, StepWorld(setting, w, a), b), c), d), e)
  {
    hide StepWorld;
    var w1 := StepWorld(setting, w, a);
    var w2 := StepWorld(setting, w1, b);
    var w3 := StepWorld(setting, w2, c);
    var w4 := StepWorld(setting, w3, d);
    assert [a, b, c, d, e] == [a] + [b, c, d, e] && [b, c, d, e] == [b] + [c, d, e];
    assert [c, d, e] == [c] + [d, e] && [d, e] == [d] + [e] && [e] == [e] + [];
    FirstStep(setting, w, a, [b, c, d, e]);
    FirstStep(setting, w1, b, [c, d, e]);
    FirstStep(setting, w2, c, [d, e]);
    FirstStep(setting, w3, d, [e]);
    FirstStep(setting, w4, e, []);
  }

  /** A tool of either capability that accepts anything. */
  function Publish(capability: Capability): Tool {
    Tool("listing.publish", capability, true, _ => true)
  }

  function ProposePublish(): Step {
    AgentTurn(Operator, [], None, "listing.publish", Obj([]), (SUCCESS, SUCCESS))
  }

  const STAFF := Some(User(2, true, true, false, "staff"))
  const SUCCESS := Returned(Obj([(Name("ok"), Bool(true))]))

  lemma SuccessCommits()
    ensures Commits((SUCCESS, SUCCESS), true)
  {
    var value := SUCCESS.result;
    assert value.fields[0].0 == Name("ok");
    assert Encodable(value);
  }

  /** The world after an operator's agent proposed the state-changing tool and a staff member approved it. */
  lemma StaffApproves(setting: Setting, w0: World) returns (w: World)
    requires w0 == World(0, map[], Store([], [])) && setting.ttl > 0
    ensures w == StepWorld(setting, StepWorld(setting, StepWorld(setting, w0,
      RegisterTool(Publish(StateChanging))), ProposePublish()), ApproveStep(0, STAFF))
    ensures w.now == 0 && |w.store.proposals| == 1 && |w.store.log| == 1 && w.store.log[0].Approval?
    ensures var p := w.store.proposals[0];
      p.tool == "listing.publish" && p.approval.AnyStaff? && p.status == Approved && p.expiresAt == Some(setting.ttl)
  {
    var w1 := StepWorld(setting, w0, RegisterTool(Publish(StateChanging)));
    var w2 := StepWorld(setting, w1, ProposePublish());
    var stored := SanitizeDict(setting.repr, Obj([]));
    assert w2.store.proposals == [NewProposal("listing.publish", stored, AnyStaff, None, 0, setting.ttl)];
    w := StepWorld(setting, w2, ApproveStep(0, STAFF));
  }

  /** A run that reaches that case: a tool re-registered as high-risk between approval and application. */
  lemma RaisedCapabilityEscapesCeiling(setting: Setting)
    requires setting.ttl > 0
    ensures var w := RunWorld(setting, World(0, map[], Store([], [])), [
        RegisterTool(Publish(StateChanging)), ProposePublish(), ApproveStep(0, STAFF),
        RegisterTool(Publish(HighRisk)), ApplyStep(0, (SUCCESS, SUCCESS), true)]);
      Safe(w) && !AdminForHighRisk(w)
  {
    hide Safe, RunWorld, StepWorld, AdminForHighRisk;
    var w0 := World(0, map[], Store([], []));
    var steps := [
      RegisterTool(Publish(StateChanging)), ProposePublish(), ApproveStep(0, STAFF),
      RegisterTool(Publish(HighRisk)), ApplyStep(0, (SUCCESS, SUCCESS), true)];
    EmptyIsSafe(w0);
    SafeAfterRun(setting, w0, steps);
    FiveSteps(setting, w0, steps[0], steps[1], steps[2], steps[3], steps[4]);
    var w3 := StaffApproves(setting, w0);
    SafeAfterStep(setting, w0, steps[0]);
    SafeAfterStep(setting, StepWorld(setting, w0, steps[0]), steps[1]);
    SafeAfterStep(setting, StepWorld(setting, StepWorld(setting, w0, steps[0]), steps[1]), steps[2]);
    SafeAfterStep(setting, w3, steps[3]);
    RaisedTool(setting, w3);
    StaffCallOfHighRisk(setting, StepWorld(setting, w3, steps[3]), 0);
  }

  lemma RaisedTool(setting: Setting, w: World)
    ensures var w' := StepWorld(setting, w, RegisterTool(Publish(HighRisk)));
      && w'.store == w.store && w'.now == w.now && "listing.publish" in w'.tools
      && w'.tools["listing.publish"] == Publish(HighRisk)
  {
  }
}
