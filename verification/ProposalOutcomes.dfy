/**
 * What a proposal row and the history say about one another, and who may take which decision
 * (backend/agents/services.py, backend/agents/tools.py, backend/config/trust_utils.py).
 */
module ProposalOutcomes {
  import opened Common
  import opened Json
  import opened Privacy
  import opened Tools
  import opened Proposals
  import opened ProposalSafety
  import opened ProposalCalls

  // ---------------------------------------------------------------- good and bad answers

  /** The executor returned a dict whose `ok` is absent or truthy. */
  predicate GoodAnswer(a: Attempt) {
    && a.Returned? && a.result.Obj?
    && (!HasKey(a.result.fields, "ok") || Truthy(Get(a.result.fields, "ok")))
  }

  /** How the last executor call for a proposal ended. */
  function LastCall(log: seq<Record>, pid: nat): Option<Attempt> {
    if log == [] then None
    else
      var r := log[|log| - 1];
      if r.Execution? && r.origin == FromProposal(pid) then Some(r.attempt) else LastCall(log[..|log| - 1], pid)
  }

  /** The last application of a proposal that committed. */
  function LastApplication(log: seq<Record>, pid: nat): (r: Option<Record>)
    ensures r.Some? ==> r.value.Application? && r.value.pid == pid
  {
    if log == [] then None
    else
      var r := log[|log| - 1];
      if r.Application? && r.pid == pid then Some(r) else LastApplication(log[..|log| - 1], pid)
  }

  lemma {:induction false} GetAppended(fields: seq<(Key, Value)>, v: Value)
    requires !HasKey(fields, "ok")
    ensures Get(fields + [(Name("ok"), v)], "ok") == v
  {
    var all := fields + [(Name("ok"), v)];
    if fields != [] {
      assert fields[0].0 != Name("ok");
      assert all[1..] == fields[1..] + [(Name("ok"), v)];
      assert !HasKey(fields[1..], "ok") by {
        assert forall i :: 0 <= i < |fields[1..]| ==> fields[1..][i] == fields[i + 1];
      }
      GetAppended(fields[1..], v);
    }
  }

  lemma GroundedTells(result: Value)
    ensures Succeeded(Grounded(result)) <==> GoodAnswer(Returned(result))
  {
    if result.Obj? && !HasKey(result.fields, "ok") {
      GetAppended(result.fields, Bool(true));
    }
    assert Get(ErrorEnvelope("").fields, "ok") == Bool(false);
  }

  /** An envelope reads as a success exactly when the call it stands for, the retry if there is one, answered well. */
  lemma EnvelopeTells(attempts: (Attempt, Attempt))
    ensures var e := Execute(attempts.0, attempts.1);
      e.Envelope? ==>
        (Succeeded(e.value) <==> GoodAnswer(if attempts.0.RaisedTypeError? then attempts.1 else attempts.0))
  {
    hide Grounded, Succeeded, GoodAnswer;
    if attempts.0.Returned? { GroundedTells(attempts.0.result); }
    if attempts.1.Returned? { GroundedTells(attempts.1.result); }
    forall text: string ensures !Succeeded(ErrorEnvelope(text)) {
      ErrorsFail(text);
    }
    ExceptionsAreBad(attempts.0);
    ExceptionsAreBad(attempts.1);
  }

  lemma ErrorsFail(text: string)
    ensures !Succeeded(ErrorEnvelope(text))
  {
    assert ErrorEnvelope(text).fields[0] == (Name("ok"), Bool(false));
  }

  lemma ExceptionsAreBad(a: Attempt)
    ensures !a.Returned? ==> !GoodAnswer(a)
  {
  }

  // ---------------------------------------------------------------- rows and history agree

  /** A committed application is recorded as a success exactly when the call before it answered well. */
  ghost predicate TellsTruth(log: seq<Record>, k: nat)
    requires k < |log|
  {
    log[k].Application? ==>
      var call := LastCall(log[..k], log[k].pid);
      call.Some? && (log[k].succeeded <==> GoodAnswer(call.value))
  }

  /** Who gave the authority, and when, stands in the row. */
  predicate Signed(p: Proposal, a: Option<Record>) {
    && a.Some?
    && match a.value
       case Approval(_, reviewer, at) => p.reviewedBy == reviewer && p.reviewedAt == Some(at)
       case Consent(_, owner, at) => p.reviewedBy == Some(owner) && p.reviewedAt == Some(at)
       case _ => false
  }

  /** A row's status is that of its last committed application, and its signature that of its authority. */
  ghost predicate RowMatches(p: Proposal, log: seq<Record>, pid: nat) {
    var last := LastApplication(log, pid);
    && (p.status == Applied <==> last.Some? && last.value.succeeded)
    && (p.status == ApplyFailed <==> last.Some? && !last.value.succeeded)
    && (last.Some? ==> p.appliedAt == Some(last.value.at))
    && (p.status in {Approved, Applied, ApplyFailed} ==> Signed(p, Authority(log, pid)))
  }

  ghost predicate Matching(s: Store) {
    && (forall k: nat :: k < |s.log| ==> TellsTruth(s.log, k))
    && (forall pid: nat :: pid < |s.proposals| ==> RowMatches(s.proposals[pid], s.log, pid))
    && (forall pid: nat :: pid >= |s.proposals| ==> LastApplication(s.log, pid).None?)
  }

  lemma OneMoreLast(log: seq<Record>, r: Record, pid: nat)
    ensures LastApplication(log + [r], pid)
         == if r.Application? && r.pid == pid then Some(r) else LastApplication(log, pid)
    ensures LastCall(log + [r], pid)
         == if r.Execution? && r.origin == FromProposal(pid) then Some(r.attempt) else LastCall(log, pid)
  {
    assert (log + [r])[..|log|] == log;
  }

  lemma {:induction false} CallsLeaveApplications(log: seq<Record>, calls: seq<Record>, pid: nat)
    requires forall i :: 0 <= i < |calls| ==> calls[i].Execution?
    ensures LastApplication(log + calls, pid) == LastApplication(log, pid)
  {
    hide LastApplication;
    if calls == [] {
      assert log + calls == log;
    } else {
      var n := |calls| - 1;
      CallsLeaveApplications(log, calls[..n], pid);
      assert log + calls == (log + calls[..n]) + [calls[n]];
      OneMoreLast(log + calls[..n], calls[n], pid);
    }
  }

  /** More records, none of them an application, leave the truth of the old ones. */
  lemma TruthStays(before: seq<Record>, after: seq<Record>)
    requires before <= after && forall k: nat :: k < |before| ==> TellsTruth(before, k)
    requires forall k :: |before| <= k < |after| ==> !after[k].Application?
    ensures forall k: nat :: k < |after| ==> TellsTruth(after, k)
  {
    hide LastCall, GoodAnswer;
    forall k: nat | k < |after| ensures TellsTruth(after, k) {
      if k < |before| {
        assert TellsTruth(before, k);
        assert after[..k] == before[..k] && after[k] == before[k];
      }
    }
  }

  /** Records and rows that change no outcome and no signature. */
  lemma MatchingMore(s: Store, s': Store)
    requires Matching(s) && s.log <= s'.log && |s.proposals| <= |s'.proposals|
    requires forall k :: |s.log| <= k < |s'.log| ==> !s'.log[k].Application?
    requires forall q: nat :: LastApplication(s'.log, q) == LastApplication(s.log, q)
    requires forall q: nat :: q < |s.proposals| ==>
      && (Closed(s.proposals[q]) || Closed(s'.proposals[q]) ==> s'.proposals[q] == s.proposals[q])
      && s'.proposals[q].appliedAt == s.proposals[q].appliedAt
      && (s'.proposals[q].status in {Approved, Applied, ApplyFailed} ==>
            || Signed(s'.proposals[q], Authority(s'.log, q))
            || (s'.proposals[q] == s.proposals[q] && Authority(s'.log, q) == Authority(s.log, q)))
    requires forall q: nat :: |s.proposals| <= q < |s'.proposals| ==> s'.proposals[q].status == PendingReview
    ensures Matching(s')
  {
    hide LastApplication, Authority, Signed, TellsTruth;
    TruthStays(s.log, s'.log);
    forall q: nat | q < |s'.proposals| ensures RowMatches(s'.proposals[q], s'.log, q) {
      if q < |s.proposals| {
        assert RowMatches(s.proposals[q], s.log, q);
      }
    }
  }

  /** The calls of an application that is undone leave everything as it was. */
  lemma MatchingAfterCalls(s: Store, calls: seq<Record>)
    requires Matching(s) && forall i :: 0 <= i < |calls| ==> calls[i].Execution?
    ensures Matching(s.(log := s.log + calls))
  {
    hide LastApplication, Authority, Matching;
    forall q: nat
      ensures LastApplication(s.log + calls, q) == LastApplication(s.log, q)
      ensures Authority(s.log + calls, q) == Authority(s.log, q)
    {
      CallsLeaveApplications(s.log, calls, q);
      CallsAreSilent(s.log, calls, q);
    }
    MatchingMore(s, s.(log := s.log + calls));
  }

  /** A committed application: its calls, its record, and the row it closes. */
  lemma MatchingAfterCommit(s: Store, pid: nat, calls: seq<Record>, ok: bool, now: int)
    requires Matching(s) && pid < |s.proposals| && s.proposals[pid].status == Approved && calls != []
    requires forall i :: 0 <= i < |calls| ==> calls[i].Execution? && calls[i].origin == FromProposal(pid)
    requires ok <==> GoodAnswer(calls[|calls| - 1].attempt)
    ensures var row := s.proposals[pid].(status := if ok then Applied else ApplyFailed, appliedAt := Some(now));
      Matching(Store(s.proposals[pid := row], s.log + calls + [Application(pid, ok, now)]))
  {
    var last := Application(pid, ok, now);
    var called, log := s.log + calls, s.log + calls + [last];
    var row := s.proposals[pid].(status := if ok then Applied else ApplyFailed, appliedAt := Some(now));
    var n := |calls| - 1;
    assert called == (s.log + calls[..n]) + [calls[n]];
    OneMoreLast(s.log + calls[..n], calls[n], pid);
    assert log[..|called|] == called;
    hide LastCall, GoodAnswer;
    TruthStays(s.log, called);
    forall k: nat | k < |log| ensures TellsTruth(log, k) {
      if k < |called| {
        assert TellsTruth(called, k);
        assert log[..k] == called[..k] && log[k] == called[k];
      }
    }
    forall q: nat
      ensures LastApplication(log, q) == if q == pid then Some(last) else LastApplication(s.log, q)
      ensures Authority(log, q) == Authority(s.log, q)
    {
      CallsLeaveApplications(s.log, calls, q);
      CallsAreSilent(s.log, calls, q);
      OneMoreLast(called, last, q);
      OneMoreRecord(called, last, q);
    }
    hide LastApplication, Authority, Signed, TellsTruth;
    assert Signed(s.proposals[pid], Authority(s.log, pid)) by {
      assert RowMatches(s.proposals[pid], s.log, pid);
    }
    SignatureStays(s.proposals[pid], row, Authority(s.log, pid));
    var rows := s.proposals[pid := row];
    forall q: nat | q < |rows| ensures RowMatches(rows[q], log, q) {
      assert RowMatches(s.proposals[q], s.log, q);
    }
  }

  lemma SignatureStays(p: Proposal, row: Proposal, a: Option<Record>)
    requires Signed(p, a) && row.reviewedBy == p.reviewedBy && row.reviewedAt == p.reviewedAt
    ensures Signed(row, a)
  {
  }

  lemma MatchingAfterApply(w: World, pid: nat, attempts: (Attempt, Attempt), taken: bool)
    requires Safe(w) && Matching(w.store)
    ensures Matching(After(w.store, Apply(w.store, w.tools, pid, attempts, taken, w.now)))
  {
    hide Execute, Succeeded, Encodable, Matching, Safe, GoodAnswer;
    var o := Apply(w.store, w.tools, pid, attempts, taken, w.now);
    if o.RolledBack? || (o.Done? && o.store != w.store) {
      var p := w.store.proposals[pid];
      GivenArguments(w, pid);
      var calls := Calls(FromProposal(pid), p.tool, w.tools[p.tool].capability, CallArguments(p), attempts, w.now);
      CallsOfApplication(FromProposal(pid), p.tool, w.tools[p.tool].capability, CallArguments(p), attempts, w.now);
      EnvelopeTells(attempts);
      LastAttempt(FromProposal(pid), p.tool, w.tools[p.tool].capability, CallArguments(p), attempts, w.now);
      hide Calls;
      if o.RolledBack? {
        MatchingAfterCalls(w.store, calls);
      } else {
        MatchingAfterCommit(w.store, pid, calls, Succeeded(Execute(attempts.0, attempts.1).value), w.now);
      }
    }
  }

  lemma LastAttempt(origin: Origin, tool: string, capability: Capability, args: Value, attempts: (Attempt, Attempt),
      now: int)
    requires args.Obj?
    ensures var calls := Calls(origin, tool, capability, args, attempts, now);
      && calls != [] && calls[|calls| - 1].Execution?
      && calls[|calls| - 1].attempt == if attempts.0.RaisedTypeError? then attempts.1 else attempts.0
  {
  }

  // ---------------------------------------------------------------- every step keeps it

  /** One record that is neither a call nor an application. */
  lemma OneQuietRecord(log: seq<Record>, r: Record, q: nat)
    requires !r.Application? && !r.Execution?
    ensures LastApplication(log + [r], q) == LastApplication(log, q)
    ensures Authority(log + [r], q) == if IsAuthority(r, q) then Some(r) else Authority(log, q)
  {
    OneMoreLast(log, r, q);
    OneMoreRecord(log, r, q);
  }

  lemma MatchingAfterApprove(w: World, pid: nat, reviewer: Option<User>)
    requires Matching(w.store)
    ensures Matching(After(w.store, Approve(w.store, pid, reviewer, w.now)))
  {
    hide Matching, LastApplication, Authority, MeetsCeiling;
    var o := Approve(w.store, pid, reviewer, w.now);
    if o.Done? {
      forall q: nat
        ensures LastApplication(o.store.log, q) == LastApplication(w.store.log, q)
        ensures Authority(o.store.log, q)
             == if q == pid then Some(Approval(pid, reviewer, w.now)) else Authority(w.store.log, q)
      {
        OneQuietRecord(w.store.log, Approval(pid, reviewer, w.now), q);
      }
      MatchingMore(w.store, o.store);
    }
  }

  lemma GivenMatches(setting: Setting, w: World, s: Step)
    requires Matching(w.store) && s.ConsentStep? && s.pid < |w.store.proposals|
    requires CheckOwner(w.store.proposals[s.pid], s.user, s.kind, s.admitted, w.now).None?
    ensures Matching(Given(setting, w, s).store)
  {
    hide Matching, LastApplication, Authority, Supports;
    var consent, given := Consent(s.pid, s.user, w.now), Given(setting, w, s).store;
    forall q: nat
      ensures LastApplication(given.log, q) == LastApplication(w.store.log, q)
      ensures Authority(given.log, q) == if q == s.pid then Some(consent) else Authority(w.store.log, q)
    {
      OneQuietRecord(w.store.log, consent, q);
    }
    MatchingMore(w.store, given);
  }

  /** An undone consent puts its rows back; its record stays, for a row that is pending again. */
  lemma MatchingAfterUndoneConsent(w: World, more: Store, pid: nat)
    requires Matching(w.store) && Matching(more) && |more.proposals| == |w.store.proposals|
    requires pid < |w.store.proposals| && w.store.proposals[pid].status == PendingReview
    requires forall q: nat :: q != pid ==> Authority(more.log, q) == Authority(w.store.log, q)
    requires forall q: nat :: LastApplication(more.log, q) == LastApplication(w.store.log, q)
    ensures Matching(more.(proposals := w.store.proposals))
  {
    hide LastApplication, Authority, Signed, TellsTruth;
    forall q: nat | q < |w.store.proposals| ensures RowMatches(w.store.proposals[q], more.log, q) {
      assert RowMatches(w.store.proposals[q], w.store.log, q);
    }
  }

  lemma UndoneConsentLog(setting: Setting, w: World, s: Step)
    requires Safe(w) && s.ConsentStep? && s.pid < |w.store.proposals|
    requires CheckOwner(w.store.proposals[s.pid], s.user, s.kind, s.admitted, w.now).None?
    requires ConsentOutcome(setting, w, s).RolledBack?
    ensures var log := ConsentOutcome(setting, w, s).log;
      forall q: nat ::
        && LastApplication(log, q) == LastApplication(w.store.log, q)
        && (q != s.pid ==> Authority(log, q) == Authority(w.store.log, q))
  {
    hide LastApplication, Authority, Supports, Safe, Execute, Encodable, Succeeded;
    var given, consent := Given(setting, w, s), Consent(s.pid, s.user, w.now);
    GivenIsSafe(setting, w, s);
    GivenArguments(given, s.pid);
    var p := given.store.proposals[s.pid];
    var calls := Calls(FromProposal(s.pid), p.tool, w.tools[p.tool].capability, CallArguments(p), s.attempts, w.now);
    CallsOfApplication(FromProposal(s.pid), p.tool, w.tools[p.tool].capability, CallArguments(p), s.attempts, w.now);
    hide Calls;
    assert ConsentOutcome(setting, w, s).log == given.store.log + calls;
    forall q: nat
      ensures LastApplication(given.store.log + calls, q) == LastApplication(w.store.log, q)
      ensures q != s.pid ==> Authority(given.store.log + calls, q) == Authority(w.store.log, q)
    {
      OneQuietRecord(w.store.log, consent, q);
      CallsLeaveApplications(given.store.log, calls, q);
      CallsAreSilent(given.store.log, calls, q);
    }
  }

  lemma MatchingAfterConsent(setting: Setting, w: World, s: Step)
    requires Safe(w) && Matching(w.store) && s.ConsentStep?
    ensures Matching(After(w.store, ConsentOutcome(setting, w, s)))
  {
    hide Safe, Matching, Supports, ConsentedRows, Apply, LastApplication, Authority;
    var o := ConsentOutcome(setting, w, s);
    if s.pid < |w.store.proposals| && w.store.proposals[s.pid].status != Applied
       && CheckOwner(w.store.proposals[s.pid], s.user, s.kind, s.admitted, w.now).None? && !o.Refused? {
      var given := Given(setting, w, s);
      GivenIsSafe(setting, w, s);
      GivenMatches(setting, w, s);
      MatchingAfterApply(given, s.pid, s.attempts, s.taken);
      assert o == Apply(given.store, w.tools, s.pid, s.attempts, s.taken, w.now);
      if o.RolledBack? {
        UndoneConsentLog(setting, w, s);
        MatchingAfterUndoneConsent(w, given.store.(log := o.log), s.pid);
      }
    }
  }

  /** Rows that are rejected, expired or new say nothing yet about outcomes. */
  lemma MatchingAfterRows(s: Store, ps: seq<Proposal>)
    requires Matching(s) && |s.proposals| <= |ps|
    requires forall q: nat :: q < |s.proposals| ==>
      || ps[q] == s.proposals[q]
      || (!Closed(s.proposals[q]) && ps[q].status in {Rejected, Expired}
          && ps[q].appliedAt == s.proposals[q].appliedAt)
    requires forall q: nat :: |s.proposals| <= q < |ps| ==> ps[q].status == PendingReview
    ensures Matching(s.(proposals := ps))
  {
    hide Matching, LastApplication, Authority, Signed;
    MatchingMore(s, s.(proposals := ps));
  }

  lemma MatchingAfterDismissals(w: World, pid: nat, reviewer: Option<User>, user: User, kind: ConsentKind,
      admitted: bool)
    requires Matching(w.store)
    ensures Matching(After(w.store, Reject(w.store, pid, reviewer, w.now)))
    ensures Matching(After(w.store, OwnerRejects(w.store, pid, user, kind, admitted, w.now)))
    ensures Matching(w.store.(proposals := SweptAll(w.store.proposals, w.now)))
  {
    hide Matching, Supports, MeetsCeiling;
    var o, o' := Reject(w.store, pid, reviewer, w.now), OwnerRejects(w.store, pid, user, kind, admitted, w.now);
    if o.Done? {
      MatchingAfterRows(w.store, o.store.proposals);
    }
    if o'.Done? {
      MatchingAfterRows(w.store, o'.store.proposals);
    }
    MatchingAfterRows(w.store, SweptAll(w.store.proposals, w.now));
  }

  lemma MatchingAfterTurn(setting: Setting, w: World, s: Step)
    requires Matching(w.store) && s.AgentTurn?
    ensures Matching(AgentStore(setting, w, s))
  {
    hide Matching, Capabilities, SanitizeDict;
    var store := AgentStore(setting, w, s);
    var args := if Truthy(s.arguments) then s.arguments else Obj([]);
    match PlanToolCall(w.tools, s.permission, s.allowlist, s.name, args)
    case Refuse(_) =>
    case Read(tool) =>
      MatchingAfterCalls(w.store, Calls(DuringRun, tool.name, tool.capability, args, s.attempts, w.now));
    case Propose(_) => MatchingAfterRows(w.store, store.proposals);
  }

  lemma MatchingAfterStep(setting: Setting, w: World, s: Step)
    requires Safe(w) && Matching(w.store)
    ensures Matching(StepWorld(setting, w, s).store)
  {
    hide Safe, Matching, AgentStore, Apply, Approve, Reject, OwnerRejects, ConsentOutcome, SweptAll;
    match s
    case Tick(_) =>
    case RegisterTool(_) =>
    case AgentTurn(_, _, _, _, _, _) => MatchingAfterTurn(setting, w, s);
    case EmitStep(_, _, _) => MatchingAfterRows(w.store, StepStore(setting, w, s).proposals);
    case ApproveStep(pid, reviewer) => MatchingAfterApprove(w, pid, reviewer);
    case RejectStep(pid, reviewer) => MatchingAfterDismissals(w, pid, reviewer, NOBODY, BookmarkConsent, true);
    case ApplyStep(pid, attempts, taken) => MatchingAfterApply(w, pid, attempts, taken);
    case ConsentStep(_, _, _, _, _, _) => MatchingAfterConsent(setting, w, s);
    case OwnerRejectStep(pid, user, kind, admitted) => MatchingAfterDismissals(w, pid, None, user, kind, admitted);
    case ExpireStep => MatchingAfterDismissals(w, 0, None, NOBODY, BookmarkConsent, true);
  }

  lemma {:induction false} MatchingAfterRun(setting: Setting, w: World, steps: seq<Step>)
    requires Safe(w) && Matching(w.store)
    ensures Matching(RunWorld(setting, w, steps).store)
    decreases |steps|
  {
    hide Safe, Matching, StepWorld;
    if steps != [] {
      SafeAfterStep(setting, w, steps[0]);
      MatchingAfterStep(setting, w, steps[0]);
      MatchingAfterRun(setting, StepWorld(setting, w, steps[0]), steps[1..]);
    }
  }

  /**
   * Over any run: a proposal is applied, or failed, exactly when its committed application is recorded
   * as a success, or a failure; which it is was decided by how the executor call before it ended; and
   * row and history name the same reviewer and times.
   */
  lemma RowsTellOutcomes(setting: Setting, now: int, tools: Registry, steps: seq<Step>)
    ensures Matching(RunWorld(setting, World(now, tools, Store([], [])), steps).store)
  {
    hide RunWorld, Safe, Authority;
    var w := World(now, tools, Store([], []));
    EmptyIsSafe(w);
    MatchingAfterRun(setting, w, steps);
  }

  /** So an executor whose last call ended in an exception never leaves its proposal applied. */
  lemma ExceptionsAreNeverApplied(setting: Setting, now: int, tools: Registry, steps: seq<Step>, pid: nat, k: nat)
    requires var store := RunWorld(setting, World(now, tools, Store([], [])), steps).store;
      && pid < |store.proposals| && k < |store.log|
      && store.log[k].Application? && store.log[k].pid == pid
      && LastCall(store.log[..k], pid).Some? && !LastCall(store.log[..k], pid).value.Returned?
    ensures RunWorld(setting, World(now, tools, Store([], [])), steps).store.proposals[pid].status == ApplyFailed
  {
    hide RunWorld, LastCall, LastApplication, Authority, Signed;
    var w := World(now, tools, Store([], []));
    var store := RunWorld(setting, w, steps).store;
    RowsTellOutcomes(setting, now, tools, steps);
    EmptyIsSafe(w);
    SafeAfterRun(setting, w, steps);
    assert RowTells(store.proposals[pid], store.log, pid);
    assert RowMatches(store.proposals[pid], store.log, pid);
    assert TellsTruth(store.log, k);
    OnlyApplication(store.log, pid, k);
  }

  /** When at most one application committed, any is the last one. */
  lemma {:induction false} OnlyApplication(log: seq<Record>, pid: nat, k: nat)
    requires k < |log| && log[k].Application? && log[k].pid == pid && Applications(log, pid) <= 1
    ensures LastApplication(log, pid) == Some(log[k])
  {
    var n := |log| - 1;
    if k < n {
      OnlyApplication(log[..n], pid, k);
      SomeApplications(log[..n], pid, k);
    }
  }

  lemma {:induction false} SomeApplications(log: seq<Record>, pid: nat, k: nat)
    requires k < |log| && log[k].Application? && log[k].pid == pid
    ensures Applications(log, pid) >= 1
  {
    if k < |log| - 1 {
      SomeApplications(log[..|log| - 1], pid, k);
    }
  }

  // ---------------------------------------------------------------- who may decide what, and when

  /** Before the deadline, if there is one. */
  predicate InTime(p: Proposal, now: int) {
    p.expiresAt.Some? ==> now < p.expiresAt.value
  }

  /** A strict admin for high-risk tools; for others any authenticated staff member or admin. */
  predicate MayReview(approval: Session.Approval, reviewer: Option<User>) {
    && reviewer.Some?
    && var u := reviewer.value;
    if approval.AdminOnly? then u.role == "admin" || u.isSuperuser
    else u.authenticated && (u.role == "admin" || u.isStaff)
  }

  /** The two ceilings are not nested: a superuser without staff rights may approve the riskier tools only. */
  lemma CeilingsAreNotNestedIff(u: User)
    ensures (MeetsCeiling(Session.AdminOnly, Some(u)) ==> MeetsCeiling(Session.AnyStaff, Some(u)))
      <==> !(u.isSuperuser || u.role == "admin") || (u.authenticated && (u.isStaff || u.role == "admin"))
  {
  }

  /** A review succeeds exactly for pending proposals and the right reviewers; only approval minds the deadline. */
  lemma ReviewIff(s: Store, pid: nat, reviewer: Option<User>, now: int)
    ensures Approve(s, pid, reviewer, now).Done?
      <==> && pid < |s.proposals| && s.proposals[pid].status == PendingReview
           && InTime(s.proposals[pid], now) && MayReview(s.proposals[pid].approval, reviewer)
    ensures Reject(s, pid, reviewer, now).Done?
      <==> && pid < |s.proposals| && s.proposals[pid].status == PendingReview
           && MayReview(s.proposals[pid].approval, reviewer)
    ensures Approve(s, pid, reviewer, now) == Refused(NoSuchProposal) <==> pid >= |s.proposals|
    ensures Reject(s, pid, reviewer, now) == Refused(NoSuchProposal) <==> pid >= |s.proposals|
    ensures pid < |s.proposals| ==>
      var p, late := s.proposals[pid], !InTime(s.proposals[pid], now);
      && (Approve(s, pid, reviewer, now) == Refused(AlreadyApplied) <==> p.status == Applied)
      && (Approve(s, pid, reviewer, now) == Refused(PastDeadline) <==> p.status == PendingReview && late)
      && (Approve(s, pid, reviewer, now) == Refused(AdminApprovalRequired) <==>
            p.status == PendingReview && !late && p.approval.AdminOnly? && !MayReview(p.approval, reviewer))
      && (Approve(s, pid, reviewer, now) == Refused(StaffReviewerRequired) <==>
            p.status == PendingReview && !late && p.approval.AnyStaff? && !MayReview(p.approval, reviewer))
      && (Approve(s, pid, reviewer, now) == Refused(WrongStatus(p.status)) <==>
            p.status !in {PendingReview, Applied})
      && (Reject(s, pid, reviewer, now) == Refused(AlreadyApplied) <==> p.status == Applied)
      && (Reject(s, pid, reviewer, now) == Refused(WrongStatus(p.status)) <==> p.status !in {PendingReview, Applied})
      && (p.status == PendingReview && !MayReview(p.approval, reviewer) ==>
            Reject(s, pid, reviewer, now)
            == Refused(if p.approval.AdminOnly? then AdminApprovalRequired else StaffReviewerRequired))
  {
  }

  /** A decision changes one row: its status, who decided and when. */
  lemma ReviewChangesOneRow(s: Store, pid: nat, reviewer: Option<User>, now: int, q: nat)
    requires q < |s.proposals|
    ensures forall o :: o in {Approve(s, pid, reviewer, now), Reject(s, pid, reviewer, now)} && o.Done? ==>
      && |o.store.proposals| == |s.proposals|
      && (q != pid ==> o.store.proposals[q] == s.proposals[q])
      && (q == pid ==>
            && o.store.proposals[q].reviewedBy == reviewer && o.store.proposals[q].reviewedAt == Some(now)
            && SameRow(s.proposals[q], o.store.proposals[q]))
    ensures Approve(s, pid, reviewer, now).Done? && q == pid ==>
      Approve(s, pid, reviewer, now).store.proposals[q].status == Approved
    ensures Reject(s, pid, reviewer, now).Done? && q == pid ==>
      Reject(s, pid, reviewer, now).store.proposals[q].status == Rejected
  {
    hide MeetsCeiling;
  }

  /** What an application is refused for. */
  lemma ApplicationIff(w: World, pid: nat, attempts: (Attempt, Attempt), taken: bool)
    ensures Apply(w.store, w.tools, pid, attempts, taken, w.now) == Refused(NoSuchProposal)
      <==> pid >= |w.store.proposals|
    ensures pid < |w.store.proposals| ==>
      var p, late := w.store.proposals[pid], !InTime(w.store.proposals[pid], w.now);
      var o := Apply(w.store, w.tools, pid, attempts, taken, w.now);
      var known := p.status == Approved && !late && p.tool in w.tools;
      && (o == Refused(WrongStatus(p.status)) <==> p.status !in {Approved, Applied})
      && (o == Refused(PastDeadline) <==> p.status == Approved && late)
      && (o == Refused(ToolNotRegistered) <==> p.status == Approved && !late && p.tool !in w.tools)
      && (o == Refused(ArgumentsInvalid) <==> known && !w.tools[p.tool].accepts(CallArguments(p)))
      && (p.status == Applied ==> o == Done(w.store))
      && (o.Refused? || p.status == Applied
          || (ReachesExecutor(w, ApplyStep(pid, attempts, taken), pid) && known))
  {
    hide Calls, Execute, Encodable, Succeeded;
  }

  /** An owner consents, or rejects, under the same conditions; only consent looks at the negotiation. */
  lemma OwnerDecidesIff(setting: Setting, w: World, pid: nat, user: User, kind: ConsentKind, admitted: bool,
      attempts: (Attempt, Attempt), taken: bool)
    requires pid < |w.store.proposals|
    ensures var p := w.store.proposals[pid];
      var theirs := && p.status == PendingReview && p.owner == Some(user.id) && Supports(kind, p.tool)
                    && InTime(p, w.now);
      && (OwnerRejects(w.store, pid, user, kind, admitted, w.now).Done? <==>
            theirs && (kind.AutopilotConsent? ==> admitted))
      && (ReachesExecutor(w, ConsentStep(pid, user, kind, admitted, attempts, taken), pid) <==>
            && theirs && (!kind.BookmarkConsent? ==> admitted)
            && p.tool in w.tools && w.tools[p.tool].accepts(CallArguments(p)))
  {
    hide Supports;
  }

  /** What a consent or an owner's rejection is refused for. */
  lemma OwnerErrors(setting: Setting, w: World, s: Step)
    requires s.ConsentStep?
    ensures var consent := ConsentOutcome(setting, w, s);
      var rejection := OwnerRejects(w.store, s.pid, s.user, s.kind, s.admitted, w.now);
      && (s.pid >= |w.store.proposals| ==> consent == rejection == Refused(NoSuchProposal))
      && (s.pid < |w.store.proposals| ==>
            var p := w.store.proposals[s.pid];
            var pending, theirs := p.status == PendingReview, p.owner == Some(s.user.id);
            var supported, late := Supports(s.kind, p.tool), !InTime(p, w.now);
            var room := s.kind.AutopilotConsent? && !s.admitted;
            && (p.status == Applied ==> consent == Done(w.store) && rejection == Refused(AlreadyApplied))
            && (!pending && p.status != Applied ==> consent == rejection == Refused(WrongStatus(p.status)))
            && (pending && !theirs ==> consent == rejection == Refused(NotOwner))
            && (pending && theirs && !supported ==> consent == rejection == Refused(UnsupportedTool))
            && (pending && theirs && supported && room ==> consent == rejection == Refused(NotAdmitted))
            && (pending && theirs && supported && !room && late ==> consent == rejection == Refused(PastDeadline))
            && (pending && theirs && supported && !late && s.kind.NegotiationConsent? && !s.admitted ==>
                  consent == Refused(NotAdmitted)))
  {
    hide Supports, Apply, ConsentedRows;
  }

  /** After a committed bookmark consent the owner has no other pending bookmark for that room. */
  lemma ConsentLeavesNoSibling(setting: Setting, w: World, s: Step, q: nat)
    requires s.ConsentStep? && s.kind.BookmarkConsent? && q < |w.store.proposals| && q != s.pid
    requires ReachesExecutor(w, s, s.pid) && Commits(s.attempts, s.taken)
    ensures var rows := StepWorld(setting, w, s).store.proposals;
      var p, other := w.store.proposals[s.pid], w.store.proposals[q];
      && |rows| == |w.store.proposals|
      && !(rows[q].tool == "bookmark.create" && rows[q].owner == Some(s.user.id)
           && setting.sameRoom(CallArguments(rows[q]), CallArguments(p)) && rows[q].status == PendingReview)
      && (rows[q] != other ==>
            && rows[q] == other.(status := Expired)
            && other.status == PendingReview && other.tool == "bookmark.create" && other.owner == Some(s.user.id)
            && setting.sameRoom(CallArguments(other), CallArguments(p)))
  {
    hide Calls, Execute, Encodable, Succeeded;
  }
}
