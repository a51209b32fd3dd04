/**
 * Agent runs, reviewers, consenting owners, the apply endpoint, the listing autopilot, the expiry task
 * and the clock, interleaved in any order (backend/agents/services.py, backend/agents/session.py,
 * backend/negotiation_agent/services.py, backend/rental_agent/services.py, backend/listing_autopilot/services.py).
 */
module ProposalSafety {
  import opened Common
  import opened Json
  import opened Privacy
  import opened Tools
  import opened Proposals

  datatype World = World(now: int, tools: Registry, store: Store)

  datatype Step =
    | Tick(elapsed: nat)
    | RegisterTool(tool: Tool)
    | AgentTurn(permission: Permission, allowlist: seq<string>, owner: Option<nat>, name: string, arguments: Value,
        attempts: (Attempt, Attempt))
    | EmitStep(slug: string, arguments: Value, owner: Option<nat>)
    | ApproveStep(pid: nat, reviewer: Option<User>)
    | RejectStep(pid: nat, reviewer: Option<User>)
    | ApplyStep(pid: nat, attempts: (Attempt, Attempt), taken: bool)
    | ConsentStep(pid: nat, user: User, kind: ConsentKind, admitted: bool, attempts: (Attempt, Attempt), taken: bool)
    | OwnerRejectStep(pid: nat, user: User, kind: ConsentKind, admitted: bool)
    | ExpireStep

  /** Formatting, the proposal time-to-live and the comparison of room ids, fixed for a deployment. */
  datatype Setting = Setting(repr: Value -> string, ttl: int, sameRoom: (Value, Value) -> bool)

  function AgentStore(setting: Setting, w: World, s: Step): Store
    requires s.AgentTurn?
  {
    var args := if Truthy(s.arguments) then s.arguments else Obj([]);
    match PlanToolCall(w.tools, s.permission, s.allowlist, s.name, args)
    case Refuse(_) => w.store
    case Read(tool) =>
      w.store.(log := w.store.log + Calls(DuringRun, tool.name, tool.capability, args, s.attempts, w.now))
    case Propose(tool) =>
      if !args.Obj? then w.store
      else Created(w.store, tool, SanitizeDict(setting.repr, args), s.owner, w.now, setting.ttl)
  }

  function ConsentOutcome(setting: Setting, w: World, s: Step): Outcome
    requires s.ConsentStep?
  {
    ConsentAndApply(setting.sameRoom, w.store, w.tools, s.pid, s.user, s.kind, s.admitted, s.attempts, s.taken, w.now)
  }

  function StepStore(setting: Setting, w: World, s: Step): Store {
    match s
    case Tick(_) => w.store
    case RegisterTool(_) => w.store
    case AgentTurn(_, _, _, _, _, _) => AgentStore(setting, w, s)
    case EmitStep(slug, args, owner) =>
      if args.Obj? then Emitted(w.store, slug, args, owner, w.now, setting.ttl) else w.store
    case ApproveStep(pid, reviewer) => After(w.store, Approve(w.store, pid, reviewer, w.now))
    case RejectStep(pid, reviewer) => After(w.store, Reject(w.store, pid, reviewer, w.now))
    case ApplyStep(pid, attempts, taken) => After(w.store, Apply(w.store, w.tools, pid, attempts, taken, w.now))
    case ConsentStep(_, _, _, _, _, _) => After(w.store, ConsentOutcome(setting, w, s))
    case OwnerRejectStep(pid, user, kind, admitted) =>
      After(w.store, OwnerRejects(w.store, pid, user, kind, admitted, w.now))
    case ExpireStep => w.store.(proposals := SweptAll(w.store.proposals, w.now))
  }

  function StepWorld(setting: Setting, w: World, s: Step): World {
    World(
      if s.Tick? then w.now + s.elapsed else w.now,
      if s.RegisterTool? then w.tools[s.tool.name := s.tool] else w.tools,
      StepStore(setting, w, s))
  }

  function RunWorld(setting: Setting, w: World, steps: seq<Step>): World
    decreases |steps|
  {
    if steps == [] then w else RunWorld(setting, StepWorld(setting, w, steps[0]), steps[1..])
  }

  // ---------------------------------------------------------------- reading the history

  /** An approval or a consent for one proposal. */
  predicate IsAuthority(r: Record, pid: nat) {
    (r.Approval? || r.Consent?) && r.pid == pid
  }

  /** The latest approval or consent for a proposal: the authority under which its executor is called. */
  function Authority(log: seq<Record>, pid: nat): Option<Record> {
    if log == [] then None
    else if IsAuthority(log[|log| - 1], pid) then Some(log[|log| - 1])
    else Authority(log[..|log| - 1], pid)
  }

  /** How often reviewers approved a proposal. */
  function Reviews(log: seq<Record>, pid: nat): nat {
    if log == [] then 0
    else Reviews(log[..|log| - 1], pid) + if log[|log| - 1].Approval? && log[|log| - 1].pid == pid then 1 else 0
  }

  /** How many applications of a proposal committed. */
  function Applications(log: seq<Record>, pid: nat): nat {
    if log == [] then 0
    else Applications(log[..|log| - 1], pid) + if log[|log| - 1].Application? && log[|log| - 1].pid == pid then 1 else 0
  }

  lemma OneMoreRecord(log: seq<Record>, r: Record, pid: nat)
    ensures Authority(log + [r], pid) == if IsAuthority(r, pid) then Some(r) else Authority(log, pid)
    ensures Reviews(log + [r], pid) == Reviews(log, pid) + if r.Approval? && r.pid == pid then 1 else 0
    ensures Applications(log + [r], pid) == Applications(log, pid) + if r.Application? && r.pid == pid then 1 else 0
  {
    assert (log + [r])[..|log|] == log;
  }

  lemma {:induction false} CallsAreSilent(log: seq<Record>, calls: seq<Record>, pid: nat)
    requires forall i :: 0 <= i < |calls| ==> calls[i].Execution?
    ensures Authority(log + calls, pid) == Authority(log, pid)
    ensures Reviews(log + calls, pid) == Reviews(log, pid)
    ensures Applications(log + calls, pid) == Applications(log, pid)
  {
    if calls == [] {
      assert log + calls == log;
    } else {
      var n := |calls| - 1;
      CallsAreSilent(log, calls[..n], pid);
      assert log + calls == (log + calls[..n]) + [calls[n]];
      OneMoreRecord(log + calls[..n], calls[n], pid);
    }
  }

  // ---------------------------------------------------------------- the invariant

  /** A reviewer who meets the ceiling, or the owner of a proposal for a consentable tool; in time. */
  predicate ValidAuthority(p: Proposal, a: Record) {
    match a
    case Approval(_, reviewer, at) => MeetsCeiling(p.approval, reviewer) && !IsExpired(p, at)
    case Consent(_, owner, at) => p.owner == Some(owner.id) && Consentable(p.tool) && !IsExpired(p, at)
    case _ => false
  }

  /**
   * A call made for a proposal: its tool and arguments, after a valid authority, in time, before any
   * application committed.
   */
  ghost predicate Authorised(s: Store, k: nat)
    requires k < |s.log|
  {
    var r := s.log[k];
    r.Execution? && r.origin.FromProposal? ==>
      var pid := r.origin.pid;
      && pid < |s.proposals|
      && var p := s.proposals[pid];
      && var a := Authority(s.log[..k], pid);
      && a.Some? && ValidAuthority(p, a.value) && a.value.at <= r.at
      && r.tool == p.tool && r.arguments == p.arguments && !IsExpired(p, r.at)
      && Applications(s.log[..k], pid) == 0
  }

  predicate Closed(p: Proposal) {
    p.status == Applied || p.status == ApplyFailed
  }

  /** What a row's status says about its history. */
  ghost predicate RowTells(p: Proposal, log: seq<Record>, pid: nat) {
    && p.expiresAt.Some? && p.arguments.Obj?
    && Applications(log, pid) == (if Closed(p) then 1 else 0)
    && Reviews(log, pid) <= 1
    && (p.status == PendingReview ==> Reviews(log, pid) == 0)
    && (p.status == Approved ==> Authority(log, pid).Some? && ValidAuthority(p, Authority(log, pid).value))
  }

  ghost predicate NothingYet(log: seq<Record>, pid: nat) {
    Authority(log, pid).None? && Reviews(log, pid) == 0 && Applications(log, pid) == 0
  }

  ghost predicate RecordsInPast(w: World) {
    forall k :: 0 <= k < |w.store.log| ==> w.store.log[k].at <= w.now
  }

  /** Outside proposals, only read-only tools run. */
  ghost predicate OnlyReadsDuringRuns(log: seq<Record>) {
    forall k :: 0 <= k < |log| ==> (log[k].Execution? && log[k].origin.DuringRun? ==> log[k].capability.ReadOnly?)
  }

  ghost predicate Safe(w: World) {
    && OnlyReadsDuringRuns(w.store.log)
    && RecordsInPast(w)
    && (forall k: nat :: k < |w.store.log| ==> Authorised(w.store, k))
    && (forall pid: nat :: pid < |w.store.proposals| ==> RowTells(w.store.proposals[pid], w.store.log, pid))
    && (forall pid: nat :: pid >= |w.store.proposals| ==> NothingYet(w.store.log, pid))
  }

  /** What never changes about a row. */
  predicate SameRow(p: Proposal, q: Proposal) {
    p.tool == q.tool && p.arguments == q.arguments && p.approval == q.approval && p.owner == q.owner
      && p.expiresAt == q.expiresAt
  }

  ghost predicate SameRows(before: seq<Proposal>, after: seq<Proposal>) {
    |before| <= |after| && forall i :: 0 <= i < |before| ==> SameRow(before[i], after[i])
  }

  lemma StaysAuthorised(before: Store, after: Store, k: nat)
    requires before.log <= after.log && SameRows(before.proposals, after.proposals)
    requires k < |before.log| && Authorised(before, k)
    ensures Authorised(after, k)
  {
    hide Authority, Applications, Consentable;
    assert after.log[..k] == before.log[..k] && after.log[k] == before.log[k];
  }

  /** A longer history over the same rows is safe when the new records and the new statuses are. */
  lemma SafeAfterMore(w: World, store: Store)
    requires Safe(w) && w.store.log <= store.log && SameRows(w.store.proposals, store.proposals)
    requires forall k :: |w.store.log| <= k < |store.log| ==>
      && store.log[k].at <= w.now
      && (store.log[k].Execution? && store.log[k].origin.DuringRun? ==> store.log[k].capability.ReadOnly?)
      && Authorised(store, k)
    requires forall pid: nat :: pid < |store.proposals| ==> RowTells(store.proposals[pid], store.log, pid)
    requires forall pid: nat :: pid >= |store.proposals| ==> NothingYet(store.log, pid)
    ensures Safe(w.(store := store))
  {
    hide RowTells, NothingYet, SameRows;
    forall k: nat | k < |store.log| ensures Authorised(store, k) {
      if k < |w.store.log| {
        StaysAuthorised(w.store, store, k);
      }
    }
    assert forall k :: 0 <= k < |w.store.log| ==> store.log[k] == w.store.log[k];
    hide Authorised;
  }

  /** Rows may change status without a record as long as each still tells its history. */
  lemma SafeAfterRows(w: World, ps: seq<Proposal>)
    requires Safe(w) && SameRows(w.store.proposals, ps)
    requires forall pid: nat :: pid < |ps| ==> RowTells(ps[pid], w.store.log, pid)
    ensures Safe(w.(store := w.store.(proposals := ps)))
  {
    hide RowTells, NothingYet, Authorised;
    SafeAfterMore(w, w.store.(proposals := ps));
  }

  /** A new row has no history yet. */
  lemma SafeAfterCreation(w: World, p: Proposal)
    requires Safe(w) && p.expiresAt.Some? && p.arguments.Obj? && p.status == PendingReview
    ensures Safe(w.(store := w.store.(proposals := w.store.proposals + [p])))
  {
    hide Authorised;
    var ps := w.store.proposals + [p];
    assert NothingYet(w.store.log, |w.store.proposals|);
    SafeAfterRows(w, ps);
  }

  // ---------------------------------------------------------------- authorities

  /** One authority record, its row becoming approved, and perhaps other pending rows expiring. */
  lemma SafeAfterAuthority(w: World, pid: nat, a: Record, ps: seq<Proposal>)
    requires Safe(w) && pid < |w.store.proposals| && w.store.proposals[pid].status == PendingReview
    requires IsAuthority(a, pid) && a.at == w.now && ValidAuthority(w.store.proposals[pid], a)
    requires SameRows(w.store.proposals, ps) && |ps| == |w.store.proposals| && ps[pid].status == Approved
    requires forall q :: 0 <= q < |ps| && q != pid ==>
      ps[q].status == w.store.proposals[q].status
      || (w.store.proposals[q].status == PendingReview && ps[q].status == Expired)
    ensures Safe(w.(store := Store(ps, w.store.log + [a])))
  {
    var store := Store(ps, w.store.log + [a]);
    forall q: nat
      ensures Authority(store.log, q) == if q == pid then Some(a) else Authority(w.store.log, q)
      ensures Reviews(store.log, q) == Reviews(w.store.log, q) + if q == pid && a.Approval? then 1 else 0
      ensures Applications(store.log, q) == Applications(w.store.log, q)
    {
      OneMoreRecord(w.store.log, a, q);
    }
    hide Authority, Reviews, Applications, Consentable;
    forall q: nat | q < |ps| ensures RowTells(ps[q], store.log, q) {
      assert RowTells(w.store.proposals[q], w.store.log, q);
    }
    forall q: nat | q >= |ps| ensures NothingYet(store.log, q) {
      assert NothingYet(w.store.log, q);
    }
    assert Authorised(store, |w.store.log|);
    hide Authorised, RowTells, NothingYet;
    SafeAfterMore(w, store);
  }

  lemma SafeAfterApprove(w: World, pid: nat, reviewer: Option<User>)
    requires Safe(w)
    ensures Safe(w.(store := After(w.store, Approve(w.store, pid, reviewer, w.now))))
  {
    hide Safe;
    var o := Approve(w.store, pid, reviewer, w.now);
    if o.Done? {
      SafeAfterAuthority(w, pid, Approval(pid, reviewer, w.now), o.store.proposals);
    }
  }

  // ---------------------------------------------------------------- applications

  /** The calls of one application. */
  lemma CallsOfApplication(origin: Origin, tool: string, capability: Capability, args: Value,
      attempts: (Attempt, Attempt), now: int)
    requires args.Obj?
    ensures var calls := Calls(origin, tool, capability, args, attempts, now);
      && |calls| == (if attempts.0.RaisedTypeError? then 2 else 1)
      && (forall i :: 0 <= i < |calls| ==>
           && calls[i].Execution? && calls[i].origin == origin && calls[i].tool == tool
           && calls[i].capability == capability && calls[i].arguments == args && calls[i].at == now)
  {
  }

  lemma NoCalls(origin: Origin, tool: string, capability: Capability, args: Value, attempts: (Attempt, Attempt),
      now: int)
    requires !args.Obj?
    ensures Calls(origin, tool, capability, args, attempts, now) == []
  {
  }

  lemma ArgumentsAreDict(p: Proposal, log: seq<Record>, pid: nat)
    requires RowTells(p, log, pid)
    ensures CallArguments(p).Obj? && CallArguments(p) == p.arguments
  {
  }

  predicate CallsFor(p: Proposal, pid: nat, calls: seq<Record>, now: int) {
    forall i :: 0 <= i < |calls| ==>
      && calls[i].Execution? && calls[i].origin == FromProposal(pid) && calls[i].tool == p.tool
      && calls[i].arguments == CallArguments(p) && calls[i].at == now
  }

  /** Calls for an approved, unexpired row are authorised. */
  lemma CallIsAuthorised(w: World, pid: nat, ps: seq<Proposal>, calls: seq<Record>, more: seq<Record>, i: nat)
    requires Safe(w) && pid < |w.store.proposals| && SameRows(w.store.proposals, ps)
    requires var p := w.store.proposals[pid];
      p.status == Approved && !IsExpired(p, w.now) && CallsFor(p, pid, calls, w.now)
    requires i < |calls|
    ensures Authorised(Store(ps, w.store.log + calls + more), |w.store.log| + i)
  {
    var store := Store(ps, w.store.log + calls + more);
    assert store.log[..|w.store.log| + i] == w.store.log + calls[..i];
    assert store.log[|w.store.log| + i] == calls[i];
    CallsAreSilent(w.store.log, calls[..i], pid);
    assert RowTells(w.store.proposals[pid], w.store.log, pid);
    AuthorityIsOld(w.store.log, pid, w.now);
  }

  lemma {:induction false} AuthorityIsOld(log: seq<Record>, pid: nat, now: int)
    requires forall k :: 0 <= k < |log| ==> log[k].at <= now
    ensures Authority(log, pid).Some? ==> Authority(log, pid).value.at <= now
  {
    if log != [] {
      AuthorityIsOld(log[..|log| - 1], pid, now);
    }
  }

  /** An undone application leaves its calls. */
  lemma SafeAfterUndone(w: World, pid: nat, calls: seq<Record>)
    requires Safe(w) && pid < |w.store.proposals|
    requires var p := w.store.proposals[pid];
      p.status == Approved && !IsExpired(p, w.now) && CallsFor(p, pid, calls, w.now)
    ensures Safe(w.(store := w.store.(log := w.store.log + calls)))
  {
    var store := w.store.(log := w.store.log + calls);
    forall q: nat
      ensures Authority(store.log, q) == Authority(w.store.log, q)
      ensures Reviews(store.log, q) == Reviews(w.store.log, q)
      ensures Applications(store.log, q) == Applications(w.store.log, q)
    {
      CallsAreSilent(w.store.log, calls, q);
    }
    assert w.store.log + calls + [] == store.log;
    forall k | |w.store.log| <= k < |store.log| ensures Authorised(store, k) {
      CallIsAuthorised(w, pid, w.store.proposals, calls, [], k - |w.store.log|);
    }
    hide Authority, Reviews, Applications, Authorised, CallArguments, Consentable;
    forall q: nat | q < |store.proposals| ensures RowTells(store.proposals[q], store.log, q) {
      assert RowTells(w.store.proposals[q], w.store.log, q);
    }
    forall q: nat | q >= |store.proposals| ensures NothingYet(store.log, q) {
      assert NothingYet(w.store.log, q);
    }
    hide RowTells, NothingYet;
    SafeAfterMore(w, store);
  }

  /** A committed application closes its row. */
  lemma SafeAfterCommit(w: World, pid: nat, calls: seq<Record>, row: Proposal, ok: bool)
    requires Safe(w) && pid < |w.store.proposals|
    requires var p := w.store.proposals[pid];
      p.status == Approved && !IsExpired(p, w.now) && CallsFor(p, pid, calls, w.now)
    requires SameRow(w.store.proposals[pid], row) && Closed(row)
    ensures Safe(w.(store := Store(w.store.proposals[pid := row], w.store.log + calls + [Application(pid, ok, w.now)])))
  {
    var last := Application(pid, ok, w.now);
    var store := Store(w.store.proposals[pid := row], w.store.log + calls + [last]);
    forall q: nat
      ensures Authority(store.log, q) == Authority(w.store.log, q)
      ensures Reviews(store.log, q) == Reviews(w.store.log, q)
      ensures Applications(store.log, q) == Applications(w.store.log, q) + if q == pid then 1 else 0
    {
      CallsAreSilent(w.store.log, calls, q);
      OneMoreRecord(w.store.log + calls, last, q);
    }
    forall k | |w.store.log| <= k < |store.log| ensures Authorised(store, k) {
      if k < |w.store.log| + |calls| {
        CallIsAuthorised(w, pid, store.proposals, calls, [last], k - |w.store.log|);
      } else {
        assert store.log[k] == last;
      }
    }
    hide Authority, Reviews, Applications, Authorised, CallArguments, Consentable;
    forall q: nat | q < |store.proposals| ensures RowTells(store.proposals[q], store.log, q) {
      assert RowTells(w.store.proposals[q], w.store.log, q);
    }
    forall q: nat | q >= |store.proposals| ensures NothingYet(store.log, q) {
      assert NothingYet(w.store.log, q);
    }
    hide RowTells, NothingYet;
    SafeAfterMore(w, store);
  }

  lemma SafeAfterApply(w: World, pid: nat, attempts: (Attempt, Attempt), taken: bool)
    requires Safe(w)
    ensures Safe(w.(store := After(w.store, Apply(w.store, w.tools, pid, attempts, taken, w.now))))
  {
    hide Execute, Succeeded, Calls, Encodable;
    var o := Apply(w.store, w.tools, pid, attempts, taken, w.now);
    if o.RolledBack? || (o.Done? && o.store != w.store) {
      var p := w.store.proposals[pid];
      ArgumentsAreDict(p, w.store.log, pid);
      hide Safe;
      var calls := Calls(FromProposal(pid), p.tool, w.tools[p.tool].capability, CallArguments(p), attempts, w.now);
      CallsOfApplication(FromProposal(pid), p.tool, w.tools[p.tool].capability, CallArguments(p), attempts, w.now);
      if o.RolledBack? {
        SafeAfterUndone(w, pid, calls);
      } else {
        var ok := Succeeded(Execute(attempts.0, attempts.1).value);
        SafeAfterCommit(w, pid, calls, o.store.proposals[pid], ok);
      }
    }
  }

  // ---------------------------------------------------------------- consent

  /** Rows put back as they were, beside a history that gained consents and calls only. */
  lemma SafeAfterRestore(w: World, more: World)
    requires Safe(w) && Safe(more) && more.now == w.now
    requires w.store.log <= more.store.log && SameRows(more.store.proposals, w.store.proposals)
    requires |w.store.proposals| == |more.store.proposals|
    requires forall q: nat ::
      && Reviews(more.store.log, q) == Reviews(w.store.log, q)
      && Applications(more.store.log, q) == Applications(w.store.log, q)
    requires forall q: nat :: q < |w.store.proposals| && w.store.proposals[q].status == Approved ==>
      Authority(more.store.log, q) == Authority(w.store.log, q)
    ensures Safe(more.(store := more.store.(proposals := w.store.proposals)))
  {
    hide Authorised, Authority, Reviews, Applications, NothingYet, Consentable;
    forall q: nat | q < |w.store.proposals| ensures RowTells(w.store.proposals[q], more.store.log, q) {
      assert RowTells(w.store.proposals[q], w.store.log, q);
    }
    hide RowTells;
    SafeAfterRows(more, w.store.proposals);
  }

  lemma ConsentedRowsAreSame(setting: Setting, ps: seq<Proposal>, pid: nat, user: User, kind: ConsentKind, now: int)
    requires pid < |ps|
    ensures var rows := ConsentedRows(setting.sameRoom, ps, pid, user, kind, now);
      && SameRows(ps, rows) && SameRows(rows, ps) && rows[pid].status == Approved
      && forall q :: 0 <= q < |ps| && q != pid ==>
           rows[q].status == ps[q].status || (ps[q].status == PendingReview && rows[q].status == Expired)
  {
  }

  lemma SafeAfterConsent(setting: Setting, w: World, s: Step)
    requires Safe(w) && s.ConsentStep?
    ensures Safe(w.(store := After(w.store, ConsentOutcome(setting, w, s))))
  {
    hide Safe, Supports, ConsentedRows, Apply;
    var o := ConsentOutcome(setting, w, s);
    if s.pid < |w.store.proposals| && w.store.proposals[s.pid].status != Applied
       && CheckOwner(w.store.proposals[s.pid], s.user, s.kind, s.admitted, w.now).None? && !o.Refused? {
      var given := Given(setting, w, s);
      GivenIsSafe(setting, w, s);
      SafeAfterApply(given, s.pid, s.attempts, s.taken);
      assert o == Apply(given.store, w.tools, s.pid, s.attempts, s.taken, w.now);
      if o.RolledBack? {
        UndoneConsent(setting, w, s);
      }
    }
  }

  /** The world inside a consent's transaction, before the application. */
  function Given(setting: Setting, w: World, s: Step): World
    requires s.ConsentStep? && s.pid < |w.store.proposals|
  {
    w.(store := Store(ConsentedRows(setting.sameRoom, w.store.proposals, s.pid, s.user, s.kind, w.now),
                      w.store.log + [Consent(s.pid, s.user, w.now)]))
  }

  lemma GivenIsSafe(setting: Setting, w: World, s: Step)
    requires Safe(w) && s.ConsentStep? && s.pid < |w.store.proposals|
    requires CheckOwner(w.store.proposals[s.pid], s.user, s.kind, s.admitted, w.now).None?
    ensures Safe(Given(setting, w, s))
  {
    hide Safe, ConsentedRows;
    ConsentedRowsAreSame(setting, w.store.proposals, s.pid, s.user, s.kind, w.now);
    SupportsIsConsentable(s.kind, w.store.proposals[s.pid].tool);
    hide Consentable, Supports;
    SafeAfterAuthority(w, s.pid, Consent(s.pid, s.user, w.now), Given(setting, w, s).store.proposals);
  }

  lemma SupportsIsConsentable(kind: ConsentKind, tool: string)
    ensures Supports(kind, tool) ==> Consentable(tool)
  {
  }

  lemma UndoneConsent(setting: Setting, w: World, s: Step)
    requires Safe(w) && s.ConsentStep? && s.pid < |w.store.proposals|
    requires CheckOwner(w.store.proposals[s.pid], s.user, s.kind, s.admitted, w.now).None?
    requires Apply(Given(setting, w, s).store, w.tools, s.pid, s.attempts, s.taken, w.now).RolledBack?
    ensures var o := Apply(Given(setting, w, s).store, w.tools, s.pid, s.attempts, s.taken, w.now);
      Safe(w.(store := w.store.(log := o.log)))
  {
    hide Safe, ConsentedRows, Supports, Calls, Execute, Encodable;
    var given := Given(setting, w, s);
    var o := Apply(given.store, w.tools, s.pid, s.attempts, s.taken, w.now);
    GivenIsSafe(setting, w, s);
    SafeAfterApply(given, s.pid, s.attempts, s.taken);
    ConsentedRowsAreSame(setting, w.store.proposals, s.pid, s.user, s.kind, w.now);
    var more := given.(store := given.store.(log := o.log));
    var p := given.store.proposals[s.pid];
    GivenArguments(given, s.pid);
    CallsOfApplication(FromProposal(s.pid), p.tool, w.tools[p.tool].capability, CallArguments(p), s.attempts, w.now);
    var calls := Calls(FromProposal(s.pid), p.tool, w.tools[p.tool].capability, CallArguments(p), s.attempts, w.now);
    assert o.log == given.store.log + calls;
    forall q: nat
      ensures Reviews(o.log, q) == Reviews(w.store.log, q) && Applications(o.log, q) == Applications(w.store.log, q)
      ensures q != s.pid ==> Authority(o.log, q) == Authority(w.store.log, q)
    {
      OneMoreRecord(w.store.log, Consent(s.pid, s.user, w.now), q);
      CallsAreSilent(given.store.log, calls, q);
    }
    hide Authority, Reviews, Applications;
    SafeAfterRestore(w, more);
  }

  lemma GivenArguments(w: World, pid: nat)
    requires Safe(w) && pid < |w.store.proposals|
    ensures CallArguments(w.store.proposals[pid]).Obj?
  {
    hide Authorised;
    ArgumentsAreDict(w.store.proposals[pid], w.store.log, pid);
  }

  // ---------------------------------------------------------------- the other steps

  lemma SafeAfterReads(w: World, calls: seq<Record>)
    requires Safe(w)
    requires forall i :: 0 <= i < |calls| ==>
      calls[i].Execution? && calls[i].origin.DuringRun? && calls[i].capability.ReadOnly? && calls[i].at == w.now
    ensures Safe(w.(store := w.store.(log := w.store.log + calls)))
  {
    var store := w.store.(log := w.store.log + calls);
    forall q: nat
      ensures Authority(store.log, q) == Authority(w.store.log, q)
      ensures Reviews(store.log, q) == Reviews(w.store.log, q)
      ensures Applications(store.log, q) == Applications(w.store.log, q)
    {
      CallsAreSilent(w.store.log, calls, q);
    }
    hide Authority, Reviews, Applications, CallArguments, Consentable;
    forall q: nat | q < |store.proposals| ensures RowTells(store.proposals[q], store.log, q) {
      assert RowTells(w.store.proposals[q], w.store.log, q);
    }
    forall q: nat | q >= |store.proposals| ensures NothingYet(store.log, q) {
      assert NothingYet(w.store.log, q);
    }
    hide RowTells, NothingYet;
    SafeAfterMore(w, store);
  }

  lemma SafeAfterTurn(setting: Setting, w: World, s: Step)
    requires Safe(w) && s.AgentTurn?
    ensures Safe(w.(store := AgentStore(setting, w, s)))
  {
    hide Capabilities, Safe, Calls;
    var args := if Truthy(s.arguments) then s.arguments else Obj([]);
    match PlanToolCall(w.tools, s.permission, s.allowlist, s.name, args)
    case Refuse(_) =>
    case Read(tool) =>
      if args.Obj? {
        CallsOfApplication(DuringRun, tool.name, tool.capability, args, s.attempts, w.now);
      } else {
        NoCalls(DuringRun, tool.name, tool.capability, args, s.attempts, w.now);
      }
      SafeAfterReads(w, Calls(DuringRun, tool.name, tool.capability, args, s.attempts, w.now));
    case Propose(tool) =>
      if args.Obj? {
        var stored := SanitizeDict(setting.repr, args);
        SafeAfterCreation(w, NewProposal(tool.name, stored, Session.ApprovalFor(tool.capability), s.owner, w.now,
          setting.ttl));
      }
  }

  /** A step that closes pending or approved rows by rejecting or expiring them. */
  lemma SafeAfterDismissal(w: World, ps: seq<Proposal>)
    requires Safe(w) && SameRows(w.store.proposals, ps) && |ps| == |w.store.proposals|
    requires forall q :: 0 <= q < |ps| ==>
      ps[q].status == w.store.proposals[q].status
      || (w.store.proposals[q].status in {PendingReview, Approved} && ps[q].status in {Rejected, Expired})
    ensures Safe(w.(store := w.store.(proposals := ps)))
  {
    hide Authorised, Authority, Reviews, Applications, NothingYet, Consentable;
    forall q: nat | q < |ps| ensures RowTells(ps[q], w.store.log, q) {
      assert RowTells(w.store.proposals[q], w.store.log, q);
    }
    hide RowTells;
    SafeAfterRows(w, ps);
  }

  lemma SafeAfterRejections(w: World, pid: nat, reviewer: Option<User>, user: User, kind: ConsentKind, admitted: bool)
    requires Safe(w)
    ensures Safe(w.(store := After(w.store, Reject(w.store, pid, reviewer, w.now))))
    ensures Safe(w.(store := After(w.store, OwnerRejects(w.store, pid, user, kind, admitted, w.now))))
  {
    hide Safe, Supports;
    var o := Reject(w.store, pid, reviewer, w.now);
    if o.Done? {
      SafeAfterDismissal(w, o.store.proposals);
    }
    var o' := OwnerRejects(w.store, pid, user, kind, admitted, w.now);
    if o'.Done? {
      SafeAfterDismissal(w, o'.store.proposals);
    }
  }

  lemma SafeAfterSetting(w: World, w': World)
    requires Safe(w) && w'.store == w.store && w'.now >= w.now
    ensures Safe(w')
  {
    hide Authorised, RowTells, NothingYet;
  }

  lemma SafeAfterStep(setting: Setting, w: World, s: Step)
    requires Safe(w)
    ensures Safe(StepWorld(setting, w, s))
  {
    hide Safe, AgentStore, Apply, Approve, Reject, OwnerRejects, ConsentOutcome, SweptAll;
    match s
    case Tick(_) => SafeAfterSetting(w, StepWorld(setting, w, s));
    case RegisterTool(_) => SafeAfterSetting(w, StepWorld(setting, w, s));
    case AgentTurn(_, _, _, _, _, _) => SafeAfterTurn(setting, w, s);
    case EmitStep(slug, args, owner) =>
      if args.Obj? {
        SafeAfterCreation(w, NewProposal(AUTOPILOT_PREFIX + "." + slug, args, Session.AnyStaff, owner, w.now,
          setting.ttl));
      }
    case ApproveStep(pid, reviewer) => SafeAfterApprove(w, pid, reviewer);
    case RejectStep(pid, reviewer) => SafeAfterRejections(w, pid, reviewer, NOBODY, BookmarkConsent, true);
    case ApplyStep(pid, attempts, taken) => SafeAfterApply(w, pid, attempts, taken);
    case ConsentStep(_, _, _, _, _, _) => SafeAfterConsent(setting, w, s);
    case OwnerRejectStep(pid, user, kind, admitted) => SafeAfterRejections(w, pid, None, user, kind, admitted);
    case ExpireStep => SafeAfterSweep(w);
  }

  const NOBODY := User(0, false, false, false, "")

  lemma SafeAfterSweep(w: World)
    requires Safe(w)
    ensures Safe(w.(store := w.store.(proposals := SweptAll(w.store.proposals, w.now))))
  {
    hide Safe;
    SafeAfterDismissal(w, SweptAll(w.store.proposals, w.now));
  }

  lemma {:induction false} SafeAfterRun(setting: Setting, w: World, steps: seq<Step>)
    requires Safe(w)
    ensures Safe(RunWorld(setting, w, steps))
    decreases |steps|
  {
    hide Safe;
    hide StepWorld;
    if steps != [] {
      SafeAfterStep(setting, w, steps[0]);
      SafeAfterRun(setting, StepWorld(setting, w, steps[0]), steps[1..]);
    }
  }

  lemma EmptyIsSafe(w: World)
    requires w.store == Store([], [])
    ensures Safe(w)
  {
  }

  /**
   * Over every interleaving, a tool that is not read-only is called only for a proposal, with its tool
   * and arguments, before its deadline and before any application of it commits, and under an earlier
   * authority that is in time too: an approval by a reviewer who meets its ceiling, or a consent by
   * its owner to a consentable tool. A proposal is approved by reviewers at most once, and at most one
   * application of it ever commits.
   */
  lemma ApprovalSafety(setting: Setting, now: int, tools: Registry, steps: seq<Step>, k: nat, pid: nat)
    requires k < |RunWorld(setting, World(now, tools, Store([], [])), steps).store.log|
    ensures var store := RunWorld(setting, World(now, tools, Store([], [])), steps).store;
      && (store.log[k].Execution? && !store.log[k].capability.ReadOnly? ==> store.log[k].origin.FromProposal?)
      && Authorised(store, k)
      && Reviews(store.log, pid) <= 1 && Applications(store.log, pid) <= 1
  {
    hide StepWorld, Authorised;
    var w0 := World(now, tools, Store([], []));
    EmptyIsSafe(w0);
    SafeAfterRun(setting, w0, steps);
    var w := RunWorld(setting, w0, steps);
    assert pid < |w.store.proposals| ==> RowTells(w.store.proposals[pid], w.store.log, pid);
    assert pid >= |w.store.proposals| ==> NothingYet(w.store.log, pid);
  }

  // ---------------------------------------------------------------- deadlines and terminal states

  /** Where a proposal whose deadline has passed can still go. */
  predicate MayBecome(before: ProposalStatus, after: ProposalStatus) {
    match before
    case PendingReview => after in {PendingReview, Rejected, Expired}
    case Approved => after in {Approved, Expired}
    case _ => after == before
  }

  lemma OneStepAfterDeadline(setting: Setting, w: World, s: Step, pid: nat)
    requires pid < |w.store.proposals| && IsExpired(w.store.proposals[pid], w.now)
    ensures var w' := StepWorld(setting, w, s);
      && pid < |w'.store.proposals|
      && IsExpired(w'.store.proposals[pid], w'.now)
      && MayBecome(w.store.proposals[pid].status, w'.store.proposals[pid].status)
  {
    hide Execute;
    hide SanitizeDict;
    hide PlanToolCall;
  }

  /**
   * Once the deadline has passed, an open proposal can only stay open, be rejected (if still pending) or
   * expire; closed ones stay as they are.
   */
  lemma {:induction false} DeadlineIsFinal(setting: Setting, w: World, steps: seq<Step>, pid: nat)
    requires pid < |w.store.proposals| && IsExpired(w.store.proposals[pid], w.now)
    ensures var w' := RunWorld(setting, w, steps);
      && pid < |w'.store.proposals|
      && IsExpired(w'.store.proposals[pid], w'.now)
      && MayBecome(w.store.proposals[pid].status, w'.store.proposals[pid].status)
    decreases |steps|
  {
    hide StepWorld;
    if steps != [] {
      OneStepAfterDeadline(setting, w, steps[0], pid);
      DeadlineIsFinal(setting, StepWorld(setting, w, steps[0]), steps[1..], pid);
    }
  }

  /** ... and after one sweep it is rejected or expired for good. */
  lemma SweepCloses(setting: Setting, w: World, before: seq<Step>, later: seq<Step>, pid: nat)
    requires pid < |w.store.proposals| && IsExpired(w.store.proposals[pid], w.now)
    requires w.store.proposals[pid].status in {PendingReview, Approved}
    ensures var swept := StepWorld(setting, RunWorld(setting, w, before), ExpireStep);
      var w' := RunWorld(setting, swept, later);
      pid < |w'.store.proposals| && w'.store.proposals[pid].status in {Rejected, Expired}
  {
    hide RunWorld;
    DeadlineIsFinal(setting, w, before, pid);
    var mid := RunWorld(setting, w, before);
    DeadlineIsFinal(setting, StepWorld(setting, mid, ExpireStep), later, pid);
  }

  lemma TerminalStep(setting: Setting, w: World, s: Step, pid: nat)
    requires pid < |w.store.proposals| && w.store.proposals[pid].status in {Rejected, Expired, Applied, ApplyFailed}
    ensures var w' := StepWorld(setting, w, s);
      pid < |w'.store.proposals| && w'.store.proposals[pid] == w.store.proposals[pid]
  {
    hide Execute;
    hide SanitizeDict;
    hide PlanToolCall;
  }

  /** A rejected, expired, applied or failed proposal never changes again. */
  lemma {:induction false} ClosedProposalsStayClosed(setting: Setting, w: World, steps: seq<Step>, pid: nat)
    requires pid < |w.store.proposals| && w.store.proposals[pid].status in {Rejected, Expired, Applied, ApplyFailed}
    ensures var w' := RunWorld(setting, w, steps);
      pid < |w'.store.proposals| && w'.store.proposals[pid] == w.store.proposals[pid]
    decreases |steps|
  {
    hide StepWorld;
    if steps != [] {
      TerminalStep(setting, w, steps[0], pid);
      ClosedProposalsStayClosed(setting, StepWorld(setting, w, steps[0]), steps[1..], pid);
    }
  }

  // ---------------------------------------------------------------- the sweep

  /** The rows a sweep changes. */
  ghost function Changed(ps: seq<Proposal>, now: int): set<nat> {
    set i: nat | i < |ps| && Swept(ps[i], now) != ps[i]
  }

  lemma DueIsChanged(p: Proposal, now: int)
    ensures Swept(p, now) != p <==> Due(p, now)
    ensures !Due(Swept(p, now), now)
  {
  }

  lemma ChangedGrows(ps: seq<Proposal>, n: nat, now: int)
    requires n + 1 == |ps|
    ensures |Changed(ps, now)| == |Changed(ps[..n], now)| + if Swept(ps[n], now) != ps[n] then 1 else 0
  {
    hide Swept;
    var before := Changed(ps[..n], now);
    if Swept(ps[n], now) != ps[n] {
      assert Changed(ps, now) == before + {n};
    } else {
      assert Changed(ps, now) == before;
    }
  }

  /** A sweep counts exactly the rows it changes and leaves nothing due behind. */
  lemma {:induction false} SweepIsExact(ps: seq<Proposal>, now: int)
    ensures DueCount(SweptAll(ps, now), now) == 0
    ensures DueCount(ps, now) == |Changed(ps, now)|
  {
    hide Swept;
    hide Due;
    if ps == [] {
      assert Changed(ps, now) == {};
    } else {
      var n := |ps| - 1;
      SweepIsExact(ps[..n], now);
      DueIsChanged(ps[n], now);
      assert SweptAll(ps, now)[..n] == SweptAll(ps[..n], now);
      ChangedGrows(ps, n, now);
    }
  }
}
