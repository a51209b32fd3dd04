/**
 * The proposal lifecycle (backend/agents/services.py) and the ways of the agents built on it: owner
 * consent and the listing autopilot's own proposals. One atomic step per service call.
 */
module Proposals {
  import opened Common
  import opened Json
  import opened Privacy
  import opened Tools
  import opened Session

  datatype ProposalStatus = PendingReview | Approved | Rejected | Expired | Applied | ApplyFailed

  datatype User = User(id: nat, authenticated: bool, isStaff: bool, isSuperuser: bool, role: string)

  /** `owner` is the user of the conversation a proposal came from. */
  datatype Proposal = Proposal(
    tool: string, arguments: Value, approval: Approval, owner: Option<nat>, status: ProposalStatus,
    expiresAt: Option<int>, reviewedAt: Option<int>, reviewedBy: Option<User>, appliedAt: Option<int>)

  datatype Error =
    | NoSuchProposal | AlreadyApplied | PastDeadline | WrongStatus(status: ProposalStatus)
    | AdminApprovalRequired | StaffReviewerRequired | ToolNotRegistered | ArgumentsInvalid | StepUndone
    | NotOwner | UnsupportedTool | NotAdmitted

  datatype Origin = DuringRun | FromProposal(pid: nat)

  /**
   * What happened: reviewers' approvals, owners' consents that got as far as the executor, every
   * call of an executor with how it ended, and every application that committed.
   */
  datatype Record =
    | Approval(pid: nat, reviewer: Option<User>, at: int)
    | Consent(pid: nat, owner: User, at: int)
    | Execution(origin: Origin, tool: string, capability: Capability, arguments: Value, attempt: Attempt, at: int)
    | Application(pid: nat, succeeded: bool, at: int)

  /** The proposal table, and a history that no rollback undoes. */
  datatype Store = Store(proposals: seq<Proposal>, log: seq<Record>)

  /** An exception after the executor was called undoes the step's rows, not the calls it made. */
  datatype Outcome = Done(store: Store) | Refused(error: Error) | RolledBack(log: seq<Record>)

  /** The store after a call: rows are unchanged when it was refused or rolled back. */
  function After(s: Store, o: Outcome): Store {
    match o
    case Done(s') => s'
    case Refused(_) => s
    case RolledBack(log) => s.(log := log)
  }

  function ErrorOf(o: Outcome): Option<Error> {
    match o
    case Done(_) => None
    case Refused(e) => Some(e)
    case RolledBack(_) => Some(StepUndone)
  }

  /** One record for each call of the executor that one `AgentTool.execute` makes. */
  function Calls(origin: Origin, tool: string, capability: Capability, args: Value, attempts: (Attempt, Attempt),
      now: int): seq<Record>
  {
    var made := Attempts(args, attempts.0, attempts.1);
    seq(|made|, i requires 0 <= i < |made| => Execution(origin, tool, capability, args, made[i], now))
  }

  /** `AgentProposal.is_expired`. */
  predicate IsExpired(p: Proposal, now: int) {
    p.expiresAt.Some? && now >= p.expiresAt.value
  }

  /** Strict, role-level admin. */
  predicate IsAdminRole(reviewer: Option<User>) {
    reviewer.Some? && (reviewer.value.isSuperuser || reviewer.value.role == "admin")
  }

  /** `config.trust_utils.is_admin_user`: any staff member or admin. */
  predicate IsAdminUser(reviewer: Option<User>) {
    reviewer.Some? && reviewer.value.authenticated && (reviewer.value.isStaff || reviewer.value.role == "admin")
  }

  predicate MeetsCeiling(a: Session.Approval, reviewer: Option<User>) {
    match a
    case AdminOnly => IsAdminRole(reviewer)
    case AnyStaff => IsAdminUser(reviewer)
  }

  function CheckReviewer(p: Proposal, reviewer: Option<User>): Option<Error> {
    if MeetsCeiling(p.approval, reviewer) then None
    else Some(if p.approval.AdminOnly? then AdminApprovalRequired else StaffReviewerRequired)
  }

  function NewProposal(tool: string, stored: Value, approval: Approval, owner: Option<nat>, now: int,
      ttl: int): Proposal {
    Proposal(tool, stored, approval, owner, PendingReview, Some(now + ttl), None, None, None)
  }

  /** A row the session creates, under the ceiling of the tool's capability ... */
  function Created(s: Store, tool: Tool, stored: Value, owner: Option<nat>, now: int, ttl: int): Store {
    s.(proposals := s.proposals + [NewProposal(tool.name, stored, ApprovalFor(tool.capability), owner, now, ttl)])
  }

  const AUTOPILOT_PREFIX := "listing.autopilot.apply"

  /** ... and one the listing autopilot creates, which any staff member may approve. */
  function Emitted(s: Store, slug: string, arguments: Value, owner: Option<nat>, now: int, ttl: int): Store {
    s.(proposals := s.proposals + [NewProposal(AUTOPILOT_PREFIX + "." + slug, arguments, AnyStaff, owner, now, ttl)])
  }

  function Approve(s: Store, pid: nat, reviewer: Option<User>, now: int): Outcome {
    if pid >= |s.proposals| then Refused(NoSuchProposal)
    else
      var p := s.proposals[pid];
      if p.status == Applied then Refused(AlreadyApplied)
      else if p.status == PendingReview && IsExpired(p, now) then Refused(PastDeadline)
      else if p.status != PendingReview then Refused(WrongStatus(p.status))
      else match CheckReviewer(p, reviewer)
        case Some(e) => Refused(e)
        case None =>
          Done(Store(
            s.proposals[pid := p.(status := Approved, reviewedAt := Some(now), reviewedBy := reviewer)],
            s.log + [Approval(pid, reviewer, now)]))
  }

  function Reject(s: Store, pid: nat, reviewer: Option<User>, now: int): Outcome {
    if pid >= |s.proposals| then Refused(NoSuchProposal)
    else
      var p := s.proposals[pid];
      if p.status == Applied then Refused(AlreadyApplied)
      else if p.status != PendingReview then Refused(WrongStatus(p.status))
      else match CheckReviewer(p, reviewer)
        case Some(e) => Refused(e)
        case None =>
          Done(s.(proposals := s.proposals[pid :=
            p.(status := Rejected, reviewedAt := Some(now), reviewedBy := reviewer)]))
  }

  function Succeeded(v: Value): bool {
    v.Obj? && Truthy(Get(v.fields, "ok"))
  }

  /** The arguments a proposal's tool is called with. */
  function CallArguments(p: Proposal): Value {
    if Truthy(p.arguments) then p.arguments else Obj([])
  }

  /** The rows of an application commit: the executor's result can be stored, and the database takes the writes. */
  predicate Commits(attempts: (Attempt, Attempt), taken: bool) {
    var e := Execute(attempts.0, attempts.1);
    e.Envelope? && Encodable(e.value) && taken
  }

  /** `apply_proposal`; `taken` says whether the database takes the writes that follow the executor. */
  function Apply(s: Store, tools: Registry, pid: nat, attempts: (Attempt, Attempt), taken: bool, now: int): Outcome {
    if pid >= |s.proposals| then Refused(NoSuchProposal)
    else
      var p := s.proposals[pid];
      if p.status == Applied then Done(s)
      else if p.status != Approved then Refused(WrongStatus(p.status))
      else if IsExpired(p, now) then Refused(PastDeadline)
      else if p.tool !in tools then Refused(ToolNotRegistered)
      else
        var tool := tools[p.tool];
        var args := CallArguments(p);
        if !tool.accepts(args) then Refused(ArgumentsInvalid)
        else
          var log := s.log + Calls(FromProposal(pid), p.tool, tool.capability, args, attempts, now);
          if !Commits(attempts, taken) then RolledBack(log)
          else
            var ok := Succeeded(Execute(attempts.0, attempts.1).value);
            Done(Store(
              s.proposals[pid := p.(status := if ok then Applied else ApplyFailed, appliedAt := Some(now))],
              log + [Application(pid, ok, now)]))
  }

  // ---------------------------------------------------------------- owner consent

  datatype ConsentKind = BookmarkConsent | NegotiationConsent | AutopilotConsent

  const NEGOTIATION_TOOLS: set<string> := {
    "negotiation.context", "negotiation.history", "negotiation.set_boundary", "negotiation.create_offer",
    "negotiation.counter_offer", "message.send", "negotiation.accept", "negotiation.finalize"
  }

  /** The tools each consent path is for. */
  predicate Supports(kind: ConsentKind, tool: string) {
    match kind
    case BookmarkConsent => tool == "bookmark.create"
    case NegotiationConsent => tool in NEGOTIATION_TOOLS
    case AutopilotConsent => AUTOPILOT_PREFIX <= tool
  }

  predicate Consentable(tool: string) {
    Supports(BookmarkConsent, tool) || Supports(NegotiationConsent, tool) || Supports(AutopilotConsent, tool)
  }

  /**
   * The checks before a consent or an owner's rejection of a pending proposal. `admitted` is the
   * answer of the tables behind the kind: the owner takes part in the negotiation, owns the room.
   */
  function CheckOwner(p: Proposal, user: User, kind: ConsentKind, admitted: bool, now: int): Option<Error> {
    if p.status != PendingReview then Some(WrongStatus(p.status))
    else if p.owner != Some(user.id) then Some(NotOwner)
    else if !Supports(kind, p.tool) then Some(UnsupportedTool)
    else if kind.AutopilotConsent? && !admitted then Some(NotAdmitted)
    else if IsExpired(p, now) then Some(PastDeadline)
    else if kind.NegotiationConsent? && !admitted then Some(NotAdmitted)
    else None
  }

  /** Other pending bookmark proposals of the owner for the same room, which a bookmark consent expires. */
  predicate IsSibling(sameRoom: (Value, Value) -> bool, p: Proposal, q: Proposal) {
    && q.tool == p.tool && q.owner == p.owner && q.status == PendingReview
    && sameRoom(CallArguments(q), CallArguments(p))
  }

  function ConsentedRows(sameRoom: (Value, Value) -> bool, ps: seq<Proposal>, pid: nat, user: User, kind: ConsentKind,
      now: int)
    : (rows: seq<Proposal>)
    requires pid < |ps|
    ensures |rows| == |ps|
  {
    seq(|ps|, i requires 0 <= i < |ps| =>
      if i == pid then ps[i].(status := Approved, reviewedAt := Some(now), reviewedBy := Some(user))
      else if kind.BookmarkConsent? && IsSibling(sameRoom, ps[pid], ps[i]) then ps[i].(status := Expired)
      else ps[i])
  }

  /** Consent and application in one transaction: without a committed application no row changes. */
  function ConsentAndApply(sameRoom: (Value, Value) -> bool, s: Store, tools: Registry, pid: nat, user: User,
      kind: ConsentKind, admitted: bool, attempts: (Attempt, Attempt), taken: bool, now: int): Outcome
  {
    if pid >= |s.proposals| then Refused(NoSuchProposal)
    else if s.proposals[pid].status == Applied then Done(s)
    else match CheckOwner(s.proposals[pid], user, kind, admitted, now)
      case Some(e) => Refused(e)
      case None =>
        var given := Store(ConsentedRows(sameRoom, s.proposals, pid, user, kind, now),
          s.log + [Consent(pid, user, now)]);
        Apply(given, tools, pid, attempts, taken, now)
  }

  function OwnerRejects(s: Store, pid: nat, user: User, kind: ConsentKind, admitted: bool, now: int): Outcome {
    if pid >= |s.proposals| then Refused(NoSuchProposal)
    else if s.proposals[pid].status == Applied then Refused(AlreadyApplied)
    else match CheckOwner(s.proposals[pid], user, kind, kind.AutopilotConsent? ==> admitted, now)
      case Some(e) => Refused(e)
      case None =>
        var row := s.proposals[pid].(status := Rejected, reviewedAt := Some(now), reviewedBy := Some(user));
        Done(s.(proposals := s.proposals[pid := row]))
  }

  /** Open and past the deadline: what the expiry task picks up. */
  predicate Due(p: Proposal, now: int) {
    p.status in {PendingReview, Approved} && IsExpired(p, now)
  }

  function Swept(p: Proposal, now: int): Proposal {
    if Due(p, now) then p.(status := Expired) else p
  }

  function SweptAll(ps: seq<Proposal>, now: int): seq<Proposal> {
    seq(|ps|, i requires 0 <= i < |ps| => Swept(ps[i], now))
  }

  function DueCount(ps: seq<Proposal>, now: int): nat {
    if ps == [] then 0 else DueCount(ps[..|ps| - 1], now) + if Due(ps[|ps| - 1], now) then 1 else 0
  }

  // ---------------------------------------------------------------- the service over its table

  class ProposalService {
    var proposals: seq<Proposal>
    var log: seq<Record>

    constructor ()
      ensures State() == Store([], [])
    {
      proposals, log := [], [];
    }

    function State(): Store
      reads this
    {
      Store(proposals, log)
    }

    method CreateProposal(repr: Value -> string, tool: Tool, args: Value, owner: Option<nat>, now: int, ttl: int)
      returns (pid: nat)
      requires args.Obj?
      modifies this
      ensures State() == Created(old(State()), tool, SanitizeDict(repr, args), owner, now, ttl)
      ensures pid == |old(proposals)| && proposals[pid].status == PendingReview
    {
      pid := |proposals|;
      var approval := ApprovalFor(tool.capability);
      proposals := proposals + [NewProposal(tool.name, SanitizeDict(repr, args), approval, owner, now, ttl)];
    }

    method ApproveProposal(pid: nat, reviewer: Option<User>, now: int) returns (error: Option<Error>)
      modifies this
      ensures var o := Approve(old(State()), pid, reviewer, now);
        State() == After(old(State()), o) && error == ErrorOf(o)
    {
      if pid >= |proposals| { return Some(NoSuchProposal); }
      var locked := proposals[pid];
      if locked.status == Applied { return Some(AlreadyApplied); }
      if locked.status == PendingReview && IsExpired(locked, now) { return Some(PastDeadline); }
      if locked.status != PendingReview { return Some(WrongStatus(locked.status)); }
      error := CheckReviewer(locked, reviewer);
      if error.Some? { return; }
      proposals := proposals[pid := locked.(status := Approved, reviewedAt := Some(now), reviewedBy := reviewer)];
      log := log + [Approval(pid, reviewer, now)];
    }

    method RejectProposal(pid: nat, reviewer: Option<User>, now: int) returns (error: Option<Error>)
      modifies this
      ensures var o := Reject(old(State()), pid, reviewer, now);
        State() == After(old(State()), o) && error == ErrorOf(o)
    {
      if pid >= |proposals| { return Some(NoSuchProposal); }
      var locked := proposals[pid];
      if locked.status == Applied { return Some(AlreadyApplied); }
      if locked.status != PendingReview { return Some(WrongStatus(locked.status)); }
      error := CheckReviewer(locked, reviewer);
      if error.Some? { return; }
      proposals := proposals[pid := locked.(status := Rejected, reviewedAt := Some(now), reviewedBy := reviewer)];
    }

    method ApplyProposal(tools: Registry, pid: nat, attempts: (Attempt, Attempt), taken: bool, now: int)
      returns (error: Option<Error>)
      modifies this
      ensures var o := Apply(old(State()), tools, pid, attempts, taken, now);
        State() == After(old(State()), o) && error == ErrorOf(o)
    {
      if pid >= |proposals| { return Some(NoSuchProposal); }
      var locked := proposals[pid];
      if locked.status == Applied { return None; }
      if locked.status != Approved { return Some(WrongStatus(locked.status)); }
      if IsExpired(locked, now) { return Some(PastDeadline); }
      if locked.tool !in tools { return Some(ToolNotRegistered); }
      var tool := tools[locked.tool];
      var args := CallArguments(locked);
      if !tool.accepts(args) { return Some(ArgumentsInvalid); }
      log := log + Calls(FromProposal(pid), locked.tool, tool.capability, args, attempts, now);
      if !Commits(attempts, taken) { return Some(StepUndone); }
      var ok := Succeeded(Execute(attempts.0, attempts.1).value);
      proposals := proposals[pid := locked.(status := if ok then Applied else ApplyFailed, appliedAt := Some(now))];
      log := log + [Application(pid, ok, now)];
      error := None;
    }

    /** `self_consent_approve`, `self_consent_and_apply`, `autopilot_approve_and_apply`. */
    method SelfConsent(sameRoom: (Value, Value) -> bool, tools: Registry, pid: nat, user: User, kind: ConsentKind,
                       admitted: bool, attempts: (Attempt, Attempt), taken: bool, now: int)
      returns (error: Option<Error>)
      modifies this
      ensures var o := ConsentAndApply(sameRoom, old(State()), tools, pid, user, kind, admitted, attempts, taken, now);
        State() == After(old(State()), o) && error == ErrorOf(o)
    {
      hide Calls, Commits, Supports, Execute;
      if pid >= |proposals| { return Some(NoSuchProposal); }
      var locked := proposals[pid];
      if locked.status == Applied { return None; }
      error := CheckOwner(locked, user, kind, admitted, now);
      if error.Some? { return; }
      var savedRows, savedLog := proposals, log;
      proposals := proposals[pid := locked.(status := Approved, reviewedAt := Some(now), reviewedBy := Some(user))];
      log := log + [Consent(pid, user, now)];
      if kind.BookmarkConsent? {
        ExpireSiblings(sameRoom, pid, locked);
      }
      assert proposals == ConsentedRows(sameRoom, savedRows, pid, user, kind, now);
      error := ApplyProposal(tools, pid, attempts, taken, now);
      if error.Some? {
        proposals := savedRows;
        if error.value != StepUndone {
          log := savedLog;
        }
      }
    }

    method ExpireSiblings(sameRoom: (Value, Value) -> bool, pid: nat, p: Proposal)
      requires pid < |proposals|
      modifies this`proposals
      ensures |proposals| == |old(proposals)|
      ensures forall i :: 0 <= i < |proposals| ==>
        proposals[i] == if i != pid && IsSibling(sameRoom, p, old(proposals)[i])
                        then old(proposals)[i].(status := Expired) else old(proposals)[i]
    {
      var i := 0;
      while i < |proposals|
        invariant i <= |proposals| == |old(proposals)|
        invariant forall j :: 0 <= j < |proposals| ==>
          proposals[j] == if j < i && j != pid && IsSibling(sameRoom, p, old(proposals)[j])
                          then old(proposals)[j].(status := Expired) else old(proposals)[j]
      {
        if i != pid && IsSibling(sameRoom, p, proposals[i]) {
          proposals := proposals[i := proposals[i].(status := Expired)];
        }
        i := i + 1;
      }
    }

    /** `self_reject`, `autopilot_reject`. */
    method SelfReject(pid: nat, user: User, kind: ConsentKind, admitted: bool, now: int) returns (error: Option<Error>)
      modifies this
      ensures var o := OwnerRejects(old(State()), pid, user, kind, admitted, now);
        State() == After(old(State()), o) && error == ErrorOf(o)
    {
      if pid >= |proposals| { return Some(NoSuchProposal); }
      var locked := proposals[pid];
      if locked.status == Applied { return Some(AlreadyApplied); }
      error := CheckOwner(locked, user, kind, kind.AutopilotConsent? ==> admitted, now);
      if error.Some? { return; }
      proposals := proposals[pid := locked.(status := Rejected, reviewedAt := Some(now), reviewedBy := Some(user))];
    }

    /** `expire_proposals`: sweep the table once, counting; a dry run only counts. */
    method ExpireProposals(now: int, dryRun: bool) returns (count: nat)
      modifies this`proposals
      ensures count == DueCount(old(proposals), now)
      ensures proposals == if dryRun then old(proposals) else SweptAll(old(proposals), now)
    {
      ghost var before := proposals;
      count := 0;
      var i := 0;
      while i < |proposals|
        invariant i <= |proposals| == |before|
        invariant count == DueCount(before[..i], now)
        invariant forall j :: 0 <= j < |before| ==>
          proposals[j] == if j < i && !dryRun then Swept(before[j], now) else before[j]
      {
        assert before[..i + 1][..i] == before[..i];
        if Due(proposals[i], now) {
          if !dryRun {
            proposals := proposals[i := proposals[i].(status := Expired)];
          }
          count := count + 1;
        }
        i := i + 1;
      }
      assert before[..i] == before;
      assert proposals == if dryRun then before else SweptAll(before, now);
    }
  }
}
