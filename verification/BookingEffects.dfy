/**
 * Notifications, payment schedule and commission over the whole life of a booking
 * (backend/bookings/signals.py, backend/brokers/signals.py).
 */
module BookingEffects {
  import opened Common
  import opened Bookings
  import opened BookingSafety

  /** The effects of one booking, in order. */
  function About(effects: seq<Effect>, id: nat): seq<Effect> {
    if effects == [] then []
    else About(effects[..|effects| - 1], id) + if effects[|effects| - 1].booking == id then [effects[|effects| - 1]]
      else []
  }

  lemma {:induction false} AboutConcat(a: seq<Effect>, b: seq<Effect>, id: nat)
    ensures About(a + b, id) == About(a, id) + About(b, id)
  {
    if b == [] {
      assert a + b == a;
    } else {
      var n := |b| - 1;
      assert (a + b)[..|a| + n] == a + b[..n];
      AboutConcat(a, b[..n], id);
    }
  }

  lemma {:induction false} AboutOwn(effects: seq<Effect>, id: nat, q: nat)
    requires forall i :: 0 <= i < |effects| ==> effects[i].booking == id
    ensures About(effects, q) == if q == id then effects else []
  {
    if effects != [] {
      AboutOwn(effects[..|effects| - 1], id, q);
    }
  }

  /** What an approved booking has set off so far. */
  function ApprovedStory(b: Booking, id: nat, owner: nat, paid: bool): seq<Effect> {
    [Notify(id, owner, RequestedNotice), Confirmed(id), Notify(id, b.tenant, ApprovedNotice), Schedule(id)]
    + if paid then [Commission(id)] else []
  }

  /** The only effect histories a booking in each status can have. */
  predicate Story(b: Booking, id: nat, owner: nat, history: seq<Effect>) {
    match b.status
    case Pending => history == [Notify(id, owner, RequestedNotice)]
    case Approved =>
      history == ApprovedStory(b, id, owner, false)
      || (b.broker.Some? && history == ApprovedStory(b, id, owner, true))
    case Rejected => history == [Notify(id, owner, RequestedNotice), Notify(id, b.tenant, RejectedNotice)]
    case Cancelled =>
      history == [Notify(id, owner, RequestedNotice), Notify(id, owner, CancelledNotice)]
      || history == ApprovedStory(b, id, owner, false) + [Notify(id, owner, CancelledNotice)]
      || (b.broker.Some? && history == ApprovedStory(b, id, owner, true) + [Notify(id, owner, CancelledNotice)])
  }

  ghost predicate Stories(db: Db) {
    && (forall id: nat :: id < |db.bookings| ==>
         Story(db.bookings[id], id, OwnerOf(db, db.bookings[id].room), About(db.effects, id)))
    && (forall id: nat :: id >= |db.bookings| ==> About(db.effects, id) == [])
  }

  lemma OwnEffectsAppended(effects: seq<Effect>, previous: Option<Status>, id: nat, b: Booking, owner: nat,
      verified: bool, q: nat)
    ensures About(effects + SaveEffects(previous, id, b, owner, verified), q)
         == if q == id then About(effects, q) + SaveEffects(previous, id, b, owner, verified) else About(effects, q)
  {
    hide SaveEffects;
    hide About;
    var more := SaveEffects(previous, id, b, owner, verified);
    AboutConcat(effects, more, q);
    EffectsAreOwn(previous, id, b, owner, verified);
    AboutOwn(more, id, q);
    assert About(effects, q) + [] == About(effects, q);
  }

  lemma EffectsAreOwn(previous: Option<Status>, id: nat, b: Booking, owner: nat, verified: bool)
    ensures var more := SaveEffects(previous, id, b, owner, verified);
      forall i :: 0 <= i < |more| ==> more[i].booking == id
  {
  }

  lemma StoriesAfterInsert(db: Db, b: Booking)
    requires Stories(db) && b.status == Pending
    ensures Stories(Inserted(db, b))
  {
    hide Story;
    hide SaveEffects;
    hide About;
    var n := |db.bookings|;
    var db' := Inserted(db, b);
    var owner := OwnerOf(db, b.room);
    forall q: nat
      ensures q < n ==> Story(db'.bookings[q], q, OwnerOf(db', db'.bookings[q].room), About(db'.effects, q))
      ensures q == n ==> Story(db'.bookings[q], q, OwnerOf(db', db'.bookings[q].room), About(db'.effects, q))
      ensures q > n ==> About(db'.effects, q) == []
    {
      OwnEffectsAppended(db.effects, None, n, b, owner, false, q);
      if q == n {
        assert About(db.effects, q) == [];
        PendingStory(b, n, owner);
        assert [] + SaveEffects(None, n, b, owner, false) == SaveEffects(None, n, b, owner, false);
      }
    }
  }

  lemma PendingStory(b: Booking, id: nat, owner: nat)
    requires b.status == Pending
    ensures Story(b, id, owner, SaveEffects(None, id, b, owner, false))
  {
  }

  lemma {:induction false} StoriesAfterBulk(db: Db, rows: seq<Booking>)
    requires Stories(db) && forall i :: 0 <= i < |rows| ==> rows[i].status == Pending
    ensures Stories(InsertedAll(db, rows))
  {
    hide Stories;
    if rows != [] {
      StoriesAfterBulk(db, rows[..|rows| - 1]);
      StoriesAfterInsert(InsertedAll(db, rows[..|rows| - 1]), rows[|rows| - 1]);
    }
  }

  lemma StoryGoesOn(b: Booking, row: Booking, id: nat, owner: nat, history: seq<Effect>, brokerVerified: bool)
    requires Story(b, id, owner, history)
    requires row.tenant == b.tenant && row.broker == b.broker
    requires row.status == b.status || MayTurn(b.status, row.status)
    ensures Story(row, id, owner, history + SaveEffects(Some(b.status), id, row, owner, brokerVerified))
  {
  }

  lemma StoriesAfterSave(db: Db, id: nat, row: Booking, brokerVerified: bool)
    requires Stories(db) && id < |db.bookings|
    requires var b := db.bookings[id];
      row.room == b.room && row.tenant == b.tenant && row.broker == b.broker
      && (row.status == b.status || MayTurn(b.status, row.status))
    ensures Stories(Saved(db, id, row, brokerVerified))
  {
    hide Story;
    hide SaveEffects;
    hide About;
    hide MayTurn;
    var b := db.bookings[id];
    var owner := OwnerOf(db, b.room);
    var db' := Saved(db, id, row, brokerVerified);
    StoryGoesOn(b, row, id, owner, About(db.effects, id), brokerVerified);
    forall q: nat
      ensures q < |db.bookings| ==> Story(db'.bookings[q], q, OwnerOf(db', db'.bookings[q].room), About(db'.effects, q))
      ensures q >= |db.bookings| ==> About(db'.effects, q) == []
    {
      OwnEffectsAppended(db.effects, Some(b.status), id, row, owner, brokerVerified, q);
    }
  }

  lemma StoriesAfterStep(w: World, s: Step)
    requires Stories(w.db) && HoldingsAgree(w) && Guarded(w, s)
    ensures Stories(StepWorld(w, s).db)
  {
    hide Stories;
    hide BulkIsSafe;
    hide OverlapExists;
    match s
    case InsertStep(c) =>
      if c in w.clients && w.clients[c].Checked? {
        StoriesAfterInsert(w.db, NewBooking(w.clients[c].request));
      }
    case SaveStep(c, brokerVerified) =>
      if c in w.clients && w.clients[c].Loaded? {
        StoriesAfterSave(w.db, w.clients[c].id, w.clients[c].row, brokerVerified);
      }
    case BulkStep(_, _, _, _) => StoriesAfterBulk(w.db, BulkRows(s));
    case RoomStep(room, available) => StoriesIgnoreAvailability(w.db, StepWorld(w, s).db);
    case _ =>
  }

  lemma StoriesIgnoreAvailability(db: Db, db': Db)
    requires Stories(db) && db'.bookings == db.bookings && db'.effects == db.effects
    requires forall room: nat :: OwnerOf(db', room) == OwnerOf(db, room)
    ensures Stories(db')
  {
  }

  /** Every booking's notifications, schedule and commission follow its story, whatever the interleaving. */
  lemma {:induction false} EffectsFollowStories(w: World, steps: seq<Step>)
    requires Stories(w.db) && HoldingsAgree(w) && GuardedRun(w, steps)
    ensures Stories(RunWorld(w, steps).db)
    decreases |steps|
  {
    hide Stories;
    hide HoldingsAgree;
    hide StepWorld;
    hide Guarded;
    if steps != [] {
      StoriesAfterStep(w, steps[0]);
      HoldingsAgreeAfterStep(w, steps[0]);
      EffectsFollowStories(StepWorld(w, steps[0]), steps[1..]);
    }
  }

  // ---------------------------------------------------------------- counting

  function Notices(history: seq<Effect>): nat {
    if history == [] then 0
    else Notices(history[..|history| - 1]) + if history[|history| - 1].Notify? then 1 else 0
  }

  function Times(history: seq<Effect>, e: Effect): nat {
    if history == [] then 0
    else Times(history[..|history| - 1], e) + if history[|history| - 1] == e then 1 else 0
  }

  lemma NoticesAppend(h: seq<Effect>, e: Effect)
    ensures Notices(h + [e]) == Notices(h) + if e.Notify? then 1 else 0
  {
    assert (h + [e])[..|h|] == h;
  }

  lemma {:induction false} TimesOfDistinct(h: seq<Effect>, x: Effect)
    requires forall i, j :: 0 <= i < j < |h| ==> h[i] != h[j]
    ensures Times(h, x) <= 1 && (x !in h ==> Times(h, x) == 0)
  {
    if h != [] {
      TimesOfDistinct(h[..|h| - 1], x);
    }
  }

  /** So a booking has at most one schedule and one commission, never without approval, and at most three notices. */
  lemma ExactlyOnce(b: Booking, id: nat, owner: nat, history: seq<Effect>)
    requires Story(b, id, owner, history)
    ensures Times(history, Schedule(id)) <= 1 && Times(history, Commission(id)) <= 1
      && Times(history, Confirmed(id)) <= 1
    ensures b.status in {Pending, Rejected} ==> Schedule(id) !in history && Commission(id) !in history
    ensures b.broker.None? ==> Commission(id) !in history
    ensures Notices(history) == match b.status
      case Pending => 1
      case Cancelled => if Schedule(id) in history then 3 else 2
      case _ => 2
  {
    hide Times;
    hide Notices;
    TimesOfDistinct(history, Schedule(id));
    TimesOfDistinct(history, Commission(id));
    TimesOfDistinct(history, Confirmed(id));
    StoryNotices(b, id, owner, history);
  }

  lemma StoryNotices(b: Booking, id: nat, owner: nat, history: seq<Effect>)
    requires Story(b, id, owner, history)
    ensures Notices(history) == match b.status
      case Pending => 1
      case Cancelled => if Schedule(id) in history then 3 else 2
      case _ => 2
  {
    hide Notices;
    var asked, cancelled := Notify(id, owner, RequestedNotice), Notify(id, owner, CancelledNotice);
    OneNotice(asked);
    OneNotice(cancelled);
    OneNotice(Notify(id, b.tenant, RejectedNotice));
    NoticesAppend([asked], cancelled);
    NoticesAppend([asked], Notify(id, b.tenant, RejectedNotice));
    ApprovedNotices(b, id, owner, false);
    ApprovedNotices(b, id, owner, true);
    NoticesAppend(ApprovedStory(b, id, owner, false), cancelled);
    NoticesAppend(ApprovedStory(b, id, owner, true), cancelled);
    assert [asked] + [cancelled] == [asked, cancelled];
    assert [asked] + [Notify(id, b.tenant, RejectedNotice)] == [asked, Notify(id, b.tenant, RejectedNotice)];
    if b.status == Cancelled {
      if history == [asked, cancelled] {
        assert Schedule(id) !in history;
      } else {
        assert history[3] == Schedule(id);
      }
    }
  }

  lemma OneNotice(e: Effect)
    ensures Notices([e]) == if e.Notify? then 1 else 0
  {
    NoticesAppend([], e);
    assert [] + [e] == [e];
  }

  lemma ApprovedNotices(b: Booking, id: nat, owner: nat, paid: bool)
    ensures Notices(ApprovedStory(b, id, owner, paid)) == 2
  {
    hide Notices;
    var a, c, n, p := Notify(id, owner, RequestedNotice), Confirmed(id), Notify(id, b.tenant, ApprovedNotice),
      Schedule(id);
    OneNotice(a);
    NoticesAppend([a], c);
    NoticesAppend([a, c], n);
    NoticesAppend([a, c, n], p);
    NoticesAppend([a, c, n, p], Commission(id));
    assert [a] + [c] == [a, c] && [a, c] + [n] == [a, c, n] && [a, c, n] + [p] == [a, c, n, p];
    if paid {
      assert ApprovedStory(b, id, owner, paid) == [a, c, n, p] + [Commission(id)];
    } else {
      assert ApprovedStory(b, id, owner, paid) == [a, c, n, p];
    }
  }

  // ---------------------------------------------------------------- statuses along a run

  predicate Stored(w: World, id: nat) {
    id < |w.db.bookings|
  }

  function StatusChanges(w: World, steps: seq<Step>, id: nat): nat
    decreases |steps|
  {
    if steps == [] then 0
    else
      var next := StepWorld(w, steps[0]);
      StatusChanges(next, steps[1..], id)
      + if Stored(w, id) && Stored(next, id) && next.db.bookings[id].status != w.db.bookings[id].status then 1 else 0
  }

  /** A step that takes a stored booking to APPROVED. */
  predicate Approves(w: World, s: Step, id: nat) {
    var next := StepWorld(w, s);
    Stored(w, id) && Stored(next, id) && next.db.bookings[id].status == Approved && w.db.bookings[id].status != Approved
  }

  function TimesApproved(w: World, steps: seq<Step>, id: nat): nat
    decreases |steps|
  {
    if steps == [] then 0
    else
      TimesApproved(StepWorld(w, steps[0]), steps[1..], id) + if Approves(w, steps[0], id) then 1 else 0
  }

  lemma OneStepStatus(w: World, s: Step, id: nat)
    requires HoldingsAgree(w) && Guarded(w, s) && Stored(w, id)
    ensures var next := StepWorld(w, s);
      && Stored(next, id)
      && (next.db.bookings[id].status == w.db.bookings[id].status
          || MayTurn(w.db.bookings[id].status, next.db.bookings[id].status))
      && Notices(About(next.db.effects, id)) == Notices(About(w.db.effects, id))
           + if next.db.bookings[id].status != w.db.bookings[id].status then 1 else 0
  {
    hide BulkIsSafe;
    hide OverlapExists;
    match s
    case InsertStep(c) =>
      if c in w.clients && w.clients[c].Checked? {
        InsertIsElsewhere(w.db, NewBooking(w.clients[c].request), id);
      }
    case SaveStep(c, brokerVerified) =>
      if c in w.clients && w.clients[c].Loaded? {
        SaveCounts(w.db, w.clients[c].id, w.clients[c].row, brokerVerified, id);
      }
    case BulkStep(_, _, _, _) => BulkIsElsewhere(w.db, BulkRows(s), id);
    case _ =>
  }

  lemma InsertIsElsewhere(db: Db, b: Booking, id: nat)
    requires id < |db.bookings|
    ensures Inserted(db, b).bookings[id] == db.bookings[id]
    ensures About(Inserted(db, b).effects, id) == About(db.effects, id)
  {
    var more := SaveEffects(None, |db.bookings|, b, OwnerOf(db, b.room), false);
    AboutConcat(db.effects, more, id);
    AboutOwn(more, |db.bookings|, id);
  }

  lemma {:induction false} BulkIsElsewhere(db: Db, rows: seq<Booking>, id: nat)
    requires id < |db.bookings|
    ensures |InsertedAll(db, rows).bookings| >= |db.bookings|
    ensures InsertedAll(db, rows).bookings[id] == db.bookings[id]
    ensures About(InsertedAll(db, rows).effects, id) == About(db.effects, id)
  {
    hide About;
    if rows != [] {
      BulkIsElsewhere(db, rows[..|rows| - 1], id);
      InsertIsElsewhere(InsertedAll(db, rows[..|rows| - 1]), rows[|rows| - 1], id);
    }
  }

  lemma SaveCounts(db: Db, id: nat, row: Booking, brokerVerified: bool, q: nat)
    requires id < |db.bookings| && q < |db.bookings|
    requires row.status == db.bookings[id].status || MayTurn(db.bookings[id].status, row.status)
    ensures Notices(About(Saved(db, id, row, brokerVerified).effects, q)) == Notices(About(db.effects, q))
      + if q == id && row.status != db.bookings[id].status then 1 else 0
  {
    hide SaveEffects;
    hide About;
    var owner := OwnerOf(db, row.room);
    OwnEffectsAppended(db.effects, Some(db.bookings[id].status), id, row, owner, brokerVerified, q);
    if q == id {
      NoticesConcat(About(db.effects, q), SaveEffects(Some(db.bookings[id].status), id, row, owner, brokerVerified));
      NoticesOfSave(db.bookings[id].status, id, row, owner, brokerVerified);
    }
  }

  lemma {:induction false} NoticesConcat(h: seq<Effect>, more: seq<Effect>)
    ensures Notices(h + more) == Notices(h) + Notices(more)
  {
    if more == [] {
      assert h + more == h;
    } else {
      var n := |more| - 1;
      NoticesConcat(h, more[..n]);
      assert (h + more)[..|h| + n] == h + more[..n];
    }
  }

  lemma NoticesOfTransition(previous: Status, id: nat, row: Booking, owner: nat)
    requires row.status == previous || MayTurn(previous, row.status)
    ensures Notices(NotifyEffects(Some(previous), id, row, owner)) == if row.status != previous then 1 else 0
  {
    hide Notices;
    var effects := NotifyEffects(Some(previous), id, row, owner);
    if row.status == previous {
      NoticesOfNone();
    } else if row.status == Approved {
      OneNotice(effects[0]);
      NoticesAppend([effects[0]], effects[1]);
      NoticesAppend([effects[0], effects[1]], effects[2]);
      assert [effects[0]] + [effects[1]] == [effects[0], effects[1]];
      assert [effects[0], effects[1]] + [effects[2]] == effects;
    } else {
      OneNotice(effects[0]);
      assert effects == [effects[0]];
    }
  }

  lemma NoticesOfNone()
    ensures Notices([]) == 0
  {
  }

  lemma NoticesOfSave(previous: Status, id: nat, row: Booking, owner: nat, verified: bool)
    requires row.status == previous || MayTurn(previous, row.status)
    ensures Notices(SaveEffects(Some(previous), id, row, owner, verified)) == if row.status != previous then 1 else 0
  {
    hide Notices, NotifyEffects;
    NoticesOfTransition(previous, id, row, owner);
    NoticesConcat(NotifyEffects(Some(previous), id, row, owner), CommissionEffects(Some(previous), id, row, verified));
    OneNotice(Commission(id));
    NoticesOfNone();
  }

  /** Lifecycle notices are one plus the number of status changes. */
  lemma {:induction false} NoticesCountChanges(w: World, steps: seq<Step>, id: nat)
    requires HoldingsAgree(w) && GuardedRun(w, steps) && Stored(w, id)
    ensures Stored(RunWorld(w, steps), id)
    ensures Notices(About(RunWorld(w, steps).db.effects, id))
      == Notices(About(w.db.effects, id)) + StatusChanges(w, steps, id)
    decreases |steps|
  {
    hide HoldingsAgree;
    hide StepWorld;
    hide Guarded;
    hide About;
    hide Notices;
    if steps != [] {
      OneStepStatus(w, steps[0], id);
      HoldingsAgreeAfterStep(w, steps[0]);
      NoticesCountChanges(StepWorld(w, steps[0]), steps[1..], id);
    }
  }

  /** A booking enters APPROVED at most once, only from PENDING, and never leaves REJECTED or CANCELLED. */
  lemma {:induction false} ApprovedAtMostOnce(w: World, steps: seq<Step>, id: nat)
    requires HoldingsAgree(w) && GuardedRun(w, steps) && Stored(w, id)
    ensures Stored(RunWorld(w, steps), id)
    ensures TimesApproved(w, steps, id) <= if w.db.bookings[id].status == Pending then 1 else 0
    ensures w.db.bookings[id].status in {Rejected, Cancelled} ==>
      RunWorld(w, steps).db.bookings[id].status == w.db.bookings[id].status
    decreases |steps|
  {
    hide HoldingsAgree;
    hide StepWorld;
    hide Guarded;
    hide About;
    if steps != [] {
      OneStepStatus(w, steps[0], id);
      HoldingsAgreeAfterStep(w, steps[0]);
      ApprovedAtMostOnce(StepWorld(w, steps[0]), steps[1..], id);
    }
  }

  // ---------------------------------------------------------------- approvals of any run, guarded or not

  lemma {:induction false} TimesConcat(h: seq<Effect>, more: seq<Effect>, e: Effect)
    ensures Times(h + more, e) == Times(h, e) + Times(more, e)
  {
    if more == [] {
      assert h + more == h;
    } else {
      var n := |more| - 1;
      TimesConcat(h, more[..n], e);
      assert (h + more)[..|h| + n] == h + more[..n];
    }
  }

  lemma {:induction false} TimesOfAbsent(h: seq<Effect>, e: Effect)
    requires e !in h
    ensures Times(h, e) == 0
  {
    if h != [] {
      TimesOfAbsent(h[..|h| - 1], e);
    }
  }

  /** What an approval sets off whoever the broker is: the funnel event and the call that makes the payment schedule. */
  predicate OfApproval(e: Effect) {
    e.Confirmed? || e.Schedule?
  }

  /** A save sets these off exactly when it takes a stored booking to APPROVED from anything else. */
  lemma ApprovalsOfSave(previous: Option<Status>, id: nat, row: Booking, owner: nat, verified: bool, e: Effect)
    requires OfApproval(e)
    ensures Times(SaveEffects(previous, id, row, owner, verified), e)
         == if e.booking == id && previous.Some? && previous.value != Approved && row.status == Approved then 1 else 0
  {
    hide Times;
    var effects := SaveEffects(previous, id, row, owner, verified);
    if e.booking == id && previous.Some? && previous.value != Approved && row.status == Approved {
      var k := if e.Confirmed? then 0 else 2;
      var front, back := effects[..k], effects[k + 1..];
      assert effects == front + [e] + back;
      TimesConcat(front + [e], back, e);
      TimesConcat(front, [e], e);
      TimesOfAbsent(front, e);
      TimesOfAbsent(back, e);
      TimesOfOne(e);
    } else {
      TimesOfAbsent(effects, e);
    }
  }

  lemma TimesOfOne(e: Effect)
    ensures Times([e], e) == 1
  {
    assert [e][..0] == [];
  }

  lemma ApprovalsAfterInsert(db: Db, b: Booking, e: Effect)
    requires OfApproval(e)
    ensures Times(Inserted(db, b).effects, e) == Times(db.effects, e)
  {
    hide Times, SaveEffects;
    var more := SaveEffects(None, |db.bookings|, b, OwnerOf(db, b.room), false);
    TimesConcat(db.effects, more, e);
    ApprovalsOfSave(None, |db.bookings|, b, OwnerOf(db, b.room), false, e);
  }

  lemma {:induction false} ApprovalsAfterBulk(db: Db, rows: seq<Booking>, e: Effect)
    requires OfApproval(e)
    ensures Times(InsertedAll(db, rows).effects, e) == Times(db.effects, e)
  {
    hide Times;
    if rows != [] {
      ApprovalsAfterBulk(db, rows[..|rows| - 1], e);
      ApprovalsAfterInsert(InsertedAll(db, rows[..|rows| - 1]), rows[|rows| - 1], e);
    }
  }

  lemma {:induction false} BulkLeavesStored(db: Db, rows: seq<Booking>, id: nat)
    requires id < |db.bookings|
    ensures |InsertedAll(db, rows).bookings| >= |db.bookings|
    ensures InsertedAll(db, rows).bookings[id] == db.bookings[id]
  {
    if rows != [] {
      BulkLeavesStored(db, rows[..|rows| - 1], id);
    }
  }

  /** Only a save can approve, and only the booking whose row it writes. */
  lemma ApprovesIsASave(w: World, s: Step, id: nat)
    ensures Approves(w, s, id) <==>
      && s.SaveStep? && s.client in w.clients && w.clients[s.client].Loaded?
      && var h := w.clients[s.client];
      h.id == id && id < |w.db.bookings| && h.row.status == Approved && w.db.bookings[id].status != Approved
  {
    hide SaveEffects, OverlapExists;
    if s.BulkStep? && id < |w.db.bookings| {
      BulkLeavesStored(w.db, BulkRows(s), id);
    }
  }

  lemma OneStepApprovals(w: World, s: Step, e: Effect)
    requires OfApproval(e)
    ensures Times(StepWorld(w, s).db.effects, e)
         == Times(w.db.effects, e) + if Approves(w, s, e.booking) then 1 else 0
  {
    ApprovesIsASave(w, s, e.booking);
    hide Times, SaveEffects, OverlapExists, Approves;
    match s
    case InsertStep(c) =>
      if c in w.clients && w.clients[c].Checked? {
        ApprovalsAfterInsert(w.db, NewBooking(w.clients[c].request), e);
      }
    case SaveStep(c, verified) =>
      if c in w.clients && w.clients[c].Loaded? && w.clients[c].id < |w.db.bookings| {
        var h := w.clients[c];
        var previous, owner := Some(w.db.bookings[h.id].status), OwnerOf(w.db, h.row.room);
        TimesConcat(w.db.effects, SaveEffects(previous, h.id, h.row, owner, verified), e);
        ApprovalsOfSave(previous, h.id, h.row, owner, verified, e);
      }
    case BulkStep(_, _, _, _) => ApprovalsAfterBulk(w.db, BulkRows(s), e);
    case _ =>
  }

  /** In any run a booking is confirmed, and its schedule asked for, once per time the booking becomes approved. */
  lemma {:induction false} EffectsCountApprovals(w: World, steps: seq<Step>, e: Effect)
    requires OfApproval(e)
    ensures Times(RunWorld(w, steps).db.effects, e) == Times(w.db.effects, e) + TimesApproved(w, steps, e.booking)
    decreases |steps|
  {
    hide Times, StepWorld, Approves;
    if steps != [] {
      OneStepApprovals(w, steps[0], e);
      EffectsCountApprovals(StepWorld(w, steps[0]), steps[1..], e);
    }
  }

  /** A save of a row held as APPROVED over a booking that is no longer approved but once was. */
  predicate Reapproves(w: World, s: Step) {
    && s.SaveStep? && s.client in w.clients && w.clients[s.client].Loaded?
    && var h := w.clients[s.client];
    && h.id < |w.db.bookings|
    && h.row.status == Approved && w.db.bookings[h.id].status != Approved
    && (Confirmed(h.id) in w.db.effects || Schedule(h.id) in w.db.effects)
  }

  predicate NoStepReapproves(w: World, steps: seq<Step>)
    decreases |steps|
  {
    steps == [] || (!Reapproves(w, steps[0]) && NoStepReapproves(StepWorld(w, steps[0]), steps[1..]))
  }

  ghost predicate ConfirmedAtMostOnce(effects: seq<Effect>) {
    forall e: Effect :: OfApproval(e) ==> Times(effects, e) <= 1
  }

  lemma {:induction false} TimesOfPresent(h: seq<Effect>, e: Effect)
    requires e in h
    ensures Times(h, e) >= 1
  {
    if h[|h| - 1] != e {
      TimesOfPresent(h[..|h| - 1], e);
    }
  }

  lemma OneStepReapproves(w: World, s: Step)
    requires ConfirmedAtMostOnce(w.db.effects)
    ensures ConfirmedAtMostOnce(StepWorld(w, s).db.effects) <==> !Reapproves(w, s)
  {
    hide Times, StepWorld, Approves;
    if Reapproves(w, s) {
      var id := w.clients[s.client].id;
      var e := if Confirmed(id) in w.db.effects then Confirmed(id) else Schedule(id);
      ApprovesIsASave(w, s, id);
      OneStepApprovals(w, s, e);
      TimesOfPresent(w.db.effects, e);
    } else {
      forall e: Effect | OfApproval(e) ensures Times(StepWorld(w, s).db.effects, e) <= 1 {
        ApprovesIsASave(w, s, e.booking);
        OneStepApprovals(w, s, e);
        if e !in w.db.effects {
          TimesOfAbsent(w.db.effects, e);
        }
      }
    }
  }

  /**
   * However clients interleave, a run confirms each booking, and asks for its schedule, at most once if
   * and only if no save in it approves a booking again.
   */
  lemma {:induction false} ConfirmedOnceIff(w: World, steps: seq<Step>)
    requires ConfirmedAtMostOnce(w.db.effects)
    ensures ConfirmedAtMostOnce(RunWorld(w, steps).db.effects) <==> NoStepReapproves(w, steps)
    decreases |steps|
  {
    hide Times, StepWorld, Reapproves;
    if steps != [] {
      OneStepReapproves(w, steps[0]);
      if Reapproves(w, steps[0]) {
        var e: Effect :| OfApproval(e) && Times(StepWorld(w, steps[0]).db.effects, e) > 1;
        EffectsCountApprovals(StepWorld(w, steps[0]), steps[1..], e);
      } else {
        ConfirmedOnceIff(StepWorld(w, steps[0]), steps[1..]);
      }
    }
  }

  /**
   * The owner loads a tenant's pending booking twice to approve it, from two tabs; the first save lands;
   * the tenant cancels; the second save lands.
   */
  function TwoApprovals(): seq<Step> {
    [PreCheckStep(1, Request(7, 1, 10, Some(20), None, 0.0)), InsertStep(1),
     LoadStep(0, 0, 0, Change(Some(Approved), None), false), LoadStep(2, 0, 0, Change(Some(Approved), None), false)]
    + [SaveStep(0, false), LoadStep(1, 0, 1, Change(Some(Cancelled), None), false), SaveStep(1, false),
       SaveStep(2, false)]
  }

  /** The pending booking, and the two tabs about to approve it. */
  predicate TwoTabsOpen(w: World) {
    var b := NewBooking(Request(7, 1, 10, Some(20), None, 0.0));
    var held := Loaded(0, 0, Pending, b.(status := Approved));
    w.db.rooms == map[7 := Room(0, true)] && w.db.bookings == [b] && w.clients == map[0 := held, 2 := held]
  }

  lemma FirstApproval(w: World, s: Step, steps: seq<Step>, id: nat)
    ensures TimesApproved(w, [s] + steps, id)
         == TimesApproved(StepWorld(w, s), steps, id) + if Approves(w, s, id) then 1 else 0
  {
    hide StepWorld, Approves;
    assert ([s] + steps)[1..] == steps;
  }

  /** The first four steps leave one pending booking and two clients about to approve it. */
  lemma TwoTabs(w0: World) returns (w: World)
    requires w0 == World(Db(map[7 := Room(0, true)], [], []), map[])
    ensures var s := TwoApprovals();
      w == StepWorld(StepWorld(StepWorld(StepWorld(w0, s[0]), s[1]), s[2]), s[3])
    ensures TwoTabsOpen(w)
  {
    hide SaveEffects;
    var s := TwoApprovals();
    var b := NewBooking(Request(7, 1, 10, Some(20), None, 0.0));
    var w1 := StepWorld(w0, s[0]);
    var w2 := StepWorld(w1, s[1]);
    assert w2.db.bookings == [b] && w2.clients == map[] && w2.db.rooms == w0.db.rooms;
    var w3 := OpenTab(w2, 0);
    assert w3.clients == map[0 := Loaded(0, 0, Pending, b.(status := Approved))];
    w := OpenTab(w3, 2);
  }

  /** The owner opens the pending booking to approve it. */
  lemma OpenTab(w: World, c: nat) returns (next: World)
    requires w.db.rooms == map[7 := Room(0, true)]
    requires w.db.bookings == [NewBooking(Request(7, 1, 10, Some(20), None, 0.0))]
    ensures next == StepWorld(w, LoadStep(c, 0, 0, Change(Some(Approved), None), false))
    ensures next.db == w.db
    ensures next.clients == w.clients[c := Loaded(0, 0, Pending, w.db.bookings[0].(status := Approved))]
  {
    next := StepWorld(w, LoadStep(c, 0, 0, Change(Some(Approved), None), false));
  }

  /** ... which approves nothing yet. */
  lemma NoApprovalYet(w0: World, w: World)
    requires var s := TwoApprovals();
      w == StepWorld(StepWorld(StepWorld(StepWorld(w0, s[0]), s[1]), s[2]), s[3])
    ensures TimesApproved(w0, TwoApprovals(), 0) == TimesApproved(w, TwoApprovals()[4..], 0)
  {
    hide TimesApproved, StepWorld, Approves;
    var s := TwoApprovals();
    var w1 := StepWorld(w0, s[0]);
    var w2 := StepWorld(w1, s[1]);
    var w3 := StepWorld(w2, s[2]);
    assert s == [s[0]] + s[1..] && s[1..] == [s[1]] + s[2..] && s[2..] == [s[2]] + s[3..] && s[3..] == [s[3]] + s[4..];
    FirstApproval(w0, s[0], s[1..], 0);
    FirstApproval(w1, s[1], s[2..], 0);
    FirstApproval(w2, s[2], s[3..], 0);
    FirstApproval(w3, s[3], s[4..], 0);
    ApprovesIsASave(w0, s[0], 0);
    ApprovesIsASave(w1, s[1], 0);
    ApprovesIsASave(w2, s[2], 0);
    ApprovesIsASave(w3, s[3], 0);
  }

  /** One tab approves and the tenant cancels; the other tab still holds its approval. */
  lemma TabsInTurn(w: World) returns (w1: World, w2: World, w3: World)
    requires TwoTabsOpen(w)
    ensures var s := TwoApprovals();
      w1 == StepWorld(w, s[4]) && w2 == StepWorld(w1, s[5]) && w3 == StepWorld(w2, s[6])
    ensures Approves(w, TwoApprovals()[4], 0)
    ensures |w3.db.bookings| == 1 && w3.db.bookings[0].status == Cancelled
    ensures 2 in w3.clients && w3.clients[2].Loaded? && w3.clients[2].id == 0 && w3.clients[2].row.status == Approved
  {
    hide SaveEffects;
    var s := TwoApprovals();
    w1 := StepWorld(w, s[4]);
    assert w1.db.bookings[0].status == Approved;
    w2 := StepWorld(w1, s[5]);
    assert w2.db == w1.db && w2.clients[1].Loaded? && w2.clients[1].row.status == Cancelled;
    w3 := StepWorld(w2, s[6]);
  }

  /** The other tab approves again. */
  lemma TabsApproveTwice(w: World)
    requires TwoTabsOpen(w)
    ensures TimesApproved(w, TwoApprovals()[4..], 0) == 2
  {
    hide TimesApproved, StepWorld, Approves;
    var s := TwoApprovals();
    var w1, w2, w3 := TabsInTurn(w);
    assert s[4..] == [s[4]] + s[5..] && s[5..] == [s[5]] + s[6..] && s[6..] == [s[6]] + s[7..] && s[7..] == [s[7]] + [];
    FirstApproval(w, s[4], s[5..], 0);
    FirstApproval(w1, s[5], s[6..], 0);
    FirstApproval(w2, s[6], s[7..], 0);
    FirstApproval(w3, s[7], [], 0);
    ApprovesIsASave(w1, s[5], 0);
    NotApproved(w2, s[6], 0);
    ApprovesIsASave(w3, s[7], 0);
    NeverApproved(StepWorld(w3, s[7]));
  }

  lemma NotApproved(w: World, s: Step, id: nat)
    requires Stored(StepWorld(w, s), id) && StepWorld(w, s).db.bookings[id].status != Approved
    ensures !Approves(w, s, id)
  {
  }

  /** From an empty table, those eight steps confirm the booking twice and ask for its schedule twice. */
  lemma StaleSaveConfirmsTwice(w0: World)
    requires w0 == World(Db(map[7 := Room(0, true)], [], []), map[])
    ensures var effects := RunWorld(w0, TwoApprovals()).db.effects;
      Times(effects, Confirmed(0)) == 2 && Times(effects, Schedule(0)) == 2
  {
    hide TimesApproved, RunWorld, StepWorld, TwoApprovals;
    var w := TwoTabs(w0);
    NoApprovalYet(w0, w);
    TabsApproveTwice(w);
    EffectsCountApprovals(w0, TwoApprovals(), Confirmed(0));
    EffectsCountApprovals(w0, TwoApprovals(), Schedule(0));
  }

  lemma NeverApproved(w: World)
    ensures TimesApproved(w, [], 0) == 0
  {
  }

  /** No booking yet, and no client holding a row. */
  predicate Opening(w: World) {
    w.db.bookings == [] && w.db.effects == [] && w.clients == map[]
  }

  /**
   * From an empty table, over any guarded run: no double booking, and each booking's effects happen
   * exactly as often as they should.
   */
  lemma BookingsAreSafe(w: World, steps: seq<Step>, id: nat)
    requires Opening(w) && GuardedRun(w, steps)
    ensures var db := RunWorld(w, steps).db;
      && NoDoubleBooking(db.bookings)
      && (id < |db.bookings| ==>
           var b, history := db.bookings[id], About(db.effects, id);
           && Times(history, Schedule(id)) <= 1 && Times(history, Commission(id)) <= 1
           && (b.status in {Pending, Rejected} ==> Schedule(id) !in history && Commission(id) !in history)
           && 1 <= Notices(history) <= 3)
  {
    OpeningIsSafe(w);
    hide Opening, Stories, HoldingsAgree, StepWorld, GuardedRun, RunWorld, About, Times, Notices, Story, NoConflicts,
      NoDoubleBooking;
    NoDoubleBookingEver(w, steps);
    EffectsFollowStories(w, steps);
    var db := RunWorld(w, steps).db;
    if id < |db.bookings| {
      StoryOf(db, id);
      ExactlyOnce(db.bookings[id], id, OwnerOf(db, db.bookings[id].room), About(db.effects, id));
    }
  }

  lemma OpeningIsSafe(w: World)
    requires Opening(w)
    ensures NoConflicts(w.db.bookings) && HoldingsAgree(w) && Stories(w.db)
  {
  }

  lemma StoryOf(db: Db, id: nat)
    requires Stories(db) && id < |db.bookings|
    ensures Story(db.bookings[id], id, OwnerOf(db, db.bookings[id].room), About(db.effects, id))
  {
  }
}
