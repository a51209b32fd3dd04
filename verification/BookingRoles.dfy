/** Who may change a booking, and who did (backend/bookings/serializers.py, backend/bookings/views.py). */
module BookingRoles {
  import opened Common
  import opened Bookings
  import opened BookingSafety

  // ---------------------------------------------------------------- one request

  predicate DepositSettled(b: Booking) {
    b.deposit <= 0.0 || b.depositPaid
  }

  /** The room's owner decides on someone else's pending booking; the tenant calls off a live one. */
  predicate MayMove(b: Booking, owner: nat, user: nat, target: Status) {
    || (user == owner && user != b.tenant && b.status == Pending && target in {Approved, Rejected})
    || (user == b.tenant && b.status in {Pending, Approved} && target == Cancelled)
  }

  /** An update is accepted exactly from a party, for a move it may make, with deposit and agreement in order. */
  lemma UpdateAcceptedIff(db: Db, id: nat, user: nat, change: Change, requireDeposit: bool)
    ensures LoadUpdate(db, id, user, change, requireDeposit).0.Some?
      <==> && id < |db.bookings|
           && var b := db.bookings[id];
           var owner := OwnerOf(db, b.room);
           var moves := change.status.Some? && change.status.value != b.status;
           && user in {b.tenant, owner}
           && (moves ==> MayMove(b, owner, user, change.status.value))
           && (moves && change.status.value == Approved && requireDeposit ==> DepositSettled(b))
           && (change.agreementSigned == Some(true) ==> b.status == Approved)
    ensures var (row, error) := LoadUpdate(db, id, user, change, requireDeposit);
      && (row.None? <==> error.Some?)
      && (row.Some? ==>
            var b := db.bookings[id];
            && row.value == b.(status := row.value.status, agreementSigned := row.value.agreementSigned)
            && (change.status.Some? ==> row.value.status == change.status.value)
            && (change.status.None? ==> row.value.status == b.status)
            && (change.agreementSigned.Some? ==> row.value.agreementSigned == change.agreementSigned.value)
            && (change.agreementSigned.None? ==> row.value.agreementSigned == b.agreementSigned))
  {
  }

  /** What a refused update is refused for. */
  lemma UpdateErrors(db: Db, id: nat, user: nat, change: Change, requireDeposit: bool)
    ensures id >= |db.bookings| ==> LoadUpdate(db, id, user, change, requireDeposit).1 == Some(NotFound)
    ensures id < |db.bookings| ==>
      var b := db.bookings[id];
      var owner := OwnerOf(db, b.room);
      var moves := change.status.Some? && change.status.value != b.status;
      var allowed := !moves || MayMove(b, owner, user, change.status.value);
      var unpaid := moves && change.status.value == Approved && requireDeposit && !DepositSettled(b);
      var e := LoadUpdate(db, id, user, change, requireDeposit).1;
      && (e == Some(NotFound) <==> user !in {b.tenant, owner})
      && (e == Some(BadTransition) <==> user in {b.tenant, owner} && !allowed)
      && (e == Some(DepositUnpaid) <==> user in {b.tenant, owner} && allowed && unpaid)
      && (e == Some(AgreementTooEarly) <==>
            && user in {b.tenant, owner} && allowed && !unpaid
            && change.agreementSigned == Some(true) && b.status != Approved)
  {
  }

  ghost predicate Free(db: Db, r: Request) {
    forall i :: 0 <= i < |db.bookings| && Blocking(db.bookings[i].status) && db.bookings[i].room == r.room ==>
      End(db.bookings[i].checkOut) < r.checkIn || End(r.checkOut) < db.bookings[i].checkIn
  }

  /** A request passes the pre-check exactly for an available room of someone else that is free; the lock re-checks. */
  lemma RequestAcceptedIff(db: Db, r: Request)
    ensures PreCheck(db, r).None?
      <==> r.room in db.rooms && db.rooms[r.room].available && OwnerOf(db, r.room) != r.tenant && Free(db, r)
    ensures LockedCheck(db, r).None? <==> r.room in db.rooms && db.rooms[r.room].available && Free(db, r)
  {
    if Free(db, r) {
      assert !OverlapExists(db.bookings, r.room, r.checkIn, r.checkOut);
    } else {
      var i :| 0 <= i < |db.bookings| && Blocking(db.bookings[i].status) && db.bookings[i].room == r.room
        && !(End(db.bookings[i].checkOut) < r.checkIn || End(r.checkOut) < db.bookings[i].checkIn);
      assert Blocks(db.bookings[i], r.room, r.checkIn, r.checkOut);
    }
  }

  /** What a refused request is refused for: an own room before an unavailable one, and that before taken days. */
  lemma RequestErrors(db: Db, r: Request)
    ensures var known, open := r.room in db.rooms, r.room in db.rooms && db.rooms[r.room].available;
      var own := known && db.rooms[r.room].owner == r.tenant;
      && (PreCheck(db, r) == Some(NoSuchRoom) <==> !known) && (LockedCheck(db, r) == Some(NoSuchRoom) <==> !known)
      && (PreCheck(db, r) == Some(OwnRoom) <==> own)
      && (PreCheck(db, r) == Some(RoomUnavailable) <==> known && !own && !open)
      && (LockedCheck(db, r) == Some(RoomUnavailable) <==> known && !open)
      && (PreCheck(db, r) == Some(OverlappingBooking) <==> open && !own && !Free(db, r))
      && (LockedCheck(db, r) == Some(OverlappingBooking) <==> open && !Free(db, r))
  {
    RequestAcceptedIff(db, r);
    hide Free, OverlapExists;
  }

  /** An accepted request becomes one pending booking of its tenant, neither paid nor signed. */
  lemma RequestBecomesBooking(w: World, c: nat)
    requires c in w.clients && w.clients[c].Checked? && LockedCheck(w.db, w.clients[c].request).None?
    ensures var r, after := w.clients[c].request, StepWorld(w, InsertStep(c)).db.bookings;
      && |after| == |w.db.bookings| + 1 && w.db.bookings <= after
      && var b := after[|w.db.bookings|];
      && b.status == Pending && b.tenant == r.tenant && b.room == r.room && b.broker == r.broker
      && b.checkIn == r.checkIn && b.checkOut == r.checkOut && b.deposit == r.deposit
      && !b.depositPaid && !b.agreementSigned
  {
    hide SaveEffects, OverlapExists;
  }

  // ---------------------------------------------------------------- whole runs

  /** What a client holds, its user was entitled to when it was validated. */
  predicate Entitled(db: Db, h: Holding) {
    match h
    case Checked(r) => r.room in db.rooms && OwnerOf(db, r.room) != r.tenant
    case Loaded(user, id, seen, row) =>
      && id < |db.bookings|
      && var b := db.bookings[id];
      var owner := OwnerOf(db, b.room);
      && user in {b.tenant, owner} && row.tenant == b.tenant && row.room == b.room
      && (row.status == seen || MayMove(b.(status := seen), owner, user, row.status))
  }

  ghost predicate AllEntitled(w: World) {
    forall c :: c in w.clients ==> Entitled(w.db, w.clients[c])
  }

  /** What holds of every later table: the same owners, and the same tenant and room of each booking. */
  ghost predicate SameParties(db: Db, db': Db) {
    && (forall room :: room in db.rooms ==> room in db'.rooms && db'.rooms[room].owner == db.rooms[room].owner)
    && (forall room: nat :: OwnerOf(db', room) == OwnerOf(db, room))
    && |db.bookings| <= |db'.bookings|
    && (forall i :: 0 <= i < |db.bookings| ==>
          db'.bookings[i].tenant == db.bookings[i].tenant && db'.bookings[i].room == db.bookings[i].room)
  }

  lemma PartiesStay(w: World, s: Step)
    requires AllEntitled(w)
    ensures SameParties(w.db, StepWorld(w, s).db)
  {
    hide OverlapExists, SaveEffects;
    if s.BulkStep? {
      BulkAppends(w.db, BulkRows(s));
    } else if s.SaveStep? && s.client in w.clients && w.clients[s.client].Loaded? {
      assert Entitled(w.db, w.clients[s.client]);
    }
  }

  lemma StaysEntitled(db: Db, db': Db, h: Holding)
    requires Entitled(db, h) && SameParties(db, db')
    ensures Entitled(db', h)
  {
  }

  lemma EntitledAfterStep(w: World, s: Step)
    requires AllEntitled(w)
    ensures AllEntitled(StepWorld(w, s))
  {
    var w' := StepWorld(w, s);
    PartiesStay(w, s);
    forall c | c in w'.clients ensures Entitled(w'.db, w'.clients[c]) {
      if c in w.clients && w'.clients[c] == w.clients[c] {
        StaysEntitled(w.db, w'.db, w.clients[c]);
      } else if s.PreCheckStep? {
        RequestAcceptedIff(w.db, s.request);
      } else {
        UpdateAcceptedIff(w.db, s.id, s.user, s.change, s.requireDeposit);
      }
    }
  }

  lemma {:induction false} EntitledAfterRun(w: World, steps: seq<Step>)
    requires AllEntitled(w)
    ensures AllEntitled(RunWorld(w, steps))
    decreases |steps|
  {
    hide AllEntitled, StepWorld;
    if steps != [] {
      EntitledAfterStep(w, steps[0]);
      EntitledAfterRun(StepWorld(w, steps[0]), steps[1..]);
    }
  }

  /** A step changes the status of a stored booking. */
  predicate Moves(w: World, s: Step, id: nat) {
    var next := StepWorld(w, s);
    id < |w.db.bookings| && id < |next.db.bookings| && next.db.bookings[id].status != w.db.bookings[id].status
  }

  /**
   * Who stands behind a change of status: the user whose row is saved made a move it was entitled to
   * from the status it saw, or saves a status it did not touch over one that changed since.
   */
  ghost predicate Answerable(w: World, s: Step, id: nat) {
    && s.SaveStep? && s.client in w.clients && w.clients[s.client].Loaded? && w.clients[s.client].id == id
    && id < |w.db.bookings|
    && var h, b := w.clients[s.client], w.db.bookings[id];
    && StepWorld(w, s).db.bookings == w.db.bookings[id := h.row]
    && (|| (h.row.status == h.seen != b.status && h.user in {b.tenant, OwnerOf(w.db, b.room)})
        || (h.row.status in {Approved, Rejected} && h.seen == Pending
            && h.user == OwnerOf(w.db, b.room) && h.user != b.tenant)
        || (h.row.status == Cancelled && h.seen in {Pending, Approved} && h.user == b.tenant))
  }

  lemma MoveIsAnswerable(w: World, s: Step, id: nat)
    requires AllEntitled(w) && Moves(w, s, id)
    ensures Answerable(w, s, id)
  {
    hide OverlapExists, SaveEffects;
    if s.BulkStep? {
      BulkAppends(w.db, BulkRows(s));
    } else if s.SaveStep? && s.client in w.clients && w.clients[s.client].Loaded? {
      assert Entitled(w.db, w.clients[s.client]);
    }
  }

  /** In any run from a state without held rows, every change of status has someone answerable. */
  lemma EveryMoveIsAnswerable(w: World, steps: seq<Step>, s: Step, id: nat)
    requires w.clients == map[] && Moves(RunWorld(w, steps), s, id)
    ensures Answerable(RunWorld(w, steps), s, id)
  {
    hide RunWorld, Answerable, Moves;
    EntitledAfterRun(w, steps);
    MoveIsAnswerable(RunWorld(w, steps), s, id);
  }

  /**
   * A booking becomes approved by its room's owner, who is not its tenant, exactly unless the save
   * writes back an approval that it only read.
   */
  lemma ApprovalIsTheOwnersIff(w: World, steps: seq<Step>, s: Step, id: nat)
    requires w.clients == map[] && Moves(RunWorld(w, steps), s, id)
    requires StepWorld(RunWorld(w, steps), s).db.bookings[id].status == Approved
    ensures var w1 := RunWorld(w, steps);
      && s.SaveStep? && s.client in w1.clients && w1.clients[s.client].Loaded?
      && var h, b := w1.clients[s.client], w1.db.bookings[id];
      && (h.seen != Approved ==> h.user == OwnerOf(w1.db, b.room) && h.user != b.tenant && h.seen == Pending)
      && (h.seen == Approved ==> h.row.status == h.seen && h.user in {b.tenant, OwnerOf(w1.db, b.room)})
  {
    hide RunWorld, StepWorld;
    EveryMoveIsAnswerable(w, steps, s, id);
  }

  /** The owner approves; the tenant loads the booking to sign, cancels it elsewhere, and then the signing lands. */
  function SigningLate(): seq<Step> {
    [PreCheckStep(1, Request(7, 1, 10, Some(20), None, 0.0)), InsertStep(1),
     LoadStep(0, 0, 0, Change(Some(Approved), None), true), SaveStep(0, false)]
    + [LoadStep(1, 0, 1, Change(None, Some(true)), true), LoadStep(2, 0, 1, Change(Some(Cancelled), None), true),
       SaveStep(2, false)]
  }

  lemma ApprovedByOwner(w0: World) returns (w: World)
    requires w0 == World(Db(map[7 := Room(0, true)], [], []), map[])
    ensures var s := SigningLate();
      w == StepWorld(StepWorld(StepWorld(StepWorld(w0, s[0]), s[1]), s[2]), s[3])
    ensures w.db.bookings == [NewBooking(Request(7, 1, 10, Some(20), None, 0.0)).(status := Approved)]
    ensures w.db.rooms == w0.db.rooms && w.clients == map[]
  {
    hide SaveEffects;
    var s := SigningLate();
    var b := NewBooking(Request(7, 1, 10, Some(20), None, 0.0));
    var w1 := StepWorld(w0, s[0]);
    var w2 := StepWorld(w1, s[1]);
    assert w2.db.bookings == [b] && w2.clients == map[];
    var w3 := StepWorld(w2, s[2]);
    assert w3.clients == map[0 := Loaded(0, 0, Pending, b.(status := Approved))];
    w := StepWorld(w3, s[3]);
  }

  /** From an empty table, a tenant's save takes a cancelled booking to approved. */
  lemma TenantReapprovesBySigning(w0: World)
    requires w0 == World(Db(map[7 := Room(0, true)], [], []), map[])
    ensures var w, s := RunWorld(w0, SigningLate()), SaveStep(1, false);
      && Moves(w, s, 0) && StepWorld(w, s).db.bookings[0].status == Approved
      && w.db.bookings[0].status == Cancelled
      && w.clients[1].user == w.db.bookings[0].tenant != OwnerOf(w.db, w.db.bookings[0].room)
  {
    hide SaveEffects, RunWorld;
    var s := SigningLate();
    var b := NewBooking(Request(7, 1, 10, Some(20), None, 0.0)).(status := Approved);
    var w := ApprovedByOwner(w0);
    var w5 := StepWorld(w, s[4]);
    assert w5.clients == map[1 := Loaded(1, 0, Approved, b.(agreementSigned := true))];
    var w6 := StepWorld(w5, s[5]);
    assert w6.clients[2] == Loaded(1, 0, Approved, b.(status := Cancelled));
    var w7 := StepWorld(w6, s[6]);
    assert w7.clients[1] == w5.clients[1] && w7.db.bookings == [b.(status := Cancelled)];
    SevenSteps(w0, s);
  }

  lemma SevenSteps(w: World, s: seq<Step>)
    requires |s| == 7
    ensures var w4 := StepWorld(StepWorld(StepWorld(StepWorld(w, s[0]), s[1]), s[2]), s[3]);
      RunWorld(w, s) == StepWorld(StepWorld(StepWorld(w4, s[4]), s[5]), s[6])
  {
    hide StepWorld;
    var w1 := StepWorld(w, s[0]);
    var w2 := StepWorld(w1, s[1]);
    var w3 := StepWorld(w2, s[2]);
    var w4 := StepWorld(w3, s[3]);
    var w5 := StepWorld(w4, s[4]);
    assert RunWorld(w, s) == RunWorld(w1, s[1..]) && s[1..][1..] == s[2..] && s[2..][1..] == s[3..];
    assert RunWorld(w1, s[1..]) == RunWorld(w2, s[2..]) && s[3..][1..] == s[4..] && s[4..][1..] == s[5..];
    assert RunWorld(w2, s[2..]) == RunWorld(w3, s[3..]);
    assert RunWorld(w3, s[3..]) == RunWorld(w4, s[4..]);
    assert RunWorld(w4, s[4..]) == RunWorld(w5, s[5..]) && s[5..] == [s[5], s[6]];
    TwoSteps(w5, s[5], s[6]);
  }
}
