/** Any number of clients booking and updating at once: no double booking, and effects exactly once. */
module BookingSafety {
  import opened Common
  import opened Bookings

  /** What a client holds between its two steps: a validated request, or a row its user loaded and is about to save. */
  datatype Holding = Checked(request: Request) | Loaded(user: nat, id: nat, seen: Status, row: Booking)

  datatype World = World(db: Db, clients: map<nat, Holding>)

  datatype Step =
    | PreCheckStep(client: nat, request: Request)
    | InsertStep(client: nat)
    | LoadStep(client: nat, id: nat, user: nat, change: Change, requireDeposit: bool)
    | SaveStep(client: nat, brokerVerified: bool)
    | BulkStep(room: nat, checkIn: Date, checkOut: Option<Date>, tenants: seq<nat>)
    | RoomStep(room: nat, available: bool)

  function BulkRows(s: Step): seq<Booking>
    requires s.BulkStep?
  {
    seq(|s.tenants|, i requires 0 <= i < |s.tenants| =>
      Booking(s.room, s.tenants[i], Pending, s.checkIn, s.checkOut, None, 0.0, false, false))
  }

  function StepWorld(w: World, s: Step): World {
    match s
    case PreCheckStep(c, r) =>
      if PreCheck(w.db, r).None? then w.(clients := w.clients[c := Checked(r)]) else w
    case InsertStep(c) =>
      if c !in w.clients || !w.clients[c].Checked? then w
      else
        var r := w.clients[c].request;
        World(if LockedCheck(w.db, r).None? then Inserted(w.db, NewBooking(r)) else w.db, w.clients - {c})
    case LoadStep(c, id, user, change, requireDeposit) =>
      var loaded := LoadUpdate(w.db, id, user, change, requireDeposit).0;
      if loaded.Some? then w.(clients := w.clients[c := Loaded(user, id, w.db.bookings[id].status, loaded.value)])
        else w
    case SaveStep(c, brokerVerified) =>
      if c !in w.clients || !w.clients[c].Loaded? || w.clients[c].id >= |w.db.bookings| then w
      else World(Saved(w.db, w.clients[c].id, w.clients[c].row, brokerVerified), w.clients - {c})
    case BulkStep(_, _, _, _) => w.(db := InsertedAll(w.db, BulkRows(s)))
    case RoomStep(room, available) =>
      if room !in w.db.rooms then w
      else w.(db := w.db.(rooms := w.db.rooms[room := w.db.rooms[room].(available := available)]))
  }

  function RunWorld(w: World, steps: seq<Step>): World
    decreases |steps|
  {
    if steps == [] then w else RunWorld(StepWorld(w, steps[0]), steps[1..])
  }

  // ---------------------------------------------------------------- no double booking

  predicate Conflict(a: Booking, b: Booking) {
    Blocking(a.status) && Blocks(b, a.room, a.checkIn, a.checkOut)
  }

  ghost predicate NoConflicts(bs: seq<Booking>) {
    forall i, j :: 0 <= i < |bs| && 0 <= j < |bs| && i != j ==> !Conflict(bs[i], bs[j])
  }

  /** Two live bookings of one room never share a day. */
  ghost predicate NoDoubleBooking(bs: seq<Booking>) {
    forall i, j, day: Date | 0 <= i < |bs| && 0 <= j < |bs| && i != j
      && bs[i].room == bs[j].room && Blocking(bs[i].status) && Blocking(bs[j].status) ::
        !(Covers(bs[i].checkIn, bs[i].checkOut, day) && Covers(bs[j].checkIn, bs[j].checkOut, day))
  }

  lemma NoConflictsMeansNoSharedDay(bs: seq<Booking>)
    requires NoConflicts(bs)
    ensures NoDoubleBooking(bs)
  {
    forall i, j, day: Date | 0 <= i < |bs| && 0 <= j < |bs| && i != j
      && bs[i].room == bs[j].room && Blocking(bs[i].status) && Blocking(bs[j].status)
      ensures !(Covers(bs[i].checkIn, bs[i].checkOut, day) && Covers(bs[j].checkIn, bs[j].checkOut, day))
    {
      assert !Conflict(bs[i], bs[j]);
    }
  }

  /** Held rows only ever differ from the stored booking in status, agreement and deposit flags. */
  ghost predicate HoldingsAgree(w: World) {
    forall c :: c in w.clients && w.clients[c].Loaded? ==>
      var h := w.clients[c];
      && h.id < |w.db.bookings|
      && var b := w.db.bookings[h.id];
      && h.row.room == b.room && h.row.checkIn == b.checkIn && h.row.checkOut == b.checkOut
      && h.row.tenant == b.tenant && h.row.broker == b.broker
      && (h.row.status == h.seen || MayTurn(h.seen, h.row.status))
  }

  /** The transitions an update is allowed to make. */
  predicate MayTurn(before: Status, after: Status) {
    match before
    case Pending => after in {Approved, Rejected, Cancelled}
    case Approved => after == Cancelled
    case _ => false
  }

  lemma ChecksAllowOnlyTurns(b: Booking, owner: nat, user: nat, change: Change, requireDeposit: bool)
    requires CheckUpdate(b, owner, user, change, requireDeposit).None?
    ensures Changed(b, change).status == b.status || MayTurn(b.status, Changed(b, change).status)
  {
  }

  lemma HoldingsAgreeAfterStep(w: World, s: Step)
    requires HoldingsAgree(w)
    ensures HoldingsAgree(StepWorld(w, s))
  {
    hide OverlapExists;
    hide SaveEffects;
    match s
    case LoadStep(c, id, user, change, requireDeposit) =>
      if LoadUpdate(w.db, id, user, change, requireDeposit).0.Some? {
        ChecksAllowOnlyTurns(w.db.bookings[id], OwnerOf(w.db, w.db.bookings[id].room), user, change, requireDeposit);
      }
    case BulkStep(_, _, _, _) => BulkAppends(w.db, BulkRows(s));
    case _ =>
  }

  lemma {:induction false} BulkAppends(db: Db, rows: seq<Booking>)
    ensures InsertedAll(db, rows).bookings == db.bookings + rows
    ensures InsertedAll(db, rows).rooms == db.rooms
  {
    if rows != [] {
      BulkAppends(db, rows[..|rows| - 1]);
    }
  }

  lemma OneMoreWithoutConflict(bs: seq<Booking>, b: Booking)
    requires NoConflicts(bs) && Blocking(b.status)
    ensures NoConflicts(bs + [b]) <==> !OverlapExists(bs, b.room, b.checkIn, b.checkOut)
  {
    var more := bs + [b];
    if OverlapExists(bs, b.room, b.checkIn, b.checkOut) {
      var i :| 0 <= i < |bs| && Blocks(bs[i], b.room, b.checkIn, b.checkOut);
      assert Conflict(more[|bs|], more[i]);
    } else {
      forall i, j | 0 <= i < |more| && 0 <= j < |more| && i != j ensures !Conflict(more[i], more[j]) {
        if i == |bs| {
          assert more[j] == bs[j];
        } else if j == |bs| {
          assert !Blocks(bs[i], b.room, b.checkIn, b.checkOut);
        } else {
          assert !Conflict(bs[i], bs[j]);
        }
      }
    }
  }

  lemma {:induction false} MoreBookingsMoreConflicts(bs: seq<Booking>, more: seq<Booking>)
    requires NoConflicts(bs + more)
    ensures NoConflicts(bs)
  {
    var all := bs + more;
    forall i, j | 0 <= i < |bs| && 0 <= j < |bs| && i != j ensures !Conflict(bs[i], bs[j]) {
      assert all[i] == bs[i] && all[j] == bs[j] && !Conflict(all[i], all[j]);
    }
  }

  /** What keeps a bulk creation free of query overlaps: nothing clashes with it, and its own rows do not clash. */
  predicate BulkIsSafe(bookings: seq<Booking>, s: Step)
    requires s.BulkStep?
  {
    s.tenants == []
    || (!OverlapExists(bookings, s.room, s.checkIn, s.checkOut)
        && (|s.tenants| == 1 || !WellFormed(s.checkIn, s.checkOut)))
  }

  /** The invariant the locked check maintains, that the overlap query finds nothing, across a bulk creation. */
  lemma BulkKeepsIff(w: World, s: Step)
    requires s.BulkStep? && NoConflicts(w.db.bookings)
    ensures NoConflicts(StepWorld(w, s).db.bookings) <==> BulkIsSafe(w.db.bookings, s)
  {
    var rows := BulkRows(s);
    BulkAppends(w.db, rows);
    BulkRowsConflictIff(w.db.bookings, s, |rows|);
    assert rows[..|rows|] == rows;
  }

  lemma {:induction false} BulkRowsConflictIff(bs: seq<Booking>, s: Step, n: nat)
    requires s.BulkStep? && NoConflicts(bs) && n <= |s.tenants|
    ensures NoConflicts(bs + BulkRows(s)[..n]) <==> BulkIsSafe(bs, s.(tenants := s.tenants[..n]))
  {
    var rows := BulkRows(s);
    if n == 0 {
      assert bs + rows[..0] == bs;
    } else {
      var before := bs + rows[..n - 1];
      assert bs + rows[..n] == before + [rows[n - 1]];
      BulkRowsConflictIff(bs, s, n - 1);
      OverlapAfterBulk(bs, s, n - 1);
      if NoConflicts(before) {
        OneMoreWithoutConflict(before, rows[n - 1]);
      } else if NoConflicts(bs + rows[..n]) {
        MoreBookingsMoreConflicts(before, [rows[n - 1]]);
      }
    }
  }

  lemma OverlapAfterBulk(bs: seq<Booking>, s: Step, n: nat)
    requires s.BulkStep? && n <= |s.tenants|
    ensures OverlapExists(bs + BulkRows(s)[..n], s.room, s.checkIn, s.checkOut)
      <==> OverlapExists(bs, s.room, s.checkIn, s.checkOut) || (n > 0 && WellFormed(s.checkIn, s.checkOut))
  {
    var rows := BulkRows(s)[..n];
    var all := bs + rows;
    if OverlapExists(bs, s.room, s.checkIn, s.checkOut) {
      var i :| 0 <= i < |bs| && Blocks(bs[i], s.room, s.checkIn, s.checkOut);
      assert Blocks(all[i], s.room, s.checkIn, s.checkOut);
    } else if n > 0 && WellFormed(s.checkIn, s.checkOut) {
      assert Blocks(all[|bs|], s.room, s.checkIn, s.checkOut);
    }
  }

  /** Writing back a row whose booking was closed in the meantime, onto days taken since. */
  predicate Resurrects(w: World, s: Step) {
    s.SaveStep? && s.client in w.clients && w.clients[s.client].Loaded?
    && var h := w.clients[s.client];
    && h.id < |w.db.bookings|
    && Blocking(h.row.status) && !Blocking(w.db.bookings[h.id].status)
    && exists j ::
         && 0 <= j < |w.db.bookings| && j != h.id
         && Blocks(w.db.bookings[j], h.row.room, h.row.checkIn, h.row.checkOut)
  }

  /** ... and across a save. */
  lemma SaveKeepsIff(w: World, s: Step)
    requires s.SaveStep? && NoConflicts(w.db.bookings) && HoldingsAgree(w)
    ensures NoConflicts(StepWorld(w, s).db.bookings) <==> !Resurrects(w, s)
  {
    hide SaveEffects;
    if s.client in w.clients && w.clients[s.client].Loaded? {
      var h := w.clients[s.client];
      var bs, bs' := w.db.bookings, StepWorld(w, s).db.bookings;
      assert bs' == bs[h.id := h.row];
      if Resurrects(w, s) {
        var j :| 0 <= j < |bs| && j != h.id && Blocks(bs[j], h.row.room, h.row.checkIn, h.row.checkOut);
        assert Conflict(bs'[h.id], bs'[j]);
      } else {
        forall i, j | 0 <= i < |bs'| && 0 <= j < |bs'| && i != j ensures !Conflict(bs'[i], bs'[j]) {
          assert !Conflict(bs[i], bs[j]) && !Conflict(bs[j], bs[i]);
        }
      }
    }
  }

  /**
   * What the room lock does not cover, stated as what a caller could check before the step: a bulk
   * creation has nothing to clash with, and a saved row was loaded while the booking had the status
   * it still has.
   */
  predicate Guarded(w: World, s: Step) {
    match s
    case BulkStep(_, _, _, _) => BulkIsSafe(w.db.bookings, s)
    case SaveStep(c, _) =>
      c in w.clients && w.clients[c].Loaded? && w.clients[c].id < |w.db.bookings| ==>
        w.db.bookings[w.clients[c].id].status == w.clients[c].seen
    case _ => true
  }

  predicate GuardedRun(w: World, steps: seq<Step>)
    decreases |steps|
  {
    steps == [] || (Guarded(w, steps[0]) && GuardedRun(StepWorld(w, steps[0]), steps[1..]))
  }

  lemma NoConflictsAfterStep(w: World, s: Step)
    requires NoConflicts(w.db.bookings) && HoldingsAgree(w) && Guarded(w, s)
    ensures NoConflicts(StepWorld(w, s).db.bookings)
  {
    hide SaveEffects;
    match s
    case InsertStep(c) =>
      if c in w.clients && w.clients[c].Checked? {
        OneMoreWithoutConflict(w.db.bookings, NewBooking(w.clients[c].request));
      }
    case SaveStep(_, _) => SaveKeepsIff(w, s);
    case BulkStep(_, _, _, _) => BulkKeepsIff(w, s);
    case _ =>
  }

  /**
   * However many clients interleave, and however stale their pre-checks, no two live bookings of a room
   * share a day.
   */
  lemma {:induction false} NoDoubleBookingEver(w: World, steps: seq<Step>)
    requires NoConflicts(w.db.bookings) && HoldingsAgree(w) && GuardedRun(w, steps)
    ensures NoConflicts(RunWorld(w, steps).db.bookings)
    ensures NoDoubleBooking(RunWorld(w, steps).db.bookings)
    decreases |steps|
  {
    hide NoConflicts;
    hide HoldingsAgree;
    hide StepWorld;
    hide Guarded;
    hide NoDoubleBooking;
    if steps == [] {
      NoConflictsMeansNoSharedDay(w.db.bookings);
    } else {
      NoConflictsAfterStep(w, steps[0]);
      HoldingsAgreeAfterStep(w, steps[0]);
      NoDoubleBookingEver(StepWorld(w, steps[0]), steps[1..]);
    }
  }

  // ---------------------------------------------------------------- exactly when a run double books

  /**
   * Dates of a live booking of the room that share a day with the given ones; an interval the wrong way
   * round covers none.
   */
  predicate Taken(bookings: seq<Booking>, room: nat, checkIn: Date, checkOut: Option<Date>, except: int) {
    && WellFormed(checkIn, checkOut)
    && exists i :: 0 <= i < |bookings| && i != except && Meets(bookings[i], room, checkIn, checkOut)
  }

  predicate Meets(b: Booking, room: nat, checkIn: Date, checkOut: Option<Date>) {
    Blocks(b, room, checkIn, checkOut) && WellFormed(b.checkIn, b.checkOut)
  }

  /** The steps that double book: bulk creation and stale saves onto days that are taken. */
  predicate DoubleBooks(w: World, s: Step) {
    match s
    case BulkStep(room, checkIn, checkOut, tenants) =>
      && tenants != [] && WellFormed(checkIn, checkOut)
      && (|tenants| > 1 || Taken(w.db.bookings, room, checkIn, checkOut, -1))
    case SaveStep(c, _) =>
      && c in w.clients && w.clients[c].Loaded? && w.clients[c].id < |w.db.bookings|
      && var h := w.clients[c];
      && Blocking(h.row.status) && !Blocking(w.db.bookings[h.id].status)
      && Taken(w.db.bookings, h.row.room, h.row.checkIn, h.row.checkOut, h.id)
    case _ => false
  }

  predicate Apart(a: Booking, b: Booking) {
    !(Blocking(a.status) && WellFormed(a.checkIn, a.checkOut) && Meets(b, a.room, a.checkIn, a.checkOut))
  }

  ghost predicate AllApart(bs: seq<Booking>) {
    forall i, j :: 0 <= i < |bs| && 0 <= j < |bs| && i != j ==> Apart(bs[i], bs[j])
  }

  lemma ApartIsNoSharedDay(a: Booking, b: Booking)
    requires a.room == b.room && Blocking(a.status) && Blocking(b.status)
    ensures Apart(a, b) <==> forall day: Date ::
      !(Covers(a.checkIn, a.checkOut, day) && Covers(b.checkIn, b.checkOut, day))
  {
    OverlapIsSharedDay(a.checkIn, a.checkOut, b.checkIn, b.checkOut);
    OverlapIsSymmetric(a.checkIn, a.checkOut, b.checkIn, b.checkOut);
  }

  lemma NoDoubleBookingIsApart(bs: seq<Booking>)
    ensures NoDoubleBooking(bs) <==> AllApart(bs)
  {
    forall i, j | 0 <= i < |bs| && 0 <= j < |bs| && i != j
      && bs[i].room == bs[j].room && Blocking(bs[i].status) && Blocking(bs[j].status)
      ensures Apart(bs[i], bs[j])
        <==> forall day: Date ::
          !(Covers(bs[i].checkIn, bs[i].checkOut, day) && Covers(bs[j].checkIn, bs[j].checkOut, day))
    {
      ApartIsNoSharedDay(bs[i], bs[j]);
    }
    hide Apart, Covers;
    if AllApart(bs) {
      assert NoDoubleBooking(bs);
    } else {
      var i, j :| 0 <= i < |bs| && 0 <= j < |bs| && i != j && !Apart(bs[i], bs[j]);
      NotApart(bs[i], bs[j]);
    }
  }

  lemma NotApart(a: Booking, b: Booking)
    requires !Apart(a, b)
    ensures a.room == b.room && Blocking(a.status) && Blocking(b.status)
  {
  }

  lemma ApartIsSymmetric(a: Booking, b: Booking)
    ensures Apart(a, b) <==> Apart(b, a)
  {
    OverlapIsSymmetric(a.checkIn, a.checkOut, b.checkIn, b.checkOut);
  }

  lemma OneMoreApart(bs: seq<Booking>, b: Booking)
    requires AllApart(bs) && Blocking(b.status)
    ensures AllApart(bs + [b]) <==> !Taken(bs, b.room, b.checkIn, b.checkOut, -1)
  {
    hide Meets;
    var more := bs + [b];
    if i :| 0 <= i < |bs| && WellFormed(b.checkIn, b.checkOut) && Meets(bs[i], b.room, b.checkIn, b.checkOut) {
      assert !Apart(more[|bs|], more[i]);
    } else {
      forall i, j | 0 <= i < |more| && 0 <= j < |more| && i != j ensures Apart(more[i], more[j]) {
        if i == |bs| {
          assert more[j] == bs[j];
        } else if j == |bs| {
          ApartIsSymmetric(bs[i], b);
        } else {
          assert Apart(bs[i], bs[j]);
        }
      }
    }
  }

  lemma FewerApart(bs: seq<Booking>, more: seq<Booking>)
    requires AllApart(bs + more)
    ensures AllApart(bs)
  {
    hide Apart;
    var all := bs + more;
    forall i, j | 0 <= i < |bs| && 0 <= j < |bs| && i != j ensures Apart(bs[i], bs[j]) {
      assert all[i] == bs[i] && all[j] == bs[j] && Apart(all[i], all[j]);
    }
  }

  lemma TakenAfterBulk(bs: seq<Booking>, s: Step, n: nat)
    requires s.BulkStep? && n <= |s.tenants|
    ensures Taken(bs + BulkRows(s)[..n], s.room, s.checkIn, s.checkOut, -1)
      <==> Taken(bs, s.room, s.checkIn, s.checkOut, -1) || (n > 0 && WellFormed(s.checkIn, s.checkOut))
  {
    var rows := BulkRows(s)[..n];
    var all := bs + rows;
    if i :| 0 <= i < |bs| && Meets(bs[i], s.room, s.checkIn, s.checkOut) {
      assert all[i] == bs[i];
    }
    if n > 0 && WellFormed(s.checkIn, s.checkOut) {
      assert all[|bs|] == rows[0] && Meets(all[|bs|], s.room, s.checkIn, s.checkOut);
    }
    if n == 0 {
      assert all == bs;
    }
  }

  lemma {:induction false} BulkRowsApartIff(bs: seq<Booking>, s: Step, n: nat)
    requires s.BulkStep? && AllApart(bs) && n <= |s.tenants|
    ensures AllApart(bs + BulkRows(s)[..n]) <==>
      !(n > 0 && WellFormed(s.checkIn, s.checkOut) && (n > 1 || Taken(bs, s.room, s.checkIn, s.checkOut, -1)))
  {
    hide AllApart, Taken;
    var rows := BulkRows(s);
    if n == 0 {
      assert bs + rows[..0] == bs;
    } else {
      var before := bs + rows[..n - 1];
      assert bs + rows[..n] == before + [rows[n - 1]];
      BulkRowsApartIff(bs, s, n - 1);
      TakenAfterBulk(bs, s, n - 1);
      NeedsADay(bs, s);
      NeedsADay(before, s);
      if AllApart(before) {
        OneMoreApart(before, rows[n - 1]);
      } else if AllApart(bs + rows[..n]) {
        FewerApart(before, [rows[n - 1]]);
      }
    }
  }

  lemma NeedsADay(bs: seq<Booking>, s: Step)
    requires s.BulkStep?
    ensures Taken(bs, s.room, s.checkIn, s.checkOut, -1) ==> WellFormed(s.checkIn, s.checkOut)
  {
  }

  /**
   * A bulk creation double books exactly when its dates cover a day and it has a second member or takes
   * a taken day.
   */
  lemma BulkDoubleBooksIff(w: World, s: Step)
    requires s.BulkStep? && NoDoubleBooking(w.db.bookings)
    ensures NoDoubleBooking(StepWorld(w, s).db.bookings) <==> !DoubleBooks(w, s)
  {
    hide NoDoubleBooking, AllApart, Taken;
    var rows := BulkRows(s);
    BulkAppends(w.db, rows);
    NoDoubleBookingIsApart(w.db.bookings);
    NoDoubleBookingIsApart(StepWorld(w, s).db.bookings);
    BulkRowsApartIff(w.db.bookings, s, |rows|);
    assert rows[..|rows|] == rows;
  }

  lemma ReplacedApart(bs: seq<Booking>, id: nat, row: Booking)
    requires AllApart(bs) && id < |bs|
    requires row.room == bs[id].room && row.checkIn == bs[id].checkIn && row.checkOut == bs[id].checkOut
    ensures AllApart(bs[id := row])
      <==> !(Blocking(row.status) && !Blocking(bs[id].status) && Taken(bs, row.room, row.checkIn, row.checkOut, id))
  {
    var bs' := bs[id := row];
    if Blocking(row.status) && !Blocking(bs[id].status) && Taken(bs, row.room, row.checkIn, row.checkOut, id) {
      var j :| 0 <= j < |bs| && j != id && Meets(bs[j], row.room, row.checkIn, row.checkOut);
      assert !Apart(bs'[id], bs'[j]);
    } else {
      hide Meets, WellFormed;
      forall i, j | 0 <= i < |bs'| && 0 <= j < |bs'| && i != j ensures Apart(bs'[i], bs'[j]) {
        assert Apart(bs[i], bs[j]) && Apart(bs[j], bs[i]);
        ApartIsSymmetric(bs'[i], bs'[j]);
      }
    }
  }

  /** A save double books exactly when it brings a closed booking back onto a day taken since. */
  lemma SaveDoubleBooksIff(w: World, s: Step)
    requires s.SaveStep? && NoDoubleBooking(w.db.bookings) && HoldingsAgree(w)
    ensures NoDoubleBooking(StepWorld(w, s).db.bookings) <==> !DoubleBooks(w, s)
  {
    hide SaveEffects, NoDoubleBooking, AllApart, Taken;
    NoDoubleBookingIsApart(w.db.bookings);
    NoDoubleBookingIsApart(StepWorld(w, s).db.bookings);
    if s.client in w.clients && w.clients[s.client].Loaded? {
      var h := w.clients[s.client];
      ReplacedApart(w.db.bookings, h.id, h.row);
    }
  }

  lemma InsertNeverDoubleBooks(bs: seq<Booking>, b: Booking)
    requires NoDoubleBooking(bs) && Blocking(b.status) && !OverlapExists(bs, b.room, b.checkIn, b.checkOut)
    ensures NoDoubleBooking(bs + [b])
  {
    hide NoDoubleBooking, AllApart;
    NoDoubleBookingIsApart(bs);
    NoDoubleBookingIsApart(bs + [b]);
    OneMoreApart(bs, b);
  }

  lemma DoubleBooksIff(w: World, s: Step)
    requires NoDoubleBooking(w.db.bookings) && HoldingsAgree(w)
    ensures NoDoubleBooking(StepWorld(w, s).db.bookings) <==> !DoubleBooks(w, s)
  {
    hide NoDoubleBooking, HoldingsAgree, OverlapExists;
    match s
    case BulkStep(_, _, _, _) => BulkDoubleBooksIff(w, s);
    case SaveStep(_, _) => SaveDoubleBooksIff(w, s);
    case InsertStep(c) =>
      if c in w.clients && w.clients[c].Checked? && LockedCheck(w.db, w.clients[c].request).None? {
        InsertNeverDoubleBooks(w.db.bookings, NewBooking(w.clients[c].request));
      }
    case _ =>
  }

  /** No state of the run, first and last included, has a double booking. */
  ghost predicate NeverDoubleBooked(w: World, steps: seq<Step>)
    decreases |steps|
  {
    NoDoubleBooking(w.db.bookings) && (steps == [] || NeverDoubleBooked(StepWorld(w, steps[0]), steps[1..]))
  }

  predicate NoStepDoubleBooks(w: World, steps: seq<Step>)
    decreases |steps|
  {
    steps == [] || (!DoubleBooks(w, steps[0]) && NoStepDoubleBooks(StepWorld(w, steps[0]), steps[1..]))
  }

  /**
   * However many clients interleave, and however stale their pre-checks, a run never has a double
   * booking if and only if none of its bulk creations and saves is one of those above.
   */
  lemma {:induction false} NeverDoubleBookedIff(w: World, steps: seq<Step>)
    requires NoDoubleBooking(w.db.bookings) && HoldingsAgree(w)
    ensures NeverDoubleBooked(w, steps) <==> NoStepDoubleBooks(w, steps)
    decreases |steps|
  {
    hide NoDoubleBooking, HoldingsAgree, StepWorld, DoubleBooks;
    if steps != [] {
      DoubleBooksIff(w, steps[0]);
      if !DoubleBooks(w, steps[0]) {
        HoldingsAgreeAfterStep(w, steps[0]);
        NeverDoubleBookedIff(StepWorld(w, steps[0]), steps[1..]);
      }
    }
  }

  // ---------------------------------------------------------------- the unguarded save, concretely

  lemma FirstStep(w: World, s: Step, steps: seq<Step>)
    ensures RunWorld(w, [s] + steps) == RunWorld(StepWorld(w, s), steps)
  {
    hide StepWorld;
    assert ([s] + steps)[1..] == steps;
  }

  /**
   * Owner 0 loads tenant 1's pending booking to approve it; tenant 1 cancels; tenant 2 books the same
   * days; the owner's save lands.
   */
  function StaleApproval(): seq<Step> {
    [PreCheckStep(1, Request(7, 1, 10, Some(20), None, 0.0)), InsertStep(1),
     LoadStep(0, 0, 0, Change(Some(Approved), None), false)]
    + [LoadStep(1, 0, 1, Change(Some(Cancelled), None), false), SaveStep(1, false)]
    + [PreCheckStep(2, Request(7, 2, 10, Some(20), None, 0.0)), InsertStep(2)]
  }

  /** From an empty table, that interleaving ends in a save that double books: the update path takes no lock. */
  lemma StaleSaveDoubleBooks(w0: World)
    requires w0 == World(Db(map[7 := Room(0, true)], [], []), map[])
    ensures var w := RunWorld(w0, StaleApproval());
      && NoDoubleBooking(w.db.bookings)
      && !NoDoubleBooking(StepWorld(w, SaveStep(0, false)).db.bookings)
  {
    hide RunWorld, StepWorld, NoDoubleBooking;
    var w := AfterCancel(w0);
    var steps := [PreCheckStep(2, Request(7, 2, 10, Some(20), None, 0.0)), InsertStep(2)];
    RunSplit(w0, StaleApproval()[..5], steps);
    assert StaleApproval() == StaleApproval()[..5] + steps;
    var w2 := StepWorld(StepWorld(w, steps[0]), steps[1]);
    TwoSteps(w, steps[0], steps[1]);
    Rebooked(w);
    Resurrected(w2);
  }

  /** With the first booking cancelled the second client gets the room; the first client still holds its approval. */
  lemma Rebooked(w: World)
    requires w.db.rooms == map[7 := Room(0, true)]
    requires w.db.bookings == [NewBooking(Request(7, 1, 10, Some(20), None, 0.0)).(status := Cancelled)]
    requires w.clients == map[0 :=
      Loaded(0, 0, Pending, NewBooking(Request(7, 1, 10, Some(20), None, 0.0)).(status := Approved))]
    ensures var first, second := Request(7, 1, 10, Some(20), None, 0.0), Request(7, 2, 10, Some(20), None, 0.0);
      var w2 := StepWorld(StepWorld(w, PreCheckStep(2, second)), InsertStep(2));
      && w2.db.bookings == [NewBooking(first).(status := Cancelled), NewBooking(second)]
      && w2.clients == w.clients
      && NoDoubleBooking(w2.db.bookings)
  {
    var second := Request(7, 2, 10, Some(20), None, 0.0);
    assert PreCheck(w.db, second).None?;
    var w1 := StepWorld(w, PreCheckStep(2, second));
    assert w1.db == w.db && w1.clients[2] == Checked(second);
    assert LockedCheck(w1.db, second).None?;
    assert w1.clients - {2} == w.clients;
  }

  lemma Resurrected(w: World)
    requires w.db.bookings == [NewBooking(Request(7, 1, 10, Some(20), None, 0.0)).(status := Cancelled),
                               NewBooking(Request(7, 2, 10, Some(20), None, 0.0))]
    requires w.clients == map[0 :=
      Loaded(0, 0, Pending, NewBooking(Request(7, 1, 10, Some(20), None, 0.0)).(status := Approved))]
    ensures !NoDoubleBooking(StepWorld(w, SaveStep(0, false)).db.bookings)
  {
    var after := StepWorld(w, SaveStep(0, false));
    assert after.db.bookings[0] == w.clients[0].row && after.db.bookings[1] == w.db.bookings[1];
    var day: Date := 10;
    assert Covers(after.db.bookings[0].checkIn, after.db.bookings[0].checkOut, day)
        && Covers(after.db.bookings[1].checkIn, after.db.bookings[1].checkOut, day);
  }

  lemma TwoSteps(w: World, s: Step, t: Step)
    ensures RunWorld(w, [s, t]) == StepWorld(StepWorld(w, s), t)
  {
    hide StepWorld;
    assert [s, t] == [s] + [t] && [t] == [t] + [];
    FirstStep(w, s, [t]);
    FirstStep(StepWorld(w, s), t, []);
  }

  lemma {:induction false} RunSplit(w: World, a: seq<Step>, b: seq<Step>)
    ensures RunWorld(w, a + b) == RunWorld(RunWorld(w, a), b)
    decreases |a|
  {
    hide StepWorld;
    if a == [] {
      assert a + b == b;
    } else {
      assert (a + b)[1..] == a[1..] + b;
      RunSplit(StepWorld(w, a[0]), a[1..], b);
    }
  }

  lemma AfterCancel(w0: World) returns (w: World)
    requires w0 == World(Db(map[7 := Room(0, true)], [], []), map[])
    ensures w == RunWorld(w0, StaleApproval()[..5])
    ensures w.db.rooms == w0.db.rooms
    ensures var first := NewBooking(Request(7, 1, 10, Some(20), None, 0.0));
      && w.db.bookings == [first.(status := Cancelled)]
      && w.clients == map[0 := Loaded(0, 0, Pending, first.(status := Approved))]
  {
    var first := Request(7, 1, 10, Some(20), None, 0.0);
    var s := StaleApproval();
    var w1 := StepWorld(w0, s[0]);
    var w2 := StepWorld(w1, s[1]);
    assert w2.db.bookings == [NewBooking(first)];
    assert w2.clients == map[];
    var w3 := StepWorld(w2, s[2]);
    assert w3.clients == map[0 := Loaded(0, 0, Pending, NewBooking(first).(status := Approved))];
    var w4 := StepWorld(w3, s[3]);
    w := StepWorld(w4, s[4]);
    assert w.clients == w3.clients;
    assert s[..5] == [s[0]] + ([s[1]] + [s[2]] + [s[3], s[4]]);
    FirstStep(w0, s[0], [s[1]] + [s[2]] + [s[3], s[4]]);
    assert [s[1]] + [s[2]] + [s[3], s[4]] == [s[1]] + ([s[2]] + [s[3], s[4]]);
    FirstStep(w1, s[1], [s[2]] + [s[3], s[4]]);
    FirstStep(w2, s[2], [s[3], s[4]]);
    TwoSteps(w3, s[3], s[4]);
  }
}
