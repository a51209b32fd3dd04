/**
 * Booking creation, update and the signals that follow a save (backend/bookings, backend/brokers,
 * backend/corporate).
 */
module Bookings {
  import opened Common

  /** `date.max`, as a day number. */
  const MAX_DATE: int := 3652059

  type Date = d: int | 1 <= d <= MAX_DATE witness 1

  datatype Status = Pending | Approved | Rejected | Cancelled

  datatype Booking = Booking(
    room: nat, tenant: nat, status: Status, checkIn: Date, checkOut: Option<Date>,
    broker: Option<nat>, deposit: real, depositPaid: bool, agreementSigned: bool)

  datatype Room = Room(owner: nat, available: bool)

  datatype Request = Request(
    room: nat, tenant: nat, checkIn: Date, checkOut: Option<Date>, broker: Option<nat>, deposit: real)

  datatype Error =
    | NoSuchRoom | OwnRoom | RoomUnavailable | OverlappingBooking
    | NotFound | NoPermission | BadTransition | DepositUnpaid | AgreementTooEarly

  // ---------------------------------------------------------------- dates

  predicate Blocking(s: Status) {
    s in {Pending, Approved}
  }

  function End(checkOut: Option<Date>): Date {
    if checkOut.Some? then checkOut.value else MAX_DATE
  }

  /** The date half of the overlap query, for an existing interval and a new one. */
  predicate DatesOverlap(checkIn: Date, checkOut: Option<Date>, newIn: Date, newOut: Option<Date>) {
    checkIn <= End(newOut) && (checkOut.None? || checkOut.value >= newIn)
  }

  predicate Blocks(b: Booking, room: nat, newIn: Date, newOut: Option<Date>) {
    b.room == room && Blocking(b.status) && DatesOverlap(b.checkIn, b.checkOut, newIn, newOut)
  }

  /** `_overlap_exists`. */
  predicate OverlapExists(bookings: seq<Booking>, room: nat, newIn: Date, newOut: Option<Date>) {
    exists i :: 0 <= i < |bookings| && Blocks(bookings[i], room, newIn, newOut)
  }

  predicate WellFormed(checkIn: Date, checkOut: Option<Date>) {
    checkIn <= End(checkOut)
  }

  predicate Covers(checkIn: Date, checkOut: Option<Date>, day: Date) {
    checkIn <= day <= End(checkOut)
  }

  /** It does not matter which of two bookings was there first. */
  lemma OverlapIsSymmetric(in1: Date, out1: Option<Date>, in2: Date, out2: Option<Date>)
    ensures DatesOverlap(in1, out1, in2, out2) <==> DatesOverlap(in2, out2, in1, out1)
  {
  }

  /** The query finds exactly the shared days, once both intervals are the right way round. */
  lemma OverlapIsSharedDay(in1: Date, out1: Option<Date>, in2: Date, out2: Option<Date>)
    ensures (exists day: Date :: Covers(in1, out1, day) && Covers(in2, out2, day))
      <==> DatesOverlap(in1, out1, in2, out2) && WellFormed(in1, out1) && WellFormed(in2, out2)
  {
    if DatesOverlap(in1, out1, in2, out2) && WellFormed(in1, out1) && WellFormed(in2, out2) {
      var day: Date := if in1 <= in2 then in2 else in1;
      assert Covers(in1, out1, day) && Covers(in2, out2, day);
    }
  }

  // ---------------------------------------------------------------- signals

  datatype Notice = RequestedNotice | ApprovedNotice | RejectedNotice | CancelledNotice

  /** What saving a booking sets off, in order. */
  datatype Effect =
    | Notify(booking: nat, user: nat, notice: Notice)
    | Confirmed(booking: nat)
    | Schedule(booking: nat)
    | Commission(booking: nat)

  /** `notify_on_booking_change`, given the status `_capture_previous_booking_status` stashed. */
  function NotifyEffects(previous: Option<Status>, id: nat, b: Booking, owner: nat): seq<Effect> {
    if previous.None? then [Notify(id, owner, RequestedNotice)]
    else if previous.value == b.status then []
    else match b.status
      case Approved => [Confirmed(id), Notify(id, b.tenant, ApprovedNotice), Schedule(id)]
      case Rejected => [Notify(id, b.tenant, RejectedNotice)]
      case Cancelled => [Notify(id, owner, CancelledNotice)]
      case Pending => []
  }

  /** `on_booking_approved`. */
  function CommissionEffects(previous: Option<Status>, id: nat, b: Booking, brokerVerified: bool): seq<Effect> {
    if previous.None? || b.status != Approved || previous == Some(Approved) then []
    else if b.broker.None? || !brokerVerified then []
    else [Commission(id)]
  }

  function SaveEffects(previous: Option<Status>, id: nat, b: Booking, owner: nat, brokerVerified: bool): seq<Effect> {
    NotifyEffects(previous, id, b, owner) + CommissionEffects(previous, id, b, brokerVerified)
  }

  // ---------------------------------------------------------------- the tables and their operations

  datatype Db = Db(rooms: map<nat, Room>, bookings: seq<Booking>, effects: seq<Effect>)

  function OwnerOf(db: Db, room: nat): nat {
    if room in db.rooms then db.rooms[room].owner else 0
  }

  /** `BookingCreateSerializer.validate`: the unlocked pre-check. */
  function PreCheck(db: Db, r: Request): Option<Error> {
    if r.room !in db.rooms then Some(NoSuchRoom)
    else if db.rooms[r.room].owner == r.tenant then Some(OwnRoom)
    else if !db.rooms[r.room].available then Some(RoomUnavailable)
    else if OverlapExists(db.bookings, r.room, r.checkIn, r.checkOut) then Some(OverlappingBooking)
    else None
  }

  /** The locked re-check in `create`. */
  function LockedCheck(db: Db, r: Request): Option<Error> {
    if r.room !in db.rooms then Some(NoSuchRoom)
    else if !db.rooms[r.room].available then Some(RoomUnavailable)
    else if OverlapExists(db.bookings, r.room, r.checkIn, r.checkOut) then Some(OverlappingBooking)
    else None
  }

  function NewBooking(r: Request): Booking {
    Booking(r.room, r.tenant, Pending, r.checkIn, r.checkOut, r.broker, r.deposit, false, false)
  }

  function Inserted(db: Db, b: Booking): Db {
    db.(bookings := db.bookings + [b],
        effects := db.effects + SaveEffects(None, |db.bookings|, b, OwnerOf(db, b.room), false))
  }

  function InsertedAll(db: Db, bs: seq<Booking>): Db {
    if bs == [] then db else Inserted(InsertedAll(db, bs[..|bs| - 1]), bs[|bs| - 1])
  }

  datatype Change = Change(status: Option<Status>, agreementSigned: Option<bool>)

  /** `BookingUpdateSerializer.validate`. */
  function CheckUpdate(b: Booking, owner: nat, user: nat, change: Change, requireDeposit: bool): Option<Error> {
    var transition :=
      if change.status.None? || change.status.value == b.status then None
      else
        var target := change.status.value;
        var allowed: set<Status> :=
          if owner == user && b.tenant != user then (if b.status == Pending then {Approved, Rejected} else {})
          else if b.tenant == user then (if b.status in {Pending, Approved} then {Cancelled} else {})
          else {};
        if owner != user && b.tenant != user then Some(NoPermission)
        else if target !in allowed then Some(BadTransition)
        else if target == Approved && requireDeposit && b.deposit > 0.0 && !b.depositPaid then Some(DepositUnpaid)
        else None;
    if transition.Some? then transition
    else if change.agreementSigned == Some(true) && b.status != Approved then Some(AgreementTooEarly)
    else None
  }

  function Changed(b: Booking, change: Change): Booking {
    b.(status := if change.status.Some? then change.status.value else b.status,
       agreementSigned := if change.agreementSigned.Some? then change.agreementSigned.value else b.agreementSigned)
  }

  /** Loading and validating an update; the row to be written back on success. */
  function LoadUpdate(db: Db, id: nat, user: nat, change: Change, requireDeposit: bool)
      : (Option<Booking>, Option<Error>)
  {
    if id >= |db.bookings| then (None, Some(NotFound))
    else
      var b := db.bookings[id];
      var owner := OwnerOf(db, b.room);
      if b.tenant != user && owner != user then (None, Some(NotFound))
      else match CheckUpdate(b, owner, user, change, requireDeposit)
        case Some(e) => (None, Some(e))
        case None => (Some(Changed(b, change)), None)
  }

  /** A full-row save of an existing booking, with its signals. */
  function Saved(db: Db, id: nat, row: Booking, brokerVerified: bool): Db
    requires id < |db.bookings|
  {
    db.(bookings := db.bookings[id := row],
        effects := db.effects + SaveEffects(Some(db.bookings[id].status), id, row, OwnerOf(db, row.room),
          brokerVerified))
  }

  class BookingService {
    var rooms: map<nat, Room>
    var bookings: seq<Booking>
    var effects: seq<Effect>

    constructor (rooms: map<nat, Room>)
      ensures State() == Db(rooms, [], [])
    {
      this.rooms, bookings, effects := rooms, [], [];
    }

    function State(): Db
      reads this
    {
      Db(rooms, bookings, effects)
    }

    /** One transaction under the room lock: re-check, insert, signals. */
    method Create(r: Request) returns (error: Option<Error>)
      modifies this
      ensures error == LockedCheck(old(State()), r)
      ensures State() == if error.None? then Inserted(old(State()), NewBooking(r)) else old(State())
    {
      if r.room !in rooms { return Some(NoSuchRoom); }
      if !rooms[r.room].available { return Some(RoomUnavailable); }
      if OverlapExists(bookings, r.room, r.checkIn, r.checkOut) { return Some(OverlappingBooking); }
      Insert(NewBooking(r));
      error := None;
    }

    method Insert(b: Booking)
      modifies this
      ensures State() == Inserted(old(State()), b)
    {
      effects := effects + SaveEffects(None, |bookings|, b, OwnerOf(State(), b.room), false);
      bookings := bookings + [b];
    }

    method Save(id: nat, row: Booking, brokerVerified: bool)
      requires id < |bookings|
      modifies this
      ensures State() == Saved(old(State()), id, row, brokerVerified)
    {
      var previous := bookings[id].status;
      effects := effects + SaveEffects(Some(previous), id, row, OwnerOf(State(), row.room), brokerVerified);
      bookings := bookings[id := row];
    }

    /** Corporate bulk creation: one pending booking per member, with no availability or overlap check. */
    method BulkCreate(rows: seq<Booking>)
      modifies this
      ensures State() == InsertedAll(old(State()), rows)
    {
      var i := 0;
      while i < |rows|
        invariant i <= |rows|
        invariant State() == InsertedAll(old(State()), rows[..i])
      {
        assert rows[..i + 1][..i] == rows[..i];
        Insert(rows[i]);
        i := i + 1;
      }
      assert rows[..i] == rows;
    }
  }
}
