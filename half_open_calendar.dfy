/** calendar.py, and calendar_v2.py, which is the same program: a stand-alone
    booking page whose `insert_booking` counts the rows that overlap the
    request with the half-open test and inserts only when there are none. */
module HalfOpenCalendar {
  import opened Wrappers
  import opened Overlap
  import opened BookingStore

  /** The `booking` dict of the page. */
  datatype Booking = Booking(
    firstName: string,
    lastName: string,
    email: string,
    phone: string,
    roomId: int,
    checkIn: int,
    checkOut: int,
    numGuests: int,
    totalPrice: int,
    specialRequests: string)

  function RequestedStay(b: Booking): Stay {
    Stay(b.roomId, b.checkIn, b.checkOut)
  }

  /** The INSERT writes every column but the booking number. */
  function NewRow(id: nat, b: Booking): BookingRow {
    BookingRow(id, b.firstName, b.lastName, b.email, Some(b.phone), b.roomId, b.checkIn, b.checkOut,
               Some(b.numGuests), Some(b.totalPrice), b.specialRequests, None)
  }

  /** `SELECT COUNT(*) … WHERE room_id = … AND NOT (in >= check_out OR out <= check_in)`. */
  function ConflictCount(rows: seq<BookingRow>, n: Stay): (c: nat)
    ensures c <= |rows|
    ensures c > 0 <==> AnyHalfOpenConflict(StaysOf(rows), n)
  {
    if rows == [] then 0
    else
      var rest := ConflictCount(rows[1..], n);
      assert forall i :: 1 <= i < |rows| ==> StaysOf(rows)[i] == StaysOf(rows[1..])[i - 1];
      (if HalfOpenConflict(StayOf(rows[0]), n) then 1 else 0) + rest
  }

  datatype Status = Success | Conflict | Error

  /** The exception that escapes when connecting fails: the `finally` block
      reads `conn`, which was never assigned. */
  const UnboundConnection := "cannot access local variable 'conn' where it is not associated with a value"

  /** What `insert_booking` returns, or raises, and the table afterwards. The
      page has no UPDATE, so that fault cannot arise. */
  function InsertSpec(t: Table, b: Booking, fault: DbFault): (o: (Outcome<Status>, Table))
    requires !fault.UpdateFails?
    ensures o.0 == Ok(Success) <==> fault.NoFault? && !AnyHalfOpenConflict(StaysOf(t.rows), RequestedStay(b))
    ensures o.0 == Ok(Success) ==> o.1 == Table(t.rows + [NewRow(t.nextId, b)], t.nextId + 1)
    ensures o.0 != Ok(Success) ==> o.1 == t
    ensures fault.ConnectFails? ==> o.0 == Raised(UnboundConnection)
    ensures fault.SelectFails? ==> o.0 == Ok(Error)
    ensures (fault.NoFault? || fault.InsertFails?) && AnyHalfOpenConflict(StaysOf(t.rows), RequestedStay(b))
      ==> o.0 == Ok(Conflict)
    ensures fault.InsertFails? && !AnyHalfOpenConflict(StaysOf(t.rows), RequestedStay(b)) ==> o.0 == Ok(Error)
  {
    if fault.ConnectFails? then (Raised(UnboundConnection), t)
    else if fault.SelectFails? then (Ok(Error), t)
    else if ConflictCount(t.rows, RequestedStay(b)) > 0 then (Ok(Conflict), t)
    else if fault.InsertFails? then (Ok(Error), t)
    else
      (Ok(Success), Table(t.rows + [NewRow(t.nextId, b)], t.nextId + 1))
  }

  /** One call keeps an overlap-free table overlap-free. */
  lemma InsertPreserves(t: Table, b: Booking, fault: DbFault)
    requires !fault.UpdateFails? && NoOverlap(StaysOf(t.rows))
    ensures NoOverlap(StaysOf(InsertSpec(t, b, fault).1.rows))
  {
    var o := InsertSpec(t, b, fault);
    if o.1 != t {
      StaysOfSnoc(t.rows, NewRow(t.nextId, b));
      InsertPreservesNoOverlap(StaysOf(t.rows), RequestedStay(b));
    }
  }

  /** `insert_booking(data)` on the table `store`. */
  method InsertBooking(store: Store, b: Booking, fault: DbFault) returns (r: Outcome<Status>)
    requires store.Valid() && !fault.UpdateFails?
    modifies store
    ensures store.Valid()
    ensures (r, store.Contents()) == InsertSpec(old(store.Contents()), b, fault)
  {
    if fault.ConnectFails? {
      return Raised(UnboundConnection);
    }
    if fault.SelectFails? {
      return Ok(Error);
    }
    var count := ConflictCount(store.rows, RequestedStay(b));
    if count > 0 {
      return Ok(Conflict);
    }
    if fault.InsertFails? {
      return Ok(Error);
    }
    var id := store.Insert(NewRow(0, b));
    assert NewRow(0, b).(bookingId := id) == NewRow(id, b);
    r := Ok(Success);
  }

  /** A sequence of calls, each with its own database behaviour. */
  function InsertMany(t: Table, requests: seq<(Booking, DbFault)>): Table
    requires forall k :: 0 <= k < |requests| ==> !requests[k].1.UpdateFails?
    decreases |requests|
  {
    if requests == [] then t
    else InsertMany(InsertSpec(t, requests[0].0, requests[0].1).1, requests[1..])
  }

  /** Starting from an overlap-free table, any sequence of calls keeps every
      room overlap-free. */
  lemma {:induction false} InsertManyPreservesNoOverlap(t: Table, requests: seq<(Booking, DbFault)>)
    requires forall k :: 0 <= k < |requests| ==> !requests[k].1.UpdateFails?
    requires NoOverlap(StaysOf(t.rows))
    ensures NoOverlap(StaysOf(InsertMany(t, requests).rows))
    decreases |requests|
  {
    if requests != [] {
      var t1 := InsertSpec(t, requests[0].0, requests[0].1).1;
      InsertPreserves(t, requests[0].0, requests[0].1);
      InsertManyPreservesNoOverlap(t1, requests[1..]);
    }
  }

  /** Back-to-back stays are not conflicts: a request starting on the day an
      existing stay ends is accepted. */
  lemma BackToBackAccepted(t: Table, row: BookingRow, b: Booking)
    requires t.rows == [row] && row.roomId == b.roomId && b.checkIn == row.checkOut
    ensures InsertSpec(t, b, NoFault).0 == Ok(Success)
  {
    assert !HalfOpenConflict(StaysOf(t.rows)[0], RequestedStay(b));
  }

  /** The page's input widgets and the chosen room. */
  datatype PageForm = PageForm(
    firstName: string,
    lastName: string,
    email: string,
    phone: string,
    checkIn: int,
    checkOut: int,
    numGuests: int,
    specialRequests: string)

  /** Nights times the room's price; the guest count plays no part. */
  function Price(room: Room, f: PageForm): int {
    (f.checkOut - f.checkIn) * room.price
  }

  lemma PriceIgnoresGuests(room: Room, f: PageForm, g: int)
    ensures Price(room, f.(numGuests := g)) == Price(room, f)
  {
  }

  /** All four text fields must be non-empty. */
  predicate Complete(f: PageForm) {
    f.firstName != [] && f.lastName != [] && f.email != [] && f.phone != []
  }

  datatype PageResult = Incomplete | CheckOutNotAfterCheckIn | Inserted(status: Status)

  function BookingOf(room: Room, f: PageForm): Booking {
    Booking(f.firstName, f.lastName, f.email, f.phone, room.roomId, f.checkIn, f.checkOut,
            f.numGuests, Price(room, f), f.specialRequests)
  }

  /** The "Confirm Booking" button: validation, then `insert_booking`. */
  function ConfirmSpec(t: Table, room: Room, f: PageForm, fault: DbFault): (o: (Outcome<PageResult>, Table))
    requires !fault.UpdateFails?
    ensures !Complete(f) ==> o == (Ok(Incomplete), t)
    ensures Complete(f) && f.checkOut <= f.checkIn ==> o == (Ok(CheckOutNotAfterCheckIn), t)
    ensures o.1 != t ==>
      Complete(f) && f.checkIn < f.checkOut && o == (Ok(Inserted(Success)), o.1)
      && o.1.rows == t.rows + [NewRow(t.nextId, BookingOf(room, f))]
    ensures Complete(f) && f.checkIn < f.checkOut ==>
      var (status, t1) := InsertSpec(t, BookingOf(room, f), fault);
      o.1 == t1 && o.0 == (if status.Ok? then Ok(Inserted(status.value)) else Raised(status.message))
  {
    if !Complete(f) then (Ok(Incomplete), t)
    else if f.checkOut <= f.checkIn then (Ok(CheckOutNotAfterCheckIn), t)
    else
      var (status, t1) := InsertSpec(t, BookingOf(room, f), fault);
      match status
      case Ok(st) => (Ok(Inserted(st)), t1)
      case Raised(m) => (Raised(m), t1)
  }

  /** The script flow on one press of the button. The guest count comes from
      a widget bounded by 1 and the room's capacity. */
  method ConfirmBooking(store: Store, room: Room, f: PageForm, fault: DbFault) returns (r: Outcome<PageResult>)
    requires store.Valid() && !fault.UpdateFails?
    requires 1 <= f.numGuests <= room.guestCapacity
    modifies store
    ensures store.Valid()
    ensures (r, store.Contents()) == ConfirmSpec(old(store.Contents()), room, f, fault)
  {
    if !Complete(f) {
      return Ok(Incomplete);
    }
    if f.checkOut <= f.checkIn {
      return Ok(CheckOutNotAfterCheckIn);
    }
    var status := InsertBooking(store, BookingOf(room, f), fault);
    match status {
      case Ok(st) => r := Ok(Inserted(st));
      case Raised(m) => r := Raised(m);
    }
  }

  /** A complete form with ordered dates, for a room with no overlapping
      stay, is booked when the database does not fail: the page reports
      success and the table gains exactly the submitted booking. */
  lemma ValidFormBooked(t: Table, room: Room, f: PageForm)
    requires Complete(f) && f.checkIn < f.checkOut
    requires !AnyHalfOpenConflict(StaysOf(t.rows), Stay(room.roomId, f.checkIn, f.checkOut))
    ensures ConfirmSpec(t, room, f, NoFault) ==
      (Ok(Inserted(Success)), Table(t.rows + [NewRow(t.nextId, BookingOf(room, f))], t.nextId + 1))
  {
    assert RequestedStay(BookingOf(room, f)) == Stay(room.roomId, f.checkIn, f.checkOut);
  }

  /** A complete form with ordered dates that overlaps a stay in the room is
      refused as a conflict, and the table is unchanged. */
  lemma OverlappingFormRefused(t: Table, room: Room, f: PageForm)
    requires Complete(f) && f.checkIn < f.checkOut
    requires AnyHalfOpenConflict(StaysOf(t.rows), Stay(room.roomId, f.checkIn, f.checkOut))
    ensures ConfirmSpec(t, room, f, NoFault) == (Ok(Inserted(Conflict)), t)
  {
    assert RequestedStay(BookingOf(room, f)) == Stay(room.roomId, f.checkIn, f.checkOut);
  }

  /** Every stay the page inserts has at least one night and a positive-or-zero
      price for a room with a non-negative price. */
  lemma InsertedStayIsProper(t: Table, room: Room, f: PageForm, fault: DbFault)
    requires !fault.UpdateFails? && room.price >= 0
    requires ConfirmSpec(t, room, f, fault).1 != t
    ensures var row := ConfirmSpec(t, room, f, fault).1.rows[|t.rows|];
      row.checkIn < row.checkOut && row.totalPrice.Some? && row.totalPrice.value >= 0
  {
  }
}
