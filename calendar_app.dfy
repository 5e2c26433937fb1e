/** calendar_app.py: an earlier stand-alone booking page. Its `insert_booking`
    uses the same two-clause conflict test as booking/calendar.py, writes only
    names, email, room, dates and special requests, and returns the new id.
    The form hands its values to `insert_booking` without any check. */
module CalendarApp {
  import opened Wrappers
  import opened Overlap
  import opened BookingStore

  const ConflictMessage := "This room is already booked for the selected dates."

  /** Raised from the `finally` block when connecting failed: `conn` was never assigned. */
  const UnboundConnection := "cannot access local variable 'conn' where it is not associated with a value"

  /** The form's `booking_data` dict. */
  datatype AppBooking = AppBooking(
    firstName: string,
    lastName: string,
    email: string,
    roomId: int,
    checkIn: int,
    checkOut: int,
    specialRequests: string)

  function RequestedStay(b: AppBooking): Stay {
    Stay(b.roomId, b.checkIn, b.checkOut)
  }

  /** The seven columns the INSERT writes; phone, guests, price and number stay empty. */
  function NewRow(id: nat, b: AppBooking): BookingRow {
    BookingRow(id, b.firstName, b.lastName, b.email, None, b.roomId, b.checkIn, b.checkOut,
               None, None, b.specialRequests, None)
  }

  /** Whether the conflict SELECT returns any row. */
  function HasConflict(rows: seq<BookingRow>, n: Stay): (r: bool)
    ensures r <==> AnyTwoClauseConflict(StaysOf(rows), n)
  {
    if rows == [] then false
    else
      assert forall i :: 1 <= i < |rows| ==> StaysOf(rows)[i] == StaysOf(rows[1..])[i - 1];
      TwoClauseConflict(StayOf(rows[0]), n) || HasConflict(rows[1..], n)
  }

  /** `(success, result)`: the new `booking_id`, or a message. */
  datatype AppResult = Inserted(bookingId: nat) | NotInserted(message: string)

  /** `insert_booking`'s value, or the exception it raises, and the table
      afterwards. A failing query or insert comes back as `(False, str(e))`;
      a failing connection escapes as an exception. */
  function InsertSpec(t: Table, b: AppBooking, fault: DbFault): (o: (Outcome<AppResult>, Table))
    requires !fault.UpdateFails?
    ensures o.0.Ok? && o.0.value.Inserted? <==> fault.NoFault? && !AnyTwoClauseConflict(StaysOf(t.rows), RequestedStay(b))
    ensures o.0.Ok? && o.0.value.Inserted? ==>
      o.0.value.bookingId == t.nextId && o.1 == Table(t.rows + [NewRow(t.nextId, b)], t.nextId + 1)
    ensures !(o.0.Ok? && o.0.value.Inserted?) ==> o.1 == t
    ensures fault.ConnectFails? ==> o.0 == Raised(UnboundConnection)
    ensures (fault.NoFault? || fault.InsertFails?) && AnyTwoClauseConflict(StaysOf(t.rows), RequestedStay(b))
      ==> o.0 == Ok(NotInserted(ConflictMessage))
    ensures fault.SelectFails? || (fault.InsertFails? && !AnyTwoClauseConflict(StaysOf(t.rows), RequestedStay(b)))
      ==> o.0 == Ok(NotInserted(fault.message))
  {
    if fault.ConnectFails? then (Raised(UnboundConnection), t)
    else if fault.SelectFails? then (Ok(NotInserted(fault.message)), t)
    else if HasConflict(t.rows, RequestedStay(b)) then (Ok(NotInserted(ConflictMessage)), t)
    else if fault.InsertFails? then (Ok(NotInserted(fault.message)), t)
    else (Ok(Inserted(t.nextId)), Table(t.rows + [NewRow(t.nextId, b)], t.nextId + 1))
  }

  /** `insert_booking(data)` on the table `store`. */
  method InsertBooking(store: Store, b: AppBooking, fault: DbFault) returns (r: Outcome<AppResult>)
    requires store.Valid() && !fault.UpdateFails?
    modifies store
    ensures store.Valid()
    ensures (r, store.Contents()) == InsertSpec(old(store.Contents()), b, fault)
  {
    if fault.ConnectFails? {
      return Raised(UnboundConnection);
    }
    if fault.SelectFails? {
      return Ok(NotInserted(fault.message));
    }
    var conflict := HasConflict(store.rows, RequestedStay(b));
    if conflict {
      return Ok(NotInserted(ConflictMessage));
    }
    if fault.InsertFails? {
      return Ok(NotInserted(fault.message));
    }
    var id := store.Insert(NewRow(0, b));
    assert NewRow(0, b).(bookingId := id) == NewRow(id, b);
    r := Ok(Inserted(id));
  }

  /** A new stay that strictly encloses an existing one in the same room is
      inserted: a table holding nights 10-11 of room 1 accepts nights 9-12. */
  lemma EnclosingStayInserted()
    ensures var row := NewRow(1, AppBooking("A", "B", "a@b", 1, 10, 12, ""));
      var t := Table([row], 2);
      var o := InsertSpec(t, AppBooking("C", "D", "c@d", 1, 9, 13, ""), NoFault);
      o.0 == Ok(Inserted(2)) && !NoOverlap(StaysOf(o.1.rows))
  {
    var row := NewRow(1, AppBooking("A", "B", "a@b", 1, 10, 12, ""));
    var b := AppBooking("C", "D", "c@d", 1, 9, 13, "");
    var t := Table([row], 2);
    assert !TwoClauseConflict(StaysOf(t.rows)[0], RequestedStay(b));
    var o := InsertSpec(t, b, NoFault);
    assert Overlaps(StaysOf(o.1.rows)[0], StaysOf(o.1.rows)[1]);
  }

  /** The submitted widget values; `roomIndex` picks the room from the list. */
  datatype AppForm = AppForm(
    firstName: string,
    lastName: string,
    email: string,
    roomIndex: nat,
    checkIn: int,
    checkOut: int,
    specialRequests: string)

  function BookingOf(rooms: seq<Room>, f: AppForm): AppBooking
    requires f.roomIndex < |rooms|
  {
    AppBooking(f.firstName, f.lastName, f.email, rooms[f.roomIndex].roomId, f.checkIn, f.checkOut, f.specialRequests)
  }

  /** Submitting the form: whatever the fields hold, and whatever the order
      of the dates, the values go straight to `insert_booking`. */
  method Submit(store: Store, rooms: seq<Room>, f: AppForm, fault: DbFault) returns (r: Outcome<AppResult>)
    requires store.Valid() && !fault.UpdateFails? && f.roomIndex < |rooms|
    modifies store
    ensures store.Valid()
    ensures (r, store.Contents()) == InsertSpec(old(store.Contents()), BookingOf(rooms, f), fault)
  {
    r := InsertBooking(store, BookingOf(rooms, f), fault);
  }

  /** Even a form with empty names and a check-out before the check-in is
      stored, under the next id, in any table where nothing conflicts. */
  lemma UnvalidatedFormInserted(t: Table, rooms: seq<Room>, f: AppForm)
    requires f.roomIndex < |rooms|
    requires f.firstName == [] && f.email == [] && f.checkOut < f.checkIn
    requires !AnyTwoClauseConflict(StaysOf(t.rows), RequestedStay(BookingOf(rooms, f)))
    ensures InsertSpec(t, BookingOf(rooms, f), NoFault) ==
      (Ok(Inserted(t.nextId)), Table(t.rows + [NewRow(t.nextId, BookingOf(rooms, f))], t.nextId + 1))
  {
  }
}
