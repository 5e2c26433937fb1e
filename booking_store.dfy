/** The `bookings` table of the hotel database, as the booking code sees it:
    rows in insertion order and the auto-increment counter that hands out
    `booking_id`s (`cursor.lastrowid`). A database failure is an input. */
module BookingStore {
  import opened Wrappers
  import opened Overlap
  import opened BookingNumber

  /** One row of `bookings`. Columns a variant does not write are `None`. */
  datatype BookingRow = BookingRow(
    bookingId: nat,
    firstName: string,
    lastName: string,
    email: string,
    phone: Option<string>,
    roomId: int,
    checkIn: int,
    checkOut: int,
    numGuests: Option<int>,
    totalPrice: Option<int>,
    specialRequests: string,
    bookingNumber: Option<string>)

  /** One row of `rooms`; prices are whole euros per night. `description`
      is `None` when the row has no such entry. */
  datatype Room = Room(roomId: int, roomType: string, price: int, guestCapacity: int, description: Option<string>)

  /** Where the database raises, if it does: when connecting, on the conflict
      SELECT, on the INSERT (nothing committed), or on the UPDATE that writes
      the booking number (the row has been committed already). */
  datatype DbFault =
    | NoFault
    | ConnectFails(message: string)
    | SelectFails(message: string)
    | InsertFails(message: string)
    | UpdateFails(message: string)

  function StayOf(r: BookingRow): Stay {
    Stay(r.roomId, r.checkIn, r.checkOut)
  }

  /** The (room, nights) projection of the table. */
  function StaysOf(rows: seq<BookingRow>): (s: seq<Stay>)
    ensures |s| == |rows| && forall i :: 0 <= i < |rows| ==> s[i] == StayOf(rows[i])
  {
    seq(|rows|, i requires 0 <= i < |rows| => StayOf(rows[i]))
  }

  lemma StaysOfSnoc(rows: seq<BookingRow>, r: BookingRow)
    ensures StaysOf(rows + [r]) == StaysOf(rows) + [StayOf(r)]
  {
  }

  /** `UPDATE bookings SET booking_number = n WHERE booking_id = id`. */
  function WithBookingNumber(rows: seq<BookingRow>, id: nat, n: string): (r: seq<BookingRow>)
    ensures |r| == |rows|
    ensures forall i :: 0 <= i < |rows| && rows[i].bookingId == id ==> r[i] == rows[i].(bookingNumber := Some(n))
    ensures forall i :: 0 <= i < |rows| && rows[i].bookingId != id ==> r[i] == rows[i]
  {
    seq(|rows|, i requires 0 <= i < |rows| =>
      if rows[i].bookingId == id then rows[i].(bookingNumber := Some(n)) else rows[i])
  }

  /** The table's rows together with its auto-increment counter. */
  datatype Table = Table(rows: seq<BookingRow>, nextId: nat)

  /** Ids increase strictly along the table and stay below the counter. */
  ghost predicate IdsIncreasing(rows: seq<BookingRow>, nextId: nat) {
    (forall i :: 0 <= i < |rows| ==> rows[i].bookingId < nextId)
    && (forall i, j :: 0 <= i < j < |rows| ==> rows[i].bookingId < rows[j].bookingId)
  }

  /** Every booking number present reads back as a reference to its own row. */
  ghost predicate NumbersMatchIds(rows: seq<BookingRow>) {
    forall i :: 0 <= i < |rows| && rows[i].bookingNumber.Some? ==>
      Parse(rows[i].bookingNumber.value).Some? && Parse(rows[i].bookingNumber.value).value.1 == rows[i].bookingId
  }

  /** In a table whose ids are distinct and whose numbers refer to their own
      rows, no two rows carry the same booking number. */
  lemma NumbersUnique(rows: seq<BookingRow>, nextId: nat, i: nat, j: nat)
    requires IdsIncreasing(rows, nextId) && NumbersMatchIds(rows)
    requires i < j < |rows| && rows[i].bookingNumber.Some? && rows[j].bookingNumber.Some?
    ensures rows[i].bookingNumber != rows[j].bookingNumber
  {
    assert rows[i].bookingId < rows[j].bookingId;
  }

  /** Updating the last row by its id touches that row only. */
  lemma UpdateLastRow(rows: seq<BookingRow>, nextId: nat, row: BookingRow, n: string)
    requires IdsIncreasing(rows + [row], nextId)
    ensures WithBookingNumber(rows + [row], row.bookingId, n) == rows + [row.(bookingNumber := Some(n))]
  {
    var t := rows + [row];
    var u := WithBookingNumber(t, row.bookingId, n);
    forall i | 0 <= i < |rows|
      ensures u[i] == rows[i]
    {
      assert t[i].bookingId < t[|rows|].bookingId;
    }
    assert u == rows + [row.(bookingNumber := Some(n))];
  }

  /** Giving the last row a number that reads back as its own id keeps every
      number referring to its own row. */
  lemma NumberReadsBack(rows: seq<BookingRow>, row: BookingRow, n: string)
    requires NumbersMatchIds(rows)
    requires Parse(n).Some? && Parse(n).value.1 == row.bookingId
    ensures NumbersMatchIds(rows + [row.(bookingNumber := Some(n))])
  {
    var t := rows + [row.(bookingNumber := Some(n))];
    forall i | 0 <= i < |t| && t[i].bookingNumber.Some?
      ensures Parse(t[i].bookingNumber.value).Some? && Parse(t[i].bookingNumber.value).value.1 == t[i].bookingId
    {
      if i < |rows| {
        assert t[i] == rows[i];
      }
    }
  }

  /** Giving the last row the reference generated for its own id keeps every
      number referring to its own row. */
  lemma NumberLastRow(rows: seq<BookingRow>, row: BookingRow, today: Date)
    requires ValidDate(today) && NumbersMatchIds(rows)
    ensures NumbersMatchIds(rows + [row.(bookingNumber := Some(Generate(row.bookingId, today)))])
  {
    ParseGenerate(row.bookingId, today);
    NumberReadsBack(rows, row, Generate(row.bookingId, today));
  }

  class Store {
    var rows: seq<BookingRow>
    var nextId: nat

    ghost predicate Valid()
      reads this
    {
      nextId >= 1 && IdsIncreasing(rows, nextId)
    }

    /** An empty table whose first id will be 1. */
    constructor ()
      ensures Valid() && rows == [] && nextId == 1
    {
      rows := [];
      nextId := 1;
    }

    /** The table as a value. */
    function Contents(): Table
      reads this
    {
      Table(rows, nextId)
    }

    /** `INSERT INTO bookings …` followed by `cursor.lastrowid`. */
    method Insert(row: BookingRow) returns (id: nat)
      requires Valid()
      modifies this
      ensures Valid()
      ensures id == old(nextId) && nextId == old(nextId) + 1
      ensures rows == old(rows) + [row.(bookingId := id)]
    {
      id := nextId;
      rows := rows + [row.(bookingId := id)];
      nextId := nextId + 1;
    }

    /** `UPDATE bookings SET booking_number = … WHERE booking_id = …`. */
    method SetBookingNumber(id: nat, number: string)
      requires Valid()
      modifies this
      ensures Valid()
      ensures rows == WithBookingNumber(old(rows), id, number) && nextId == old(nextId)
    {
      rows := WithBookingNumber(rows, id, number);
    }
  }
}
