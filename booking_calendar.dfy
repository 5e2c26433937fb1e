/** booking/calendar.py: the booking form of the chat application. A
    submission is validated, priced, inserted after the two-clause conflict
    test, given a `BKG-YYYYMMDD-XXXX` reference, and on success the session
    closes the form and queues the follow-up message. */
module BookingCalendar {
  import opened Wrappers
  import opened Text
  import opened Overlap
  import opened BookingNumber
  import opened BookingStore
  import opened Session
  import opened Followup

  const ConflictMessage := "This room is already booked for the selected dates."

  /** The `booking_data` dict handed to `insert_booking`. */
  datatype BookingData = BookingData(
    firstName: string,
    lastName: string,
    email: string,
    phone: string,
    roomId: int,
    roomType: string,
    checkIn: int,
    checkOut: int,
    numGuests: int,
    totalPrice: int,
    specialRequests: string)

  function RequestedStay(d: BookingData): Stay {
    Stay(d.roomId, d.checkIn, d.checkOut)
  }

  /** The row the INSERT writes: every submitted column, no booking number yet. */
  function NewRow(id: nat, d: BookingData): BookingRow {
    BookingRow(id, d.firstName, d.lastName, d.email, Some(d.phone), d.roomId, d.checkIn, d.checkOut,
               Some(d.numGuests), Some(d.totalPrice), d.specialRequests, None)
  }

  /** The rows the conflict SELECT returns, in table order. */
  function Conflicts(rows: seq<BookingRow>, n: Stay): (c: seq<BookingRow>)
    ensures c == [] <==> !AnyTwoClauseConflict(StaysOf(rows), n)
    ensures forall k :: 0 <= k < |c| ==> c[k] in rows && TwoClauseConflict(StayOf(c[k]), n)
  {
    if rows == [] then []
    else
      var rest := Conflicts(rows[1..], n);
      assert forall i :: 1 <= i < |rows| ==> StaysOf(rows)[i] == StaysOf(rows[1..])[i - 1];
      if TwoClauseConflict(StayOf(rows[0]), n) then [rows[0]] + rest else rest
  }

  /** `(success, result)` of `insert_booking`. */
  datatype InsertResult = Booked(bookingNumber: string, totalPrice: int, roomType: string) | Failed(message: string)

  /** What `insert_booking` returns and what the table holds afterwards. A
      booking is made exactly when the database does not fail and no row in
      the room passes the two-clause test; it then adds one row carrying the
      reference generated for the new id, and leaves the other rows alone. */
  function InsertSpec(t: Table, d: BookingData, today: Date, fault: DbFault): (o: (InsertResult, Table))
    requires ValidDate(today)
    ensures o.0.Booked? <==> fault.NoFault? && !AnyTwoClauseConflict(StaysOf(t.rows), RequestedStay(d))
    ensures o.0.Booked? ==>
      o.0 == Booked(Generate(t.nextId, today), d.totalPrice, d.roomType)
      && o.1 == Table(t.rows + [NewRow(t.nextId, d).(bookingNumber := Some(o.0.bookingNumber))], t.nextId + 1)
      && Parse(o.0.bookingNumber) == Some((Stamp(today), t.nextId))
    ensures fault.ConnectFails? || fault.SelectFails? ==> o == (Failed(fault.message), t)
    ensures !(fault.ConnectFails? || fault.SelectFails?) && AnyTwoClauseConflict(StaysOf(t.rows), RequestedStay(d))
      ==> o == (Failed(ConflictMessage), t)
    ensures fault.InsertFails? ==> o.0.Failed? && o.1 == t
    ensures fault.UpdateFails? && !AnyTwoClauseConflict(StaysOf(t.rows), RequestedStay(d))
      ==> o == (Failed(fault.message), Table(t.rows + [NewRow(t.nextId, d)], t.nextId + 1))
  {
    if fault.ConnectFails? || fault.SelectFails? then (Failed(fault.message), t)
    else if Conflicts(t.rows, RequestedStay(d)) != [] then (Failed(ConflictMessage), t)
    else if fault.InsertFails? then (Failed(fault.message), t)
    else
      var row := NewRow(t.nextId, d);
      var t1 := Table(t.rows + [row], t.nextId + 1);
      if fault.UpdateFails? then (Failed(fault.message), t1)
      else
        var number := Generate(t.nextId, today);
        ParseGenerate(t.nextId, today);
        (Booked(number, d.totalPrice, d.roomType), Table(t.rows + [row.(bookingNumber := Some(number))], t.nextId + 1))
  }

  /** `insert_booking(data)` on the table `store`, on the day `today`. */
  method InsertBooking(store: Store, d: BookingData, today: Date, fault: DbFault) returns (r: InsertResult)
    requires store.Valid() && ValidDate(today)
    modifies store
    ensures store.Valid()
    ensures (r, store.Contents()) == InsertSpec(old(store.Contents()), d, today, fault)
    ensures NumbersMatchIds(old(store.rows)) ==> NumbersMatchIds(store.rows)
  {
    if fault.ConnectFails? || fault.SelectFails? {
      return Failed(fault.message);
    }
    var conflicts := Conflicts(store.rows, RequestedStay(d));
    if conflicts != [] {
      return Failed(ConflictMessage);
    }
    if fault.InsertFails? {
      return Failed(fault.message);
    }
    ghost var before := store.rows;
    var id := store.Insert(NewRow(0, d));
    assert NewRow(0, d).(bookingId := id) == NewRow(id, d);
    if fault.UpdateFails? {
      return Failed(fault.message);
    }
    var number := Generate(id, today);
    UpdateLastRow(before, store.nextId, NewRow(id, d), number);
    store.SetBookingNumber(id, number);
    if NumbersMatchIds(before) {
      NumberLastRow(before, NewRow(id, d), today);
    }
    r := Booked(number, d.totalPrice, d.roomType);
  }

  /** The country-code choices of the form. */
  const CountryCodes: seq<string> := [
    "+32 Belgium", "+1 USA/Canada", "+44 UK", "+33 France", "+49 Germany", "+84 Vietnam",
    "+91 India", "+81 Japan", "+61 Australia", "+34 Spain", "+39 Italy", "+86 China", "+7 Russia"]

  lemma WordsHead(s: string)
    requires s != [] && !IsSpace(s[0])
    ensures Words(s) != [] && Words(s)[0] == s[..FirstIndex(s, IsSpace)]
  {
  }

  /** The dialling prefix of a country-code choice: `country_code.split()[0]`. */
  function DialPrefix(countryCode: string): (p: string)
    requires countryCode in CountryCodes
    ensures p != [] && p[0] == '+' && StartsWith(countryCode, p)
    ensures forall i :: 0 <= i < |p| ==> !IsSpace(p[i])
  {
    assert countryCode[0] == '+';
    WordsHead(countryCode);
    Words(countryCode)[0]
  }

  /** The stored phone: prefix, one space, the number; empty without a number. */
  function FormatPhone(countryCode: string, phoneNumber: string): (p: string)
    requires countryCode in CountryCodes
    ensures phoneNumber == [] ==> p == []
    ensures phoneNumber != [] ==> p == DialPrefix(countryCode) + " " + phoneNumber
  {
    if phoneNumber != [] then DialPrefix(countryCode) + " " + phoneNumber else ""
  }

  /** The submitted widget values. `roomIndex` is the position of the chosen
      room in the list the select box shows. */
  datatype BookingForm = BookingForm(
    firstName: string,
    lastName: string,
    email: string,
    countryCode: string,
    phoneNumber: string,
    numGuests: int,
    roomIndex: nat,
    checkIn: int,
    checkOut: int,
    specialRequests: string)

  predicate WellFormed(rooms: seq<Room>, f: BookingForm) {
    f.countryCode in CountryCodes && (rooms != [] ==> f.roomIndex < |rooms|)
  }

  /** First name, last name and email must be non-empty; phone is optional. */
  predicate RequiredFilled(f: BookingForm) {
    f.firstName != [] && f.lastName != [] && f.email != []
  }

  /** Room price times nights times guests; nights is the signed day difference. */
  function TotalPrice(room: Room, f: BookingForm): int {
    room.price * (f.checkOut - f.checkIn) * f.numGuests
  }

  /** Nothing orders the dates, so a check-out on or before the check-in is
      priced at zero or less. */
  lemma PriceWithoutDateOrder(room: Room, f: BookingForm)
    requires room.price >= 0 && f.numGuests >= 1 && f.checkOut <= f.checkIn
    ensures TotalPrice(room, f) <= 0
  {
    assert (f.checkOut - f.checkIn) * f.numGuests <= 0;
    assert TotalPrice(room, f) == room.price * ((f.checkOut - f.checkIn) * f.numGuests);
  }

  /** The price grows by one night's room price for every extra guest. */
  lemma PricePerGuest(room: Room, f: BookingForm)
    ensures TotalPrice(room, f.(numGuests := f.numGuests + 1)) == TotalPrice(room, f) + room.price * (f.checkOut - f.checkIn)
  {
  }

  function DataOf(room: Room, f: BookingForm): BookingData
    requires f.countryCode in CountryCodes
  {
    BookingData(f.firstName, f.lastName, f.email, FormatPhone(f.countryCode, f.phoneNumber),
                room.roomId, room.roomType, f.checkIn, f.checkOut, f.numGuests,
                TotalPrice(room, f), f.specialRequests)
  }

  /** The booking details kept for the follow-up. */
  function InfoOf(number: string, totalPrice: int, roomType: string, f: BookingForm): BookingInfo
    requires f.countryCode in CountryCodes
  {
    BookingInfo(number, f.firstName, f.lastName, f.email, FormatPhone(f.countryCode, f.phoneNumber),
                f.checkIn, f.checkOut, roomType, totalPrice, f.numGuests,
                if f.specialRequests == [] then "None" else f.specialRequests)
  }

  datatype FormResult = NoRooms | MissingRequired | BookingFailed(message: string) | Confirmed(bookingNumber: string)

  /** The session after a confirmed booking: the details are stored, the form
      is closed, and the follow-up message is queued with its consent flag. */
  function Confirm(v: SessionView, info: BookingInfo): SessionView {
    var fu := CreateFollowupMessage(Some(info));
    v.(latestBookingInfo := Some(info), bookingMode := false,
       awaitingActivityConsent := fu.awaitingActivityConsent,
       history := v.history + [Turn("bot", fu.message)])
  }

  /** What a submission of the form does to the table and to the session. */
  function SubmitSpec(t: Table, v: SessionView, rooms: seq<Room>, f: BookingForm, today: Date, fault: DbFault)
    : (o: (FormResult, Table, SessionView))
    requires ValidDate(today) && WellFormed(rooms, f)
    ensures rooms == [] || !RequiredFilled(f) ==> o.1 == t && o.2 == v
    ensures !o.0.Confirmed? ==> o.2 == v
    ensures o.1 == t || (|o.1.rows| == |t.rows| + 1 && o.1.rows[..|t.rows|] == t.rows)
    ensures o.0.Confirmed? ==>
      RequiredFilled(f) && rooms != []
      && o.1.rows == t.rows + [NewRow(t.nextId, DataOf(rooms[f.roomIndex], f)).(bookingNumber := Some(o.0.bookingNumber))]
      && o.2 == Confirm(v, InfoOf(o.0.bookingNumber, TotalPrice(rooms[f.roomIndex], f), rooms[f.roomIndex].roomType, f))
  {
    if rooms == [] then (NoRooms, t, v)
    else if !RequiredFilled(f) then (MissingRequired, t, v)
    else
      var room := rooms[f.roomIndex];
      var (res, t1) := InsertSpec(t, DataOf(room, f), today, fault);
      match res
      case Failed(m) => (BookingFailed(m), t1, v)
      case Booked(number, price, roomType) =>
        (Confirmed(number), t1, Confirm(v, InfoOf(number, price, roomType, f)))
  }

  /** After a confirmed booking the form is closed, the guest is asked about
      activities, exactly one bot message greeting the guest with the new
      reference is appended to the history, the stored details carry that
      reference and the price, and the memory is untouched. */
  lemma ConfirmedEffects(t: Table, v: SessionView, rooms: seq<Room>, f: BookingForm, today: Date, fault: DbFault)
    requires ValidDate(today) && WellFormed(rooms, f)
    requires SubmitSpec(t, v, rooms, f, today, fault).0.Confirmed?
    ensures var (r, t1, w) := SubmitSpec(t, v, rooms, f, today, fault);
      fault.NoFault? && r.bookingNumber == Generate(t.nextId, today)
      && t1.rows[|t.rows|].totalPrice == Some(TotalPrice(rooms[f.roomIndex], f))
      && !w.bookingMode && w.awaitingActivityConsent
      && w.latestBookingInfo.Some? && w.latestBookingInfo.value.bookingNumber == r.bookingNumber
      && |w.history| == |v.history| + 1 && w.history[..|v.history|] == v.history
      && w.history[|v.history|].speaker == "bot"
      && StartsWith(w.history[|v.history|].text, GreetingPrefix(Some(w.latestBookingInfo.value)))
      && GuestName(w.latestBookingInfo) == f.firstName
      && w.memory == v.memory
  {
    var (r, t1, w) := SubmitSpec(t, v, rooms, f, today, fault);
    var info := InfoOf(r.bookingNumber, TotalPrice(rooms[f.roomIndex], f), rooms[f.roomIndex].roomType, f);
    var fu := CreateFollowupMessage(Some(info));
    assert w == Confirm(v, info);
    assert w.history == v.history + [Turn("bot", fu.message)];
    assert InsertSpec(t, DataOf(rooms[f.roomIndex], f), today, fault).0.Booked?;
  }

  /** A form with a missing name or email inserts nothing, whatever else it holds. */
  lemma MissingFieldNoInsert(t: Table, v: SessionView, rooms: seq<Room>, f: BookingForm, today: Date, fault: DbFault)
    requires ValidDate(today) && WellFormed(rooms, f) && rooms != []
    requires f.firstName == [] || f.lastName == [] || f.email == []
    ensures SubmitSpec(t, v, rooms, f, today, fault) == (MissingRequired, t, v)
  {
  }

  /** The phone is optional: a form without one is booked like any other,
      in any table where the stay conflicts with nothing, and the new row
      stores an empty phone. */
  lemma PhoneOptional(t: Table, v: SessionView, rooms: seq<Room>, f: BookingForm, today: Date)
    requires ValidDate(today) && WellFormed(rooms, f) && rooms != [] && RequiredFilled(f)
    requires f.phoneNumber == []
    requires !AnyTwoClauseConflict(StaysOf(t.rows), RequestedStay(DataOf(rooms[f.roomIndex], f)))
    ensures var (r, t1, _) := SubmitSpec(t, v, rooms, f, today, NoFault);
      r == Confirmed(Generate(t.nextId, today))
      && |t1.rows| == |t.rows| + 1 && t1.rows[..|t.rows|] == t.rows
      && t1.rows[|t.rows|].phone == Some("")
  {
    var d := DataOf(rooms[f.roomIndex], f);
    assert d.phone == "";
  }
}
