/** booking/visual_calendar.py: the room data handed to the page, and the
    page's date picker. Dates are day numbers counted from 1970-01-01 (a
    Thursday); months are numbered 0 to 11 as in JavaScript. */
module VisualCalendar {
  import opened Wrappers
  import opened Text
  import opened BookingStore

  // ---------------------------------------------------------------------
  // Civil calendar
  // ---------------------------------------------------------------------

  predicate IsLeap(y: int) {
    (y % 4 == 0 && y % 100 != 0) || y % 400 == 0
  }

  /** Days in month `m` (0-11) of year `y`. */
  function DaysInMonth(y: int, m: int): (n: int)
    requires 0 <= m < 12
    ensures 28 <= n <= 31
    ensures m == 1 ==> (n == 29 <==> IsLeap(y)) && (n == 28 <==> !IsLeap(y))
    ensures (m == 3 || m == 5 || m == 8 || m == 10) <==> n == 30
    ensures m != 1 && n != 30 ==> n == 31
  {
    if m == 1 then (if IsLeap(y) then 29 else 28)
    else if m == 3 || m == 5 || m == 8 || m == 10 then 30
    else 31
  }

  /** The day number of the first of month `m` (0-11) of year `y`, by the
      usual era-of-400-years formula for the proleptic Gregorian calendar. */
  function FirstOfMonth(y: int, m: int): int
    requires 0 <= m < 12
  {
    var yy := if m <= 1 then y - 1 else y;
    MarchFirst(yy) + DaysSinceMarch[m] - 719468
  }

  /** Days from 1 March to the first of month `m` (0-11) of the year that
      runs from March to February. */
  const DaysSinceMarch: seq<int> := [306, 337, 0, 31, 61, 92, 122, 153, 184, 214, 245, 275]

  /** Days from 1 March of year 0 to 1 March of year `yy`. */
  function MarchFirst(yy: int): int {
    var era := yy / 400;
    var yoe := yy - era * 400;
    era * 146097 + yoe * 365 + yoe / 4 - yoe / 100
  }

  /** The year from 1 March of `yy` has 366 days when the February it ends
      with is a leap February, else 365. */
  lemma MarchFirstNext(yy: int)
    ensures MarchFirst(yy + 1) - MarchFirst(yy) == if IsLeap(yy + 1) then 366 else 365
  {
    var era := yy / 400;
    var yoe := yy - era * 400;
    if yoe == 399 {
      assert (yy + 1) / 400 == era + 1 && (yy + 1) - (era + 1) * 400 == 0;
      EraRemainders(yy + 1, era + 1, 0);
    } else {
      assert (yy + 1) / 400 == era && (yy + 1) - era * 400 == yoe + 1;
      EraRemainders(yy + 1, era, yoe + 1);
      YearOfEraStep(yoe);
    }
  }

  /** A year written as `era * 400 + r` has the leap-year remainders of `r`. */
  lemma EraRemainders(y: int, era: int, r: int)
    requires 0 <= r < 400 && y == era * 400 + r
    ensures y % 4 == r % 4 && y % 100 == r % 100 && y % 400 == r
  {
    RemainderOf(y, 4, era * 100 + r / 4, r % 4);
    RemainderOf(y, 100, era * 4 + r / 100, r % 100);
    RemainderOf(y, 400, era, r);
  }

  /** The remainder is unique: `y == d * q + m` with `0 <= m < d` gives `y % d == m`. */
  lemma RemainderOf(y: int, d: int, q: int, m: int)
    requires 0 <= m < d && y == d * q + m
    ensures y % d == m
  {
    var k := y / d;
    assert d * (q - k) == y % d - m;
    if q > k {
      MulAtLeast(d, q - k);
    } else if q < k {
      MulAtLeast(d, k - q);
    }
  }

  lemma MulAtLeast(d: int, n: int)
    requires d > 0 && n >= 1
    ensures d * n >= d
  {
  }

  /** Within an era, one more year adds a day when it is a multiple of 4 and
      takes one away when it is a multiple of 100. */
  lemma YearOfEraStep(yoe: int)
    requires 0 <= yoe < 399
    ensures (yoe + 1) / 4 - yoe / 4 == (if (yoe + 1) % 4 == 0 then 1 else 0)
    ensures (yoe + 1) / 100 - yoe / 100 == (if (yoe + 1) % 100 == 0 then 1 else 0)
  {
  }

  /** The first of the next month follows the last day of this one, so the
      month is exactly the days from its first to the day before the next
      month's first (`new Date(year, month + 1, 0)` is its last day). */
  lemma NextMonthFollows(y: int, m: int)
    requires 0 <= m < 12
    ensures var (y2, m2) := ShiftMonth(y, m, 1);
      FirstOfMonth(y, m) + DaysInMonth(y, m) == FirstOfMonth(y2, m2)
  {
    if m == 11 {
      assert ShiftMonth(y, m, 1) == (y + 1, 0);
    } else {
      assert ShiftMonth(y, m, 1) == (y, m + 1);
      if m == 1 {
        MarchFirstNext(y - 1);
      } else {
        assert DaysSinceMarch[m + 1] - DaysSinceMarch[m] == DaysInMonth(y, m);
      }
    }
  }

  /** `getDay()`: 0 for Sunday through 6 for Saturday. */
  function Weekday(n: int): (w: int)
    ensures 0 <= w < 7
  {
    (n + 4) % 7
  }

  /** The month after or before: `setMonth(getMonth() + direction)` on the
      first of a month. */
  function ShiftMonth(y: int, m: int, direction: int): (r: (int, int))
    requires 0 <= m < 12
    ensures 0 <= r.1 < 12
    ensures r.0 * 12 + r.1 == y * 12 + m + direction
  {
    (y + (m + direction) / 12, (m + direction) % 12)
  }

  // ---------------------------------------------------------------------
  // Selection
  // ---------------------------------------------------------------------

  datatype Selection = Selection(checkin: Option<int>, checkout: Option<int>)

  /** Check-out, when set, comes with a check-in that precedes it. */
  predicate ValidSelection(s: Selection) {
    s.checkout.Some? ==> s.checkin.Some? && s.checkin.value < s.checkout.value
  }

  /** `selectDate(date)`. With no check-in, or with both dates set, the click
      starts over; with only a check-in, a later date becomes the check-out
      and any other date replaces the check-in. The result is a valid
      selection holding the clicked date, whatever the state before. */
  function Select(s: Selection, date: int): (r: Selection)
    ensures ValidSelection(r)
    ensures r.checkin == Some(date) || (r.checkout == Some(date) && r.checkin == s.checkin)
    ensures s.checkin.None? || s.checkout.Some? ==> r == Selection(Some(date), None)
    ensures s.checkin.Some? && s.checkout.None? && date > s.checkin.value ==> r == Selection(s.checkin, Some(date))
    ensures s.checkin.Some? && s.checkout.None? && date <= s.checkin.value ==> r == Selection(Some(date), None)
  {
    if s.checkin.None? || s.checkout.Some? then Selection(Some(date), None)
    else if date > s.checkin.value then Selection(s.checkin, Some(date))
    else Selection(Some(date), None)
  }

  /** From any state, a first click and a later second click select exactly
      that range once a full range is on screen or nothing is. */
  lemma RestartThenRange(s: Selection, a: int, b: int)
    requires a < b && (s.checkin.None? || s.checkout.Some?)
    ensures Select(Select(s, a), b) == Selection(Some(a), Some(b))
  {
  }

  // ---------------------------------------------------------------------
  // Month grid
  // ---------------------------------------------------------------------

  /** One of the 42 day cells: its date, whether it belongs to the month,
      whether it is greyed out as past or unavailable, whether it takes
      clicks, and its three selection highlights. */
  datatype Cell = Cell(date: int, inMonth: bool, greyed: bool, clickable: bool,
                       isCheckin: bool, isCheckout: bool, inRange: bool)

  /** The Sunday on or before the first of the month. */
  function GridStart(y: int, m: int): (d: int)
    requires 0 <= m < 12
    ensures Weekday(d) == 0 && d <= FirstOfMonth(y, m) < d + 7
  {
    WeekStart(FirstOfMonth(y, m));
    FirstOfMonth(y, m) - Weekday(FirstOfMonth(y, m))
  }

  lemma WeekStart(n: int)
    ensures Weekday(n - Weekday(n)) == 0
  {
    var q := (n + 4) / 7;
    var w := (n + 4) % 7;
    assert n + 4 == 7 * q + w;
    assert n - w + 4 == 7 * q;
    assert (7 * q) % 7 == 0;
  }

  /** Cell `i` of the grid of month `m` of year `y`. */
  function CellAt(y: int, m: int, i: int, today: int, unavailable: seq<int>, s: Selection): (c: Cell)
    requires 0 <= m < 12
    ensures c.date == GridStart(y, m) + i
    ensures c.inMonth <==> FirstOfMonth(y, m) <= c.date < FirstOfMonth(y, m) + DaysInMonth(y, m)
    ensures c.clickable <==> c.inMonth && !(c.date < today) && c.date !in unavailable
    ensures c.inRange <==> s.checkin.Some? && s.checkout.Some? && s.checkin.value < c.date < s.checkout.value
    ensures c.isCheckin <==> s.checkin == Some(c.date)
    ensures c.isCheckout <==> s.checkout == Some(c.date)
  {
    var date := GridStart(y, m) + i;
    var first := FirstOfMonth(y, m);
    var inMonth := first <= date < first + DaysInMonth(y, m);
    var greyed := inMonth && (date < today || date in unavailable);
    Cell(date, inMonth, greyed, inMonth && !greyed,
         s.checkin == Some(date), s.checkout == Some(date),
         s.checkin.Some? && s.checkout.Some? && s.checkin.value < date < s.checkout.value)
  }

  /** Every day of the month is in the grid, at its offset from the start. */
  lemma GridCoversMonth(y: int, m: int, d: int, today: int, unavailable: seq<int>, s: Selection)
    requires 0 <= m < 12
    requires FirstOfMonth(y, m) <= d < FirstOfMonth(y, m) + DaysInMonth(y, m)
    ensures 0 <= d - GridStart(y, m) < 42
    ensures CellAt(y, m, d - GridStart(y, m), today, unavailable, s).date == d
    ensures CellAt(y, m, d - GridStart(y, m), today, unavailable, s).inMonth
  {
  }

  // ---------------------------------------------------------------------
  // The picker
  // ---------------------------------------------------------------------

  /** The text of the status line under the calendars. */
  datatype StatusLine = Prompt | CheckinChosen(checkin: int) | DatesChosen(checkin: int, checkout: int, nights: int, total: int)

  /** `updateStatusMessage()` for a room of the given nightly price. */
  function Status(s: Selection, price: int): (r: StatusLine)
    requires ValidSelection(s)
    ensures s.checkin.None? ==> r == Prompt
    ensures s.checkin.Some? && s.checkout.None? ==> r == CheckinChosen(s.checkin.value)
    ensures s.checkout.Some? ==>
      r.DatesChosen? && r.checkin == s.checkin.value && r.checkout == s.checkout.value
      && r.nights == s.checkout.value - s.checkin.value && r.nights >= 1 && r.total == r.nights * price
  {
    if s.checkin.Some? && s.checkout.Some? then
      var nights := s.checkout.value - s.checkin.value;
      DatesChosen(s.checkin.value, s.checkout.value, nights, nights * price)
    else if s.checkin.Some? then CheckinChosen(s.checkin.value)
    else Prompt
  }

  /** The room data as the page receives it. */
  datatype RoomJs = RoomJs(name: string, price: int, capacity: int, description: string, unavailableDates: seq<int>)

  /** `str(room_id)`. */
  function IntText(n: int): string {
    if n < 0 then "-" + Digits(-n) else Digits(n)
  }

  function EntryOf(room: Room, availability: map<string, seq<int>>): (e: RoomJs)
    ensures e.unavailableDates == (if IntText(room.roomId) in availability then availability[IntText(room.roomId)] else [])
    ensures e.description == room.description.GetOr("")
  {
    var key := IntText(room.roomId);
    RoomJs(room.roomType, room.price, room.guestCapacity, room.description.GetOr(""),
           if key in availability then availability[key] else [])
  }

  /** `room_js_data` after the first rooms of the list: a dict filled in
      list order, a later room overwriting an earlier one with the same key. */
  function RoomData(rooms: seq<Room>, availability: map<string, seq<int>>): map<string, RoomJs>
    decreases |rooms|
  {
    if rooms == [] then map[]
    else
      RoomData(rooms[..|rooms| - 1], availability)[IntText(rooms[|rooms| - 1].roomId) := EntryOf(rooms[|rooms| - 1], availability)]
  }

  lemma {:induction false} RoomDataHasKeys(rooms: seq<Room>, availability: map<string, seq<int>>)
    ensures forall k :: 0 <= k < |rooms| ==> IntText(rooms[k].roomId) in RoomData(rooms, availability)
    decreases |rooms|
  {
    if rooms != [] {
      var n := |rooms| - 1;
      var init := rooms[..n];
      RoomDataHasKeys(init, availability);
      var d := RoomData(rooms, availability);
      assert d == RoomData(init, availability)[IntText(rooms[n].roomId) := EntryOf(rooms[n], availability)];
      forall k | 0 <= k < n
        ensures IntText(rooms[k].roomId) in d
      {
        assert init[k] == rooms[k];
        assert IntText(init[k].roomId) in RoomData(init, availability);
      }
    }
  }

  lemma {:induction false} RoomDataOnlyKeys(rooms: seq<Room>, availability: map<string, seq<int>>)
    ensures forall key :: key in RoomData(rooms, availability) ==>
      exists k :: 0 <= k < |rooms| && IntText(rooms[k].roomId) == key
    decreases |rooms|
  {
    if rooms != [] {
      var n := |rooms| - 1;
      var init := rooms[..n];
      RoomDataOnlyKeys(init, availability);
      var d := RoomData(rooms, availability);
      assert d == RoomData(init, availability)[IntText(rooms[n].roomId) := EntryOf(rooms[n], availability)];
      forall key | key in d
        ensures exists k :: 0 <= k < |rooms| && IntText(rooms[k].roomId) == key
      {
        if key != IntText(rooms[n].roomId) {
          assert key in RoomData(init, availability);
          var j :| 0 <= j < |init| && IntText(init[j].roomId) == key;
          assert rooms[j] == init[j];
        }
      }
    }
  }

  /** One entry per room, keyed by `str(room_id)`, and no other key. */
  lemma RoomDataKeys(rooms: seq<Room>, availability: map<string, seq<int>>)
    ensures forall k :: 0 <= k < |rooms| ==> IntText(rooms[k].roomId) in RoomData(rooms, availability)
    ensures forall key :: key in RoomData(rooms, availability) ==>
      exists k :: 0 <= k < |rooms| && IntText(rooms[k].roomId) == key
  {
    RoomDataHasKeys(rooms, availability);
    RoomDataOnlyKeys(rooms, availability);
  }

  /** Each room's entry is the one built from the last room with its key. */
  lemma {:induction false} RoomDataEntry(rooms: seq<Room>, availability: map<string, seq<int>>, k: nat)
    requires k < |rooms|
    requires forall j :: k < j < |rooms| ==> rooms[j].roomId != rooms[k].roomId
    ensures IntText(rooms[k].roomId) in RoomData(rooms, availability)
    ensures RoomData(rooms, availability)[IntText(rooms[k].roomId)] == EntryOf(rooms[k], availability)
    decreases |rooms|
  {
    if k < |rooms| - 1 {
      var init := rooms[..|rooms| - 1];
      RoomDataEntry(init, availability, k);
      IntTextInjective(rooms[|rooms| - 1].roomId, rooms[k].roomId);
    }
  }

  /** The room the page opens on is a key of the room data, so the first
      rendering finds its unavailable dates and price. */
  lemma FirstRoomHasData(rooms: seq<Room>, availability: map<string, seq<int>>)
    requires rooms != []
    ensures IntText(rooms[0].roomId) in RoomData(rooms, availability)
  {
    RoomDataHasKeys(rooms, availability);
  }

  /** Reads `str(n)` back. */
  function ParseInt(t: string): int {
    if t != [] && t[0] == '-' && AllDigits(t[1..]) then -(ParseDecimal(t[1..]) as int)
    else if AllDigits(t) then ParseDecimal(t)
    else 0
  }

  lemma ParseIntText(n: int)
    ensures ParseInt(IntText(n)) == n
  {
    if n < 0 {
      assert IntText(n)[1..] == Digits(-n);
      ParseDigits(-n);
    } else {
      assert IsDigit(Digits(n)[0]);
      ParseDigits(n);
    }
  }

  /** Distinct ids give distinct keys. */
  lemma IntTextInjective(a: int, b: int)
    requires a != b
    ensures IntText(a) != IntText(b)
  {
    ParseIntText(a);
    ParseIntText(b);
  }

  /** Fills `room_js_data` in a loop over the rooms. */
  method BuildRoomData(rooms: seq<Room>, availability: map<string, seq<int>>) returns (d: map<string, RoomJs>)
    ensures d == RoomData(rooms, availability)
  {
    d := map[];
    var i := 0;
    while i < |rooms|
      invariant 0 <= i <= |rooms|
      invariant d == RoomData(rooms[..i], availability)
    {
      assert rooms[..i + 1][..i] == rooms[..i];
      assert rooms[..i + 1][i] == rooms[i];
      d := d[IntText(rooms[i].roomId) := EntryOf(rooms[i], availability)];
      i := i + 1;
    }
    assert rooms[..i] == rooms;
  }

  /** The picker's mutable variables: the chosen room, the selection, and the
      month shown first. */
  class Picker {
    var selectedRoom: string
    var checkinDate: Option<int>
    var checkoutDate: Option<int>
    var year: int
    var month: int

    ghost predicate Valid()
      reads this
    {
      0 <= month < 12 && ValidSelection(Selection(checkinDate, checkoutDate))
    }

    function Current(): Selection
      reads this
    {
      Selection(checkinDate, checkoutDate)
    }

    /** The page opens on the first room of the list, nothing selected, May
      2025 first. An empty list makes `rooms[0]` raise before the page exists. */
    constructor (rooms: seq<Room>)
      requires rooms != []
      ensures Valid()
      ensures selectedRoom == IntText(rooms[0].roomId) && Current() == Selection(None, None)
      ensures year == 2025 && month == 4
    {
      selectedRoom := IntText(rooms[0].roomId);
      checkinDate := None;
      checkoutDate := None;
      year := 2025;
      month := 4;
    }

    /** `updateCalendar()`: a change of room clears both dates. */
    method UpdateCalendar(room: string)
      requires Valid()
      modifies this`selectedRoom, this`checkinDate, this`checkoutDate
      ensures Valid()
      ensures selectedRoom == room && Current() == Selection(None, None)
    {
      selectedRoom := room;
      checkinDate := None;
      checkoutDate := None;
    }

    /** `changeMonth(direction)`. */
    method ChangeMonth(direction: int)
      requires Valid()
      modifies this`year, this`month
      ensures Valid()
      ensures (year, month) == ShiftMonth(old(year), old(month), direction)
    {
      var m := month + direction;
      year := year + m / 12;
      month := m % 12;
    }

    /** `selectDate(date)`. */
    method SelectDate(date: int)
      requires Valid()
      modifies this`checkinDate, this`checkoutDate
      ensures Valid()
      ensures Current() == Select(old(Current()), date)
    {
      if checkinDate.None? || checkoutDate.Some? {
        checkinDate := Some(date);
        checkoutDate := None;
      } else if date > checkinDate.value {
        checkoutDate := Some(date);
      } else {
        checkinDate := Some(date);
        checkoutDate := None;
      }
    }

    /** `renderMonth(monthDate, …)`: the 42 cells, built one per step; the
        unavailable dates are those of the chosen room. */
    method RenderMonth(y: int, m: int, today: int, roomData: map<string, RoomJs>) returns (cells: seq<Cell>)
      requires 0 <= m < 12 && selectedRoom in roomData
      ensures |cells| == 42
      ensures forall i :: 0 <= i < 42 ==>
        cells[i] == CellAt(y, m, i, today, roomData[selectedRoom].unavailableDates, Current())
    {
      var unavailable := roomData[selectedRoom].unavailableDates;
      cells := [];
      var i := 0;
      while i < 42
        invariant 0 <= i <= 42 && |cells| == i
        invariant forall k :: 0 <= k < i ==> cells[k] == CellAt(y, m, k, today, unavailable, Current())
      {
        var date := GridStart(y, m) + i;
        var first := FirstOfMonth(y, m);
        var inMonth := first <= date < first + DaysInMonth(y, m);
        var greyed := inMonth && (date < today || date in unavailable);
        var cell := Cell(date, inMonth, greyed, inMonth && !greyed,
                         checkinDate == Some(date), checkoutDate == Some(date),
                         checkinDate.Some? && checkoutDate.Some? && checkinDate.value < date < checkoutDate.value);
        cells := cells + [cell];
        i := i + 1;
      }
    }

    /** `renderCalendars()`: the month shown first and the one after it. */
    method RenderCalendars(today: int, roomData: map<string, RoomJs>) returns (first: seq<Cell>, second: seq<Cell>)
      requires Valid() && selectedRoom in roomData
      ensures |first| == 42 && |second| == 42
      ensures forall i :: 0 <= i < 42 ==>
        first[i] == CellAt(year, month, i, today, roomData[selectedRoom].unavailableDates, Current())
      ensures var (y2, m2) := ShiftMonth(year, month, 1);
        forall i :: 0 <= i < 42 ==>
          second[i] == CellAt(y2, m2, i, today, roomData[selectedRoom].unavailableDates, Current())
    {
      first := RenderMonth(year, month, today, roomData);
      var (y2, m2) := ShiftMonth(year, month, 1);
      second := RenderMonth(y2, m2, today, roomData);
    }

    /** `updateStatusMessage()` for the chosen room's price. */
    function StatusMessage(roomData: map<string, RoomJs>): StatusLine
      requires Valid() && selectedRoom in roomData
      reads this
    {
      Status(Current(), roomData[selectedRoom].price)
    }
  }
}
