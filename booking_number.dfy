/** Booking references of the form `BKG-YYYYMMDD-XXXX` (booking/calendar.py,
    `generate_booking_number`): the date of the day the booking is made and the
    table's auto-increment id, zero-padded to at least four digits. */
module BookingNumber {
  import opened Wrappers
  import opened Text

  /** A calendar date as `datetime.today()` yields it. */
  datatype Date = Date(year: nat, month: nat, day: nat)

  predicate ValidDate(d: Date) {
    1 <= d.year <= 9999 && 1 <= d.month <= 12 && 1 <= d.day <= 31
  }

  /** A numeral zero-filled to `width` keeps only digits. */
  lemma ZFillDigits(n: nat, width: nat)
    ensures AllDigits(ZFill(Digits(n), width))
  {
    ParseZFill(n, width);
  }

  /** `n` written with exactly `width` digits, when it fits. */
  lemma ZFillWidth(n: nat, width: nat)
    requires width > 0 && n < Pow10(width)
    ensures |ZFill(Digits(n), width)| == width
  {
    DigitsLength(n, width);
  }

  /** `d.strftime("%Y%m%d")` */
  function Stamp(d: Date): (r: string)
    requires ValidDate(d)
    ensures |r| == 8 && AllDigits(r)
  {
    assert Pow10(2) == 100 && Pow10(4) == 10000;
    ZFillWidth(d.year, 4);
    ZFillWidth(d.month, 2);
    ZFillWidth(d.day, 2);
    ZFillDigits(d.year, 4);
    ZFillDigits(d.month, 2);
    ZFillDigits(d.day, 2);
    ZFill(Digits(d.year), 4) + ZFill(Digits(d.month), 2) + ZFill(Digits(d.day), 2)
  }

  /** `generate_booking_number(booking_id)` on the day `today`. */
  function Generate(bookingId: nat, today: Date): (r: string)
    requires ValidDate(today)
  {
    "BKG-" + Stamp(today) + "-" + ZFill(Digits(bookingId), 4)
  }

  /** Reads a booking reference back into its date stamp and its id. */
  function Parse(r: string): Option<(string, nat)> {
    if |r| >= 14 && r[..4] == "BKG-" && AllDigits(r[4..12]) && r[12] == '-' && AllDigits(r[13..])
    then Some((r[4..12], ParseDecimal(r[13..])))
    else None
  }

  /** The pieces of a reference read back from their positions. */
  lemma ReferencePieces(st: string, z: string)
    requires |st| == 8
    ensures var r := "BKG-" + st + "-" + z;
      |r| == 13 + |z| && r[..4] == "BKG-" && r[4..12] == st && r[12] == '-' && r[13..] == z
  {
    var r := "BKG-" + st + "-" + z;
    assert r[..4] == "BKG-";
    assert r[4..12] == st;
    assert r[13..] == z;
  }

  /** The reference always starts with the fixed prefix and its date, and its
      numeric part always ends the string. */
  lemma GenerateShape(bookingId: nat, today: Date)
    requires ValidDate(today)
    ensures var r := Generate(bookingId, today);
      |r| >= 17 && r[..4] == "BKG-" && r[4..12] == Stamp(today) && r[12] == '-'
      && r[13..] == ZFill(Digits(bookingId), 4)
  {
    var z := ZFill(Digits(bookingId), 4);
    assert |z| >= 4;
    ReferencePieces(Stamp(today), z);
  }

  /** For ids up to 9999 the reference is exactly 17 characters long. */
  lemma GenerateLength(bookingId: nat, today: Date)
    requires ValidDate(today) && bookingId <= 9999
    ensures |Generate(bookingId, today)| == 17
  {
    assert Pow10(4) == 10000;
    ZFillWidth(bookingId, 4);
  }

  /** Reading a generated reference gives back the date stamp and the id. */
  lemma ParseGenerate(bookingId: nat, today: Date)
    requires ValidDate(today)
    ensures Parse(Generate(bookingId, today)) == Some((Stamp(today), bookingId))
  {
    GenerateShape(bookingId, today);
    ParseZFill(bookingId, 4);
  }

  lemma StampPieces(y: string, m: string, d: string)
    requires |y| == 4 && |m| == 2 && |d| == 2
    ensures var s := y + m + d; s[..4] == y && s[4..6] == m && s[6..] == d
  {
    var s := y + m + d;
    assert s[..4] == y;
    assert s[4..6] == m;
    assert s[6..] == d;
  }

  /** A stamp is its year, month and day, each zero-filled to its width. */
  lemma StampFields(d: Date)
    requires ValidDate(d)
    ensures Stamp(d)[..4] == ZFill(Digits(d.year), 4)
    ensures Stamp(d)[4..6] == ZFill(Digits(d.month), 2)
    ensures Stamp(d)[6..] == ZFill(Digits(d.day), 2)
  {
    assert Pow10(2) == 100 && Pow10(4) == 10000;
    ZFillWidth(d.year, 4);
    ZFillWidth(d.month, 2);
    ZFillWidth(d.day, 2);
    StampPieces(ZFill(Digits(d.year), 4), ZFill(Digits(d.month), 2), ZFill(Digits(d.day), 2));
  }

  /** Zero-filling a numeral loses nothing: equal fillings, equal numbers. */
  lemma ZFillInjective(a: nat, b: nat, width: nat)
    requires ZFill(Digits(a), width) == ZFill(Digits(b), width)
    ensures a == b
  {
    ParseZFill(a, width);
    ParseZFill(b, width);
  }

  /** Distinct dates have distinct stamps. */
  lemma StampInjective(d: Date, e: Date)
    requires ValidDate(d) && ValidDate(e) && Stamp(d) == Stamp(e)
    ensures d == e
  {
    StampFields(d);
    StampFields(e);
    ZFillInjective(d.year, e.year, 4);
    ZFillInjective(d.month, e.month, 2);
    ZFillInjective(d.day, e.day, 2);
  }

  /** Two references are equal only when they were made for the same id on
      the same day: zero-padding loses nothing. */
  lemma GenerateInjective(a: nat, d: Date, b: nat, e: Date)
    requires ValidDate(d) && ValidDate(e)
    requires Generate(a, d) == Generate(b, e)
    ensures a == b && d == e
  {
    ParseGenerate(a, d);
    ParseGenerate(b, e);
    StampInjective(d, e);
  }
}
