/** The two room-conflict predicates found in the booking code, and the
    no-overlap invariant of the bookings table. Dates are day numbers; a stay
    occupies the nights from `checkIn` up to, but not including, `checkOut`. */
module Overlap {

  datatype Stay = Stay(roomId: int, checkIn: int, checkOut: int)

  /** Two stays in the same room share at least one night. */
  predicate Overlaps(a: Stay, b: Stay) {
    a.roomId == b.roomId && a.checkIn < b.checkOut && b.checkIn < a.checkOut
  }

  /** `new` strictly encloses `b`: it starts before `b` and ends after it. */
  predicate StrictlyEncloses(n: Stay, b: Stay) {
    n.checkIn < b.checkIn && b.checkOut < n.checkOut
  }

  /** The test of calendar.py and calendar_v2.py for an existing row `b` and
      a request `n`: same room and `NOT (n.in >= b.out OR n.out <= b.in)`.
      It is exactly the half-open overlap, so back-to-back stays pass. */
  predicate HalfOpenConflict(b: Stay, n: Stay): (r: bool)
    ensures r <==> Overlaps(b, n)
  {
    b.roomId == n.roomId && !(n.checkIn >= b.checkOut || n.checkOut <= b.checkIn)
  }

  /** The test of booking/calendar.py and calendar_app.py: same room and
      `(b.in <= n.in AND b.out > n.in) OR (b.in < n.out AND b.out >= n.out)`,
      i.e. the new check-in falls inside `b` or the new check-out does. */
  predicate TwoClauseConflict(b: Stay, n: Stay) {
    b.roomId == n.roomId
    && ((b.checkIn <= n.checkIn && b.checkOut > n.checkIn)
        || (b.checkIn < n.checkOut && b.checkOut >= n.checkOut))
  }

  /** For a request whose check-out follows its check-in, the two-clause test
      flags exactly the overlapping stays that the request does not strictly
      enclose. */
  lemma TwoClauseMissesOnlyEnclosure(b: Stay, n: Stay)
    requires n.checkIn < n.checkOut
    ensures TwoClauseConflict(b, n) <==> Overlaps(b, n) && !StrictlyEncloses(n, b)
  {
  }

  /** A request that strictly encloses a stay in the same room overlaps it
      and is not flagged by the two-clause test. */
  lemma EnclosureNotFlagged(b: Stay, n: Stay)
    requires b.roomId == n.roomId && StrictlyEncloses(n, b)
    requires b.checkIn < b.checkOut
    ensures Overlaps(b, n) && !TwoClauseConflict(b, n)
  {
  }

  /** No two stays of the table share a night in the same room. */
  predicate NoOverlap(stays: seq<Stay>) {
    forall i, j :: 0 <= i < |stays| && 0 <= j < |stays| && i != j ==> !Overlaps(stays[i], stays[j])
  }

  predicate AnyHalfOpenConflict(stays: seq<Stay>, n: Stay) {
    exists i :: 0 <= i < |stays| && HalfOpenConflict(stays[i], n)
  }

  predicate AnyTwoClauseConflict(stays: seq<Stay>, n: Stay) {
    exists i :: 0 <= i < |stays| && TwoClauseConflict(stays[i], n)
  }

  /** Appending a request that the half-open test lets through keeps the
      table overlap-free. */
  lemma InsertPreservesNoOverlap(stays: seq<Stay>, n: Stay)
    requires NoOverlap(stays) && !AnyHalfOpenConflict(stays, n)
    ensures NoOverlap(stays + [n])
  {
    var t := stays + [n];
    forall i, j | 0 <= i < |t| && 0 <= j < |t| && i != j
      ensures !Overlaps(t[i], t[j])
    {
      if i == |stays| {
        assert !HalfOpenConflict(stays[j], n);
      } else if j == |stays| {
        assert !HalfOpenConflict(stays[i], n);
      }
    }
  }

  /** Accepting requests one at a time with the half-open test, as
      calendar.py's `insert_booking` does across calls. */
  function HalfOpenInsertAll(stays: seq<Stay>, requests: seq<Stay>): seq<Stay>
    decreases |requests|
  {
    if requests == [] then stays
    else
      var next := if AnyHalfOpenConflict(stays, requests[0]) then stays else stays + [requests[0]];
      HalfOpenInsertAll(next, requests[1..])
  }

  /** Any sequence of half-open inserts on an overlap-free table leaves it
      overlap-free. */
  lemma {:induction false} InsertAllPreservesNoOverlap(stays: seq<Stay>, requests: seq<Stay>)
    requires NoOverlap(stays)
    ensures NoOverlap(HalfOpenInsertAll(stays, requests))
    decreases |requests|
  {
    if requests != [] {
      if !AnyHalfOpenConflict(stays, requests[0]) {
        InsertPreservesNoOverlap(stays, requests[0]);
      }
      var next := if AnyHalfOpenConflict(stays, requests[0]) then stays else stays + [requests[0]];
      InsertAllPreservesNoOverlap(next, requests[1..]);
    }
  }

  /** With the two-clause test the invariant breaks: a table holding one stay
      of nights 10-11 accepts a stay of nights 9-12 in the same room. */
  lemma TwoClauseBreaksNoOverlap()
    ensures NoOverlap([Stay(1, 10, 12)])
    ensures !AnyTwoClauseConflict([Stay(1, 10, 12)], Stay(1, 9, 13))
    ensures !NoOverlap([Stay(1, 10, 12), Stay(1, 9, 13)])
  {
    var t := [Stay(1, 10, 12), Stay(1, 9, 13)];
    assert Overlaps(t[0], t[1]);
  }
}
