/** tools/booking_tool.py: the booking tool opens the booking form by
    setting the session's booking-mode flag and answers with no text. */
module BookingTool {
  import opened Session

  /** The session after `handle_booking_flow`, and its (empty) reply. The
      query plays no part. */
  function BookingFlow(v: SessionView, query: string): (r: (SessionView, string))
    ensures r.0.bookingMode && r.1 == ""
    ensures r.0.(bookingMode := v.bookingMode) == v
  {
    (v.(bookingMode := true), "")
  }

  /** Running it twice leaves the session as running it once. */
  lemma BookingFlowIdempotent(v: SessionView, q1: string, q2: string)
    ensures BookingFlow(BookingFlow(v, q1).0, q2) == BookingFlow(v, q2)
  {
  }

  /** `handle_booking_flow(query)`. */
  method HandleBookingFlow(s: SessionState, query: string) returns (r: string)
    modifies s`bookingMode
    ensures (s.View(), r) == BookingFlow(old(s.View()), query)
  {
    s.bookingMode := true;
    r := "";
  }
}
