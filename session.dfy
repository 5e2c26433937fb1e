/** The per-visitor `st.session_state` the chat and the booking form share. */
module Session {
  import opened Wrappers

  /** `st.session_state.latest_booking_info`, written after a confirmed booking.
      Check-in and check-out are kept as day numbers. */
  datatype BookingInfo = BookingInfo(
    bookingNumber: string,
    firstName: string,
    lastName: string,
    email: string,
    phone: string,
    checkIn: int,
    checkOut: int,
    roomType: string,
    totalPrice: int,
    numGuests: int,
    specialRequests: string)
  {
    /** `client_name`: first and last name joined by one space. */
    function ClientName(): string { firstName + " " + lastName }
  }

  /** One chat turn as shown on screen: the speaker ("user" or "bot") and the text. */
  datatype Turn = Turn(speaker: string, text: string)

  /** One exchange saved in the conversation memory: input and output. */
  datatype Exchange = Exchange(input: string, output: string)

  /** The whole session state as a value. */
  datatype SessionView = SessionView(
    awaitingActivityConsent: bool,
    bookingMode: bool,
    bookingJustCompleted: bool,
    latestBookingInfo: Option<BookingInfo>,
    history: seq<Turn>,
    memory: seq<Exchange>)

  class SessionState {
    var awaitingActivityConsent: bool
    var bookingMode: bool
    var bookingJustCompleted: bool
    var latestBookingInfo: Option<BookingInfo>
    var history: seq<Turn>
    var memory: seq<Exchange>

    /** A fresh visit: no flag set, nothing booked, empty history and memory. */
    constructor ()
      ensures View() == SessionView(false, false, false, None, [], [])
    {
      awaitingActivityConsent := false;
      bookingMode := false;
      bookingJustCompleted := false;
      latestBookingInfo := None;
      history := [];
      memory := [];
    }

    function View(): SessionView
      reads this
    {
      SessionView(awaitingActivityConsent, bookingMode, bookingJustCompleted,
                  latestBookingInfo, history, memory)
    }
  }
}
