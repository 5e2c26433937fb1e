/** The post-booking follow-up of tools/followup_tool.py: the confirmation
    message that asks whether the guest wants activity suggestions, and the
    handling of the guest's answer. Every call into the language model or the
    file system is an `Outcome` input. */
module Followup {
  import opened Wrappers
  import opened Text
  import opened Session

  const ActivitiesUnavailable := "I'm sorry, I couldn't load the activity suggestions at this time."
  const IntentTrouble := "I'm sorry, I had trouble understanding that. Could you say that again?"
  const ActivitiesFallbackIntro := "Great! Here are some wonderful things to do in the area:\n\n"
  const NegativeReply := "No problem at all! Have a wonderful and relaxing stay with us! \U{1F60A}"
  const UnclearReply := "Would you like some suggestions for local attractions and activities? Just let me know!"
  const Confirmation := ". A confirmation email has been sent to your provided email address. Thank you for choosing Chez Govinda for your upcoming stay!\n\n"
  const ConsentQuestion := "Would you like recommendations for things to see and do during your stay?"

  /** `load_activities()`: the file's text, or an apology when reading fails. */
  function LoadActivities(file: Outcome<string>): (r: string)
    ensures file.Ok? ==> r == file.value
    ensures file.Raised? ==> r == ActivitiesUnavailable
  {
    match file
    case Ok(text) => text
    case Raised(_) => ActivitiesUnavailable
  }

  datatype Intent = Positive | Negative | Unclear

  /** The classifier's reply, stripped and upper-cased; anything but the two
      labels counts as unclear. */
  function ClassifyIntent(reply: string): (i: Intent)
    ensures i == Positive <==> Upper(Strip(reply)) == "POSITIVE"
    ensures i == Negative <==> Upper(Strip(reply)) == "NEGATIVE"
  {
    var tag := Upper(Strip(reply));
    if tag == "POSITIVE" then Positive
    else if tag == "NEGATIVE" then Negative
    else Unclear
  }

  /** `handle_followup_response`: `intentReply` is the classifier call,
      `activitiesFile` the read of the activities file, `activityReply` the
      call that phrases the suggestions. */
  function HandleFollowupResponse(intentReply: Outcome<string>, activitiesFile: Outcome<string>,
                                  activityReply: Outcome<string>): (r: string)
    ensures intentReply.Raised? ==> r == IntentTrouble
    ensures intentReply.Ok? && ClassifyIntent(intentReply.value) == Positive ==>
      (activityReply.Ok? ==> r == Strip(activityReply.value))
      && (activityReply.Raised? ==> r == ActivitiesFallbackIntro + LoadActivities(activitiesFile))
    ensures intentReply.Ok? && ClassifyIntent(intentReply.value) == Negative ==> r == NegativeReply
    ensures intentReply.Ok? && ClassifyIntent(intentReply.value) == Unclear ==> r == UnclearReply
  {
    match intentReply
    case Raised(_) => IntentTrouble
    case Ok(reply) =>
      match ClassifyIntent(reply)
      case Positive =>
        var activities := LoadActivities(activitiesFile);
        (match activityReply
         case Ok(text) => Strip(text)
         case Raised(_) => ActivitiesFallbackIntro + activities)
      case Negative => NegativeReply
      case Unclear => UnclearReply
  }

  /** Only a positive answer can leave the reply to the phrasing call: the
      other answers are fixed texts, independent of it and of the file. */
  lemma OnlyPositiveConsultsActivities(reply: string, f1: Outcome<string>, f2: Outcome<string>,
                                       a1: Outcome<string>, a2: Outcome<string>)
    requires ClassifyIntent(reply) != Positive
    ensures HandleFollowupResponse(Ok(reply), f1, a1) == HandleFollowupResponse(Ok(reply), f2, a2)
  {
  }

  /** The classifier's label is read case- and padding-insensitively. */
  lemma IntentIgnoresCaseAndPadding(a: string, b: string)
    requires Upper(Strip(a)) == Upper(Strip(b))
    ensures ClassifyIntent(a) == ClassifyIntent(b)
  {
  }

  datatype FollowUp = FollowUp(message: string, awaitingActivityConsent: bool)

  /** The name the message greets: the stored first name, or "valued guest". */
  function GuestName(info: Option<BookingInfo>): string {
    if info.Some? then info.value.firstName else "valued guest"
  }

  /** The reference the message quotes, or "your booking". */
  function QuotedReference(info: Option<BookingInfo>): string {
    if info.Some? then info.value.bookingNumber else "your booking"
  }

  function GreetingPrefix(info: Option<BookingInfo>): string {
    "Dear " + GuestName(info) + ", This is your booking number #"
  }

  lemma Pieces(a: string, b: string, c: string)
    ensures var m := a + b + c;
      m[..|a|] == a && m[|a|..|a| + |b|] == b && m[|m| - |c|..] == c
  {
  }

  lemma Suffix(a: string, t: string, b: string, c: string)
    requires t == b + c
    ensures EndsWith(a + t, c)
  {
    var m := a + t;
    assert m[|m| - |c|..] == c;
  }

  /** `create_followup_message()` on the stored `latest_booking_info`. The
      message greets the guest, quotes the reference right after a '#', ends
      with the consent question, and always sets the awaiting flag. */
  function CreateFollowupMessage(info: Option<BookingInfo>): (f: FollowUp)
    ensures f.awaitingActivityConsent
    ensures StartsWith(f.message, GreetingPrefix(info))
    ensures var k := |GreetingPrefix(info)|;
      k + |QuotedReference(info)| <= |f.message|
      && f.message[k..k + |QuotedReference(info)|] == QuotedReference(info)
    ensures EndsWith(f.message, ConsentQuestion)
  {
    var prefix := GreetingPrefix(info);
    var q := QuotedReference(info);
    var tail := Confirmation + ConsentQuestion;
    var m := prefix + q + tail;
    Pieces(prefix, q, tail);
    Suffix(prefix + q, tail, Confirmation, ConsentQuestion);
    FollowUp(m, true)
  }
}
