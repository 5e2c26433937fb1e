/** main.py: one chat turn of the receptionist. A pending activity question
    takes the turn first; otherwise the router's tool picks a tool, and the
    exchange is saved to the conversation memory. Also the greeting, the
    "remove booking form" button and the log panel's formatting. */
module MainApp {
  import opened Wrappers
  import opened Text
  import opened Lists
  import opened Session
  import opened Followup
  import opened BookingTool
  import Retrieval

  const ErrorApology := "I'm sorry, I encountered an error processing your request. Please try again or rephrase your question."
  const Greeting := "\U{1F44B} Hello, I'm George. How can I help you today?"
  const FormRemoved := "Booking form removed. How else can I help you today?"

  /** The labels `execute_tool` acts on. */
  predicate KnownLabel(tool: string) {
    tool == "sql_tool" || tool == "vector_tool" || tool == "booking_tool"
  }

  /** The three labels differ. */
  lemma LabelsDistinct()
    ensures "sql_tool" != "vector_tool" && "sql_tool" != "booking_tool" && "vector_tool" != "booking_tool"
  {
    assert "sql_tool"[0] == 's' && "vector_tool"[0] == 'v' && "booking_tool"[0] == 'b';
  }

  /** What the outside world answers during one turn: the three calls of
      the follow-up handler (the intent classifier, the activities file and
      the call that phrases the suggestions), the router, the SQL and
      document tools, and whether building the follow-up message fails. */
  datatype Replies = Replies(
    intent: Outcome<string>,
    activitiesFile: Outcome<string>,
    activityReply: Outcome<string>,
    router: Outcome<string>,
    sql: Outcome<string>,
    vector: Outcome<string>,
    followupMessageFails: bool)

  /** The `booking_tool` branch of `execute_tool`: the booking flow, then,
      right after a completed booking, the follow-up question appended to its
      reply unless building the follow-up message raises. */
  function BookingBranch(v: SessionView, query: string, rs: Replies): (o: (Outcome<Option<string>>, SessionView))
    ensures o.0.Ok? && o.0.value.Some? && o.1.bookingMode
    ensures o.1.history == v.history && o.1.memory == v.memory && o.1.latestBookingInfo == v.latestBookingInfo
    ensures v.bookingJustCompleted && !rs.followupMessageFails ==>
      !o.1.bookingJustCompleted && o.1.awaitingActivityConsent
      && o.0.value.value == "\n\n" + CreateFollowupMessage(v.latestBookingInfo).message
    ensures !(v.bookingJustCompleted && !rs.followupMessageFails) ==>
      o == (Ok(Some("")), v.(bookingMode := true))
  {
    var (v1, result) := BookingFlow(v, query);
    assert v1 == v.(bookingMode := true) && result == "";
    if v1.bookingJustCompleted && !rs.followupMessageFails then
      var fu := CreateFollowupMessage(v1.latestBookingInfo);
      assert result + "\n\n" + fu.message == "\n\n" + fu.message;
      (Ok(Some(result + "\n\n" + fu.message)),
       v1.(awaitingActivityConsent := fu.awaitingActivityConsent, bookingJustCompleted := false))
    else (Ok(Some(result)), v1)
  }

  /** `execute_tool(tool, query)`: the tool's output (`None` for any other
      tool), or the exception a tool raised, and the session afterwards. */
  function ExecuteSpec(v: SessionView, tool: string, query: string, rs: Replies): (o: (Outcome<Option<string>>, SessionView))
    ensures !KnownLabel(tool) ==> o == (Ok(None), v)
    ensures tool == "sql_tool" ==> o.1 == v && o.0 == (if rs.sql.Ok? then Ok(Some(rs.sql.value)) else Raised(rs.sql.message))
    ensures tool == "vector_tool" ==> o.1 == v && o.0 == (if rs.vector.Ok? then Ok(Some(rs.vector.value)) else Raised(rs.vector.message))
    ensures tool == "booking_tool" ==> o == BookingBranch(v, query, rs)
  {
    LabelsDistinct();
    if tool == "sql_tool" then
      (match rs.sql case Ok(t) => Ok(Some(t)) case Raised(m) => Raised(m), v)
    else if tool == "vector_tool" then
      (match rs.vector case Ok(t) => Ok(Some(t)) case Raised(m) => Raised(m), v)
    else if tool == "booking_tool" then BookingBranch(v, query, rs)
    else (Ok(None), v)
  }

  /** `handle_followup_response(input, …)` on this turn's answers. It
      catches every failure of its own calls, so it never raises. */
  function FollowupReply(rs: Replies): string {
    HandleFollowupResponse(rs.intent, rs.activitiesFile, rs.activityReply)
  }

  /** `process_user_query(input)`: the reply and the session afterwards. */
  function ProcessSpec(v: SessionView, input: string, rs: Replies): (o: (string, SessionView))
    ensures v.awaitingActivityConsent ==>
      o == (FollowupReply(rs), v.(awaitingActivityConsent := false))
    ensures o.1.memory == v.memory || o.1.memory == v.memory + [Exchange(input, o.0)]
    ensures o.1.memory != v.memory ==> !v.awaitingActivityConsent && rs.router.Ok? && KnownLabel(Strip(rs.router.value))
    ensures !v.awaitingActivityConsent && rs.router.Raised? ==> o == (ErrorApology, v)
    ensures !v.awaitingActivityConsent && rs.router.Ok? && !KnownLabel(Strip(rs.router.value)) ==> o == (ErrorApology, v)
    ensures !v.awaitingActivityConsent && rs.router.Ok? && KnownLabel(Strip(rs.router.value)) ==>
      var e := ExecuteSpec(v, Strip(rs.router.value), input, rs);
      (e.0.Ok? ==> e.0.value.Some? && o == (e.0.value.value, e.1.(memory := e.1.memory + [Exchange(input, e.0.value.value)])))
      && (e.0.Raised? ==> o == (ErrorApology, v))
    ensures o.1.history == v.history
  {
    if v.awaitingActivityConsent then
      (FollowupReply(rs), v.(awaitingActivityConsent := false))
    else
      match rs.router
      case Raised(_) => (ErrorApology, v)
      case Ok(raw) =>
        var (out, v1) := ExecuteSpec(v, Strip(raw), input, rs);
        match out
        case Raised(_) => (ErrorApology, v1)
        case Ok(None) => (ErrorApology, v1)
        case Ok(Some(t)) => (t, v1.(memory := v1.memory + [Exchange(input, t)]))
  }

  /** While the activity question is pending the router's answer plays no
      part, and the flag is cleared. */
  lemma ConsentTurnIgnoresRouter(v: SessionView, input: string, rs: Replies, router: Outcome<string>)
    requires v.awaitingActivityConsent
    ensures ProcessSpec(v, input, rs) == ProcessSpec(v, input, rs.(router := router))
    ensures !ProcessSpec(v, input, rs).1.awaitingActivityConsent
  {
  }

  /** On a consent turn the reply is the follow-up handler's, so the
      classified intent decides it. */
  lemma ConsentTurnReply(v: SessionView, input: string, rs: Replies)
    requires v.awaitingActivityConsent && rs.intent.Ok?
    ensures ClassifyIntent(rs.intent.value) == Negative ==> ProcessSpec(v, input, rs).0 == NegativeReply
    ensures ClassifyIntent(rs.intent.value) == Unclear ==> ProcessSpec(v, input, rs).0 == UnclearReply
    ensures ClassifyIntent(rs.intent.value) == Positive && rs.activityReply.Raised? ==>
      ProcessSpec(v, input, rs).0 == ActivitiesFallbackIntro + LoadActivities(rs.activitiesFile)
  {
  }

  /** The output of the SQL or the document tool, as `execute_tool` gets it. */
  function ToolOutput(tool: string, rs: Replies): Outcome<string>
    requires tool == "sql_tool" || tool == "vector_tool"
  {
    if tool == "sql_tool" then rs.sql else rs.vector
  }

  /** A turn routed to the SQL or the document tool replies with the tool's
      output and saves exactly that exchange; when the tool raises, the turn
      gives the apology and nothing changes. */
  lemma SuccessfulTurnSavesOnce(v: SessionView, input: string, rs: Replies, tool: string)
    requires !v.awaitingActivityConsent && rs.router.Ok? && Strip(rs.router.value) == tool
    requires tool == "sql_tool" || tool == "vector_tool"
    ensures ToolOutput(tool, rs).Ok? ==>
      ProcessSpec(v, input, rs) == (ToolOutput(tool, rs).value, v.(memory := v.memory + [Exchange(input, ToolOutput(tool, rs).value)]))
    ensures ToolOutput(tool, rs).Raised? ==> ProcessSpec(v, input, rs) == (ErrorApology, v)
  {
    LabelsDistinct();
  }

  /** A turn routed to the booking tool always replies and saves its reply. */
  lemma BookingTurnSaves(v: SessionView, input: string, rs: Replies)
    requires !v.awaitingActivityConsent && rs.router.Ok? && Strip(rs.router.value) == "booking_tool"
    ensures var b := BookingBranch(v, input, rs);
      ProcessSpec(v, input, rs) == (b.0.value.value, b.1.(memory := v.memory + [Exchange(input, b.0.value.value)]))
  {
    LabelsDistinct();
  }

  /** With tools/vector_tool.py as written, every document-tool turn whose
      search gets past its two early replies raises, so the visitor gets the
      apology and nothing is saved. */
  lemma VectorTurnApologises(v: SessionView, input: string, rs: Replies, docs: seq<Retrieval.Doc>,
                             answer: (string, string) -> Outcome<string>)
    requires !v.awaitingActivityConsent && rs.router.Ok? && Strip(rs.router.value) == "vector_tool"
    requires rs.vector == Retrieval.VectorToolAsWritten(input, docs, answer)
    requires docs != [] && !Retrieval.AllTooShort(docs)
    ensures ProcessSpec(v, input, rs) == (ErrorApology, v)
  {
    Retrieval.VectorToolAsWrittenRaises(input, docs, answer);
    SuccessfulTurnSavesOnce(v, input, rs, "vector_tool");
  }

  /** The router may answer "chat_tool", but `execute_tool` has no branch for
      it: the turn ends with the apology and nothing is saved. */
  lemma ChatToolFallsThrough(v: SessionView, input: string, rs: Replies)
    requires !v.awaitingActivityConsent && rs.router == Ok("chat_tool\n")
    ensures ProcessSpec(v, input, rs) == (ErrorApology, v)
  {
    var tool := Strip(rs.router.value);
    assert tool == "chat_tool" by {
      var s := "chat_tool\n";
      assert s[0] == 'c' && s[8] == 'l' && s[9] == '\n';
      assert SpaceRunEnd(s, 0) == 0;
      assert SpaceRunStart(s, 0, 9) == 9;
      assert s[..9] == "chat_tool";
    }
    assert !KnownLabel(tool) by {
      assert tool[0] == 'c';
    }
  }

  /** `execute_tool(tool, query)` on the live session. */
  method ExecuteTool(s: SessionState, tool: string, query: string, rs: Replies) returns (out: Outcome<Option<string>>)
    modifies s
    ensures (out, s.View()) == ExecuteSpec(old(s.View()), tool, query, rs)
  {
    if tool == "sql_tool" {
      out := match rs.sql case Ok(t) => Ok(Some(t)) case Raised(m) => Raised(m);
    } else if tool == "vector_tool" {
      out := match rs.vector case Ok(t) => Ok(Some(t)) case Raised(m) => Raised(m);
    } else if tool == "booking_tool" {
      var result := HandleBookingFlow(s, query);
      if s.bookingJustCompleted && !rs.followupMessageFails {
        var fu := CreateFollowupMessage(s.latestBookingInfo);
        s.awaitingActivityConsent := fu.awaitingActivityConsent;
        s.bookingJustCompleted := false;
        out := Ok(Some(result + "\n\n" + fu.message));
      } else {
        out := Ok(Some(result));
      }
    } else {
      out := Ok(None);
    }
  }

  /** `process_user_query(input)` on the live session. */
  method ProcessUserQuery(s: SessionState, input: string, rs: Replies) returns (reply: string)
    modifies s
    ensures (reply, s.View()) == ProcessSpec(old(s.View()), input, rs)
  {
    if s.awaitingActivityConsent {
      reply := HandleFollowupResponse(rs.intent, rs.activitiesFile, rs.activityReply);
      s.awaitingActivityConsent := false;
      return;
    }
    if rs.router.Raised? {
      return ErrorApology;
    }
    var out := ExecuteTool(s, Strip(rs.router.value), input, rs);
    if out.Raised? || out.value.None? {
      return ErrorApology;
    }
    s.memory := s.memory + [Exchange(input, out.value.value)];
    reply := out.value.value;
  }

  /** The history with the greeting added when, and only when, it is empty. */
  function Greeted(h: seq<Turn>): (r: seq<Turn>)
    ensures h != [] ==> r == h
    ensures h == [] ==> r == [Turn("bot", Greeting)]
  {
    if h == [] then [Turn("bot", Greeting)] else h
  }

  method Greet(s: SessionState)
    modifies s`history
    ensures s.history == Greeted(old(s.history))
  {
    if s.history == [] {
      s.history := s.history + [Turn("bot", Greeting)];
    }
  }

  /** A visitor's message: shown, answered, and the answer shown after it. */
  method ChatTurn(s: SessionState, input: string, rs: Replies) returns (reply: string)
    modifies s
    ensures var (r, v) := ProcessSpec(old(s.View()).(history := old(s.history) + [Turn("user", input)]), input, rs);
      reply == r && s.View() == v.(history := v.history + [Turn("bot", r)])
    ensures s.history == old(s.history) + [Turn("user", input), Turn("bot", reply)]
  {
    s.history := s.history + [Turn("user", input)];
    reply := ProcessUserQuery(s, input, rs);
    s.history := s.history + [Turn("bot", reply)];
  }

  /** The "Remove Booking Form" button. */
  method RemoveBookingForm(s: SessionState)
    modifies s`bookingMode, s`history
    ensures !s.bookingMode && s.history == old(s.history) + [Turn("bot", FormRemoved)]
  {
    s.bookingMode := false;
    s.history := s.history + [Turn("bot", FormRemoved)];
  }

  // ---------------------------------------------------------------------
  // Log panel
  // ---------------------------------------------------------------------

  predicate IsEmDash(c: char) { c == '\U{2014}' }

  /** The lines of the log that do not mention the launch message. */
  function KeptLines(lines: seq<string>): (r: seq<string>)
    ensures |r| <= |lines|
    ensures forall x :: x in r <==> x in lines && !Contains(x, "App launched")
  {
    if lines == [] then []
    else if Contains(lines[0], "App launched") then KeptLines(lines[1..])
    else [lines[0]] + KeptLines(lines[1..])
  }

  /** The filter works line by line, so it keeps the order of the log: the
      kept lines of two runs of lines are those of each, one after the other. */
  lemma {:induction false} KeptLinesAppend(a: seq<string>, b: seq<string>)
    ensures KeptLines(a + b) == KeptLines(a) + KeptLines(b)
    decreases |a|
  {
    if a == [] {
      assert a + b == b;
    } else {
      assert (a + b)[0] == a[0];
      assert (a + b)[1..] == a[1..] + b;
      KeptLinesAppend(a[1..], b);
    }
  }

  /** A single line is kept exactly when it does not mention the launch. */
  lemma KeptLine(x: string)
    ensures KeptLines([x]) == if Contains(x, "App launched") then [] else [x]
  {
    assert [x][1..] == [];
  }

  /** A line split at its first em dash into time stamp and message. */
  function SplitAtDash(line: string): (r: Option<(string, string)>)
    ensures r.Some? <==> exists k :: 0 <= k < |line| && IsEmDash(line[k])
    ensures r.Some? ==>
      line == r.value.0 + "\U{2014}" + r.value.1
      && forall k :: 0 <= k < |r.value.0| ==> !IsEmDash(r.value.0[k])
  {
    var i := FirstIndex(line, IsEmDash);
    if i < |line| then
      assert line == line[..i] + "\U{2014}" + line[i + 1..];
      Some((line[..i], line[i + 1..]))
    else None
  }

  /** One line of the panel: a dashed line as bold time stamp and message,
      any other line as it is, each after its separator. */
  function FormatLine(line: string): string {
    match SplitAtDash(line)
    case Some((ts, msg)) => "\n\n**" + Strip(ts) + "** \U{2014} " + Strip(msg)
    case None => "\n" + line
  }

  /** The formatted panel text and the download text for the raw log. */
  method FormatLogs(raw: string) returns (formatted: string, download: string)
    ensures formatted == ConcatMap(KeptLines(SplitLines(raw)), FormatLine)
    ensures download == Join(KeptLines(SplitLines(raw)), "\n")
  {
    var lines := KeptLines(SplitLines(raw));
    formatted := ConcatAll(lines, FormatLine);
    download := Join(lines, "\n");
  }

  /** A formatted dashed line starts a new paragraph whose bold part holds no
      dash; only the line's first dash separates the parts. */
  lemma DashedLineFormat(line: string)
    requires SplitAtDash(line).Some?
    ensures StartsWith(FormatLine(line), "\n\n**")
    ensures forall k :: 0 <= k < |Strip(SplitAtDash(line).value.0)| ==> !IsEmDash(Strip(SplitAtDash(line).value.0)[k])
  {
    var ts := SplitAtDash(line).value.0;
    var rest := Strip(ts) + "** \U{2014} " + Strip(SplitAtDash(line).value.1);
    assert FormatLine(line) == "\n\n**" + rest;
    assert (("\n\n**" + rest)[..4]) == "\n\n**";
    var st := Strip(ts);
    forall k | 0 <= k < |st|
      ensures !IsEmDash(st[k])
    {
      assert st[k] == ts[StripStart(ts) + k];
    }
  }
}
