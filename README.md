# George, the hotel receptionist: a verified model of its deterministic core

George is the chat receptionist of the Chez Govinda hotel. A visitor types a
question. A language-model router picks a tool: SQL over the bookings
database, search over the hotel's documents, or the booking form. After a
confirmed booking the assistant asks whether the guest would like activity
suggestions, and it handles the answer. Beside the chat there are stand-alone
booking pages, a visual date picker, and ingestion scripts that scrape the
hotel's site and split a model's sectioned output into documents.

This project models the sequential logic under all of that and proves
properties of it:

- the conflict check and insert of each booking page, over an in-memory
  bookings table with an auto-increment counter;
- the booking reference `BKG-YYYYMMDD-XXXX`;
- form validation and the price rules;
- the date picker's selection state machine and its 42-cell month grid;
- the turn dispatch of `process_user_query` / `execute_tool` and the
  booking and follow-up tools;
- the text transformers: `clean_sql`, `clean_text`, the section parser, the
  retrieval post-processing, `find_source_link`, the timestamp header
  rewrite, and the helpers of the ReAct front end.

Some source files hold the same code, and each pair is modelled once:

- calendar.py and calendar_v2.py are the same program (`HalfOpenCalendar`).
- The `clean_text` functions of ingestion_firecrawl.py and
  Ingestion/ingestion_firecrawl.py are the same, and so are the parse loops
  of ingestion.py and Ingestion/ingestion.py (`Ingestion`).
- `find_source_link` in tools.py and in utils/helpers.py is the same
  function (`Retrieval.FindSourceLink`).

Everything the code gets from outside is an input of the model:

- Each language-model reply, each database answer, each scrape and each
  file read is a parameter.
- A Python exception is the `Raised` case of `Wrappers.Outcome`.
- Where the database can fail is a `BookingStore.DbFault` value.
- The clock reading is a parameter, and dates are integer day numbers.

Imperative code is modelled imperatively:

- The bookings table is the class `BookingStore.Store`. Each `insert_booking`
  is a method on it, proved equal to a specification function that the
  lemmas are about.
- The Streamlit session state is `Session.SessionState`, and the date
  picker's JavaScript variables are `VisualCalendar.Picker`.
- The timestamped directory is `Timestamping.FileTree`, and the ReAct chat
  state is `LookingGood.Chat`.
- Loops in the source are loops in the model, each proved against a
  function: the dedup loop, the link loop, the pattern cascade, the
  scraping loop, the section parse loop, the 42-cell render loop, the
  room-data loop, the log formatter and the file-walk loop.

`Text` models the Python string methods the code uses:

- `strip` over the `str.isspace` characters;
- ASCII `lower` / `upper`;
- `splitlines`, `split`, `join`, `replace`, `find`;
- decimal digits and `zfill`.

`Lists` holds the generic per-element loops the parsers and formatters share.

## Model

| member | source | states |
|---|---|---|
| Overlap.HalfOpenConflict | calendar.py:39-44 | The test `NOT (in >= b.out OR out <= b.in)` in the same room holds exactly when the two stays share a night. |
| Overlap.TwoClauseMissesOnlyEnclosure | booking/calendar.py:156-162 | For a request whose check-out follows its check-in, the two-clause test flags exactly the overlapping stays that the request does not strictly enclose. |
| Overlap.EnclosureNotFlagged | booking/calendar.py:156-166 | A request that strictly encloses an existing stay in the same room overlaps it, yet the two-clause test does not flag it. |
| Overlap.InsertPreservesNoOverlap | calendar.py:39-67 | Appending a request that no row conflicts with under the half-open test keeps the table free of overlaps. |
| Overlap.InsertAllPreservesNoOverlap | calendar_v2.py:39-67 | Any sequence of half-open-checked inserts, started on an overlap-free table, leaves it overlap-free. |
| Overlap.TwoClauseBreaksNoOverlap | calendar_app.py:44-58 | With the two-clause test the invariant fails: a table holding nights 10-11 of a room accepts nights 9-12 of that room and then holds two overlapping stays. |
| BookingNumber.ZFillDigits | booking/calendar.py:130 | A zero-filled decimal numeral holds only digits. |
| BookingNumber.ZFillWidth | booking/calendar.py:130 | An id below 10^width is written with exactly `width` characters. |
| BookingNumber.Stamp | booking/calendar.py:129 | The `%Y%m%d` date stamp is exactly 8 digits. |
| BookingNumber.GenerateShape | booking/calendar.py:124-130 | A reference is "BKG-", the 8-digit stamp, "-", and the id zero-filled to at least 4 digits, in that order; it has at least 17 characters. |
| BookingNumber.GenerateLength | booking/calendar.py:127-130 | For ids 0 to 9999 the reference has exactly 17 characters. |
| BookingNumber.ParseGenerate | booking/calendar.py:124-130 | Reading a generated reference back gives its date stamp and its id. |
| BookingNumber.StampFields | booking/calendar.py:129 | The stamp is the year zero-filled to 4, the month to 2 and the day to 2. |
| BookingNumber.ZFillInjective | booking/calendar.py:130 | Equal zero-filled numerals come from equal numbers. |
| BookingNumber.StampInjective | booking/calendar.py:129 | Distinct dates have distinct stamps. |
| BookingNumber.GenerateInjective | booking/calendar.py:124-130 | Two references are equal only when they were made for the same id on the same date. |
| BookingStore.WithBookingNumber | booking/calendar.py:193-194 | The UPDATE keeps the length of the table, sets the number on the rows with that id, and leaves every other row unchanged. |
| BookingStore.NumbersUnique | booking/calendar.py:187-194 | In a table with strictly increasing ids whose numbers read back as their own row's id, no two rows carry the same booking number. |
| BookingStore.UpdateLastRow | booking/calendar.py:187-194 | Updating by the id of the row just inserted changes that row only. |
| BookingStore.NumberLastRow | booking/calendar.py:192-194 | Giving the new row the reference generated for its id keeps every stored number referring to its own row. |
| BookingStore.Store.Insert | booking/calendar.py:185-187 | The INSERT appends exactly one row, whose id is the old counter (`lastrowid`); the counter moves on by one; the ids stay increasing. |
| BookingStore.Store.SetBookingNumber | booking/calendar.py:193-195 | The table afterwards is the UPDATE applied to the table before. The counter does not change. |
| BookingCalendar.Conflicts | booking/calendar.py:156-167 | The SELECT returns rows of the table that all pass the two-clause test. It returns none exactly when no row does. |
| BookingCalendar.InsertSpec | booking/calendar.py:140-200 | A booking is made exactly when the database does not fail and no row conflicts. The result is `(reference for the new id, price, room type)`, and the table gains exactly one row with every submitted field and that reference. A conflict gives the fixed message and leaves the table unchanged. A failing connect, SELECT or INSERT leaves it unchanged. A failing UPDATE leaves the row inserted without a number. |
| BookingCalendar.InsertBooking | booking/calendar.py:140-210 | The method's reply and new table are those of `InsertSpec`. It keeps every booking number referring to its own row. |
| BookingCalendar.DialPrefix | booking/calendar.py:265-267 | `country_code.split()[0]` is a non-empty, space-free prefix of the choice, starting with '+'. |
| BookingCalendar.FormatPhone | booking/calendar.py:267 | The phone is the prefix, a space and the number, or empty when no number was typed. |
| BookingCalendar.PriceWithoutDateOrder | booking/calendar.py:290-291 | Nothing orders the dates, so a check-out on or before the check-in is priced at zero or less. |
| BookingCalendar.PricePerGuest | booking/calendar.py:291 | Each extra guest adds the room price times the nights: the total is price × nights × guests. |
| BookingCalendar.SubmitSpec | booking/calendar.py:278-377 | With no rooms, or a missing first name, last name or email, nothing is inserted and the session is unchanged. Otherwise the table is unchanged or gains exactly one row. A confirmed booking's row carries the submitted values and the reference, and the session takes the confirmed-booking update. |
| BookingCalendar.ConfirmedEffects | booking/calendar.py:313-377 | After a confirmed booking: the reference is generated for the new id; the form is closed; the consent flag is set; exactly one bot message is appended, greeting the guest by first name before the reference; the stored details carry the reference; the memory is unchanged. |
| BookingCalendar.MissingFieldNoInsert | booking/calendar.py:282-284 | An empty first name, last name or email inserts nothing and changes nothing. |
| BookingCalendar.PhoneOptional | booking/calendar.py:266-284 | In any table where the stay conflicts with nothing, a form without a phone number is still booked under the next reference. The table gains exactly one row, which stores an empty phone. |
| HalfOpenCalendar.ConflictCount | calendar.py:39-50 | `COUNT(*)` is at most the number of rows, and positive exactly when some row overlaps the request in the same room. |
| HalfOpenCalendar.InsertSpec | calendar.py:33-74 | "success" exactly when the database does not fail and nothing overlaps; it then appends exactly one row. In every other case the table is unchanged: "conflict" on an overlap, "error" on a failing query or insert, and the `finally` block's unbound-variable exception on a failing connect. |
| HalfOpenCalendar.InsertPreserves | calendar.py:39-67 | One call keeps an overlap-free table overlap-free. |
| HalfOpenCalendar.InsertBooking | calendar.py:33-74 | The method's reply and new table are those of `InsertSpec`. |
| HalfOpenCalendar.InsertManyPreservesNoOverlap | calendar_v2.py:33-67 | Any sequence of calls, each with its own database behaviour, keeps an overlap-free table overlap-free. |
| HalfOpenCalendar.BackToBackAccepted | calendar.py:41-43 | A stay starting on the day another in the same room ends is accepted. |
| HalfOpenCalendar.PriceIgnoresGuests | calendar.py:97-102 | The price, nights × room price, does not depend on the guest count. |
| HalfOpenCalendar.ConfirmSpec | calendar.py:106-125 | An incomplete form, or a check-out not after the check-in, inserts nothing. A complete form with ordered dates goes to `insert_booking`: the table is the one `InsertSpec` leaves, and its status, or the exception it raises, is the page's result. A call that changes the table had a complete form with ordered dates, succeeded, and appended exactly the submitted booking. |
| HalfOpenCalendar.ConfirmBooking | calendar.py:94-125 | For a guest count within 1 and the room's capacity, the button's result and table are those of `ConfirmSpec`. |
| HalfOpenCalendar.ValidFormBooked | calendar.py:106-123 | A complete form with ordered dates and no overlapping stay in the room is booked when the database does not fail: the result is success and the table gains exactly that booking, under the next id. |
| HalfOpenCalendar.OverlappingFormRefused | calendar.py:106-125 | A complete form with ordered dates that overlaps a stay in the room is refused as a conflict, and the table is unchanged. |
| HalfOpenCalendar.InsertedStayIsProper | calendar.py:101-111 | Every stay the page inserts has at least one night, and a price of zero or more for a room whose price is not negative. |
| CalendarApp.HasConflict | calendar_app.py:44-57 | The SELECT returns a row exactly when some row passes the two-clause test. |
| CalendarApp.InsertSpec | calendar_app.py:39-78 | `(True, new id)` exactly when the database does not fail and no row conflicts. Only then does the table change: it gains one row of the seven written columns, with id equal to the counter. A conflict gives the fixed message. A failing query or insert gives `(False, message)`. A failing connect raises from the `finally` block. |
| CalendarApp.InsertBooking | calendar_app.py:39-78 | The method's reply and new table are those of `InsertSpec`. |
| CalendarApp.EnclosingStayInserted | calendar_app.py:44-71 | Concrete: a request for nights 9-12 is inserted beside a stay of nights 10-11 in the same room, and the table then overlaps. |
| CalendarApp.Submit | calendar_app.py:98-109 | The form's values go straight to `insert_booking`, with no field or date check. |
| CalendarApp.UnvalidatedFormInserted | calendar_app.py:98-109 | In any table where nothing conflicts, even empty names and a check-out before the check-in are stored as a new row under the next id. |
| VisualCalendar.DaysInMonth | booking/visual_calendar.py:358-359 | A month has 28 to 31 days. February has 29 exactly in a leap year and 28 otherwise. April, June, September and November, and only they, have 30. Every other month has 31. |
| VisualCalendar.NextMonthFollows | booking/visual_calendar.py:358-359 | The first of the next month is the month's first day plus its length, so `new Date(year, month + 1, 0)` is the month's last day and the cells of the month are exactly the dates of the month. |
| VisualCalendar.Weekday | booking/visual_calendar.py:361 | `getDay()` is 0 (Sunday) to 6. |
| VisualCalendar.ShiftMonth | booking/visual_calendar.py:336-337 | Moving by `direction` months gives a month in 0-11, and year × 12 + month moves by exactly `direction`. |
| VisualCalendar.Select | booking/visual_calendar.py:399-411 | The new selection is always valid: a check-out comes with an earlier check-in. The clicked date becomes the check-in or the check-out. With no check-in, or both dates set, the click starts over. With only a check-in, a later date becomes the check-out, and an equal or earlier one replaces the check-in. |
| VisualCalendar.RestartThenRange | booking/visual_calendar.py:399-411 | From an empty or complete selection, clicking a and then a later b selects exactly a to b. |
| VisualCalendar.GridStart | booking/visual_calendar.py:358-361 | The grid starts on the Sunday on or before the first of the month. |
| VisualCalendar.CellAt | booking/visual_calendar.py:363-393 | Cell i shows the start date plus i. It is in the month by the month's bounds, and takes clicks exactly when it is in the month, not past and not unavailable. It is in range exactly when strictly between the check-in and the check-out. It is marked check-in or check-out exactly on those dates. |
| VisualCalendar.GridCoversMonth | booking/visual_calendar.py:358-372 | Every day of the month is among the 42 cells, as an in-month cell. |
| VisualCalendar.Status | booking/visual_calendar.py:417-434 | The status has three cases: the prompt with no check-in; the check-in alone; or both dates, with nights ≥ 1 and a total of nights × price. |
| VisualCalendar.EntryOf | booking/visual_calendar.py:22-29 | A room's entry has the room's availability (default `[]`) and description (default ""). |
| VisualCalendar.RoomDataKeys | booking/visual_calendar.py:20-29 | `room_js_data` has a key `str(room_id)` for every room and no other key. |
| VisualCalendar.RoomDataEntry | booking/visual_calendar.py:20-29 | Each room's key maps to the entry built from the last room with that id. |
| VisualCalendar.ParseIntText | booking/visual_calendar.py:22 | `str(room_id)` reads back as the id. |
| VisualCalendar.IntTextInjective | booking/visual_calendar.py:22 | Distinct ids give distinct keys. |
| VisualCalendar.BuildRoomData | booking/visual_calendar.py:20-29 | The filling loop builds exactly the dict described above. |
| VisualCalendar.Picker.constructor | booking/visual_calendar.py:310-313 | The page opens on the key `str(room_id)` of the first room in the list, with nothing selected and May 2025 shown first. An empty room list is excluded, because `rooms[0]` raises. |
| VisualCalendar.FirstRoomHasData | booking/visual_calendar.py:310 | The room the page opens on is a key of the room data, so the first rendering meets `RenderMonth`'s requirement. |
| VisualCalendar.Picker.UpdateCalendar | booking/visual_calendar.py:315-322 | A change of room records the room and clears both dates. |
| VisualCalendar.Picker.ChangeMonth | booking/visual_calendar.py:336-339 | The shown month moves by `direction`. |
| VisualCalendar.Picker.SelectDate | booking/visual_calendar.py:399-415 | The dates become `Select` of the old dates and the clicked date, keeping the check-out-after-check-in invariant. |
| VisualCalendar.Picker.RenderMonth | booking/visual_calendar.py:352-397 | The loop builds exactly 42 cells, cell i being `CellAt` i, with the unavailable dates of the chosen room in `roomData`. |
| VisualCalendar.Picker.RenderCalendars | booking/visual_calendar.py:341-350 | The two grids are those of the shown month and the next one, both with the chosen room's unavailable dates. |
| BookingTool.BookingFlow | tools/booking_tool.py:13-16 | The booking flag is set, the reply is "", and nothing else in the session changes, whatever the query. |
| BookingTool.BookingFlowIdempotent | tools/booking_tool.py:15 | Running the flow twice leaves the session as running it once. |
| BookingTool.HandleBookingFlow | tools/booking_tool.py:13-16 | The method changes only the booking flag, as `BookingFlow` says. |
| Session.SessionState.constructor | main.py:69-70 | A fresh session has no flag set, no booking info, and empty history and memory. |
| Followup.LoadActivities | tools/followup_tool.py:48-55 | The reply is the file's text, or the fixed apology when reading fails. |
| Followup.ClassifyIntent | tools/followup_tool.py:108-132 | Positive exactly when the stripped, upper-cased label is "POSITIVE"; negative exactly when it is "NEGATIVE"; unclear otherwise. |
| Followup.HandleFollowupResponse | tools/followup_tool.py:105-136 | A failed classification gives the "trouble understanding" apology. POSITIVE gives the model's stripped reply, or the "Great! …" intro followed by the activities text when that call fails. NEGATIVE gives the fixed farewell, and anything else the re-ask. |
| Followup.OnlyPositiveConsultsActivities | tools/followup_tool.py:114-136 | For a non-positive answer the reply depends neither on the activities file nor on the phrasing call. |
| Followup.IntentIgnoresCaseAndPadding | tools/followup_tool.py:108 | Labels equal after strip and upper-casing classify alike. |
| Followup.CreateFollowupMessage | tools/followup_tool.py:144-155 | The awaiting flag is always true. The message greets the stored first name, or "valued guest". It quotes the reference, or "your booking", right after the '#', and ends with the consent question. |
| MainApp.BookingBranch | main.py:223-239 | The booking tool sets the booking flag and leaves history, memory and booking info alone. Right after a completed booking, if the follow-up message is built, it clears the flag, sets consent, and replies "" + "\n\n" + the message. Otherwise it replies "" and changes nothing more. |
| MainApp.ExecuteSpec | main.py:215-239 | Only "sql_tool", "vector_tool" and "booking_tool" are handled. Any other label gives `None` and leaves the session unchanged. The SQL and vector tools return their reply, or raise their exception, without touching the session. |
| MainApp.ProcessSpec | main.py:173-209 | If consent is pending, the reply is the follow-up handler's on this turn's classifier, file and phrasing answers, and the flag is cleared. Otherwise a router failure, or an unknown label, gives the fixed apology and leaves the session unchanged. For a known label the turn is `execute_tool`'s. A tool that returns text t gives the reply t and saves exactly the pair (input, t) after the tool's session changes. A tool that raises gives the apology and leaves the session unchanged. The history is never changed. |
| MainApp.ConsentTurnIgnoresRouter | main.py:176-186 | While consent is pending the router's answer plays no part, and the flag ends cleared. |
| MainApp.ConsentTurnReply | main.py:176-182 | On a consent turn the classified intent decides the reply: the fixed farewell for NEGATIVE, the re-ask for an unclear label, and for POSITIVE, when the phrasing call fails, the "Great! …" intro followed by the activities text. |
| MainApp.SuccessfulTurnSavesOnce | main.py:189-209 | A turn routed to the SQL or the document tool replies with the tool's output and saves exactly that one exchange. When the tool raises, the turn gives the apology and changes nothing. |
| MainApp.BookingTurnSaves | main.py:194-205 | A turn routed to the booking tool always replies with the booking branch's text and saves exactly that exchange. |
| MainApp.VectorTurnApologises | main.py:197-209 | With tools/vector_tool.py as written, a document-tool turn whose documents are not empty and not all short ends with the apology and changes nothing. |
| MainApp.ChatToolFallsThrough | main.py:194-209 | The router's "chat_tool" answer has no branch in `execute_tool`: the turn gives the apology and saves nothing. |
| MainApp.ExecuteTool | main.py:215-239 | The method's output and session are those of `ExecuteSpec`. |
| MainApp.ProcessUserQuery | main.py:173-209 | The method's reply and session are those of `ProcessSpec`. |
| MainApp.Greeted | main.py:314-315 | The greeting is added when, and only when, the history is empty. |
| MainApp.Greet | main.py:314-315 | The history becomes `Greeted` of the old history. |
| MainApp.ChatTurn | main.py:328-348 | The history gains the user's message and then the bot's reply, and the session is otherwise as `ProcessSpec` leaves it. |
| MainApp.RemoveBookingForm | main.py:321-323 | The form closes and exactly one bot message is appended. |
| MainApp.KeptLines | main.py:385 | A line is kept exactly when it is a line of the log that does not contain "App launched"; no line is added. |
| MainApp.KeptLinesAppend | main.py:385 | The filter goes line by line, so it keeps the log's order: filtering two runs of lines gives the kept lines of each, one after the other. |
| MainApp.KeptLine | main.py:385 | A single line is kept exactly when it does not contain "App launched". |
| MainApp.SplitAtDash | main.py:388-389 | A line splits exactly when it holds an em dash, into the part before its first dash and the rest. |
| MainApp.FormatLogs | main.py:384-397 | The panel text is each kept line formatted in order, and the download is the kept lines joined by newlines. |
| MainApp.DashedLineFormat | main.py:388-390 | A dashed line starts a new bold paragraph whose bold part holds no dash. |
| BookingRefExtract.SearchFrom | main.py:113 | A match found by `re.search` is a span of `[A-Z0-9]` characters inside the text. |
| BookingRefExtract.SearchFromNone | main.py:113-114 | `re.search` returns `None` exactly when no position from the start on matches the pattern. |
| BookingRefExtract.SearchFromLeftmost | main.py:113-114 | A match `re.search` returns is the match at a position where the pattern matches, and no earlier position matches. |
| BookingRefExtract.FirstCaptureNone | main.py:112-120 | The pattern cascade finds nothing exactly when none of the patterns matches at any position of the text. |
| BookingRefExtract.CaptureShape | main.py:103-117 | A captured value is a non-empty run of `[A-Z0-9]` that occurs in the text. |
| BookingRefExtract.ExtractBookingNumber | main.py:96-120 | The loop returns the capture of the first of the six patterns, in order, that matches, or `None` (which by `FirstCaptureNone` means no pattern matches anywhere); a value returned has the shape above. |
| BookingRefExtract.NeverWholeReference | main.py:103-110 | No text makes the cascade return a whole `BKG-…` reference, because references contain dashes. |
| SqlTool.MatchAt | tools/sql_tool.py:121 | A match at i is "SELECT" in any case and a whitespace character, running to the first ';' after them. Otherwise there is no SELECT there or no later ';'. |
| SqlTool.SearchFrom | tools/sql_tool.py:121 | The search finds the leftmost match, and none exists otherwise. |
| SqlTool.Extract | tools/sql_tool.py:121-124 | Without a match the result is the cleaned text, stripped. |
| SqlTool.MatchStripped | tools/sql_tool.py:124 | `strip()` leaves a match whole. |
| SqlTool.MatchShape | tools/sql_tool.py:121 | A match starts with "SELECT" in any case and whitespace, ends with ';', and holds no other ';'. |
| SqlTool.ExtractStatement | tools/sql_tool.py:121-124 | With a match the result is the leftmost statement in full, and no earlier SELECT has a ';' after it. |
| SqlTool.CleanSqlStatement | tools/sql_tool.py:118-124 | When the cleaned text holds a statement, the result is a slice of it from the leftmost SELECT: at least 8 characters, starting with SELECT and whitespace, with exactly one ';', at its end. |
| SqlTool.CleanSqlNoStatement | tools/sql_tool.py:118-124 | Otherwise the result is the cleaned text, stripped. |
| SqlTool.ExampleUnchanged | tools/sql_tool.py:92-124 | The prompt's own example query passes through `clean_sql` unchanged. |
| Retrieval.FirstMention | utils/helpers.py:9-12 | The search stops at the first document whose source contains the keyword, ignoring case. |
| Retrieval.FindSourceLinkSpec | utils/helpers.py:5-13 | `None` exactly when no source contains the keyword. Otherwise the result is the source of the first document, in list order, whose source does. |
| Retrieval.EmptyKeywordFirstSource | utils/helpers.py:10-11 | With an empty keyword the first document's source is returned, "" when it has none. |
| Retrieval.DedupProperties | tools/vector_tool.py:18-24 | Dedup keeps no two documents with the same 100-character prefix, loses no prefix, and keeps only input documents. |
| Retrieval.DedupLoop | tools.py:103-109 | The `seen`-set loop computes `Dedup`, the first document of each prefix in order. |
| Retrieval.MentionsAnyIff | tools/vector_tool.py:28 | `any(term in text …)` holds exactly when some term occurs. |
| Retrieval.BoostProperties | tools/vector_tool.py:27-29 | Boosting is a permutation with no unboosted document before a boosted one. |
| Retrieval.BoostStable | tools.py:112-120 | Boosting keeps the order within the boosted and within the other documents, as a stable sort does. |
| Retrieval.NoBoostKeepsOrder | tools.py:113-122 | Without a boost term in the query the ranking is the deduplicated list cut to ten. |
| Retrieval.Top | tools/vector_tool.py:31 | The trim keeps a prefix of at most ten documents, exactly ten when there are that many. |
| Retrieval.Ranked | tools.py:103-122 | At most ten documents are kept. |
| Retrieval.RankedMembers | tools/vector_tool.py:17-31 | Every ranked document is a retrieved one. |
| Retrieval.RankedNonEmpty | tools/vector_tool.py:17-31 | Dedup, boost and the cut to ten leave at least one document when there was one. |
| Retrieval.FindAnyLinkSpec | tools/vector_tool.py:59-61 | A category finds no link exactly when none of its keywords does. Otherwise it finds what its first successful keyword finds. |
| Retrieval.FirstLinked | tools/vector_tool.py:59-63 | The chosen category is the first, in `link_map` order, that yields a link. |
| Retrieval.ChooseLink | tools/vector_tool.py:59-63 | The intended link loop, looking up each keyword: it appends at most one sentence, that of the first category with a link, and none exactly when no category has one. |
| Retrieval.VectorToolSpec | tools/vector_tool.py:8-65 | The intended pipeline. No documents gives the "couldn't find" text. All documents under 50 stripped characters gives the rephrase text, decided before dedup. Otherwise the reply is the model's stripped answer on the ranked top ten plus the first category's link sentence. |
| Retrieval.VectorToolSearch | tools/vector_tool.py:8-65 | The intended pipeline, with its dedup and link loops, returns what `VectorToolSpec` says. |
| Retrieval.FindSourceLinkOnList | tools/vector_tool.py:60 | `find_source_link` given a keyword list raises the `.lower()` error as soon as there is a document, and finds nothing when there is none. |
| Retrieval.VectorToolAsWrittenRaises | tools/vector_tool.py:8-65 | As written, every search with documents that are not all short raises: the model's exception if its call fails, and otherwise the `.lower()` error, where the intended `VectorToolSpec` answers. |
| Retrieval.VectorToolAsWrittenEarlyReplies | tools/vector_tool.py:11-15 | With no documents, or only short ones, the as-written and intended pipelines give the same fixed reply. |
| Retrieval.ToolsLink | tools.py:142-148 | The environment link wins. The rooms link is used only without one. At most one link is added, and none exactly when neither exists. |
| Retrieval.ToolsSpec | tools.py:93-150 | The tools.py pipeline: the same fixed replies first; then the stripped answer plus the environment-or-rooms link. |
| Retrieval.ToolsSearch | tools.py:93-150 | The loop version returns what `ToolsSpec` says. |
| Ingestion.CleanLines | Ingestion/ingestion_firecrawl.py:119-125 | Cleaning never adds lines. |
| Ingestion.CleanLinesKept | Ingestion/ingestion_firecrawl.py:120-125 | Every output line is stripped, not empty, and free of "cookie" in any case. |
| Ingestion.CleanLinesMembers | Ingestion/ingestion_firecrawl.py:119-127 | A line is output exactly when it is the stripped form of an input line and is kept. |
| Ingestion.CleanLinesNoBreaks | ingestion_firecrawl.py:46-47 | Lines without line breaks clean to lines without them. |
| Ingestion.CleanLinesIdempotent | ingestion_firecrawl.py:47-48 | Cleaning cleaned lines changes nothing. |
| Ingestion.CleanTextLines | ingestion_firecrawl.py:46-49 | The lines of the cleaned text are exactly the cleaned input lines, in order. |
| Ingestion.CleanTextIdempotent | Ingestion/ingestion_firecrawl.py:119-127 | `clean_text` is idempotent. |
| Ingestion.CleanBlank | ingestion_firecrawl.py:46-49 | Empty or whitespace-only text cleans to "". |
| Ingestion.PageOf | ingestion_firecrawl.py:58-62 | A URL gives a document exactly when its scrape succeeds and the cleaned text is non-empty; the document is that text with the URL as source. |
| Ingestion.CollectedMembers | ingestion_firecrawl.py:55-68 | A document is collected exactly when some URL gives it. |
| Ingestion.FailedScrapeSkipped | ingestion_firecrawl.py:66-68 | A failed scrape contributes nothing, and the loop goes on with the next URLs. |
| Ingestion.CollectPages | ingestion_firecrawl.py:52-68 | The loop collects exactly the documents of the URLs, in URL order. |
| Ingestion.Ingest | ingestion_firecrawl.py:52-73 | The script stops exactly when nothing was collected. Otherwise it hands on the collected documents, all non-empty. |
| Ingestion.Sections | ingestion.py:41-50 | There are at most as many documents as chunks. |
| Ingestion.ParseSections | Ingestion/ingestion.py:44-53 | The loop yields, in chunk order, the documents of the chunks of the stripped output split at "\n\n". |
| Ingestion.SectionOfIff | ingestion.py:44-46 | A chunk yields a document exactly when its stripped text has two or more lines. |
| Ingestion.SectionTitleOneLine | ingestion.py:47 | A title holds no '\n'. |
| Ingestion.TitlesOneLine | Ingestion/ingestion.py:44-52 | No document's title holds '\n'. |
| Ingestion.SectionsAppend | ingestion.py:43-49 | Parsing is chunk by chunk: the documents of two runs of chunks are the documents of each, concatenated. |
| Ingestion.BlankOutput | Ingestion/ingestion.py:41-50 | Empty or whitespace-only output yields no documents. |
| Timestamping.StampLine | timestamping_files.py:7 | The stamp line starts with "# Last updated:" and ends with a newline. |
| Timestamping.Body | timestamping_files.py:19-20 | The kept lines are a suffix of the file's lines, one line shorter exactly when the first line starts with "# Last updated:". |
| Timestamping.Rewrite | timestamping_files.py:19-24 | The new first line is the stamp, followed by the kept lines. |
| Timestamping.RewriteReplacesStamp | timestamping_files.py:19-24 | A second run replaces the first run's stamp rather than stacking a new one. |
| Timestamping.RewriteIdempotent | timestamping_files.py:19-24 | For a fixed clock reading the rewrite is idempotent. |
| Timestamping.OnlyFirstLineInspected | timestamping_files.py:19-20 | Every line after the first stays, in order, even a stamp. The file grows by one line unless it had a stamp. |
| Timestamping.WrittenIsRewrite | timestamping_files.py:24 | The written text is the rewritten lines joined. |
| Timestamping.FirstFailing | timestamping_files.py:9-16 | The walk stops at the first Python file whose read or whose opening for writing fails; no Python file before it fails. |
| Timestamping.FileTree.AddTimestamps | timestamping_files.py:6-24 | The Python files the walk reaches before the first failing one are rewritten. The failing one and every file after it are untouched, and so is every non-Python file. No file is added or removed. The path the walk stopped at is returned, or none when it finished. |
| LookingGood.ChooseK | looking_good_v19.py:112 | k is 5 exactly when the query has fewer than 6 words, else 3. |
| LookingGood.LeadingSpaceKeepsK | looking_good_v19.py:112 | Leading whitespace does not change k. |
| LookingGood.BlankQueryK | looking_good_v19.py:112 | A blank query retrieves 5 documents. |
| LookingGood.StripSqlFence | looking_good_v19.py:140-141 | The cleaned query is stripped. |
| LookingGood.FencedQuery | looking_good_v19.py:141 | A query in one fenced block, on lines of its own, comes out as itself. |
| LookingGood.BareQuery | looking_good_v19.py:141 | A stripped query without fences is left as it is. |
| LookingGood.OneLeadingFenceRemoved | looking_good_v19.py:141 | Only one leading fence is removed: a doubled one keeps its second copy. |
| LookingGood.RunSqlQuery | looking_good_v19.py:69-88 | The rows are returned, or `[]` when the database raises. |
| LookingGood.FormatResult | looking_good_v19.py:90-108 | An empty result gives "No data found.", and otherwise the stripped summary. |
| LookingGood.FencedQueryReachesDatabase | looking_good_v19.py:139-143 | The database is asked the query inside the fence. |
| LookingGood.FailureReadsAsNoData | looking_good_v19.py:86-92 | A database failure reads as "No data found.". |
| LookingGood.SummaryInputSnoc | looking_good_v19.py:174 | Each exchange adds "User: u\nAssistant: a" at the end, after a newline. |
| LookingGood.MemoryTool | looking_good_v19.py:145-146 | The reply is the summary, or "No memory yet." when it is empty, and it is never empty. |
| LookingGood.Chat.constructor | looking_good_v19.py:169-171 | The chat starts with empty history, memory and summary. |
| LookingGood.Chat.HandleTurn | looking_good_v19.py:173-193 | A turn is recorded only with a question and a non-empty reply. The history then gains ("You", question) followed by ("Assistant", reply), and the memory gains the pair. The summary becomes the model's stripped summary of the new memory. If the model raises, the appends stay, the summary is unchanged, and the exception escapes. Otherwise nothing changes. The history stays paired with the memory. |
| LookingGood.PairedSnoc | looking_good_v19.py:190-192 | Appending the question and reply to the history, and the pair to the memory, keeps them paired. |

## Left out

- Streamlit rendering, HTML/CSS, `st.rerun`, and the chat bubbles are UI; widget values are parameters.
- The MySQL/psycopg2 connections, cursors and secrets are I/O. Tables are in-memory sequences, and database failures are `DbFault` or `Outcome` inputs.
- Every language-model call is an uninterpreted input. That covers the router, the SQL generator, summaries, the intent classifier, the chat tool and the ReAct agent.
- Pinecone/FAISS search, embeddings, Firecrawl scraping, the text splitter, SMTP email and logger.py are outside services. The scrape results and retrieved documents are inputs, and email sending is not modelled.
- Two sessions booking at once race between the conflict SELECT and the INSERT, which use no lock. The model is single-threaded.
- The clock (`datetime.today()`, `datetime.now()`, `new Date()`) is a parameter. Dates are integer day numbers.
- Floating point is not modelled. Prices are whole euros.
- VisualCalendar.Status: the nights are the difference of the day numbers. The page computes `Math.ceil` of the milliseconds between two local midnights divided by a day. A stay that spans the autumn daylight-saving change is 25 hours longer than whole days, so the page counts one night too many, and prices it. The model does not capture that.
- VisualCalendar.CellAt: a cell's date is looked up by its day number. The page looks it up by `toISOString()`, which is the UTC date of local midnight. In a browser east of UTC that is the day before, so the page greys out the day after each unavailable date, not the date itself. The model matches the page for a clock at UTC or west of it only.
- `str.lower`/`str.upper` are modelled on ASCII letters only.
- `readlines()`/`splitlines()` follow Python's line-boundary set; universal-newline translation on reading a file is not modelled.
- A general regular-expression engine is not modelled. Each pattern is matched by hand: the six booking-number patterns and the `clean_sql` pattern.
- Retrieval.FindAnyLink: looks up a category's keywords one at a time, in order. tools/vector_tool.py:60 passes the whole list, and the `.lower()` at utils/helpers.py:11 then raises. That as-written behaviour is `Retrieval.VectorToolAsWritten`, listed under Findings.
- Retrieval.ChooseLink: the intended link loop, which never raises. As written, the loop raises at its first category whenever there is a document (`Retrieval.LinkSentenceAsWritten`).
- Retrieval.VectorToolSpec: the intended pipeline. As written, every search past the two early replies raises, and `main.py` then gives the apology (`Retrieval.VectorToolAsWrittenRaises`, `MainApp.VectorTurnApologises`).
- Retrieval.VectorToolSearch: the loop version of the intended pipeline, with the same gap as `Retrieval.VectorToolSpec`.
- MainApp.ProcessSpec: assumes `save_context` succeeds whenever the tool returned text. Its summarising model call could raise, which would give the apology after the tool has run. When the tool returns `None`, the model reads the save as raising, so an unknown label gives the apology and saves nothing.
- MainApp.ProcessSpec: the `except` around `handle_followup_response` (main.py:183-186) is defensive only. The handler catches every failure of its own calls (tools/followup_tool.py:107-129), so that apology is never returned, and the model has no such case.
- Timestamping.FileTree.AddTimestamps: a write that fails after the file was opened, truncating it, is not modelled. A failure to open the file for writing is, and it leaves the file untouched.
- MainApp.ExecuteSpec: nothing in the repository sets `booking_just_completed`, so its follow-up branch cannot run in practice. It is kept as a session flag the model reads.
- The later JavaScript of the picker is UI and is not modelled: `updateRoomInfo`, the header texts and the date formatting.
- `extract_booking_number_from_result` is never called, and the `latest_booking_number` it documents is never written. Only the function itself is modelled.
- The try/except around the extraction is not modelled: nothing in it can raise.
- The booking-form pages' `get_rooms` failure path is modelled only as an empty room list.

## Findings

| source | as written | input that shows it | evidently intended | confidence | as-written member | corrected member |
|---|---|---|---|---|---|---|
| booking/calendar.py:156-162 | A row conflicts only if the new check-in falls in `[b.in, b.out)` or the new check-out falls in `(b.in, b.out]`. | Existing stay in room 1 for nights 10-11 (`check_in` 10, `check_out` 12); request in room 1 with `check_in` 9 and `check_out` 13. Neither clause holds, so the room is double-booked. | The half-open overlap test that calendar.py uses, `b.in < new.out AND new.in < b.out`, under which inserts keep every room overlap-free. | high; not executed | Overlap.TwoClauseBreaksNoOverlap, Overlap.EnclosureNotFlagged, CalendarApp.EnclosingStayInserted | Overlap.HalfOpenConflict, Overlap.InsertAllPreservesNoOverlap |
| tools/vector_tool.py:59-62 | Each category's whole keyword list is passed to `find_source_link`, whose loop calls `keyword.lower()` (utils/helpers.py:11). A list has no `lower`, so the call raises `AttributeError` at the first document. | Any question whose retrieval returns a document with 50 or more characters after stripping. The search raises after the answer is generated, and `process_user_query` replies with the error apology. | Look up each keyword of the category in turn and append the first category's link, as the link map and its comment ("Only add the *first* relevant link") describe. | high; not executed | Retrieval.VectorToolAsWrittenRaises, MainApp.VectorTurnApologises | Retrieval.VectorToolSpec, Retrieval.ChooseLink, Retrieval.FindAnyLinkSpec |

For the first row: calendar_app.py:44-50 has the same test. The models of booking/calendar.py and calendar_app.py keep the test as written, since they describe those programs. The corrected test is the one the calendar.py model uses, and the no-overlap invariant is proved for it. For the second row, the document-tool turn of `MainApp` takes its reply as an input, so either pipeline can be plugged in. `Retrieval.VectorToolSpec` is the intended one.
