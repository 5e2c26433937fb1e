/** The deterministic helpers of the ReAct-agent front end
    looking_good_v19.py: how many documents to retrieve, the cleanup of
    generated SQL, the empty-result reply, the conversation summary input,
    the memory tool and the recording of a turn. Database rows and every
    language-model reply are inputs. */
module LookingGood {
  import opened Wrappers
  import opened Text
  import opened Lists

  // ---------------------------------------------------------------------
  // Vector search
  // ---------------------------------------------------------------------

  /** `k = 5 if len(query.split()) < 6 else 3` */
  function ChooseK(query: string): (k: nat)
    ensures k == 5 || k == 3
    ensures k == 5 <==> |Words(query)| < 6
  {
    if |Words(query)| < 6 then 5 else 3
  }

  /** A text of whitespace only has no words. */
  lemma {:induction false} BlankHasNoWords(s: string)
    requires forall i :: 0 <= i < |s| ==> IsSpace(s[i])
    ensures Words(s) == []
    decreases |s|
  {
    if s != [] {
      assert IsSpace(s[0]);
      BlankHasNoWords(s[1..]);
    }
  }

  /** Leading whitespace does not change the word count, so the choice of
      `k` ignores it. */
  lemma {:induction false} LeadingSpaceKeepsK(pad: string, query: string)
    requires forall i :: 0 <= i < |pad| ==> IsSpace(pad[i])
    ensures ChooseK(pad + query) == ChooseK(query)
    decreases |pad|
  {
    if pad != [] {
      assert (pad + query)[0] == pad[0];
      assert (pad + query)[1..] == pad[1..] + query;
      assert Words(pad + query) == Words(pad[1..] + query);
      LeadingSpaceKeepsK(pad[1..], query);
    } else {
      assert pad + query == query;
    }
  }

  /** A blank query retrieves 5 documents. */
  lemma BlankQueryK(query: string)
    requires forall i :: 0 <= i < |query| ==> IsSpace(query[i])
    ensures ChooseK(query) == 5
  {
    BlankHasNoWords(query);
  }

  // ---------------------------------------------------------------------
  // The SQL tool
  // ---------------------------------------------------------------------

  const SqlFence := "```sql"
  const Fence := "```"
  const NoData := "No data found."
  const NoMemory := "No memory yet."

  /** `sql_text.removeprefix("```sql").removesuffix("```").strip()`, where
      `sql_text` is the model's reply already stripped. */
  function StripSqlFence(reply: string): (r: string)
    ensures IsStripped(r)
  {
    Strip(RemoveSuffix(RemovePrefix(Strip(reply), SqlFence), Fence))
  }

  /** A query wrapped in one fenced block, on lines of its own, comes out as
      the query itself. */
  lemma FencedQuery(q: string)
    requires IsStripped(q)
    ensures StripSqlFence(SqlFence + "\n" + q + "\n" + Fence) == q
  {
    var s := SqlFence + "\n" + q + "\n" + Fence;
    assert s[0] == '`' && s[|s| - 1] == '`';
    StripOfStripped(s);
    assert s[..|SqlFence|] == SqlFence;
    var t := s[|SqlFence|..];
    assert t == "\n" + q + "\n" + Fence;
    assert t[|t| - |Fence|..] == Fence;
    var u := t[..|t| - |Fence|];
    assert u == "\n" + q + "\n";
    assert IsSpace('\n');
    StripPadded("\n", q, "\n");
  }

  /** A bare query, stripped and without fences at either end, is left as it is. */
  lemma BareQuery(q: string)
    requires IsStripped(q) && !StartsWith(q, SqlFence) && !EndsWith(q, Fence)
    ensures StripSqlFence(q) == q
  {
    StripOfStripped(q);
  }

  /** Only one fence is removed at the front: a doubled opening fence keeps
      its second copy. */
  lemma OneLeadingFenceRemoved(q: string)
    requires IsStripped(q) && q != [] && q[|q| - 1] != '`'
    ensures StripSqlFence(SqlFence + SqlFence + q) == SqlFence + q
  {
    var s := SqlFence + SqlFence + q;
    assert s[0] == '`' && s[|s| - 1] == q[|q| - 1];
    StripOfStripped(s);
    assert s[..|SqlFence|] == SqlFence;
    var t := s[|SqlFence|..];
    assert t == SqlFence + q;
    assert t[|t| - 1] == q[|q| - 1];
    assert !EndsWith(t, Fence) by {
      assert t[|t| - |Fence|..][|Fence| - 1] == t[|t| - 1];
      assert Fence[|Fence| - 1] == '`';
    }
    assert t[0] == '`';
    StripOfStripped(t);
  }

  /** `run_sql_query`: the rows, or `[]` when the database raises. */
  function RunSqlQuery<Row>(rows: Outcome<seq<Row>>): (r: seq<Row>)
    ensures rows.Raised? ==> r == []
    ensures rows.Ok? ==> r == rows.value
  {
    if rows.Ok? then rows.value else []
  }

  /** `format_result_naturally`: a fixed text for an empty result, else the
      model's summary of the rows, stripped. */
  function FormatResult<Row>(result: seq<Row>, summary: string): (r: string)
    ensures result == [] ==> r == NoData
    ensures result != [] ==> r == Strip(summary)
  {
    if result == [] then NoData else Strip(summary)
  }

  /** `react_sql_tool(q)`: `generated` is the model's SQL, `db` what the
      database returns for a query, `summary` the model's wording of rows. */
  function ReactSqlTool<Row>(generated: string, db: string -> Outcome<seq<Row>>, summary: string): string {
    FormatResult(RunSqlQuery(db(StripSqlFence(generated))), summary)
  }

  /** The database is asked the query inside the fenced block. */
  lemma FencedQueryReachesDatabase<Row>(q: string, db: string -> Outcome<seq<Row>>, summary: string)
    requires IsStripped(q)
    ensures ReactSqlTool(SqlFence + "\n" + q + "\n" + Fence, db, summary) == FormatResult(RunSqlQuery(db(q)), summary)
  {
    FencedQuery(q);
  }

  /** A database failure reads as an empty result. */
  lemma FailureReadsAsNoData<Row>(generated: string, db: string -> Outcome<seq<Row>>, summary: string)
    requires db(StripSqlFence(generated)).Raised?
    ensures ReactSqlTool(generated, db, summary) == NoData
  {
  }

  // ---------------------------------------------------------------------
  // Conversation memory
  // ---------------------------------------------------------------------

  /** One exchange: the question and the reply. */
  datatype Exchange = Exchange(user: string, assistant: string)

  /** One bubble of the chat history: the sender and the text. */
  datatype Message = Message(sender: string, text: string)

  /** `f"User: {u}\nAssistant: {a}"` */
  function SummaryEntry(e: Exchange): string {
    "User: " + e.user + "\nAssistant: " + e.assistant
  }

  /** The text handed to the summariser: one entry per exchange, in order,
      separated by newlines. */
  function SummaryInput(memory: seq<Exchange>): string {
    Join(Map(memory, SummaryEntry), "\n")
  }

  /** Each new exchange adds one line pair at the end of the summary input. */
  lemma SummaryInputSnoc(memory: seq<Exchange>, e: Exchange)
    ensures SummaryInput(memory + [e]) ==
      if memory == [] then SummaryEntry(e) else SummaryInput(memory) + "\n" + SummaryEntry(e)
  {
    MapAppend(memory, [e], SummaryEntry);
    assert Map([e], SummaryEntry) == [SummaryEntry(e)];
    if memory == [] {
      assert memory + [e] == [e];
    } else {
      JoinSnoc(Map(memory, SummaryEntry), SummaryEntry(e), "\n");
    }
  }

  /** `memory_tool`: the summary, or a fixed text while there is none. */
  function MemoryTool(summary: string): (r: string)
    ensures r != []
    ensures summary != [] ==> r == summary
    ensures summary == [] ==> r == NoMemory
  {
    if summary != [] then summary else NoMemory
  }

  /** History and memory agree: the history holds, for each exchange in
      order, the question from "You" followed by the reply from "Assistant". */
  ghost predicate Paired(history: seq<Message>, memory: seq<Exchange>) {
    |history| == 2 * |memory|
    && forall i :: 0 <= i < |memory| ==>
         history[2 * i] == Message("You", memory[i].user)
         && history[2 * i + 1] == Message("Assistant", memory[i].assistant)
  }

  /** Appending one exchange to both keeps them paired. */
  lemma PairedSnoc(history: seq<Message>, memory: seq<Exchange>, question: string, reply: string)
    requires Paired(history, memory)
    ensures Paired(history + [Message("You", question), Message("Assistant", reply)], memory + [Exchange(question, reply)])
  {
    var h := history + [Message("You", question), Message("Assistant", reply)];
    var m := memory + [Exchange(question, reply)];
    forall i | 0 <= i < |m|
      ensures h[2 * i] == Message("You", m[i].user) && h[2 * i + 1] == Message("Assistant", m[i].assistant)
    {
      if i < |memory| {
        assert m[i] == memory[i];
      }
    }
  }

  /** `st.session_state.history`, `chat_memory` and `chat_summary`. */
  class Chat {
    var history: seq<Message>
    var memory: seq<Exchange>
    var summary: string

    ghost predicate Valid()
      reads this
    {
      Paired(history, memory) && forall i :: 0 <= i < |memory| ==> memory[i].assistant != []
    }

    /** The session's starting state. */
    constructor ()
      ensures Valid() && history == [] && memory == [] && summary == ""
    {
      history := [];
      memory := [];
      summary := "";
    }

    /** One submitted question: `reply` is what the agent answered and
      `summarise` the model that condenses the conversation. A turn is
      recorded only when there is a question and a non-empty reply. The
      exchange is appended before the summary is asked for, so when the
      model raises, the script stops with the history and memory grown and
      the summary as it was; `escaped` is that exception. */
    method HandleTurn(question: string, reply: string, summarise: string -> Outcome<string>)
      returns (escaped: Option<string>)
      requires Valid()
      modifies this
      ensures Valid()
      ensures question == [] || reply == [] ==>
        history == old(history) && memory == old(memory) && summary == old(summary) && escaped == None
      ensures question != [] && reply != [] ==>
        history == old(history) + [Message("You", question), Message("Assistant", reply)]
        && memory == old(memory) + [Exchange(question, reply)]
      ensures question != [] && reply != [] ==>
        match summarise(SummaryInput(memory))
        case Ok(text) => summary == Strip(text) && escaped == None
        case Raised(m) => summary == old(summary) && escaped == Some(m)
    {
      escaped := None;
      if question != [] && reply != [] {
        PairedSnoc(history, memory, question, reply);
        assert forall i :: 0 <= i < |memory| ==> (memory + [Exchange(question, reply)])[i] == memory[i];
        history := history + [Message("You", question), Message("Assistant", reply)];
        memory := memory + [Exchange(question, reply)];
        var result := summarise(SummaryInput(memory));
        match result {
          case Ok(text) => summary := Strip(text);
          case Raised(m) => escaped := Some(m);
        }
      }
    }
  }
}
