/** Post-processing of document retrieval: `find_source_link`
    (utils/helpers.py, and the same function in tools.py) and the two
    `vector_search` pipelines of tools/vector_tool.py and tools.py. The
    document store and the answering model are inputs. */
module Retrieval {
  import opened Wrappers
  import opened Text
  import opened Lists

  /** A retrieved document: its text and its `source` metadata, if any. */
  datatype Doc = Doc(content: string, source: Option<string>)

  /** `doc.metadata.get("source", "")` */
  function SourceOf(d: Doc): string { d.source.GetOr("") }

  predicate Mentions(d: Doc, keyword: string) {
    Contains(Lower(SourceOf(d)), Lower(keyword))
  }

  /** The index of the first document whose source mentions the keyword,
      or the number of documents when none does. */
  function FirstMention(docs: seq<Doc>, keyword: string): (c: nat)
    ensures c <= |docs|
    ensures forall e :: 0 <= e < c ==> !Mentions(docs[e], keyword)
    ensures c < |docs| ==> Mentions(docs[c], keyword)
  {
    if docs == [] then 0
    else if Mentions(docs[0], keyword) then 0
    else
      var c := FirstMention(docs[1..], keyword);
      assert forall e :: 1 <= e < |docs| ==> docs[1..][e - 1] == docs[e];
      1 + c
  }

  /** `find_source_link(docs, keyword)`: the source of the first document
      whose source contains the keyword, ignoring case, or `None`. */
  function FindSourceLink(docs: seq<Doc>, keyword: string): Option<string> {
    var c := FirstMention(docs, keyword);
    if c < |docs| then Some(SourceOf(docs[c])) else None
  }

  /** The result is `None` exactly when no source mentions the keyword, and
      otherwise the source of the first document that does. */
  lemma FindSourceLinkSpec(docs: seq<Doc>, keyword: string)
    ensures FindSourceLink(docs, keyword).None? <==> forall i :: 0 <= i < |docs| ==> !Mentions(docs[i], keyword)
    ensures FindSourceLink(docs, keyword).Some? ==>
      exists i :: (0 <= i < |docs| && FindSourceLink(docs, keyword).value == SourceOf(docs[i])
                   && Mentions(docs[i], keyword) && forall j :: 0 <= j < i ==> !Mentions(docs[j], keyword))
  {
    var c := FirstMention(docs, keyword);
    if c < |docs| {
      assert FindSourceLink(docs, keyword).value == SourceOf(docs[c]);
    }
  }

  /** With an empty keyword the first document's source is returned, even
      when it has none and so is "". */
  lemma EmptyKeywordFirstSource(docs: seq<Doc>)
    requires docs != []
    ensures FindSourceLink(docs, "") == Some(SourceOf(docs[0]))
  {
    ContainsAt(Lower(SourceOf(docs[0])), Lower(""), 0);
  }

  // ---------------------------------------------------------------------
  // Shared pipeline steps
  // ---------------------------------------------------------------------

  /** A document is too short when its stripped text has under 50 characters. */
  predicate TooShort(d: Doc) { |Strip(d.content)| < 50 }

  predicate AllTooShort(docs: seq<Doc>) {
    forall i :: 0 <= i < |docs| ==> TooShort(docs[i])
  }

  /** `doc.page_content[:100]` */
  function Key(d: Doc): string {
    if |d.content| <= 100 then d.content else d.content[..100]
  }

  function Keys(docs: seq<Doc>): set<string> {
    set i | 0 <= i < |docs| :: Key(docs[i])
  }

  /** The documents whose key has not been seen earlier, in order. */
  function Dedup(docs: seq<Doc>): seq<Doc>
    decreases |docs|
  {
    if docs == [] then []
    else
      var init := docs[..|docs| - 1];
      var last := docs[|docs| - 1];
      Dedup(init) + (if Key(last) in Keys(init) then [] else [last])
  }

  lemma KeysSnoc(docs: seq<Doc>, d: Doc)
    ensures Keys(docs + [d]) == Keys(docs) + {Key(d)}
  {
    var t := docs + [d];
    assert forall i :: 0 <= i < |docs| ==> t[i] == docs[i];
    assert t[|docs|] == d;
    forall x | x in Keys(t)
      ensures x in Keys(docs) + {Key(d)}
    {
      var i :| 0 <= i < |t| && Key(t[i]) == x;
      if i < |docs| {
        assert Key(docs[i]) == x;
      }
    }
  }

  /** Deduplication keeps no two documents with the same key, loses no key,
      and keeps only documents of the input. */
  lemma {:induction false} DedupProperties(docs: seq<Doc>)
    ensures var r := Dedup(docs);
      (forall i, j :: 0 <= i < j < |r| ==> Key(r[i]) != Key(r[j]))
      && Keys(r) == Keys(docs)
      && forall i :: 0 <= i < |r| ==> r[i] in docs
    decreases |docs|
  {
    if docs != [] {
      var init := docs[..|docs| - 1];
      var last := docs[|docs| - 1];
      assert docs == init + [last];
      DedupProperties(init);
      KeysSnoc(init, last);
      var r0 := Dedup(init);
      assert forall i :: 0 <= i < |r0| ==> r0[i] in docs;
      if Key(last) !in Keys(init) {
        KeysSnoc(r0, last);
        var r := r0 + [last];
        forall i, j | 0 <= i < j < |r|
          ensures Key(r[i]) != Key(r[j])
        {
          if j == |r0| {
            assert Key(r0[i]) in Keys(r0);
          } else {
            assert r[i] == r0[i] && r[j] == r0[j];
          }
        }
        assert Dedup(docs) == r;
        assert forall i :: 0 <= i < |r0| ==> r[i] == r0[i];
      } else {
        assert Dedup(docs) == r0;
      }
    }
  }

  /** The `seen`-set loop that deduplicates. */
  method DedupLoop(docs: seq<Doc>) returns (unique: seq<Doc>)
    ensures unique == Dedup(docs)
  {
    var seen: set<string> := {};
    unique := [];
    var i := 0;
    while i < |docs|
      invariant 0 <= i <= |docs|
      invariant unique == Dedup(docs[..i]) && seen == Keys(docs[..i])
    {
      assert docs[..i + 1] == docs[..i] + [docs[i]];
      assert docs[..i + 1][..i] == docs[..i];
      KeysSnoc(docs[..i], docs[i]);
      if Key(docs[i]) !in seen {
        unique := unique + [docs[i]];
        seen := seen + {Key(docs[i])};
      }
      i := i + 1;
    }
    assert docs[..i] == docs;
  }

  const BoostTerms: seq<string> := ["eco", "green", "environment", "sustainab", "organic"]

  /** Some term of `terms` occurs in `text`. */
  predicate MentionsAny(text: string, terms: seq<string>)
    decreases |terms|
  {
    terms != [] && (Contains(text, terms[0]) || MentionsAny(text, terms[1..]))
  }

  lemma {:induction false} MentionsAnyIff(text: string, terms: seq<string>)
    ensures MentionsAny(text, terms) <==> exists k :: 0 <= k < |terms| && Contains(text, terms[k])
    decreases |terms|
  {
    if terms != [] {
      MentionsAnyIff(text, terms[1..]);
      if exists k :: 0 <= k < |terms| && Contains(text, terms[k]) {
        var k :| 0 <= k < |terms| && Contains(text, terms[k]);
        if k > 0 {
          assert terms[1..][k - 1] == terms[k];
        }
      }
    }
  }

  /** `any(term in text.lower() for term in boost_terms)` */
  predicate MentionsBoostTerm(text: string) {
    MentionsAny(Lower(text), BoostTerms)
  }

  predicate Boosted(d: Doc) { MentionsBoostTerm(d.content) }

  /** The documents whose boost flag is `keep`, in their order. */
  function Filter(docs: seq<Doc>, keep: bool): (r: seq<Doc>)
    ensures forall i :: 0 <= i < |r| ==> Boosted(r[i]) == keep
    ensures |r| <= |docs|
  {
    Select(docs, Boosted, keep)
  }

  /** `sorted(docs, key=boosted, reverse=True)`: a stable partition with the
      boosted documents first. */
  function Boost(docs: seq<Doc>): seq<Doc> {
    Filter(docs, true) + Filter(docs, false)
  }

  lemma FilterMultiset(docs: seq<Doc>)
    ensures multiset(Filter(docs, true)) + multiset(Filter(docs, false)) == multiset(docs)
  {
    SelectMultiset(docs, Boosted);
  }

  /** Boosting reorders without adding or losing documents, and no
      unboosted document precedes a boosted one. */
  lemma BoostProperties(docs: seq<Doc>)
    ensures multiset(Boost(docs)) == multiset(docs)
    ensures forall i, j :: 0 <= i < j < |Boost(docs)| && Boosted(Boost(docs)[j]) ==> Boosted(Boost(docs)[i])
  {
    FilterMultiset(docs);
    var a := Filter(docs, true);
    var b := Filter(docs, false);
    var r := Boost(docs);
    forall i, j | 0 <= i < j < |r|
      ensures Boosted(r[j]) ==> Boosted(r[i])
    {
      if i < |a| {
        assert r[i] == a[i];
      } else {
        assert r[j] == b[j - |a|];
      }
    }
  }

  /** Boosting keeps the order within the boosted and within the other documents. */
  lemma BoostStable(docs: seq<Doc>)
    ensures Filter(Boost(docs), true) == Filter(docs, true)
    ensures Filter(Boost(docs), false) == Filter(docs, false)
  {
    FilterAll(Filter(docs, true), true);
    FilterNone(Filter(docs, true), false);
    FilterAll(Filter(docs, false), false);
    FilterNone(Filter(docs, false), true);
    FilterConcat(Filter(docs, true), Filter(docs, false), true);
    FilterConcat(Filter(docs, true), Filter(docs, false), false);
  }

  lemma FilterAll(docs: seq<Doc>, keep: bool)
    requires forall i :: 0 <= i < |docs| ==> Boosted(docs[i]) == keep
    ensures Filter(docs, keep) == docs
  {
    SelectAll(docs, Boosted, keep);
  }

  lemma FilterNone(docs: seq<Doc>, keep: bool)
    requires forall i :: 0 <= i < |docs| ==> Boosted(docs[i]) != keep
    ensures Filter(docs, keep) == []
  {
    SelectNone(docs, Boosted, keep);
  }

  lemma FilterConcat(a: seq<Doc>, b: seq<Doc>, keep: bool)
    ensures Filter(a + b, keep) == Filter(a, keep) + Filter(b, keep)
  {
    SelectAppend(a, b, Boosted, keep);
  }

  /** `docs[:10]` */
  function Top(docs: seq<Doc>): (r: seq<Doc>)
    ensures |r| <= 10 && |r| <= |docs| && r == docs[..|r|]
    ensures |docs| >= 10 ==> |r| == 10
  {
    if |docs| <= 10 then docs else docs[..10]
  }

  /** Dedup, boost when the query mentions a boost term, keep ten. */
  function Ranked(query: string, docs: seq<Doc>): (r: seq<Doc>)
    ensures |r| <= 10
  {
    var unique := Dedup(docs);
    Top(if MentionsBoostTerm(query) then Boost(unique) else unique)
  }

  /** Every ranked document is one of the retrieved ones. */
  lemma RankedMembers(query: string, docs: seq<Doc>)
    ensures forall i :: 0 <= i < |Ranked(query, docs)| ==> Ranked(query, docs)[i] in docs
  {
    var u := Dedup(docs);
    DedupProperties(docs);
    var o := if MentionsBoostTerm(query) then Boost(u) else u;
    if MentionsBoostTerm(query) {
      BoostProperties(u);
      forall i | 0 <= i < |o|
        ensures o[i] in u
      {
        assert o[i] in multiset(o);
      }
    }
    var r := Top(o);
    forall i | 0 <= i < |r|
      ensures r[i] in docs
    {
      assert r[i] == o[i];
    }
  }

  function Contents(docs: seq<Doc>): seq<string> {
    seq(|docs|, i requires 0 <= i < |docs| => docs[i].content)
  }

  /** The text handed to the answering model. */
  function Context(docs: seq<Doc>): string {
    Join(Contents(docs), "\n\n")
  }

  const NothingFound := "\U{274C} I couldn\U{2019}t find anything relevant in our documents."
  const OnlyShortDocs := "Hmm, I found some documents but they seem too short to be helpful. Could you rephrase your question?"

  // ---------------------------------------------------------------------
  // tools/vector_tool.py
  // ---------------------------------------------------------------------

  /** A `link_map` entry: its keywords and the text before and after the link. */
  datatype LinkCategory = LinkCategory(keywords: seq<string>, before: string, after: string)

  const LinkMap: seq<LinkCategory> := [
    LinkCategory(["policy", "policies", "rules", "terms", "conditions", "pet-policy", "pets"],
                 "\U{1F4C4} You can find more details on our [Hotel Policy page](", ")."),
    LinkCategory(["environment", "eco", "green", "sustainab"],
                 "\U{1F331} You can read more about this on our [Environmental Commitment page](", ")."),
    LinkCategory(["rooms", "accommodation", "suites", "staying"],
                 "\U{1F6CF}\U{FE0F} You can check out more details on our [Rooms page](", ")."),
    LinkCategory(["breakfast", "dining", "food", "menu"],
                 "\U{1F373} You can find details about [Breakfast and Guest Amenities](", ")."),
    LinkCategory(["amenities", "facilities", "services", "features"],
                 "\U{2728} You can find details about [Breakfast and Guest Amenities](", ")."),
    LinkCategory(["contact", "location", "address", "directions", "map"],
                 "\U{1F4CD} You can find details about [Contact and Location](", ").")]

  /** The link for the first keyword, in order, that finds one. */
  function FindAnyLink(docs: seq<Doc>, keywords: seq<string>): Option<string> {
    if keywords == [] then None
    else if FindSourceLink(docs, keywords[0]).Some? then FindSourceLink(docs, keywords[0])
    else FindAnyLink(docs, keywords[1..])
  }

  /** A category's link is `None` exactly when none of its keywords finds a
      source, and otherwise what the first keyword that does finds. */
  lemma {:induction false} FindAnyLinkSpec(docs: seq<Doc>, keywords: seq<string>)
    ensures FindAnyLink(docs, keywords).None? <==>
      forall k :: 0 <= k < |keywords| ==> FindSourceLink(docs, keywords[k]).None?
    ensures FindAnyLink(docs, keywords).Some? ==>
      exists k :: (0 <= k < |keywords| && FindSourceLink(docs, keywords[k]) == FindAnyLink(docs, keywords)
                   && forall e :: 0 <= e < k ==> FindSourceLink(docs, keywords[e]).None?)
  {
    if keywords != [] && FindSourceLink(docs, keywords[0]).None? {
      var rest := keywords[1..];
      FindAnyLinkSpec(docs, rest);
      assert forall k :: 1 <= k < |keywords| ==> rest[k - 1] == keywords[k];
      if FindAnyLink(docs, rest).Some? {
        var k :| 0 <= k < |rest| && FindSourceLink(docs, rest[k]) == FindAnyLink(docs, rest)
          && forall e :: 0 <= e < k ==> FindSourceLink(docs, rest[e]).None?;
        assert FindSourceLink(docs, keywords[k + 1]) == FindAnyLink(docs, keywords);
      }
    }
  }

  /** A link is usable when it is non-empty (`if link:`). */
  predicate Usable(link: Option<string>) { link.Some? && link.value != [] }

  /** A category yields a link when one of its keywords finds a non-empty source. */
  predicate HasLink(docs: seq<Doc>, cat: LinkCategory) {
    Usable(FindAnyLink(docs, cat.keywords))
  }

  /** The index of the first category, in order, that yields a link, or the
      number of categories when none does. */
  function FirstLinked(docs: seq<Doc>, cats: seq<LinkCategory>): (c: nat)
    ensures c <= |cats|
    ensures forall e :: 0 <= e < c ==> !HasLink(docs, cats[e])
    ensures c < |cats| ==> HasLink(docs, cats[c])
  {
    if cats == [] then 0
    else if HasLink(docs, cats[0]) then 0
    else
      var c := FirstLinked(docs, cats[1..]);
      assert forall e :: 1 <= e < |cats| ==> cats[1..][e - 1] == cats[e];
      1 + c
  }

  /** The sentence of the first category that yields a link. */
  function LinkSentence(docs: seq<Doc>, cats: seq<LinkCategory>): Option<string> {
    var c := FirstLinked(docs, cats);
    if c < |cats| then Some(cats[c].before + FindAnyLink(docs, cats[c].keywords).value + cats[c].after)
    else None
  }

  /** The link loop of `vector_search`: at the first category with a link,
      append its sentence and stop. */
  method ChooseLink(docs: seq<Doc>, cats: seq<LinkCategory>) returns (sentence: Option<string>)
    ensures sentence == LinkSentence(docs, cats)
    ensures sentence.None? <==> forall c :: 0 <= c < |cats| ==> !HasLink(docs, cats[c])
  {
    var c := 0;
    while c < |cats|
      invariant 0 <= c <= |cats|
      invariant forall e :: 0 <= e < c ==> !HasLink(docs, cats[e])
    {
      var link := FindAnyLink(docs, cats[c].keywords);
      if link.Some? && link.value != [] {
        assert HasLink(docs, cats[c]);
        assert FirstLinked(docs, cats) == c;
        return Some(cats[c].before + link.value + cats[c].after);
      }
      c := c + 1;
    }
    assert FirstLinked(docs, cats) == |cats|;
    sentence := None;
  }

  /** Appends an optional link sentence after a blank line. */
  function WithLink(answer: string, sentence: Option<string>): string {
    if sentence.Some? then answer + "\n\n" + sentence.value else answer
  }

  /** `vector_search(query)` of tools/vector_tool.py on the retrieved `docs`.
      `answer` is the model's reply given the context and the question. */
  function VectorToolSpec(query: string, docs: seq<Doc>, answer: (string, string) -> Outcome<string>): (r: Outcome<string>)
    ensures docs == [] ==> r == Ok(NothingFound)
    ensures docs != [] && AllTooShort(docs) ==> r == Ok(OnlyShortDocs)
    ensures docs != [] && !AllTooShort(docs) ==>
      var top := Ranked(query, docs);
      match answer(Context(top), query)
      case Raised(m) => r == Raised(m)
      case Ok(a) => r == Ok(WithLink(Strip(a), LinkSentence(top, LinkMap)))
  {
    if docs == [] then Ok(NothingFound)
    else if AllTooShort(docs) then Ok(OnlyShortDocs)
    else
      var top := Ranked(query, docs);
      match answer(Context(top), query)
      case Raised(m) => Raised(m)
      case Ok(a) => Ok(WithLink(Strip(a), LinkSentence(top, LinkMap)))
  }

  /** The same pipeline with its dedup loop and link loop. */
  method VectorToolSearch(query: string, docs: seq<Doc>, answer: (string, string) -> Outcome<string>)
    returns (r: Outcome<string>)
    ensures r == VectorToolSpec(query, docs, answer)
  {
    if docs == [] {
      return Ok(NothingFound);
    }
    if AllTooShort(docs) {
      return Ok(OnlyShortDocs);
    }
    var unique := DedupLoop(docs);
    var ordered := if MentionsBoostTerm(query) then Boost(unique) else unique;
    var top := Top(ordered);
    assert top == Ranked(query, docs);
    var reply := answer(Context(top), query);
    if reply.Raised? {
      return Raised(reply.message);
    }
    var sentence := ChooseLink(top, LinkMap);
    r := Ok(WithLink(Strip(reply.value), sentence));
    assert r == VectorToolSpec(query, docs, answer);
  }

  /** Deduplication, boosting and the cut to ten leave at least one
      document when there was one. */
  lemma RankedNonEmpty(query: string, docs: seq<Doc>)
    requires docs != []
    ensures Ranked(query, docs) != []
  {
    var u := Dedup(docs);
    DedupProperties(docs);
    assert Key(docs[0]) in Keys(docs);
    assert u != [];
    if MentionsBoostTerm(query) {
      BoostProperties(u);
      assert |Boost(u)| == |multiset(Boost(u))| == |multiset(u)| == |u|;
    }
  }

  /** What `keyword.lower()` raises when `keyword` is a list. */
  const ListHasNoLower := "'list' object has no attribute 'lower'"

  /** `find_source_link(docs, keywords)` called, as tools/vector_tool.py:60
      calls it, with a category's whole keyword list: the loop body calls
      `.lower()` on the list and raises at the first document, and with no
      documents the body never runs. */
  function FindSourceLinkOnList(docs: seq<Doc>, keywords: seq<string>): (r: Outcome<Option<string>>)
    ensures docs == [] ==> r == Ok(None)
    ensures docs != [] ==> r == Raised(ListHasNoLower)
  {
    if docs == [] then Ok(None) else Raised(ListHasNoLower)
  }

  /** The link loop of tools/vector_tool.py as written: each category calls
      `find_source_link` on its keyword list, an exception escapes the loop,
      and the first usable link ends it. */
  function LinkSentenceAsWritten(docs: seq<Doc>, cats: seq<LinkCategory>): Outcome<Option<string>>
    decreases |cats|
  {
    if cats == [] then Ok(None)
    else
      match FindSourceLinkOnList(docs, cats[0].keywords)
      case Raised(m) => Raised(m)
      case Ok(link) =>
        if Usable(link) then Ok(Some(cats[0].before + link.value + cats[0].after))
        else LinkSentenceAsWritten(docs, cats[1..])
  }

  /** `vector_search(query)` of tools/vector_tool.py exactly as written. */
  function VectorToolAsWritten(query: string, docs: seq<Doc>, answer: (string, string) -> Outcome<string>): Outcome<string> {
    if docs == [] then Ok(NothingFound)
    else if AllTooShort(docs) then Ok(OnlyShortDocs)
    else
      var top := Ranked(query, docs);
      match answer(Context(top), query)
      case Raised(m) => Raised(m)
      case Ok(a) =>
        match LinkSentenceAsWritten(top, LinkMap)
        case Raised(m) => Raised(m)
        case Ok(sentence) => Ok(WithLink(Strip(a), sentence))
  }

  /** As written, every search that gets past the two early replies raises:
      the model's exception if its call fails, and otherwise the `.lower()`
      on the first category's keyword list. The intended pipeline,
      `VectorToolSpec`, answers in the second case. */
  lemma VectorToolAsWrittenRaises(query: string, docs: seq<Doc>, answer: (string, string) -> Outcome<string>)
    requires docs != [] && !AllTooShort(docs)
    ensures VectorToolAsWritten(query, docs, answer).Raised?
    ensures answer(Context(Ranked(query, docs)), query).Ok? ==>
      VectorToolAsWritten(query, docs, answer) == Raised(ListHasNoLower)
      && VectorToolSpec(query, docs, answer).Ok?
  {
    RankedNonEmpty(query, docs);
    var top := Ranked(query, docs);
    assert LinkSentenceAsWritten(top, LinkMap) == Raised(ListHasNoLower);
  }

  /** Both pipelines give the same two early replies. */
  lemma VectorToolAsWrittenEarlyReplies(query: string, docs: seq<Doc>, answer: (string, string) -> Outcome<string>)
    requires docs == [] || AllTooShort(docs)
    ensures VectorToolAsWritten(query, docs, answer) == VectorToolSpec(query, docs, answer)
    ensures VectorToolAsWritten(query, docs, answer).Ok?
  {
  }

  // ---------------------------------------------------------------------
  // tools.py
  // ---------------------------------------------------------------------

  const EnvBefore := "\U{1F331} You can read more about this on our [Environmental Commitment page]("
  const RoomsBefore := "\U{1F6CF}\U{FE0F} You can check out more details on our [Rooms page]("

  /** The environment link when there is one, else the rooms link, else none. */
  function ToolsLink(docs: seq<Doc>): (r: Option<string>)
    ensures Usable(FindSourceLink(docs, "environment")) ==> r == Some(EnvBefore + FindSourceLink(docs, "environment").value + ").")
    ensures !Usable(FindSourceLink(docs, "environment")) && Usable(FindSourceLink(docs, "rooms"))
      ==> r == Some(RoomsBefore + FindSourceLink(docs, "rooms").value + ").")
    ensures r.None? <==> !Usable(FindSourceLink(docs, "environment")) && !Usable(FindSourceLink(docs, "rooms"))
  {
    var env := FindSourceLink(docs, "environment");
    var rooms := FindSourceLink(docs, "rooms");
    if Usable(env) then Some(EnvBefore + env.value + ").")
    else if Usable(rooms) then Some(RoomsBefore + rooms.value + ").")
    else None
  }

  /** `vector_search(query)` of tools.py. */
  function ToolsSpec(query: string, docs: seq<Doc>, answer: (string, string) -> Outcome<string>): (r: Outcome<string>)
    ensures docs == [] ==> r == Ok(NothingFound)
    ensures docs != [] && AllTooShort(docs) ==> r == Ok(OnlyShortDocs)
    ensures docs != [] && !AllTooShort(docs) ==>
      var top := Ranked(query, docs);
      match answer(Context(top), query)
      case Raised(m) => r == Raised(m)
      case Ok(a) => r == Ok(WithLink(Strip(a), ToolsLink(top)))
  {
    if docs == [] then Ok(NothingFound)
    else if AllTooShort(docs) then Ok(OnlyShortDocs)
    else
      var top := Ranked(query, docs);
      match answer(Context(top), query)
      case Raised(m) => Raised(m)
      case Ok(a) => Ok(WithLink(Strip(a), ToolsLink(top)))
  }

  method ToolsSearch(query: string, docs: seq<Doc>, answer: (string, string) -> Outcome<string>)
    returns (r: Outcome<string>)
    ensures r == ToolsSpec(query, docs, answer)
  {
    if docs == [] {
      return Ok(NothingFound);
    }
    if AllTooShort(docs) {
      return Ok(OnlyShortDocs);
    }
    var unique := DedupLoop(docs);
    var ordered := if MentionsBoostTerm(query) then Boost(unique) else unique;
    var top := Top(ordered);
    var reply := answer(Context(top), query);
    if reply.Raised? {
      return Raised(reply.message);
    }
    r := Ok(WithLink(Strip(reply.value), ToolsLink(top)));
  }

  /** Without a boost term in the query the ranking is the deduplicated
      list, cut to ten. */
  lemma NoBoostKeepsOrder(query: string, docs: seq<Doc>)
    requires !MentionsBoostTerm(query)
    ensures Ranked(query, docs) == Top(Dedup(docs))
  {
  }
}
