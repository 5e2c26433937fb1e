/** The deterministic parts of document ingestion: `clean_text` of
    Ingestion/ingestion_firecrawl.py and ingestion_firecrawl.py (the same
    code), the page-collecting loop of ingestion_firecrawl.py, and the parser
    that turns the language model's sectioned output into documents
    (`auto_section_chunk` in ingestion.py, `auto_chunk_with_llm` in
    Ingestion/ingestion.py, the same code). Scraping and the model are inputs. */
module Ingestion {
  import opened Wrappers
  import opened Text
  import opened Lists

  // ---------------------------------------------------------------------
  // clean_text
  // ---------------------------------------------------------------------

  predicate MentionsCookie(line: string) {
    Contains(Lower(line), "cookie")
  }

  /** A stripped line survives when it is not blank and says nothing of cookies. */
  predicate Kept(line: string) {
    line != [] && !MentionsCookie(line)
  }

  /** The two list comprehensions: strip every line, drop the blank ones and
      those mentioning cookies. */
  function CleanLines(lines: seq<string>): (r: seq<string>)
    ensures |r| <= |lines|
  {
    if lines == [] then []
    else
      var l := Strip(lines[0]);
      (if Kept(l) then [l] else []) + CleanLines(lines[1..])
  }

  /** `clean_text(text)` */
  function CleanText(text: string): string {
    Join(CleanLines(SplitLines(text)), "\n")
  }

  /** Every cleaned line is stripped, not blank, and free of cookies. */
  lemma {:induction false} CleanLinesKept(lines: seq<string>)
    ensures forall k :: 0 <= k < |CleanLines(lines)| ==> Kept(CleanLines(lines)[k]) && IsStripped(CleanLines(lines)[k])
  {
    if lines != [] {
      var rest := CleanLines(lines[1..]);
      CleanLinesKept(lines[1..]);
      var l := Strip(lines[0]);
      if Kept(l) {
        var r := [l] + rest;
        assert CleanLines(lines) == r;
        forall k | 0 <= k < |r|
          ensures Kept(r[k]) && IsStripped(r[k])
        {
          if k > 0 {
            assert r[k] == rest[k - 1];
          }
        }
      } else {
        assert CleanLines(lines) == rest;
      }
    }
  }

  predicate OneLine(s: string) {
    forall j :: 0 <= j < |s| ==> !IsLineBreak(s[j])
  }

  /** Stripping cuts a line without adding to it. */
  lemma StripOneLine(s: string)
    requires OneLine(s)
    ensures OneLine(Strip(s))
  {
    var l := Strip(s);
    assert forall j :: 0 <= j < |l| ==> l[j] == s[StripStart(s) + j];
  }

  /** Lines that hold no line boundary clean to lines that hold none. */
  lemma {:induction false} CleanLinesNoBreaks(lines: seq<string>)
    requires forall k :: 0 <= k < |lines| ==> OneLine(lines[k])
    ensures forall k :: 0 <= k < |CleanLines(lines)| ==> OneLine(CleanLines(lines)[k])
  {
    if lines != [] {
      var rest := CleanLines(lines[1..]);
      assert forall k :: 1 <= k < |lines| ==> lines[1..][k - 1] == lines[k];
      CleanLinesNoBreaks(lines[1..]);
      var l := Strip(lines[0]);
      if Kept(l) {
        StripOneLine(lines[0]);
        var r := [l] + rest;
        assert CleanLines(lines) == r;
        forall k | 0 <= k < |r|
          ensures OneLine(r[k])
        {
          if k > 0 {
            assert r[k] == rest[k - 1];
          }
        }
      } else {
        assert CleanLines(lines) == rest;
      }
    }
  }

  /** A line is kept exactly when it is the stripped form of an input line
      that is not blank and does not mention cookies. */
  lemma {:induction false} CleanLinesMembers(lines: seq<string>, x: string)
    ensures x in CleanLines(lines) <==> Kept(x) && exists k :: 0 <= k < |lines| && Strip(lines[k]) == x
  {
    if lines != [] {
      CleanLinesMembers(lines[1..], x);
      assert forall k :: 1 <= k < |lines| ==> lines[1..][k - 1] == lines[k];
      if Kept(x) && (exists k :: 0 <= k < |lines| && Strip(lines[k]) == x) {
        var k :| 0 <= k < |lines| && Strip(lines[k]) == x;
        if k > 0 {
          assert Strip(lines[1..][k - 1]) == x;
        }
      }
    }
  }

  /** Cleaning cleaned lines changes nothing. */
  lemma {:induction false} CleanLinesIdempotent(lines: seq<string>)
    ensures CleanLines(CleanLines(lines)) == CleanLines(lines)
  {
    if lines != [] {
      var rest := CleanLines(lines[1..]);
      CleanLinesIdempotent(lines[1..]);
      var l := Strip(lines[0]);
      if Kept(l) {
        StripOfStripped(l);
        var r := [l] + rest;
        assert CleanLines(lines) == r;
        assert r[1..] == rest;
        assert CleanLines(r) == [l] + CleanLines(rest);
      } else {
        assert CleanLines(lines) == rest;
      }
    }
  }

  /** The lines of the cleaned text are the cleaned lines of the input: each
      non-empty, stripped and free of cookies. */
  lemma CleanTextLines(text: string)
    ensures SplitLines(CleanText(text)) == CleanLines(SplitLines(text))
  {
    var lines := SplitLines(text);
    assert forall k :: 0 <= k < |lines| ==> OneLine(lines[k]);
    CleanLinesNoBreaks(lines);
    CleanLinesKept(lines);
    var r := CleanLines(lines);
    assert forall k, j :: 0 <= k < |r| && 0 <= j < |r[k]| ==> !IsLineBreak(r[k][j]) by {
      forall k, j | 0 <= k < |r| && 0 <= j < |r[k]|
        ensures !IsLineBreak(r[k][j])
      {
        assert OneLine(r[k]);
      }
    }
    SplitLinesJoin(r);
  }

  /** `clean_text` is idempotent. */
  lemma CleanTextIdempotent(text: string)
    ensures CleanText(CleanText(text)) == CleanText(text)
  {
    CleanTextLines(text);
    CleanLinesIdempotent(SplitLines(text));
  }

  /** Empty or whitespace-only text cleans to "". */
  lemma {:induction false} CleanBlank(text: string)
    requires forall i :: 0 <= i < |text| ==> IsSpace(text[i])
    ensures CleanText(text) == ""
  {
    var lines := SplitLines(text);
    AllBlankLines(lines, text);
  }

  lemma {:induction false} AllBlankLines(lines: seq<string>, text: string)
    requires forall i :: 0 <= i < |text| ==> IsSpace(text[i])
    requires forall k, j :: 0 <= k < |lines| && 0 <= j < |lines[k]| ==> lines[k][j] in text
    ensures CleanLines(lines) == []
  {
    if lines != [] {
      forall j | 0 <= j < |lines[0]|
        ensures IsSpace(lines[0][j])
      {
        var c := lines[0][j];
        var i :| 0 <= i < |text| && text[i] == c;
      }
      StripAllSpace(lines[0]);
      AllBlankLines(lines[1..], text);
    }
  }

  // ---------------------------------------------------------------------
  // The scraping loop of ingestion_firecrawl.py
  // ---------------------------------------------------------------------

  /** A scraped page ready for splitting: its cleaned text and its URL. */
  datatype Page = Page(content: string, source: string)

  /** One URL of the list and what scraping it gave: its markdown, or the
      exception the scraper raised. */
  datatype Fetch = Fetch(url: string, scrape: Outcome<string>)

  /** What one URL contributes: its cleaned markdown, unless the scrape
      failed or nothing is left after cleaning. */
  function PageOf(f: Fetch): (r: Option<Page>)
    ensures r.Some? <==> f.scrape.Ok? && CleanText(f.scrape.value) != ""
    ensures r.Some? ==> r.value == Page(CleanText(f.scrape.value), f.url)
  {
    if f.scrape.Ok? && CleanText(f.scrape.value) != "" then Some(Page(CleanText(f.scrape.value), f.url)) else None
  }

  /** The pages collected from the URLs, in URL order. */
  function Collected(fetches: seq<Fetch>): (r: seq<Page>)
    ensures |r| <= |fetches|
  {
    Present(Map(fetches, PageOf))
  }

  /** A page is collected exactly when some URL was scraped without failure
      and its markdown cleans to that non-empty text. */
  lemma CollectedMembers(fetches: seq<Fetch>, p: Page)
    ensures p in Collected(fetches) <==>
      p.content != "" && exists k :: (0 <= k < |fetches| && fetches[k].url == p.source
                                      && fetches[k].scrape.Ok? && CleanText(fetches[k].scrape.value) == p.content)
  {
    var opts := Map(fetches, PageOf);
    PresentMembers(opts, p);
    if Some(p) in opts {
      var k :| 0 <= k < |opts| && opts[k] == Some(p);
      assert PageOf(fetches[k]) == Some(p);
    }
    if p.content != "" && exists k :: (0 <= k < |fetches| && fetches[k].url == p.source
                                       && fetches[k].scrape.Ok? && CleanText(fetches[k].scrape.value) == p.content) {
      var k :| 0 <= k < |fetches| && fetches[k].url == p.source
               && fetches[k].scrape.Ok? && CleanText(fetches[k].scrape.value) == p.content;
      assert opts[k] == Some(p);
    }
  }

  /** A failed scrape contributes nothing and does not stop the loop: the
      pages are those of the other URLs. */
  lemma FailedScrapeSkipped(before: seq<Fetch>, url: string, e: string, after: seq<Fetch>)
    ensures Collected(before + [Fetch(url, Raised(e))] + after) == Collected(before) + Collected(after)
  {
    var f := [Fetch(url, Raised(e))];
    MapAppend(before + f, after, PageOf);
    MapAppend(before, f, PageOf);
    PresentAppend(Map(before, PageOf) + Map(f, PageOf), Map(after, PageOf));
    PresentAppend(Map(before, PageOf), Map(f, PageOf));
    var none: seq<Option<Page>> := [None];
    assert Map(f, PageOf) == none;
    assert Present(none) == [];
  }

  /** The scraping loop: a page is kept only when its cleaned text is
      non-empty, and a failed scrape is skipped. */
  method CollectPages(fetches: seq<Fetch>) returns (docs: seq<Page>)
    ensures docs == Collected(fetches)
  {
    docs := Collect(fetches, PageOf);
  }

  /** What the script goes on to do: stop when nothing was collected,
      otherwise hand the pages to the splitter. */
  datatype Run = Stopped | ToSplitter(pages: seq<Page>)

  method Ingest(fetches: seq<Fetch>) returns (r: Run)
    ensures r == Stopped <==> Collected(fetches) == []
    ensures r.ToSplitter? ==> r.pages == Collected(fetches)
    ensures r.ToSplitter? ==> forall k :: 0 <= k < |r.pages| ==> r.pages[k].content != ""
  {
    var docs := CollectPages(fetches);
    if docs == [] {
      return Stopped;
    }
    forall k | 0 <= k < |docs|
      ensures docs[k].content != ""
    {
      CollectedMembers(fetches, docs[k]);
    }
    r := ToSplitter(docs);
  }

  // ---------------------------------------------------------------------
  // The section parser
  // ---------------------------------------------------------------------

  /** A document made from one section: its title and its content. */
  datatype Section = Section(title: string, content: string)

  /** One chunk: its first line is the title, the rest the content; a chunk
      with a single line yields nothing. */
  function SectionOf(chunk: string): Option<Section> {
    var lines := Split(Strip(chunk), '\n');
    if |lines| < 2 then None
    else Some(Section(Strip(lines[0]), Strip(Join(lines[1..], "\n"))))
  }

  /** The documents of the chunks, in chunk order. */
  function Sections(chunks: seq<string>): (r: seq<Section>)
    ensures |r| <= |chunks|
  {
    Present(Map(chunks, SectionOf))
  }

  /** The chunks of the model's output: stripped and cut at blank lines. */
  function Chunks(output: string): seq<string> {
    SplitOn(Strip(output), "\n\n")
  }

  /** The parse loop of `auto_section_chunk` / `auto_chunk_with_llm`. */
  method ParseSections(output: string) returns (documents: seq<Section>)
    ensures documents == Sections(Chunks(output))
  {
    documents := Collect(Chunks(output), SectionOf);
  }

  /** A string without `c` splits into itself alone, and one with `c` into
      at least two pieces. */
  lemma SplitCount(s: string, c: char)
    ensures |Split(s, c)| == 1 <==> c !in s
  {
    var i := IndexOf(s, c);
    if c in s {
      var j :| 0 <= j < |s| && s[j] == c;
      assert i <= j;
    }
  }

  /** A chunk yields a document exactly when its stripped text spans more
      than one line. */
  lemma SectionOfIff(chunk: string)
    ensures SectionOf(chunk).Some? <==> '\n' in Strip(chunk)
  {
    SplitCount(Strip(chunk), '\n');
  }

  /** A title is one line: it holds no '\n'. */
  lemma SectionTitleOneLine(chunk: string)
    ensures SectionOf(chunk).Some? ==> '\n' !in SectionOf(chunk).value.title
  {
    var lines := Split(Strip(chunk), '\n');
    if |lines| >= 2 {
      var t := Strip(lines[0]);
      assert forall j :: 0 <= j < |t| ==> t[j] == lines[0][StripStart(lines[0]) + j];
    }
  }

  /** No document title holds '\n'. */
  lemma TitlesOneLine(chunks: seq<string>, d: Section)
    requires d in Sections(chunks)
    ensures '\n' !in d.title
  {
    var opts := Map(chunks, SectionOf);
    PresentMembers(opts, d);
    var k :| 0 <= k < |opts| && opts[k] == Some(d);
    SectionTitleOneLine(chunks[k]);
  }

  /** Parsing is chunk by chunk: the documents of two runs of chunks are the
      documents of the first followed by those of the second. */
  lemma SectionsAppend(a: seq<string>, b: seq<string>)
    ensures Sections(a + b) == Sections(a) + Sections(b)
  {
    MapAppend(a, b, SectionOf);
    PresentAppend(Map(a, SectionOf), Map(b, SectionOf));
  }

  /** Empty or whitespace-only output yields no documents. */
  lemma BlankOutput(output: string)
    requires forall i :: 0 <= i < |output| ==> IsSpace(output[i])
    ensures Sections(Chunks(output)) == []
  {
    StripAllSpace(output);
    assert Find("", "\n\n") == None;
    assert Chunks(output) == [""];
    assert Split("", '\n') == [""];
    assert Map([""], SectionOf) == [None];
  }
}
