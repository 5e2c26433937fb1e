/** `clean_sql` of tools/sql_tool.py: the text the language model produced is
    stripped, cleared of markdown fences and a "Query:" label, and then cut
    down to the first `SELECT … ;` statement it holds, if any. The regular
    expression `(SELECT\s+.*?;)` searched case-insensitively with `.`
    matching newlines is written out as the matcher below. */
module SqlTool {
  import opened Wrappers
  import opened Text

  /** `raw.strip().replace("```sql", "").replace("```", "").replace("Query:", "")` */
  function Cleaned(raw: string): string {
    ReplaceAll(ReplaceAll(ReplaceAll(Strip(raw), "```sql", ""), "```", ""), "Query:", "")
  }

  predicate IsSemicolon(c: char) { c == ';' }

  /** "SELECT" in any case, then a whitespace character, starts at `i`. */
  predicate SelectAt(s: string, i: nat) {
    i + 7 <= |s| && Upper(s[i..i + 6]) == "SELECT" && IsSpace(s[i + 6])
  }

  /** Where a match starting at `i` ends (exclusive): right after the first
      ';' that follows the keyword and its whitespace. The lazy `.*?` stops at
      that ';' and `\s+` cannot hold one, so no other end is possible. */
  function MatchAt(s: string, i: nat): (r: Option<nat>)
    ensures r.Some? ==> SelectAt(s, i) && i + 8 <= r.value <= |s| && s[r.value - 1] == ';'
    ensures r.Some? ==> forall k :: i + 7 <= k < r.value - 1 ==> s[k] != ';'
    ensures r.None? ==> !SelectAt(s, i) || forall k :: i + 7 <= k < |s| ==> s[k] != ';'
  {
    if !SelectAt(s, i) then None
    else
      var k := FirstIndex(s[i + 7..], IsSemicolon);
      assert forall m :: i + 7 <= m < |s| ==> s[m] == s[i + 7..][m - (i + 7)];
      if i + 7 + k < |s| then Some(i + 7 + k + 1) else None
  }

  /** `re.search`: the leftmost start at or after `from` where the pattern
      matches, with the end of that match. */
  function SearchFrom(s: string, from: nat): (r: Option<(nat, nat)>)
    ensures r.Some? ==> from <= r.value.0 && MatchAt(s, r.value.0) == Some(r.value.1)
    ensures r.Some? ==> forall i :: from <= i < r.value.0 ==> MatchAt(s, i).None?
    ensures r.None? ==> forall i :: from <= i ==> MatchAt(s, i).None?
    decreases |s| - from
  {
    if from + 7 > |s| then None
    else if MatchAt(s, from).Some? then Some((from, MatchAt(s, from).value))
    else SearchFrom(s, from + 1)
  }

  function Search(s: string): Option<(nat, nat)> {
    SearchFrom(s, 0)
  }

  /** The search and cut applied to the cleaned text `c`: the leftmost
      `SELECT … ;`, stripped, or `c` stripped when it holds none. */
  function Extract(c: string): (r: string)
    ensures Search(c).None? ==> r == Strip(c)
  {
    match Search(c)
    case Some((i, j)) =>
      MatchStripped(c, i, j);
      Strip(c[i..j])
    case None => Strip(c)
  }

  /** `clean_sql(raw)` */
  function CleanSql(raw: string): string {
    Extract(Cleaned(raw))
  }

  /** A match starts with a letter and ends with ';', so `strip()` keeps it whole. */
  lemma MatchStripped(s: string, i: nat, j: nat)
    requires MatchAt(s, i) == Some(j)
    ensures Strip(s[i..j]) == s[i..j]
  {
    var m := s[i..j];
    assert Upper(s[i..i + 6])[0] == UpperChar(m[0]) == 'S';
    StripOfStripped(m);
  }

  /** The text a match covers starts with "SELECT" in any case and a
      whitespace character, and holds exactly one ';', as its last character. */
  lemma MatchShape(s: string, i: nat, j: nat)
    requires MatchAt(s, i) == Some(j)
    ensures var m := s[i..j];
      |m| >= 8 && Upper(m[..6]) == "SELECT" && IsSpace(m[6])
      && m[|m| - 1] == ';' && forall k :: 0 <= k < |m| - 1 ==> m[k] != ';'
  {
    var m := s[i..j];
    assert m[..6] == s[i..i + 6];
    assert m[6] == s[i + 6];
    assert m[|m| - 1] == s[j - 1];
    forall k | 0 <= k < |m| - 1
      ensures m[k] != ';'
    {
      assert m[k] == s[i + k];
      if k >= 7 {
        assert i + 7 <= i + k < j - 1;
      } else if k == 6 {
        assert IsSpace(s[i + 6]);
      } else {
        assert Upper(s[i..i + 6])[k] == UpperChar(m[k]);
        assert "SELECT"[k] != ';';
      }
    }
  }

  /** When the cleaned text holds a statement, the result is the leftmost one
      in full: no earlier "SELECT" with whitespace after it is followed by a ';'. */
  lemma ExtractStatement(c: string)
    requires Search(c).Some?
    ensures var (i, j) := Search(c).value;
      Extract(c) == c[i..j]
      && forall i' :: 0 <= i' < i ==> !SelectAt(c, i') || forall k :: i' + 7 <= k < |c| ==> c[k] != ';'
  {
    var (i, j) := Search(c).value;
    MatchStripped(c, i, j);
    forall i' | 0 <= i' < i
      ensures !SelectAt(c, i') || forall k :: i' + 7 <= k < |c| ==> c[k] != ';'
    {
      assert MatchAt(c, i').None?;
    }
  }

  /** `clean_sql` on a raw text whose cleaned form holds a statement: a slice
      of the cleaned text, starting at the leftmost statement, that begins with
      "SELECT" in any case and ends at the first ';' after it. */
  lemma CleanSqlStatement(raw: string)
    requires Search(Cleaned(raw)).Some?
    ensures var c := Cleaned(raw);
      var i := Search(c).value.0;
      var r := CleanSql(raw);
      i + |r| <= |c| && r == c[i..i + |r|]
      && |r| >= 8 && Upper(r[..6]) == "SELECT" && IsSpace(r[6])
      && r[|r| - 1] == ';' && forall k :: 0 <= k < |r| - 1 ==> r[k] != ';'
  {
    var c := Cleaned(raw);
    var (i, j) := Search(c).value;
    ExtractStatement(c);
    MatchShape(c, i, j);
  }

  /** Without a statement, the result is the cleaned text, stripped. */
  lemma CleanSqlNoStatement(raw: string)
    requires Search(Cleaned(raw)).None?
    ensures CleanSql(raw) == Strip(Cleaned(raw))
  {
  }

  /** A text in which the pattern's first character never occurs is left
      alone by `replace`. */
  lemma {:induction false} ReplaceAbsent(s: string, pat: string)
    requires pat != [] && pat[0] !in s
    ensures ReplaceAll(s, pat, "") == s
    decreases |s|
  {
    if s != [] {
      assert s[0] != pat[0];
      assert s == [s[0]] + s[1..];
      ReplaceAbsent(s[1..], pat);
    }
  }

  /** The sample query of the SQL-generation prompt,
      "SELECT * FROM bookings WHERE booking_number = 'BKG-20250401-0003';",
      written in pieces. */
  const ExampleBody: string := "* FROM " + "bookings " + "WHERE " + "booking_" + "number" + " = " + "'BKG-" + "20250401" + "-0003'"
  const Example: string := "SELECT" + " " + ExampleBody + ";"

  predicate Plain(s: string) { ';' !in s && '`' !in s && 'Q' !in s }

  /** None of the characters the cleaning looks for occurs in the body. */
  lemma ExampleBodyPlain()
    ensures ';' !in ExampleBody && '`' !in ExampleBody && 'Q' !in ExampleBody
  {
    assert Plain("* FROM ");
    assert Plain("bookings ");
    assert Plain("WHERE ");
    assert Plain("booking_");
    assert Plain("number");
    assert Plain(" = ");
    assert Plain("'BKG-");
    assert Plain("20250401");
    assert Plain("-0003'");
  }

  lemma ExampleMatches()
    ensures MatchAt(Example, 0) == Some(|Example|)
  {
    var s := Example;
    ExampleBodyPlain();
    assert s[..6] == "SELECT" && s[6] == ' ';
    assert Upper("SELECT") == "SELECT";
    assert SelectAt(s, 0);
    var t := s[7..];
    assert t == ExampleBody + ";";
    var k := FirstIndex(t, IsSemicolon);
    assert t[|ExampleBody|] == ';';
    assert k == |ExampleBody|;
  }

  /** `clean_sql` leaves the prompt's own sample query exactly as it is. */
  lemma ExampleUnchanged()
    ensures CleanSql(Example) == Example
  {
    var s := Example;
    ExampleBodyPlain();
    assert s[0] == 'S' && s[|s| - 1] == ';';
    assert IsStripped(s);
    StripOfStripped(s);
    assert '`' !in s && 'Q' !in s;
    ReplaceAbsent(s, "```sql");
    ReplaceAbsent(s, "```");
    ReplaceAbsent(s, "Query:");
    assert Cleaned(s) == s;
    ExampleMatches();
    assert Search(s) == Some((0, |s|));
    MatchStripped(s, 0, |s|);
    assert s[0..|s|] == s;
  }
}
