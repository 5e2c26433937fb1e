/** main.py, `extract_booking_number_from_result`: six search patterns tried
    in order; the first that matches anywhere in the text gives its capture,
    a run of capital letters and digits. Each pattern is a sequence of
    elements followed by that capture. In every pattern a repeated class is
    followed by something that cannot start with a character of the class,
    so taking each run greedily finds the same match as a backtracking
    regular-expression search. */
module BookingRefExtract {
  import opened Wrappers
  import opened Text
  import opened BookingNumber

  datatype CharClass = Space | SpaceColon | SpaceHashColon

  predicate InClass(c: char, k: CharClass) {
    match k
    case Space => IsSpace(c)
    case SpaceColon => IsSpace(c) || c == ':'
    case SpaceHashColon => IsSpace(c) || c == '#' || c == ':'
  }

  /** `[A-Z0-9]` */
  predicate IsRefChar(c: char) { IsUpperAsciiLetter(c) || IsDigit(c) }

  /** A literal with alternatives, one or more of a class, or any number of it. */
  datatype Elem = Lit(alternatives: seq<string>) | Plus(cls: CharClass) | Star(cls: CharClass)

  /** The six patterns, in the order they are tried. */
  const Patterns: seq<seq<Elem>> := [
    [Lit(["Booking", "booking"]), Plus(Space), Lit(["confirmed", "reference", "ref", "number"]), Plus(SpaceColon)],
    [Lit(["Reference", "reference"]), Plus(SpaceColon)],
    [Lit(["Booking", "booking"]), Plus(SpaceHashColon)],
    [Lit(["Confirmation", "confirmation"]), Plus(SpaceHashColon)],
    [Lit(["REF"]), Star(SpaceColon)],
    [Lit(["#"])]]

  /** The end of the longest run of class `k` starting at `i`. */
  function RunEnd(t: string, i: nat, k: CharClass): (j: nat)
    requires i <= |t|
    ensures i <= j <= |t|
    ensures forall m :: i <= m < j ==> InClass(t[m], k)
    ensures j < |t| ==> !InClass(t[j], k)
    decreases |t| - i
  {
    if i < |t| && InClass(t[i], k) then RunEnd(t, i + 1, k) else i
  }

  /** The end of the longest run of `[A-Z0-9]` starting at `i`. */
  function RefEnd(t: string, i: nat): (j: nat)
    requires i <= |t|
    ensures i <= j <= |t|
    ensures forall m :: i <= m < j ==> IsRefChar(t[m])
    ensures j < |t| ==> !IsRefChar(t[j])
    decreases |t| - i
  {
    if i < |t| && IsRefChar(t[i]) then RefEnd(t, i + 1) else i
  }

  /** The bounds of the capture when pattern `p`, then the capture, match at
      position `i`. */
  function MatchAt(t: string, i: nat, p: seq<Elem>): (r: Option<(nat, nat)>)
    requires i <= |t|
    ensures r.Some? ==>
      i <= r.value.0 < r.value.1 <= |t|
      && forall m :: r.value.0 <= m < r.value.1 ==> IsRefChar(t[m])
    decreases |p| + 1, 0
  {
    if p == [] then
      var j := RefEnd(t, i);
      if j > i then Some((i, j)) else None
    else
      match p[0]
      case Lit(alts) => MatchAlternatives(t, i, alts, p[1..])
      case Plus(k) =>
        var j := RunEnd(t, i, k);
        if j > i then MatchAt(t, j, p[1..]) else None
      case Star(k) => MatchAt(t, RunEnd(t, i, k), p[1..])
  }

  /** The alternatives are tried in order; the first that leads to a match wins. */
  function MatchAlternatives(t: string, i: nat, alts: seq<string>, rest: seq<Elem>): (r: Option<(nat, nat)>)
    requires i <= |t|
    ensures r.Some? ==>
      i <= r.value.0 < r.value.1 <= |t|
      && forall m :: r.value.0 <= m < r.value.1 ==> IsRefChar(t[m])
    decreases |rest| + 1, |alts|
  {
    if alts == [] then None
    else if StartsWith(t[i..], alts[0]) && MatchAt(t, i + |alts[0]|, rest).Some? then
      MatchAt(t, i + |alts[0]|, rest)
    else MatchAlternatives(t, i, alts[1..], rest)
  }

  /** `re.search`: the match at the leftmost position from `i` on. */
  function SearchFrom(t: string, p: seq<Elem>, i: nat): (r: Option<(nat, nat)>)
    requires i <= |t|
    ensures r.Some? ==>
      i <= r.value.0 < r.value.1 <= |t|
      && forall m :: r.value.0 <= m < r.value.1 ==> IsRefChar(t[m])
    decreases |t| - i
  {
    if MatchAt(t, i, p).Some? then MatchAt(t, i, p)
    else if i < |t| then SearchFrom(t, p, i + 1)
    else None
  }

  /** No position from `i` up to, but not including, `s` starts a match. */
  predicate NoneBefore(t: string, p: seq<Elem>, i: nat, s: nat)
    requires s <= |t|
  {
    forall s' :: i <= s' < s ==> MatchAt(t, s', p).None?
  }

  /** A match at `i` is what the search returns. */
  lemma SearchFromHere(t: string, p: seq<Elem>, i: nat)
    requires i <= |t| && MatchAt(t, i, p).Some?
    ensures SearchFrom(t, p, i) == MatchAt(t, i, p)
  {
  }

  /** Without a match at `i` the search moves on to `i + 1`. */
  lemma SearchFromNext(t: string, p: seq<Elem>, i: nat)
    requires i < |t| && MatchAt(t, i, p).None?
    ensures SearchFrom(t, p, i) == SearchFrom(t, p, i + 1)
  {
  }

  /** The search finds nothing exactly when no position from `i` on matches. */
  lemma {:induction false} SearchFromNone(t: string, p: seq<Elem>, i: nat)
    requires i <= |t|
    ensures SearchFrom(t, p, i).None? <==> forall s :: i <= s <= |t| ==> MatchAt(t, s, p).None?
    decreases |t| - i
  {
    if MatchAt(t, i, p).Some? {
      SearchFromHere(t, p, i);
    } else if i < |t| {
      SearchFromNone(t, p, i + 1);
      SearchFromNext(t, p, i);
      forall s | i <= s <= |t| && SearchFrom(t, p, i).None?
        ensures MatchAt(t, s, p).None?
      {
        if s > i {
          assert i + 1 <= s <= |t|;
        }
      }
    } else {
      assert SearchFrom(t, p, i).None?;
      forall s | i <= s <= |t|
        ensures MatchAt(t, s, p).None?
      {
        assert s == i;
      }
    }
  }

  /** A position without a match extends the matchless stretch before `s`. */
  lemma NoneBeforeStep(t: string, p: seq<Elem>, i: nat, s: nat)
    requires i < s <= |t| && MatchAt(t, i, p).None? && NoneBefore(t, p, i + 1, s)
    ensures NoneBefore(t, p, i, s)
  {
  }

  /** A found match is the one at the leftmost position that has one. */
  lemma {:induction false} SearchFromLeftmost(t: string, p: seq<Elem>, i: nat)
    requires i <= |t|
    ensures SearchFrom(t, p, i).Some? ==>
      exists s {:trigger NoneBefore(t, p, i, s)} ::
        i <= s <= |t| && SearchFrom(t, p, i) == MatchAt(t, s, p) && NoneBefore(t, p, i, s)
    decreases |t| - i
  {
    if MatchAt(t, i, p).Some? {
      SearchFromHere(t, p, i);
      assert NoneBefore(t, p, i, i);
    } else if i < |t| {
      SearchFromNext(t, p, i);
      SearchFromLeftmost(t, p, i + 1);
      if SearchFrom(t, p, i).Some? {
        var s :| i + 1 <= s <= |t| && SearchFrom(t, p, i + 1) == MatchAt(t, s, p) && NoneBefore(t, p, i + 1, s);
        NoneBeforeStep(t, p, i, s);
      }
    }
  }

  /** The capture of the first of `ps` that matches, if any. */
  function FirstCapture(t: string, ps: seq<seq<Elem>>): Option<string> {
    if ps == [] then None
    else match SearchFrom(t, ps[0], 0)
      case Some((a, b)) => Some(t[a..b])
      case None => FirstCapture(t, ps[1..])
  }

  /** The cascade finds nothing exactly when no pattern matches at any
      position of the text. */
  lemma {:induction false} FirstCaptureNone(t: string, ps: seq<seq<Elem>>)
    ensures FirstCapture(t, ps).None? <==>
      forall k, s :: 0 <= k < |ps| && 0 <= s <= |t| ==> MatchAt(t, s, ps[k]).None?
  {
    if ps != [] {
      SearchFromNone(t, ps[0], 0);
      FirstCaptureNone(t, ps[1..]);
      if FirstCapture(t, ps).None? {
        forall k, s | 0 <= k < |ps| && 0 <= s <= |t|
          ensures MatchAt(t, s, ps[k]).None?
        {
          if k > 0 {
            assert ps[k] == ps[1..][k - 1];
          }
        }
      } else if SearchFrom(t, ps[0], 0).None? {
        assert FirstCapture(t, ps[1..]).Some?;
        var k, s :| 0 <= k < |ps[1..]| && 0 <= s <= |t| && MatchAt(t, s, ps[1..][k]).Some?;
        assert MatchAt(t, s, ps[k + 1]).Some?;
      }
    }
  }

  /** What the cascade can return: a non-empty run of capital letters and
      digits that occurs in the text. */
  lemma {:induction false} CaptureShape(t: string, ps: seq<seq<Elem>>)
    ensures var r := FirstCapture(t, ps);
      r.Some? ==> r.value != [] && (forall m :: 0 <= m < |r.value| ==> IsRefChar(r.value[m])) && Contains(t, r.value)
  {
    if ps != [] {
      match SearchFrom(t, ps[0], 0)
      case Some((a, b)) =>
        ContainsAt(t, t[a..b], a);
      case None =>
        CaptureShape(t, ps[1..]);
    }
  }

  /** `extract_booking_number_from_result(text)`: a loop over the patterns
      that returns at the first match. */
  method ExtractBookingNumber(text: string) returns (r: Option<string>)
    ensures r == FirstCapture(text, Patterns)
    ensures r.Some? ==> r.value != [] && (forall m :: 0 <= m < |r.value| ==> IsRefChar(r.value[m])) && Contains(text, r.value)
  {
    CaptureShape(text, Patterns);
    var k := 0;
    while k < |Patterns|
      invariant 0 <= k <= |Patterns|
      invariant FirstCapture(text, Patterns) == FirstCapture(text, Patterns[k..])
    {
      var m := SearchFrom(text, Patterns[k], 0);
      if m.Some? {
        return Some(text[m.value.0..m.value.1]);
      }
      assert Patterns[k..][1..] == Patterns[k + 1..];
      k := k + 1;
    }
    r := None;
  }

  predicate AllRefChars(s: string) {
    forall m :: 0 <= m < |s| ==> IsRefChar(s[m])
  }

  /** A generated reference has a dash after its prefix. */
  lemma GeneratedHasDash(id: nat, today: Date)
    requires ValidDate(today)
    ensures !AllRefChars(Generate(id, today))
  {
    GenerateShape(id, today);
    assert Generate(id, today)[3] == "BKG-"[3];
  }

  /** A reference made by the booking form contains dashes, so the cascade
      can never return one whole. */
  lemma NeverWholeReference(text: string, id: nat, today: Date)
    requires ValidDate(today)
    ensures FirstCapture(text, Patterns) != Some(Generate(id, today))
  {
    CaptureShape(text, Patterns);
    GeneratedHasDash(id, today);
  }
}
