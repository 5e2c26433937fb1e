/** The parts of Python's `str` that the hotel assistant relies on, as pure
    functions on `string` (a sequence of Unicode scalar values). Case mapping
    is the ASCII subset of Python's Unicode case mapping. */
module Text {
  import opened Wrappers

  // ---------------------------------------------------------------------
  // Character classes
  // ---------------------------------------------------------------------

  /** The characters for which `str.isspace()` holds; they are what
      `strip()`, `split()` and the regular expression class `\s` skip. */
  predicate IsSpace(c: char) {
    c == ' ' || ('\t' <= c <= '\r') || ('\U{1C}' <= c <= '\U{1F}')
    || c == '\U{85}' || c == '\U{A0}' || c == '\U{1680}'
    || ('\U{2000}' <= c <= '\U{200A}') || c == '\U{2028}' || c == '\U{2029}'
    || c == '\U{202F}' || c == '\U{205F}' || c == '\U{3000}'
  }

  /** The line boundaries recognised by `str.splitlines()`. */
  predicate IsLineBreak(c: char) {
    c == '\n' || c == '\r' || c == '\U{0B}' || c == '\U{0C}' || c == '\U{1C}'
    || c == '\U{1D}' || c == '\U{1E}' || c == '\U{85}' || c == '\U{2028}' || c == '\U{2029}'
  }

  predicate IsDigit(c: char) { '0' <= c <= '9' }

  predicate IsUpperAsciiLetter(c: char) { 'A' <= c <= 'Z' }

  function LowerChar(c: char): char {
    if 'A' <= c <= 'Z' then (c as int + 32) as char else c
  }

  function UpperChar(c: char): char {
    if 'a' <= c <= 'z' then (c as int - 32) as char else c
  }

  /** `s.lower()` */
  function Lower(s: string): (r: string)
    ensures |r| == |s| && forall i :: 0 <= i < |s| ==> r[i] == LowerChar(s[i])
  {
    seq(|s|, i requires 0 <= i < |s| => LowerChar(s[i]))
  }

  /** `s.upper()` */
  function Upper(s: string): (r: string)
    ensures |r| == |s| && forall i :: 0 <= i < |s| ==> r[i] == UpperChar(s[i])
  {
    seq(|s|, i requires 0 <= i < |s| => UpperChar(s[i]))
  }

  // ---------------------------------------------------------------------
  // Stripping
  // ---------------------------------------------------------------------

  /** The first index at or after `k` that is not whitespace, or `|s|`. */
  function SpaceRunEnd(s: string, k: nat): (n: nat)
    requires k <= |s|
    ensures k <= n <= |s| && (n < |s| ==> !IsSpace(s[n]))
    decreases |s| - k
  {
    if k < |s| && IsSpace(s[k]) then SpaceRunEnd(s, k + 1) else k
  }

  /** Walking back from `k` no lower than `lo`: the end of the text before
      the trailing whitespace. */
  function SpaceRunStart(s: string, lo: nat, k: nat): (n: nat)
    requires lo <= k <= |s|
    ensures lo <= n <= k && (n > lo ==> !IsSpace(s[n - 1]))
    decreases k
  {
    if k > lo && IsSpace(s[k - 1]) then SpaceRunStart(s, lo, k - 1) else k
  }

  lemma {:induction false} SpaceRunEndSpaces(s: string, k: nat)
    requires k <= |s|
    ensures forall i :: k <= i < SpaceRunEnd(s, k) ==> IsSpace(s[i])
    decreases |s| - k
  {
    if k < |s| && IsSpace(s[k]) {
      SpaceRunEndSpaces(s, k + 1);
    }
  }

  lemma {:induction false} SpaceRunStartSpaces(s: string, lo: nat, k: nat)
    requires lo <= k <= |s|
    ensures forall i :: SpaceRunStart(s, lo, k) <= i < k ==> IsSpace(s[i])
    decreases k
  {
    if k > lo && IsSpace(s[k - 1]) {
      SpaceRunStartSpaces(s, lo, k - 1);
    }
  }

  /** Where `Strip(s)` starts inside `s`. */
  function StripStart(s: string): nat {
    SpaceRunEnd(s, 0)
  }

  /** Where `Strip(s)` ends inside `s`. */
  function StripEnd(s: string): (n: nat)
    ensures StripStart(s) <= n <= |s|
  {
    SpaceRunStart(s, StripStart(s), |s|)
  }

  /** `s.lstrip()` */
  function LStrip(s: string): string {
    s[StripStart(s)..]
  }

  /** `s.rstrip()` */
  function RStrip(s: string): string {
    s[..SpaceRunStart(s, 0, |s|)]
  }

  /** A string that `strip()` leaves alone. */
  predicate IsStripped(s: string) {
    s == [] || (!IsSpace(s[0]) && !IsSpace(s[|s| - 1]))
  }

  /** `s.strip()`: a slice of `s` with no whitespace at either end. */
  function Strip(s: string): (r: string)
    ensures IsStripped(r)
    ensures StripStart(s) + |r| <= |s| && r == s[StripStart(s)..StripStart(s) + |r|]
  {
    s[StripStart(s)..StripEnd(s)]
  }

  /** `strip` cuts off only whitespace, at both ends. */
  lemma StripCutsSpace(s: string)
    ensures forall i :: 0 <= i < StripStart(s) ==> IsSpace(s[i])
    ensures forall i :: StripStart(s) + |Strip(s)| <= i < |s| ==> IsSpace(s[i])
  {
    SpaceRunEndSpaces(s, 0);
    SpaceRunStartSpaces(s, StripStart(s), |s|);
  }

  lemma StripOfStripped(s: string)
    requires IsStripped(s)
    ensures Strip(s) == s
  {
  }

  lemma StripAllSpace(s: string)
    requires forall i :: 0 <= i < |s| ==> IsSpace(s[i])
    ensures Strip(s) == []
  {
  }

  lemma {:induction false} SpaceRunEndAt(s: string, k: nat, j: nat)
    requires k <= j <= |s| && (j < |s| ==> !IsSpace(s[j]))
    requires forall i :: k <= i < j ==> IsSpace(s[i])
    ensures SpaceRunEnd(s, k) == j
    decreases j - k
  {
    if k < j {
      SpaceRunEndAt(s, k + 1, j);
    }
  }

  lemma {:induction false} SpaceRunStartAt(s: string, lo: nat, k: nat, j: nat)
    requires lo <= j <= k <= |s| && (j > lo ==> !IsSpace(s[j - 1]))
    requires forall i :: j <= i < k ==> IsSpace(s[i])
    ensures SpaceRunStart(s, lo, k) == j
    decreases k - j
  {
    if j < k {
      SpaceRunStartAt(s, lo, k - 1, j);
    }
  }

  /** Stripping whitespace padding off a stripped text gives the text back. */
  lemma StripPadded(a: string, q: string, b: string)
    requires forall i :: 0 <= i < |a| ==> IsSpace(a[i])
    requires forall i :: 0 <= i < |b| ==> IsSpace(b[i])
    requires IsStripped(q)
    ensures Strip(a + q + b) == q
  {
    var s := a + q + b;
    if q == [] {
      assert forall i :: 0 <= i < |s| ==> IsSpace(s[i]) by {
        forall i | 0 <= i < |s|
          ensures IsSpace(s[i])
        {
          if i < |a| { assert s[i] == a[i]; } else { assert s[i] == b[i - |a|]; }
        }
      }
      StripAllSpace(s);
    } else {
      assert s[|a|] == q[0];
      SpaceRunEndAt(s, 0, |a|);
      assert s[|a| + |q| - 1] == q[|q| - 1];
      assert forall i :: |a| + |q| <= i < |s| ==> s[i] == b[i - |a| - |q|];
      SpaceRunStartAt(s, |a|, |s|, |a| + |q|);
      assert s[|a|..|a| + |q|] == q;
    }
  }

  lemma StripIdempotent(s: string)
    ensures Strip(Strip(s)) == Strip(s)
  {
    StripOfStripped(Strip(s));
  }

  // ---------------------------------------------------------------------
  // Prefixes, suffixes and occurrences
  // ---------------------------------------------------------------------

  predicate StartsWith(s: string, p: string) {
    |p| <= |s| && s[..|p|] == p
  }

  predicate EndsWith(s: string, p: string) {
    |p| <= |s| && s[|s| - |p|..] == p
  }

  /** `s.find(p)`, with `None` for -1. */
  function Find(s: string, p: string): (r: Option<nat>)
    ensures r.Some? ==> r.value + |p| <= |s| && s[r.value..r.value + |p|] == p
    decreases |s|
  {
    if StartsWith(s, p) then Some(0)
    else if s == [] then None
    else
      match Find(s[1..], p)
      case Some(k) => Some(k + 1)
      case None => None
  }

  /** `find` reports the leftmost occurrence, and `None` only when there is none. */
  lemma {:induction false} FindLeftmost(s: string, p: string)
    ensures Find(s, p).Some? ==> forall j :: 0 <= j < Find(s, p).value ==> !StartsWith(s[j..], p)
    ensures Find(s, p).None? ==> forall j :: 0 <= j <= |s| ==> !StartsWith(s[j..], p)
    decreases |s|
  {
    if !StartsWith(s, p) && s != [] {
      FindLeftmost(s[1..], p);
      assert forall j :: 1 <= j <= |s| ==> s[1..][j - 1..] == s[j..];
    }
  }

  /** `p in s` */
  predicate Contains(s: string, p: string) {
    Find(s, p).Some?
  }

  lemma ContainsAt(s: string, p: string, j: nat)
    requires j <= |s| && StartsWith(s[j..], p)
    ensures Contains(s, p)
  {
    FindLeftmost(s, p);
  }

  /** The first index at which `f` holds, or `|s|` when there is none. */
  function FirstIndex(s: string, f: char -> bool): (i: nat)
    ensures i <= |s|
    ensures i < |s| ==> f(s[i])
    ensures forall j :: 0 <= j < i ==> !f(s[j])
  {
    if s == [] then 0
    else if f(s[0]) then 0
    else 1 + FirstIndex(s[1..], f)
  }

  /** `s.removeprefix(p)` */
  function RemovePrefix(s: string, p: string): string {
    if StartsWith(s, p) then s[|p|..] else s
  }

  /** `s.removesuffix(p)`; Python leaves `s` unchanged when `p` is empty. */
  function RemoveSuffix(s: string, p: string): string {
    if p != [] && EndsWith(s, p) then s[..|s| - |p|] else s
  }

  /** `s.replace(pat, rep)`: a left-to-right scan replacing each
      non-overlapping occurrence. */
  function ReplaceAll(s: string, pat: string, rep: string): string
    requires pat != []
    decreases |s|
  {
    if s == [] then []
    else if StartsWith(s, pat) then rep + ReplaceAll(s[|pat|..], pat, rep)
    else [s[0]] + ReplaceAll(s[1..], pat, rep)
  }

  // ---------------------------------------------------------------------
  // Joining and splitting
  // ---------------------------------------------------------------------

  /** `sep.join(parts)` */
  function Join(parts: seq<string>, sep: string): string {
    if |parts| == 0 then ""
    else if |parts| == 1 then parts[0]
    else parts[0] + sep + Join(parts[1..], sep)
  }

  lemma JoinSnoc(parts: seq<string>, x: string, sep: string)
    requires parts != []
    ensures Join(parts + [x], sep) == Join(parts, sep) + sep + x
    decreases |parts|
  {
    if |parts| == 1 {
      assert parts + [x] == [parts[0], x];
      assert [parts[0], x][1..] == [x];
    } else {
      assert (parts + [x])[1..] == parts[1..] + [x];
      JoinSnoc(parts[1..], x, sep);
    }
  }

  /** The first index of `c` in `s`, or `|s|` when there is none. */
  function IndexOf(s: string, c: char): (i: nat)
    ensures i <= |s|
    ensures i < |s| ==> s[i] == c
    ensures forall j :: 0 <= j < i ==> s[j] != c
  {
    if s == [] then 0
    else if s[0] == c then 0
    else 1 + IndexOf(s[1..], c)
  }

  /** `s.split(c)` for a one-character separator. */
  function Split(s: string, c: char): (r: seq<string>)
    ensures |r| >= 1
    ensures forall k :: 0 <= k < |r| ==> c !in r[k]
    decreases |s|
  {
    var i := IndexOf(s, c);
    if i == |s| then
      [s]
    else
      var rest := Split(s[i + 1..], c);
      var r := [s[..i]] + rest;
      assert r[1..] == rest;
      r
  }

  /** Joining the pieces with the separator gives back the string. */
  lemma {:induction false} SplitJoin(s: string, c: char)
    ensures Join(Split(s, c), [c]) == s
    decreases |s|
  {
    var i := IndexOf(s, c);
    if i < |s| {
      var rest := Split(s[i + 1..], c);
      SplitJoin(s[i + 1..], c);
      var r := [s[..i]] + rest;
      assert r[1..] == rest;
      assert s == s[..i] + [c] + s[i + 1..];
    }
  }

  /** `s.split(sep)` for a separator of any non-zero length. */
  function SplitOn(s: string, sep: string): (r: seq<string>)
    requires sep != []
    ensures |r| >= 1
    decreases |s|
  {
    match Find(s, sep)
    case None => [s]
    case Some(i) => [s[..i]] + SplitOn(s[i + |sep|..], sep)
  }

  /** `s.splitlines()`: pieces between line boundaries, with "\r\n" one
      boundary and no piece after a final boundary. */
  function SplitLines(s: string): (r: seq<string>)
    ensures forall k, j :: 0 <= k < |r| && 0 <= j < |r[k]| ==> !IsLineBreak(r[k][j])
    ensures forall k, j :: 0 <= k < |r| && 0 <= j < |r[k]| ==> r[k][j] in s
    decreases |s|
  {
    if s == [] then []
    else
      var i := FirstIndex(s, IsLineBreak);
      if i == |s| then [s]
      else
        var w := if s[i] == '\r' && i + 1 < |s| && s[i + 1] == '\n' then 2 else 1;
        var rest := SplitLines(s[i + w..]);
        assert forall c :: c in s[i + w..] ==> c in s;
        [s[..i]] + rest
  }

  /** Lines with no line boundary inside, the last one not empty, come back
      from `splitlines()` after being joined with "\n". */
  lemma {:induction false} SplitLinesJoin(lines: seq<string>)
    requires forall k :: 0 <= k < |lines| ==> lines[k] != []
    requires forall k, j :: 0 <= k < |lines| && 0 <= j < |lines[k]| ==> !IsLineBreak(lines[k][j])
    ensures SplitLines(Join(lines, "\n")) == lines
    decreases |lines|
  {
    if |lines| == 0 {
    } else if |lines| == 1 {
      var s := lines[0];
      assert FirstIndex(s, IsLineBreak) == |s|;
    } else {
      var x := lines[0];
      var s := Join(lines, "\n");
      var tail := Join(lines[1..], "\n");
      assert s == x + "\n" + tail;
      assert s[..|x|] == x;
      assert s[|x|] == '\n';
      assert FirstIndex(s, IsLineBreak) == |x|;
      assert s[|x| + 1..] == tail;
      SplitLinesJoin(lines[1..]);
      assert lines == [x] + lines[1..];
    }
  }

  /** `s.split()` with no argument: the maximal runs of non-whitespace. */
  function Words(s: string): (r: seq<string>)
    ensures forall k :: 0 <= k < |r| ==> r[k] != []
    decreases |s|
  {
    if s == [] then []
    else if IsSpace(s[0]) then Words(s[1..])
    else
      var i := FirstIndex(s, IsSpace);
      var rest := Words(s[i..]);
      [s[..i]] + rest
  }

  // ---------------------------------------------------------------------
  // Decimal numerals
  // ---------------------------------------------------------------------

  function DigitChar(d: nat): char
    requires d < 10
  {
    ('0' as int + d) as char
  }

  function DigitValue(c: char): nat
    requires IsDigit(c)
  {
    c as int - '0' as int
  }

  predicate AllDigits(s: string) {
    forall i :: 0 <= i < |s| ==> IsDigit(s[i])
  }

  /** `str(n)` for a non-negative integer. */
  function Digits(n: nat): (r: string)
    ensures |r| >= 1 && AllDigits(r)
    ensures n > 0 ==> r[0] != '0'
  {
    if n < 10 then [DigitChar(n)] else Digits(n / 10) + [DigitChar(n % 10)]
  }

  /** The value of a string of decimal digits; leading zeros allowed. */
  function ParseDecimal(s: string): nat
    requires AllDigits(s)
  {
    if s == [] then 0 else ParseDecimal(s[..|s| - 1]) * 10 + DigitValue(s[|s| - 1])
  }

  function Repeat(c: char, k: nat): (r: string)
    ensures |r| == k && forall i :: 0 <= i < k ==> r[i] == c
  {
    seq(k, i => c)
  }

  /** `s.zfill(width)` for a string without a sign. */
  function ZFill(s: string, width: nat): (r: string)
    ensures |r| == if |s| < width then width else |s|
    ensures EndsWith(r, s)
  {
    if |s| < width then Repeat('0', width - |s|) + s else s
  }

  function Pow10(k: nat): nat {
    if k == 0 then 1 else 10 * Pow10(k - 1)
  }

  lemma {:induction false} ParseDigits(n: nat)
    ensures ParseDecimal(Digits(n)) == n
  {
    if n >= 10 {
      var s := Digits(n);
      assert s[..|s| - 1] == Digits(n / 10);
      ParseDigits(n / 10);
    } else {
      var s := Digits(n);
      assert s[..0] == [];
    }
  }

  lemma {:induction false} ParseZeros(k: nat)
    ensures AllDigits(Repeat('0', k)) && ParseDecimal(Repeat('0', k)) == 0
  {
    if k > 0 {
      assert Repeat('0', k)[..k - 1] == Repeat('0', k - 1);
      ParseZeros(k - 1);
    }
  }

  lemma {:induction false} ParseLeadingZeros(k: nat, s: string)
    requires AllDigits(s)
    ensures AllDigits(Repeat('0', k) + s)
    ensures ParseDecimal(Repeat('0', k) + s) == ParseDecimal(s)
    decreases |s|
  {
    var z := Repeat('0', k);
    if s == [] {
      assert z + s == z;
      ParseZeros(k);
    } else {
      var t := z + s;
      assert t[..|t| - 1] == z + s[..|s| - 1];
      ParseLeadingZeros(k, s[..|s| - 1]);
    }
  }

  /** Zero-filling a numeral does not change the number it denotes. */
  lemma ParseZFill(n: nat, width: nat)
    ensures AllDigits(ZFill(Digits(n), width))
    ensures ParseDecimal(ZFill(Digits(n), width)) == n
  {
    var d := Digits(n);
    if |d| < width {
      ParseLeadingZeros(width - |d|, d);
    }
    ParseDigits(n);
  }

  lemma {:induction false} DigitsLength(n: nat, k: nat)
    requires n < Pow10(k)
    ensures |Digits(n)| <= k || (n == 0 && k == 0)
    decreases n
  {
    if n >= 10 {
      assert Pow10(0) == 1 && Pow10(1) == 10;
      assert k >= 2;
      assert n / 10 < Pow10(k - 1);
      DigitsLength(n / 10, k - 1);
    }
  }
}
