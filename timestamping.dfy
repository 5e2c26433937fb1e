/** The header rewrite of timestamping_files.py: every `.py` file below a
    directory gets a fresh `# Last updated: …` first line, replacing the one
    an earlier run left there. A file is modelled as the list of lines
    `readlines()` returns, each line keeping its own terminator; the clock
    reading is a parameter. */
module Timestamping {
  import opened Wrappers
  import opened Text

  const Header := "# Last updated:"

  /** The line written at the top of each file for the clock reading `now`
      (the `strftime('%Y-%m-%d %H:%M:%S')` text). */
  function StampLine(now: string): (r: string)
    ensures StartsWith(r, Header) && EndsWith(r, "\n")
  {
    var r := Header + " " + now + "\n";
    assert r[..|Header|] == Header;
    assert r[|r| - 1..] == "\n";
    r
  }

  /** A line the rewrite takes for an earlier stamp. */
  predicate IsStamp(line: string) {
    StartsWith(line, Header)
  }

  /** The lines kept below the new stamp: a suffix of the file's lines that
      is one line shorter exactly when the first line is an earlier stamp. */
  function Body(lines: seq<string>): (r: seq<string>)
    ensures |lines| - 1 <= |r| <= |lines| && r == lines[|lines| - |r|..]
    ensures |r| < |lines| <==> lines != [] && IsStamp(lines[0])
  {
    if lines != [] && IsStamp(lines[0]) then lines[1..] else lines
  }

  /** The new content of one file: the stamp line, then the kept lines. */
  function Rewrite(stamp: string, lines: seq<string>): (r: seq<string>)
    requires IsStamp(stamp)
    ensures |r| >= 1 && r[0] == stamp
    ensures r[1..] == Body(lines)
  {
    [stamp] + Body(lines)
  }

  /** Re-running the rewrite, with any stamp, gives what one run with that
      stamp gives: the earlier stamp is replaced, never stacked. */
  lemma RewriteReplacesStamp(s1: string, s2: string, lines: seq<string>)
    requires IsStamp(s1) && IsStamp(s2)
    ensures Rewrite(s2, Rewrite(s1, lines)) == Rewrite(s2, lines)
  {
    var once := Rewrite(s1, lines);
    assert once[1..] == Body(lines);
  }

  /** For a fixed clock reading the rewrite is idempotent. */
  lemma RewriteIdempotent(now: string, lines: seq<string>)
    ensures Rewrite(StampLine(now), Rewrite(StampLine(now), lines)) == Rewrite(StampLine(now), lines)
  {
    RewriteReplacesStamp(StampLine(now), StampLine(now), lines);
  }

  /** Only the first line is looked at: a stamp on any later line stays, and
      the lines after the first keep their order. */
  lemma OnlyFirstLineInspected(stamp: string, lines: seq<string>, k: nat)
    requires IsStamp(stamp) && 1 <= k < |lines|
    ensures Rewrite(stamp, lines)[|Rewrite(stamp, lines)| - |lines| + k] == lines[k]
    ensures |Rewrite(stamp, lines)| == |lines| + (if IsStamp(lines[0]) then 0 else 1)
  {
  }

  /** The text written back: the stamp line followed by the kept lines. */
  function Written(stamp: string, lines: seq<string>): string
    requires IsStamp(stamp)
  {
    stamp + Join(Body(lines), "")
  }

  /** The written text is the rewritten lines put back together. */
  lemma WrittenIsRewrite(stamp: string, lines: seq<string>)
    requires IsStamp(stamp)
    ensures Written(stamp, lines) == Join(Rewrite(stamp, lines), "")
  {
    var r := Rewrite(stamp, lines);
    if Body(lines) != [] {
      assert r[1..] == Body(lines);
    }
  }

  /** `file.endswith(".py")`: the walk's file name decides, and the joined
      path ends with that name. */
  predicate IsPython(path: string) {
    EndsWith(path, ".py")
  }

  /** The whole effect of one run on a file: rewritten when it is a Python
      file the walk reaches, untouched otherwise. */
  function AfterRun(stamp: string, walk: seq<string>, path: string, lines: seq<string>): seq<string>
    requires IsStamp(stamp)
  {
    if path in walk && IsPython(path) then Rewrite(stamp, lines) else lines
  }

  /** The index of the first Python file of the walk that cannot be
      processed (its read, or its opening for writing, raises), or the
      length of the walk when every one can. */
  function FirstFailing(walk: seq<string>, failing: set<string>): (k: nat)
    ensures k <= |walk|
    ensures forall j :: 0 <= j < k ==> !(IsPython(walk[j]) && walk[j] in failing)
    ensures k < |walk| ==> IsPython(walk[k]) && walk[k] in failing
  {
    if walk == [] then 0
    else if IsPython(walk[0]) && walk[0] in failing then 0
    else
      var k := FirstFailing(walk[1..], failing);
      assert forall j :: 1 <= j < |walk| ==> walk[1..][j - 1] == walk[j];
      1 + k
  }

  /** The files below the directory, by path. */
  class FileTree {
    var files: map<string, seq<string>>

    constructor (files: map<string, seq<string>>)
      ensures this.files == files
    {
      this.files := files;
    }

    /** `add_timestamp_to_py_files`: `walk` lists the paths `os.walk`
        yields, root joined with file name, all of them existing files;
        `failing` holds the files whose read (an undecodable or unreadable
        file) or whose opening for writing raises. The exception ends the
        walk: the Python files before the failing one are rewritten, the
        failing one and every later file are untouched, and the path it
        stopped at is returned. */
    method AddTimestamps(now: string, walk: seq<string>, failing: set<string>) returns (stoppedAt: Option<string>)
      requires forall k :: 0 <= k < |walk| ==> walk[k] in files
      modifies this
      ensures files.Keys == old(files).Keys
      ensures forall p :: p in files ==>
        files[p] == AfterRun(StampLine(now), walk[..FirstFailing(walk, failing)], p, old(files)[p])
      ensures stoppedAt.Some? <==> FirstFailing(walk, failing) < |walk|
      ensures FirstFailing(walk, failing) < |walk| ==> stoppedAt == Some(walk[FirstFailing(walk, failing)])
    {
      var stamp := StampLine(now);
      var i := 0;
      while i < |walk|
        invariant 0 <= i <= FirstFailing(walk, failing)
        invariant files.Keys == old(files).Keys
        invariant forall p :: p in files ==> files[p] == AfterRun(stamp, walk[..i], p, old(files)[p])
      {
        var path := walk[i];
        if IsPython(path) {
          if path in failing {
            assert FirstFailing(walk, failing) == i;
            return Some(path);
          }
          var content := files[path];
          RewriteReplacesStamp(stamp, stamp, old(files)[path]);
          files := files[path := Rewrite(stamp, content)];
        }
        assert forall p :: p in walk[..i + 1] <==> p in walk[..i] || p == path;
        i := i + 1;
      }
      assert walk[..i] == walk;
      stoppedAt := None;
    }
  }
}
