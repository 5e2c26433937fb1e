/** Sequence helpers shared by the parsing loops: keeping the values an
    element-wise step produced, and concatenating the texts it produced. */
module Lists {
  import opened Wrappers

  /** `[f(x) for x in xs]` */
  function Map<A, B>(xs: seq<A>, f: A -> B): (r: seq<B>)
    ensures |r| == |xs| && forall i :: 0 <= i < |xs| ==> r[i] == f(xs[i])
  {
    seq(|xs|, i requires 0 <= i < |xs| => f(xs[i]))
  }

  lemma MapAppend<A, B>(a: seq<A>, b: seq<A>, f: A -> B)
    ensures Map(a + b, f) == Map(a, f) + Map(b, f)
  {
  }

  /** The values present in a sequence of options, in order. */
  function Present<T>(opts: seq<Option<T>>): (r: seq<T>)
    ensures |r| <= |opts|
  {
    if opts == [] then []
    else (if opts[0].Some? then [opts[0].value] else []) + Present(opts[1..])
  }

  lemma {:induction false} PresentAppend<T>(a: seq<Option<T>>, b: seq<Option<T>>)
    ensures Present(a + b) == Present(a) + Present(b)
  {
    if a == [] {
      assert a + b == b;
    } else {
      assert (a + b)[0] == a[0];
      assert (a + b)[1..] == a[1..] + b;
      PresentAppend(a[1..], b);
    }
  }

  lemma {:induction false} PresentMembers<T>(opts: seq<Option<T>>, x: T)
    ensures x in Present(opts) <==> Some(x) in opts
  {
    if opts != [] {
      PresentMembers(opts[1..], x);
      assert opts == [opts[0]] + opts[1..];
    }
  }

  /** The loop that runs a step over every element and appends what the step
      produced, skipping the elements it produced nothing for. */
  method Collect<A, B>(xs: seq<A>, step: A -> Option<B>) returns (r: seq<B>)
    ensures r == Present(Map(xs, step))
  {
    ghost var opts := Map(xs, step);
    r := [];
    var i := 0;
    while i < |xs|
      invariant 0 <= i <= |xs|
      invariant r == Present(opts[..i])
    {
      assert opts[..i + 1] == opts[..i] + [opts[i]];
      PresentAppend(opts[..i], [opts[i]]);
      var produced := step(xs[i]);
      if produced.Some? {
        r := r + [produced.value];
      }
      i := i + 1;
    }
    assert opts[..i] == opts;
  }

  /** `"".join(f(x) for x in xs)` */
  function ConcatMap<A>(xs: seq<A>, f: A -> string): string
    decreases |xs|
  {
    if xs == [] then "" else ConcatMap(xs[..|xs| - 1], f) + f(xs[|xs| - 1])
  }

  lemma {:induction false} ConcatMapAppend<A>(a: seq<A>, b: seq<A>, f: A -> string)
    ensures ConcatMap(a + b, f) == ConcatMap(a, f) + ConcatMap(b, f)
    decreases |b|
  {
    if b == [] {
      assert a + b == a;
    } else {
      var c := b[..|b| - 1];
      assert (a + b)[..|a + b| - 1] == a + c;
      ConcatMapAppend(a, c, f);
    }
  }

  /** The loop that appends the text of each element in turn. */
  method ConcatAll<A>(xs: seq<A>, f: A -> string) returns (r: string)
    ensures r == ConcatMap(xs, f)
  {
    r := "";
    var i := 0;
    while i < |xs|
      invariant 0 <= i <= |xs|
      invariant r == ConcatMap(xs[..i], f)
    {
      assert xs[..i + 1][..i] == xs[..i];
      r := r + f(xs[i]);
      i := i + 1;
    }
    assert xs[..i] == xs;
  }

  /** The elements on which `p` is `keep`, in their order. */
  function Select<T>(xs: seq<T>, p: T -> bool, keep: bool): (r: seq<T>)
    ensures forall i :: 0 <= i < |r| ==> p(r[i]) == keep
    ensures |r| <= |xs|
  {
    if xs == [] then []
    else (if p(xs[0]) == keep then [xs[0]] else []) + Select(xs[1..], p, keep)
  }

  /** The two selections together hold every element exactly once. */
  lemma {:induction false} SelectMultiset<T>(xs: seq<T>, p: T -> bool)
    ensures multiset(Select(xs, p, true)) + multiset(Select(xs, p, false)) == multiset(xs)
  {
    if xs != [] {
      var x := xs[0];
      var t := Select(xs[1..], p, true);
      var f := Select(xs[1..], p, false);
      SelectMultiset(xs[1..], p);
      assert xs == [x] + xs[1..];
      assert multiset(xs) == multiset{x} + multiset(xs[1..]);
      if p(x) {
        assert Select(xs, p, true) == [x] + t;
        assert multiset([x] + t) == multiset{x} + multiset(t);
        assert Select(xs, p, false) == f;
      } else {
        assert Select(xs, p, true) == t;
        assert Select(xs, p, false) == [x] + f;
        assert multiset([x] + f) == multiset{x} + multiset(f);
      }
    }
  }

  lemma {:induction false} SelectAll<T>(xs: seq<T>, p: T -> bool, keep: bool)
    requires forall i :: 0 <= i < |xs| ==> p(xs[i]) == keep
    ensures Select(xs, p, keep) == xs
  {
    if xs != [] {
      SelectAll(xs[1..], p, keep);
    }
  }

  lemma {:induction false} SelectNone<T>(xs: seq<T>, p: T -> bool, keep: bool)
    requires forall i :: 0 <= i < |xs| ==> p(xs[i]) != keep
    ensures Select(xs, p, keep) == []
  {
    if xs != [] {
      SelectNone(xs[1..], p, keep);
    }
  }

  lemma {:induction false} SelectAppend<T>(a: seq<T>, b: seq<T>, p: T -> bool, keep: bool)
    ensures Select(a + b, p, keep) == Select(a, p, keep) + Select(b, p, keep)
  {
    if a != [] {
      assert (a + b)[0] == a[0];
      assert (a + b)[1..] == a[1..] + b;
      SelectAppend(a[1..], b, p, keep);
    } else {
      assert a + b == b;
    }
  }
}
