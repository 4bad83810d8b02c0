/** List comprehensions with a condition, and rearrangements. */
module Sequences {
  lemma Associate<T>(a: seq<T>, b: seq<T>, c: seq<T>)
    ensures a + (b + c) == (a + b) + c
  {
  }

  /** [x for x in s if p(x)] */
  function Filter<T>(p: T -> bool, s: seq<T>): seq<T> {
    if s == [] then []
    else
      var last := |s| - 1;
      Filter(p, s[..last]) + (if p(s[last]) then [s[last]] else [])
  }

  lemma {:induction false} FilterKeeps<T>(p: T -> bool, s: seq<T>)
    ensures Filter(p, s) != [] ==> p(Filter(p, s)[0])
    ensures Filter(p, s) == [] <==> forall i :: 0 <= i < |s| ==> !p(s[i])
  {
    if s != [] {
      FilterKeeps(p, s[..|s| - 1]);
    }
  }

  lemma {:induction false} KeptIsThere<T>(p: T -> bool, s: seq<T>) returns (i: nat)
    requires Filter(p, s) != []
    ensures i < |s| && p(s[i])
  {
    var last := |s| - 1;
    if p(s[last]) {
      i := last;
    } else {
      i := KeptIsThere(p, s[..last]);
    }
  }

  /** The first element kept is the first that satisfies the condition. */
  lemma {:induction false} FilterKeepsFirst<T>(p: T -> bool, s: seq<T>, k: nat)
    requires k < |s| && p(s[k]) && forall j :: 0 <= j < k ==> !p(s[j])
    ensures Filter(p, s) != [] && Filter(p, s)[0] == s[k]
  {
    var last := |s| - 1;
    if k < last {
      FilterKeepsFirst(p, s[..last], k);
    } else {
      FilterKeeps(p, s[..last]);
    }
  }

  lemma {:induction false} FilterShortens<T>(p: T -> bool, s: seq<T>)
    ensures |Filter(p, s)| <= |s|
  {
    if s != [] {
      FilterShortens(p, s[..|s| - 1]);
    }
  }

  lemma FilterAppend<T>(p: T -> bool, s: seq<T>, x: T)
    ensures Filter(p, s + [x]) == Filter(p, s) + (if p(x) then [x] else [])
  {
    assert (s + [x])[..|s|] == s;
  }

  lemma {:induction false} FilterConcat<T>(p: T -> bool, a: seq<T>, b: seq<T>)
    ensures Filter(p, a + b) == Filter(p, a) + Filter(p, b)
    decreases |b|
  {
    if b == [] {
      assert a + b == a;
    } else {
      var last := |b| - 1;
      FilterConcat(p, a, b[..last]);
      assert (a + b)[..|a| + last] == a + b[..last] && (a + b)[|a| + last] == b[last];
      Associate(Filter(p, a), Filter(p, b[..last]), if p(b[last]) then [b[last]] else []);
    }
  }

  /** What is kept is independent of the order of the elements. */
  lemma {:induction false} FilterCounts<T>(p: T -> bool, s: seq<T>, x: T)
    ensures multiset(Filter(p, s))[x] == if p(x) then multiset(s)[x] else 0
  {
    if s != [] {
      var last := |s| - 1;
      FilterCounts(p, s[..last], x);
      assert s == s[..last] + [s[last]];
    }
  }

  lemma MoreKept<T>(p: T -> bool, few: seq<T>, many: seq<T>)
    requires multiset(few) <= multiset(many)
    ensures multiset(Filter(p, few)) <= multiset(Filter(p, many))
    ensures |Filter(p, few)| <= |Filter(p, many)|
  {
    var a, b := multiset(Filter(p, few)), multiset(Filter(p, many));
    forall x | x in a ensures a[x] <= b[x] {
      FilterCounts(p, few, x);
      FilterCounts(p, many, x);
    }
    SmallerIsShorter(a, b);
  }

  lemma SmallerIsShorter<T>(a: multiset<T>, b: multiset<T>)
    requires a <= b
    ensures |a| <= |b|
  {
    assert b == a + (b - a);
  }

  /** Rearranging a list rearranges what is kept. */
  lemma SameKept<T>(p: T -> bool, a: seq<T>, b: seq<T>)
    requires multiset(a) == multiset(b)
    ensures multiset(Filter(p, a)) == multiset(Filter(p, b))
    ensures |Filter(p, a)| == |Filter(p, b)|
  {
    MoreKept(p, a, b);
    MoreKept(p, b, a);
  }

  /** [f(x) for x in s] */
  function Map<T, U>(f: T -> U, s: seq<T>): (mapped: seq<U>)
    ensures |mapped| == |s|
  {
    if s == [] then [] else Map(f, s[..|s| - 1]) + [f(s[|s| - 1])]
  }

  lemma {:induction false} MapAt<T, U>(f: T -> U, s: seq<T>, i: nat)
    requires i < |s|
    ensures Map(f, s)[i] == f(s[i])
  {
    if i < |s| - 1 {
      MapAt(f, s[..|s| - 1], i);
    }
  }

  lemma MapAppend<T, U>(f: T -> U, s: seq<T>, x: T)
    ensures Map(f, s + [x]) == Map(f, s) + [f(x)]
  {
    assert (s + [x])[..|s|] == s;
  }

  /** The concatenation of f over s. */
  function FlatMap<T, U>(f: T -> seq<U>, s: seq<T>): seq<U> {
    if s == [] then [] else FlatMap(f, s[..|s| - 1]) + f(s[|s| - 1])
  }

  lemma {:induction false} FlatMapConcat<T, U>(f: T -> seq<U>, a: seq<T>, b: seq<T>)
    ensures FlatMap(f, a + b) == FlatMap(f, a) + FlatMap(f, b)
    decreases |b|
  {
    if b == [] {
      assert a + b == a;
    } else {
      var last := |b| - 1;
      FlatMapConcat(f, a, b[..last]);
      assert (a + b)[..|a| + last] == a + b[..last];
      Associate(FlatMap(f, a), FlatMap(f, b[..last]), f(b[last]));
    }
  }

  lemma FlatMapAround<T, U>(f: T -> seq<U>, s: seq<T>, k: nat)
    requires k < |s|
    ensures FlatMap(f, s) == FlatMap(f, s[..k]) + f(s[k]) + FlatMap(f, s[k + 1..])
  {
    FlatMapSplit(f, s, k + 1);
    FlatMapNext(f, s, k);
  }

  lemma FlatMapSplit<T, U>(f: T -> seq<U>, s: seq<T>, k: nat)
    requires k <= |s|
    ensures FlatMap(f, s) == FlatMap(f, s[..k]) + FlatMap(f, s[k..])
  {
    assert s[..k] + s[k..] == s;
    FlatMapConcat(f, s[..k], s[k..]);
  }

  lemma FlatMapNext<T, U>(f: T -> seq<U>, s: seq<T>, k: nat)
    requires k < |s|
    ensures FlatMap(f, s[..k + 1]) == FlatMap(f, s[..k]) + f(s[k])
  {
    assert s[..k + 1][..k] == s[..k];
  }

  /** Replacing one element changes a count by at most that element. */
  lemma FilterUpdate<T>(p: T -> bool, s: seq<T>, i: nat, x: T)
    requires i < |s|
    ensures |Filter(p, s[i := x])| + (if p(s[i]) then 1 else 0) == |Filter(p, s)| + (if p(x) then 1 else 0)
  {
    FilterAround(p, s, i);
    FilterAround(p, s[i := x], i);
    assert s[i := x][..i] == s[..i] && s[i := x][i + 1..] == s[i + 1..];
  }

  lemma FilterAround<T>(p: T -> bool, s: seq<T>, i: nat)
    requires i < |s|
    ensures |Filter(p, s)| == |Filter(p, s[..i])| + (if p(s[i]) then 1 else 0) + |Filter(p, s[i + 1..])|
  {
    assert s == s[..i + 1] + s[i + 1..];
    FilterConcat(p, s[..i + 1], s[i + 1..]);
    assert s[..i + 1][..i] == s[..i];
  }

  lemma {:induction false} FilterSame<T>(p: T -> bool, a: seq<T>, b: seq<T>)
    requires |a| == |b| && forall i :: 0 <= i < |a| ==> p(a[i]) == p(b[i])
    ensures |Filter(p, a)| == |Filter(p, b)|
  {
    if a != [] {
      FilterSame(p, a[..|a| - 1], b[..|b| - 1]);
    }
  }

  lemma {:induction false} FilterWeaker<T>(p: T -> bool, q: T -> bool, s: seq<T>)
    requires forall i :: 0 <= i < |s| && p(s[i]) ==> q(s[i])
    ensures |Filter(p, s)| <= |Filter(q, s)|
  {
    if s != [] {
      FilterWeaker(p, q, s[..|s| - 1]);
    }
  }

  /** f applied to the elements from the left. */
  function Fold<S, T>(f: (S, T) -> S, start: S, s: seq<T>): S {
    if s == [] then start else f(Fold(f, start, s[..|s| - 1]), s[|s| - 1])
  }

  lemma {:induction false} FoldConcat<S, T>(f: (S, T) -> S, start: S, a: seq<T>, b: seq<T>)
    ensures Fold(f, start, a + b) == Fold(f, Fold(f, start, a), b)
    decreases |b|
  {
    if b == [] {
      assert a + b == a;
    } else {
      var last := |b| - 1;
      FoldConcat(f, start, a, b[..last]);
      assert (a + b)[..|a| + last] == a + b[..last];
    }
  }
}
