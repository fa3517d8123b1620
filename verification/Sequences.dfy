/** Concatenation and summation over a sequence, as the source's append-and-accumulate loops build them. */
module Sequences {

  ghost predicate Distinct<T>(s: seq<T>) {
    forall i, j :: 0 <= i < j < |s| ==> s[i] != s[j]
  }

  lemma {:induction false} CountInDistinct<T>(s: seq<T>, x: T)
    requires Distinct(s)
    ensures multiset(s)[x] <= 1
  {
    if s != [] {
      CountInDistinct(s[1..], x);
      assert s == [s[0]] + s[1..];
      if x == s[0] {
        assert x !in s[1..];
      }
    }
  }

  lemma PermutationKeepsDistinct<T>(s: seq<T>, r: seq<T>)
    requires Distinct(s) && multiset(s) == multiset(r)
    ensures Distinct(r)
  {
    forall i, j | 0 <= i < j < |r|
      ensures r[i] != r[j]
    {
      CountInDistinct(s, r[i]);
      assert r == r[..j] + [r[j]] + r[j + 1..];
      assert r[i] in r[..j];
      assert multiset(r)[r[i]] >= multiset(r[..j])[r[i]] + multiset([r[j]])[r[i]];
    }
  }

  function When<T>(condition: bool, x: T): seq<T> {
    if condition then [x] else []
  }

  function FlatMap<T, U>(f: T -> seq<U>, s: seq<T>): seq<U> {
    if s == [] then [] else FlatMap(f, s[..|s| - 1]) + f(s[|s| - 1])
  }

  lemma FlatMapStep<T, U>(f: T -> seq<U>, s: seq<T>, i: nat)
    requires i < |s|
    ensures FlatMap(f, s[..i + 1]) == FlatMap(f, s[..i]) + f(s[i])
  {
    assert s[..i + 1][..i] == s[..i];
  }

  /** The same, behind what was there before the loop. */
  lemma FlatMapGrows<T, U>(base: seq<U>, f: T -> seq<U>, s: seq<T>, i: nat)
    requires i < |s|
    ensures base + FlatMap(f, s[..i + 1]) == base + FlatMap(f, s[..i]) + f(s[i])
  {
    FlatMapStep(f, s, i);
  }

  lemma {:induction false} FlatMapSplits<T, U>(f: T -> seq<U>, a: seq<T>, b: seq<T>)
    ensures FlatMap(f, a + b) == FlatMap(f, a) + FlatMap(f, b)
  {
    if b == [] {
      assert a + b == a;
    } else {
      FlatMapSplits(f, a, b[..|b| - 1]);
      assert (a + b)[..|a + b| - 1] == a + b[..|b| - 1];
    }
  }

  lemma FlatMapAppends<T, U>(base: seq<U>, f: T -> seq<U>, a: seq<T>, b: seq<T>)
    ensures base + FlatMap(f, a) + FlatMap(f, b) == base + FlatMap(f, a + b)
  {
    FlatMapSplits(f, a, b);
  }

  lemma {:induction false} FlatMapEmptyIff<T, U>(f: T -> seq<U>, s: seq<T>)
    ensures FlatMap(f, s) == [] <==> forall i :: 0 <= i < |s| ==> f(s[i]) == []
  {
    if s != [] {
      FlatMapEmptyIff(f, s[..|s| - 1]);
      assert s == s[..|s| - 1] + [s[|s| - 1]];
    }
  }

  lemma FlatMapOne<T, U>(f: T -> seq<U>, x: T)
    ensures FlatMap(f, [x]) == f(x)
  {
    assert FlatMap(f, [x]) == FlatMap(f, [x][..0]) + f(x);
  }

  /** Where every part has one element, the concatenation lists those elements. */
  lemma {:induction false} FlatMapSingles<T, U>(f: T -> seq<U>, s: seq<T>)
    requires forall i :: 0 <= i < |s| ==> |f(s[i])| == 1
    ensures |FlatMap(f, s)| == |s| && forall i :: 0 <= i < |s| ==> FlatMap(f, s)[i] == f(s[i])[0]
  {
    if s != [] {
      FlatMapSingles(f, s[..|s| - 1]);
    }
  }

  /** Where some part is empty and none has two elements, the concatenation is shorter than the list. */
  lemma {:induction false} FlatMapShorter<T, U>(f: T -> seq<U>, s: seq<T>, k: nat)
    requires forall i :: 0 <= i < |s| ==> |f(s[i])| <= 1
    ensures |FlatMap(f, s)| <= |s| && (k < |s| && f(s[k]) == [] ==> |FlatMap(f, s)| < |s|)
  {
    if s != [] {
      FlatMapShorter(f, s[..|s| - 1], k);
    }
  }

  lemma {:induction false} FlatMapIgnoresOrder<T, U>(f: T -> seq<U>, a: seq<T>, b: seq<T>)
    requires multiset(a) == multiset(b)
    ensures multiset(FlatMap(f, a)) == multiset(FlatMap(f, b))
  {
    assert |a| == |multiset(a)| == |multiset(b)| == |b|;
    if a != [] {
      var l, r := MatchLast(a, b);
      var x := a[|a| - 1];
      FlatMapIgnoresOrder(f, a[..|a| - 1], l + r);
      FlatMapSplits(f, l + [x], r);
      FlatMapSplits(f, l, [x]);
      FlatMapSplits(f, l, r);
      FlatMapOne(f, x);
    }
  }

  /** What is in a concatenation is in one of its parts. */
  lemma {:induction false} FlatMapMembers<T, U>(f: T -> seq<U>, s: seq<T>, u: U)
    ensures u in FlatMap(f, s) <==> exists i :: 0 <= i < |s| && u in f(s[i])
  {
    if s != [] {
      FlatMapMembers(f, s[..|s| - 1], u);
      assert s == s[..|s| - 1] + [s[|s| - 1]];
    }
  }

  ghost predicate Yields<T, U, V>(f: T -> seq<U>, g: U -> seq<V>, t: T, v: V) {
    exists u :: u in f(t) && v in g(u)
  }

  lemma FlatMapTwiceMembers<T, U, V>(f: T -> seq<U>, g: U -> seq<V>, s: seq<T>, v: V)
    ensures v in FlatMap(g, FlatMap(f, s)) <==> exists i :: 0 <= i < |s| && Yields(f, g, s[i], v)
  {
    var middle := FlatMap(f, s);
    FlatMapMembers(g, middle, v);
    if v in FlatMap(g, middle) {
      var k :| 0 <= k < |middle| && v in g(middle[k]);
      FlatMapMembers(f, s, middle[k]);
      var i :| 0 <= i < |s| && middle[k] in f(s[i]);
      assert Yields(f, g, s[i], v);
    }
    if i :| 0 <= i < |s| && Yields(f, g, s[i], v) {
      var u :| u in f(s[i]) && v in g(u);
      FlatMapMembers(f, s, u);
      var k :| 0 <= k < |middle| && middle[k] == u;
    }
  }

  function SumOf<T>(g: T -> real, s: seq<T>): real {
    if s == [] then 0.0 else SumOf(g, s[..|s| - 1]) + g(s[|s| - 1])
  }

  lemma {:induction false} SumSplits<T>(g: T -> real, a: seq<T>, b: seq<T>)
    ensures SumOf(g, a + b) == SumOf(g, a) + SumOf(g, b)
  {
    if b == [] {
      assert a + b == a;
    } else {
      SumSplits(g, a, b[..|b| - 1]);
      assert (a + b)[..|a + b| - 1] == a + b[..|b| - 1];
    }
  }

  lemma SumAround<T>(g: T -> real, l: seq<T>, x: T, r: seq<T>)
    ensures SumOf(g, l + [x] + r) == SumOf(g, l + r) + g(x)
  {
    SumSplits(g, l + [x], r);
    SumSplits(g, l, [x]);
    SumSplits(g, l, r);
    SumOfOne(g, x);
  }

  lemma SumOfOne<T>(g: T -> real, x: T)
    ensures SumOf(g, [x]) == g(x)
  {
    assert SumOf(g, [x]) == SumOf(g, [x][..0]) + g(x);
  }

  /** In two arrangements of one multiset, the last element of the first stands somewhere in the second, and taking it
      out of both leaves two arrangements of one multiset. */
  lemma MatchLast<T>(a: seq<T>, b: seq<T>) returns (l: seq<T>, r: seq<T>)
    requires a != [] && multiset(a) == multiset(b)
    ensures b == l + [a[|a| - 1]] + r
    ensures multiset(a[..|a| - 1]) == multiset(l + r)
  {
    var n := |a| - 1;
    assert a[n] in multiset(b);
    var i :| 0 <= i < |b| && b[i] == a[n];
    l, r := b[..i], b[i + 1..];
    assert b == l + [a[n]] + r;
    assert a == a[..n] + [a[n]];
    assert multiset(a[..n]) == multiset(a) - multiset{a[n]};
    assert multiset(l + r) == multiset(b) - multiset{a[n]};
  }

  lemma {:induction false} SumIgnoresOrder<T>(g: T -> real, a: seq<T>, b: seq<T>)
    requires multiset(a) == multiset(b)
    ensures SumOf(g, a) == SumOf(g, b)
  {
    assert |a| == |multiset(a)| == |multiset(b)| == |b|;
    if a != [] {
      var l, r := MatchLast(a, b);
      SumIgnoresOrder(g, a[..|a| - 1], l + r);
      SumAround(g, l, a[|a| - 1], r);
    }
  }
}
