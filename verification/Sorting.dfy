/** Python's stable `sorted`, as a function, with what callers rely on. */
module Sorting {
  import opened Sequences

  ghost predicate TotalPreorder<T(!new)>(leq: (T, T) -> bool) {
    && (forall x, y :: leq(x, y) || leq(y, x))
    && (forall x, y, z :: leq(x, y) && leq(y, z) ==> leq(x, z))
  }

  ghost predicate SortedBy<T>(leq: (T, T) -> bool, s: seq<T>) {
    forall i, j :: 0 <= i < j < |s| ==> leq(s[i], s[j])
  }

  /** Puts `x` in front of the first element that is not strictly before it, which keeps equals in order. */
  function Insert<T>(leq: (T, T) -> bool, x: T, s: seq<T>): seq<T> {
    if s == [] || leq(x, s[0]) then [x] + s else [s[0]] + Insert(leq, x, s[1..])
  }

  function Sort<T>(leq: (T, T) -> bool, s: seq<T>): seq<T> {
    if s == [] then [] else Insert(leq, s[0], Sort(leq, s[1..]))
  }

  lemma {:induction false} InsertKeepsElements<T>(leq: (T, T) -> bool, x: T, s: seq<T>)
    ensures multiset(Insert(leq, x, s)) == multiset{x} + multiset(s)
  {
    if s != [] && !leq(x, s[0]) {
      InsertKeepsElements(leq, x, s[1..]);
      assert s == [s[0]] + s[1..];
    }
  }

  lemma {:induction false} SortIsPermutation<T>(leq: (T, T) -> bool, s: seq<T>)
    ensures multiset(Sort(leq, s)) == multiset(s)
  {
    if s != [] {
      SortIsPermutation(leq, s[1..]);
      InsertKeepsElements(leq, s[0], Sort(leq, s[1..]));
      assert s == [s[0]] + s[1..];
    }
  }

  lemma {:induction false} InsertSorts<T(!new)>(leq: (T, T) -> bool, x: T, s: seq<T>)
    requires TotalPreorder(leq) && SortedBy(leq, s)
    ensures SortedBy(leq, Insert(leq, x, s))
  {
    if s != [] && !leq(x, s[0]) {
      InsertSorts(leq, x, s[1..]);
      InsertKeepsElements(leq, x, s[1..]);
      var rest := Insert(leq, x, s[1..]);
      forall j | 0 <= j < |rest|
        ensures leq(s[0], rest[j])
      {
        assert rest[j] in multiset(rest);
        assert rest[j] == x || rest[j] in s[1..];
      }
    }
  }

  lemma {:induction false} SortSorts<T(!new)>(leq: (T, T) -> bool, s: seq<T>)
    requires TotalPreorder(leq)
    ensures SortedBy(leq, Sort(leq, s))
  {
    if s != [] {
      SortSorts(leq, s[1..]);
      InsertSorts(leq, s[0], Sort(leq, s[1..]));
    }
  }

  lemma {:induction false} SortKeepsSorted<T>(leq: (T, T) -> bool, s: seq<T>)
    requires SortedBy(leq, s)
    ensures Sort(leq, s) == s
  {
    if s != [] {
      SortKeepsSorted(leq, s[1..]);
      assert s == [s[0]] + s[1..];
    }
  }

  // ---- Stability ----

  /** `a` stands somewhere before `b`. */
  ghost predicate Precedes<T>(s: seq<T>, a: T, b: T) {
    exists i, j :: 0 <= i < j < |s| && s[i] == a && s[j] == b
  }

  lemma PrecedesInCons<T>(x: T, s: seq<T>, a: T, b: T)
    ensures Precedes([x] + s, a, b) <==> (a == x && b in s) || Precedes(s, a, b)
  {
    var all := [x] + s;
    if Precedes(all, a, b) {
      var i, j :| 0 <= i < j < |all| && all[i] == a && all[j] == b;
      assert s[j - 1] == b;
      if i > 0 {
        assert s[i - 1] == a;
      }
    }
    if a == x && b in s {
      var j :| 0 <= j < |s| && s[j] == b;
      assert all[0] == a && all[j + 1] == b;
    }
    if Precedes(s, a, b) {
      var i, j :| 0 <= i < j < |s| && s[i] == a && s[j] == b;
      assert all[i + 1] == a && all[j + 1] == b;
    }
  }

  /** The new element goes behind what is strictly before it and in front of everything else. */
  lemma {:induction false} InsertPlaces<T(!new)>(leq: (T, T) -> bool, x: T, s: seq<T>, a: T, b: T)
    requires TotalPreorder(leq) && SortedBy(leq, s) && x !in s && a != b
    ensures Precedes(Insert(leq, x, s), a, b) <==>
      if a == x then b in s && leq(x, b)
      else if b == x then a in s && !leq(x, a)
      else Precedes(s, a, b)
  {
    if s == [] || leq(x, s[0]) {
      PrecedesInCons(x, s, a, b);
      assert forall y :: y in s ==> leq(x, y) by {
        assert forall j :: 0 < j < |s| ==> leq(s[0], s[j]);
      }
    } else {
      var rest := s[1..];
      assert s == [s[0]] + rest;
      InsertPlaces(leq, x, rest, a, b);
      InsertKeepsElements(leq, x, rest);
      assert forall y :: y in Insert(leq, x, rest) <==> y in multiset(Insert(leq, x, rest));
      PrecedesInCons(s[0], Insert(leq, x, rest), a, b);
      PrecedesInCons(s[0], rest, a, b);
    }
  }

  /** Sorting is stable: of two elements the strictly smaller one comes first, and equals keep their order. */
  lemma {:induction false} SortIsStable<T(!new)>(leq: (T, T) -> bool, s: seq<T>, a: T, b: T)
    requires TotalPreorder(leq) && Distinct(s) && a != b
    ensures Precedes(Sort(leq, s), a, b) <==>
      a in s && b in s && leq(a, b) && (leq(b, a) ==> Precedes(s, a, b))
  {
    if s != [] {
      var x, rest := s[0], s[1..];
      assert s == [x] + rest;
      assert x !in rest;
      SortIsStable(leq, rest, a, b);
      SortSorts(leq, rest);
      SortIsPermutation(leq, rest);
      assert forall y :: y in Sort(leq, rest) <==> y in multiset(Sort(leq, rest));
      InsertPlaces(leq, x, Sort(leq, rest), a, b);
      PrecedesInCons(x, rest, a, b);
    }
  }

  lemma {:induction false} InsertAgrees<T>(p: (T, T) -> bool, q: (T, T) -> bool, x: T, s: seq<T>)
    requires forall y :: y in s ==> p(x, y) == q(x, y)
    ensures Insert(p, x, s) == Insert(q, x, s)
  {
    if s != [] && !p(x, s[0]) {
      InsertAgrees(p, q, x, s[1..]);
    }
  }

  /** Two orders that agree on the elements of a list sort it alike. */
  lemma {:induction false} SortAgrees<T>(p: (T, T) -> bool, q: (T, T) -> bool, s: seq<T>)
    requires forall x, y :: x in s && y in s ==> p(x, y) == q(x, y)
    ensures Sort(p, s) == Sort(q, s)
  {
    if s != [] {
      SortAgrees(p, q, s[1..]);
      SortIsPermutation(p, s[1..]);
      forall y | y in Sort(p, s[1..])
        ensures p(s[0], y) == q(s[0], y)
      {
        assert y in multiset(Sort(p, s[1..]));
      }
      InsertAgrees(p, q, s[0], Sort(p, s[1..]));
    }
  }

  /** Under an antisymmetric order the sorted arrangement of a multiset is unique. */
  lemma {:induction false} SortedIsUnique<T>(leq: (T, T) -> bool, a: seq<T>, b: seq<T>)
    requires SortedBy(leq, a) && SortedBy(leq, b) && multiset(a) == multiset(b)
    requires forall x, y :: x in a && y in a && leq(x, y) && leq(y, x) ==> x == y
    ensures a == b
  {
    assert |a| == |multiset(a)| == |multiset(b)| == |b|;
    if a != [] {
      assert a[0] in multiset(b) && b[0] in multiset(a);
      assert a[0] == b[0];
      WithoutFirst(a);
      WithoutFirst(b);
      SortedIsUnique(leq, a[1..], b[1..]);
    }
  }

  lemma WithoutFirst<T>(s: seq<T>)
    requires s != []
    ensures s == [s[0]] + s[1..] && multiset(s[1..]) == multiset(s) - multiset{s[0]}
  {
    assert s == [s[0]] + s[1..];
  }

  // ---- Strings, ordered by code point as Python orders them ----

  predicate TextLeq(a: string, b: string) {
    a == [] || (b != [] && (a[0] < b[0] || (a[0] == b[0] && TextLeq(a[1..], b[1..]))))
  }

  lemma {:induction false} TextLeqTotal(a: string, b: string)
    ensures TextLeq(a, b) || TextLeq(b, a)
    ensures TextLeq(a, b) && TextLeq(b, a) ==> a == b
  {
    if a != [] && b != [] {
      TextLeqTotal(a[1..], b[1..]);
      assert a == [a[0]] + a[1..] && b == [b[0]] + b[1..];
    }
  }

  lemma {:induction false} TextLeqTransitive(a: string, b: string, c: string)
    requires TextLeq(a, b) && TextLeq(b, c)
    ensures TextLeq(a, c)
  {
    if a != [] && b != [] && c != [] && a[0] == b[0] == c[0] {
      TextLeqTransitive(a[1..], b[1..], c[1..]);
    }
  }

  lemma TextLeqIsTotalPreorder()
    ensures TotalPreorder(TextLeq)
  {
    forall a, b ensures TextLeq(a, b) || TextLeq(b, a) { TextLeqTotal(a, b); }
    forall a, b, c | TextLeq(a, b) && TextLeq(b, c) ensures TextLeq(a, c) { TextLeqTransitive(a, b, c); }
  }

  /** `sorted` on a list of strings depends on the multiset of the list and on nothing else. */
  lemma SortedTextsAgreeIff(a: seq<string>, b: seq<string>)
    ensures Sort(TextLeq, a) == Sort(TextLeq, b) <==> multiset(a) == multiset(b)
  {
    SortIsPermutation(TextLeq, a);
    SortIsPermutation(TextLeq, b);
    if multiset(a) == multiset(b) {
      TextLeqIsTotalPreorder();
      SortSorts(TextLeq, a);
      SortSorts(TextLeq, b);
      forall x: string, y: string | TextLeq(x, y) && TextLeq(y, x) ensures x == y { TextLeqTotal(x, y); }
      SortedIsUnique(TextLeq, Sort(TextLeq, a), Sort(TextLeq, b));
    }
  }
}
