/** Reciprocal-rank fusion of keyword and vector results (`hybrid_search`). */
module RankFusion {
  import opened Foundation
  import opened Sequences
  import opened Sorting

  datatype Item = Item(chunkId: string, fields: Opaque)

  const RRF_K := 60

  function Weight(rank: nat): real {
    1.0 / (RRF_K + rank + 1) as real
  }

  function Ids(list: seq<Item>): seq<string> {
    seq(|list|, i requires 0 <= i < |list| => list[i].chunkId)
  }

  /** What a result list adds to the score of `id`, summed over its appearances. */
  function RankSum(list: seq<Item>, id: string): real {
    if list == [] then 0.0
    else
      var n := |list| - 1;
      RankSum(list[..n], id) + (if list[n].chunkId == id then Weight(n) else 0.0)
  }

  function Score(keyword: seq<Item>, vector: seq<Item>, id: string): real {
    RankSum(keyword, id) + RankSum(vector, id)
  }

  /** The item a later result has left under `id`. */
  function Latest(seen: seq<Item>, id: string): (item: Item)
    requires id in Ids(seen)
    ensures item in seen && item.chunkId == id
  {
    var n := |seen| - 1;
    if seen[n].chunkId == id then seen[n]
    else
      assert Ids(seen) == Ids(seen[..n]) + [seen[n].chunkId];
      Latest(seen[..n], id)
  }

  /** The order in which a dictionary meets its keys. */
  function FirstAppearance(ids: seq<string>): seq<string> {
    if ids == [] then []
    else
      var front, last := FirstAppearance(ids[..|ids| - 1]), ids[|ids| - 1];
      if last in front then front else front + [last]
  }

  function Better(keyword: seq<Item>, vector: seq<Item>): (string, string) -> bool {
    (a: string, b: string) => Score(keyword, vector, a) >= Score(keyword, vector, b)
  }

  function Ranking(keyword: seq<Item>, vector: seq<Item>): seq<string> {
    Sort(Better(keyword, vector), FirstAppearance(Ids(keyword) + Ids(vector)))
  }

  /** Python's `s[:k]`, which counts a negative `k` from the end. */
  function Slice<T>(s: seq<T>, k: int): seq<T> {
    if k >= 0 then s[..Min(k, |s|)] else s[..Max(|s| + k, 0)]
  }

  // ---- First appearances ----

  lemma {:induction false} FirstAppearanceHasAll(ids: seq<string>, id: string)
    ensures id in FirstAppearance(ids) <==> id in ids
  {
    if ids != [] {
      FirstAppearanceHasAll(ids[..|ids| - 1], id);
      assert ids == ids[..|ids| - 1] + [ids[|ids| - 1]];
    }
  }

  lemma {:induction false} FirstAppearanceIsDistinct(ids: seq<string>)
    ensures Distinct(FirstAppearance(ids))
  {
    if ids != [] {
      FirstAppearanceIsDistinct(ids[..|ids| - 1]);
    }
  }

  lemma {:induction false} FirstAppearanceKeepsDistinct(ids: seq<string>, again: seq<string>)
    requires Distinct(ids) && forall i :: 0 <= i < |again| ==> again[i] in ids
    ensures FirstAppearance(ids + again) == ids
  {
    if again != [] {
      FirstAppearanceKeepsDistinct(ids, again[..|again| - 1]);
      assert (ids + again)[..|ids + again| - 1] == ids + again[..|again| - 1];
    } else if ids != [] {
      assert ids + again == ids;
      FirstAppearanceKeepsDistinct(ids[..|ids| - 1], []);
      assert ids[..|ids| - 1] + [] == ids[..|ids| - 1];
    } else {
      assert ids + again == [];
    }
  }

  // ---- The two accumulation loops ----

  /** The dictionaries `scores` and `items`, and the insertion order of their keys. */
  datatype Tally = Tally(scores: map<string, real>, items: map<string, Item>, order: seq<string>)

  /** The tally of the results `seen` so far, where `score` gives every id's accumulated score. */
  ghost predicate Holds(t: Tally, seen: seq<Item>, score: string -> real) {
    && t.order == FirstAppearance(Ids(seen))
    && (forall id :: id in t.scores <==> id in Ids(seen))
    && (forall id :: id in t.items <==> id in Ids(seen))
    && (forall id :: id in Ids(seen) ==> t.scores[id] == score(id) && t.items[id] == Latest(seen, id))
    && (forall id :: id !in Ids(seen) ==> score(id) == 0.0)
  }

  lemma IdsAfter(seen: seq<Item>, item: Item, id: string)
    ensures id in Ids(seen + [item]) <==> id in Ids(seen) || id == item.chunkId
    ensures id in Ids(seen + [item]) ==>
      Latest(seen + [item], id) == if id == item.chunkId then item else Latest(seen, id)
  {
    assert (seen + [item])[..|seen|] == seen;
    assert Ids(seen + [item]) == Ids(seen) + [item.chunkId];
  }

  lemma FirstAppearanceAfter(seen: seq<Item>, item: Item)
    ensures FirstAppearance(Ids(seen + [item])) ==
      if item.chunkId in Ids(seen) then FirstAppearance(Ids(seen)) else FirstAppearance(Ids(seen)) + [item.chunkId]
  {
    assert Ids(seen + [item])[..|seen|] == Ids(seen);
    FirstAppearanceHasAll(Ids(seen), item.chunkId);
  }

  method Add(t: Tally, item: Item, rank: nat, ghost seen: seq<Item>, ghost score: string -> real,
             ghost score': string -> real)
    returns (t': Tally)
    requires Holds(t, seen, score)
    requires forall id :: score'(id) == score(id) + (if id == item.chunkId then Weight(rank) else 0.0)
    ensures Holds(t', seen + [item], score')
  {
    var cid := item.chunkId;
    var before := if cid in t.scores then t.scores[cid] else 0.0;
    t' := Tally(t.scores[cid := before + Weight(rank)], t.items[cid := item],
                if cid in t.scores then t.order else t.order + [cid]);
    FirstAppearanceAfter(seen, item);
    forall id
      ensures id in Ids(seen + [item]) <==> id in Ids(seen) || id == cid
      ensures id in Ids(seen + [item]) ==>
        t'.scores[id] == score'(id) && t'.items[id] == Latest(seen + [item], id)
      ensures id !in Ids(seen + [item]) ==> score'(id) == 0.0
    {
      IdsAfter(seen, item, id);
    }
  }

  function ScoreAfter(keyword: seq<Item>, vector: seq<Item>): string -> real {
    (id: string) => Score(keyword, vector, id)
  }

  method Accumulate(keyword: seq<Item>, vector: seq<Item>) returns (t: Tally)
    ensures Holds(t, keyword + vector, ScoreAfter(keyword, vector))
  {
    t := Tally(map[], map[], []);
    for rank := 0 to |keyword|
      invariant Holds(t, keyword[..rank], ScoreAfter(keyword[..rank], []))
    {
      assert keyword[..rank + 1] == keyword[..rank] + [keyword[rank]] && keyword[..rank + 1][..rank] == keyword[..rank];
      t := Add(t, keyword[rank], rank, keyword[..rank], ScoreAfter(keyword[..rank], []),
               ScoreAfter(keyword[..rank + 1], []));
    }
    assert keyword[..|keyword|] == keyword && keyword + vector[..0] == keyword && vector[..0] == [];
    for rank := 0 to |vector|
      invariant Holds(t, keyword + vector[..rank], ScoreAfter(keyword, vector[..rank]))
    {
      assert keyword + vector[..rank + 1] == keyword + vector[..rank] + [vector[rank]];
      assert vector[..rank + 1][..rank] == vector[..rank];
      t := Add(t, vector[rank], rank, keyword + vector[..rank], ScoreAfter(keyword, vector[..rank]),
               ScoreAfter(keyword, vector[..rank + 1]));
    }
    assert vector[..|vector|] == vector;
  }

  // ---- Sorting and truncation ----

  function ByScore(scores: map<string, real>): (string, string) -> bool {
    (a: string, b: string) =>
      (if a in scores then scores[a] else 0.0) >= (if b in scores then scores[b] else 0.0)
  }

  /** The id at each place of the fused result. */
  function Fused(keyword: seq<Item>, vector: seq<Item>, topK: int): seq<string> {
    Slice(Ranking(keyword, vector), topK)
  }

  lemma RankingIsArrangement(keyword: seq<Item>, vector: seq<Item>)
    ensures var r := Ranking(keyword, vector);
      && Distinct(r)
      && SortedBy(Better(keyword, vector), r)
      && forall id :: id in r <==> id in Ids(keyword) || id in Ids(vector)
  {
    var order, r := FirstAppearance(Ids(keyword) + Ids(vector)), Ranking(keyword, vector);
    SortIsPermutation(Better(keyword, vector), order);
    SortSorts(Better(keyword, vector), order);
    FirstAppearanceIsDistinct(Ids(keyword) + Ids(vector));
    PermutationKeepsDistinct(order, r);
    forall id
      ensures id in r <==> id in Ids(keyword) || id in Ids(vector)
    {
      FirstAppearanceHasAll(Ids(keyword) + Ids(vector), id);
      assert id in r <==> id in multiset(r);
      assert id in order <==> id in multiset(order);
    }
  }

  /** Sorting the tally's keys by its scores is ranking the ids. */
  lemma TallyIsRanked(t: Tally, keyword: seq<Item>, vector: seq<Item>)
    requires Holds(t, keyword + vector, ScoreAfter(keyword, vector))
    ensures Sort(ByScore(t.scores), t.order) == Ranking(keyword, vector)
    ensures forall id :: id in Ranking(keyword, vector) ==> id in Ids(keyword + vector)
  {
    assert Ids(keyword + vector) == Ids(keyword) + Ids(vector);
    forall x, y | x in t.order && y in t.order
      ensures ByScore(t.scores)(x, y) == Better(keyword, vector)(x, y)
    {
      FirstAppearanceHasAll(Ids(keyword + vector), x);
      FirstAppearanceHasAll(Ids(keyword + vector), y);
    }
    SortAgrees(ByScore(t.scores), Better(keyword, vector), t.order);
    RankingIsArrangement(keyword, vector);
  }

  method HybridSearch(keyword: seq<Item>, vector: seq<Item>, topK: int) returns (result: seq<(Item, real)>)
    ensures var ids := Fused(keyword, vector, topK);
      && |result| == |ids|
      && forall i :: 0 <= i < |ids| ==>
        && ids[i] in Ids(keyword + vector)
        && result[i] == (Latest(keyword + vector, ids[i]), Score(keyword, vector, ids[i]))
  {
    var t := Accumulate(keyword, vector);
    TallyIsRanked(t, keyword, vector);
    var ids := Slice(Sort(ByScore(t.scores), t.order), topK);
    assert forall i :: 0 <= i < |ids| ==> ids[i] in Ranking(keyword, vector);
    result := seq(|ids|, i requires 0 <= i < |ids| && ids[i] in t.items && ids[i] in t.scores =>
      (t.items[ids[i]], t.scores[ids[i]]));
  }

  // ---- What the fused result means ----

  lemma WeightDecreases(r: nat, q: nat)
    requires r < q
    ensures Weight(r) > Weight(q) > 0.0
  {
    var x, y := (RRF_K + r + 1) as real, (RRF_K + q + 1) as real;
    var a, b := 1.0 / x, 1.0 / y;
    assert a * x == 1.0 && b * y == 1.0;
    assert b > 0.0;
    assert b * x < b * y;
    assert a * x > b * x;
    CancelFactor(a, b, x);
  }

  lemma CancelFactor(a: real, b: real, x: real)
    requires x > 0.0 && a * x > b * x
    ensures a > b
  {
    assert (a - b) * x == a * x - b * x;
  }

  /** `id` stands at place `r` of the list. */
  predicate RanksAt(list: seq<Item>, id: string, r: nat) {
    r < |list| && list[r].chunkId == id
  }

  lemma {:induction false} RankSumOfDistinct(list: seq<Item>, id: string, r: nat)
    requires Distinct(Ids(list)) && RanksAt(list, id, r)
    ensures RankSum(list, id) == Weight(r)
  {
    var n := |list| - 1;
    assert Ids(list[..n]) == Ids(list)[..n];
    if r == n {
      assert forall i :: 0 <= i < n ==> Ids(list)[i] != Ids(list)[n];
      AbsentScoresNothing(list[..n], id);
    } else {
      assert Ids(list)[r] != Ids(list)[n];
      RankSumOfDistinct(list[..n], id, r);
    }
  }

  lemma {:induction false} AbsentScoresNothing(list: seq<Item>, id: string)
    requires id !in Ids(list)
    ensures RankSum(list, id) == 0.0
  {
    if list != [] {
      var n := |list| - 1;
      assert Ids(list) == Ids(list[..n]) + [list[n].chunkId];
      AbsentScoresNothing(list[..n], id);
    }
  }

  /** In two duplicate-free lists an id scores the sum of 1/(61 + rank) over the lists it appears in. */
  lemma ScoreOfDistinct(keyword: seq<Item>, vector: seq<Item>, id: string)
    requires Distinct(Ids(keyword)) && Distinct(Ids(vector))
    ensures forall r: nat, q: nat :: RanksAt(keyword, id, r) && RanksAt(vector, id, q) ==>
      Score(keyword, vector, id) == Weight(r) + Weight(q)
    ensures forall r: nat :: RanksAt(keyword, id, r) && id !in Ids(vector) ==> Score(keyword, vector, id) == Weight(r)
    ensures forall q: nat :: id !in Ids(keyword) && RanksAt(vector, id, q) ==> Score(keyword, vector, id) == Weight(q)
  {
    forall r: nat | RanksAt(keyword, id, r)
      ensures RankSum(keyword, id) == Weight(r)
    {
      RankSumOfDistinct(keyword, id, r);
    }
    forall q: nat | RanksAt(vector, id, q)
      ensures RankSum(vector, id) == Weight(q)
    {
      RankSumOfDistinct(vector, id, q);
    }
    if id !in Ids(keyword) { AbsentScoresNothing(keyword, id); }
    if id !in Ids(vector) { AbsentScoresNothing(vector, id); }
  }

  /** The same in numbers. */
  lemma ScoreInNumbers(keyword: seq<Item>, vector: seq<Item>, id: string)
    requires Distinct(Ids(keyword)) && Distinct(Ids(vector))
    ensures forall r: nat, q: nat :: RanksAt(keyword, id, r) && RanksAt(vector, id, q) ==>
      Score(keyword, vector, id) == 1.0 / (61 + r) as real + 1.0 / (61 + q) as real
    ensures forall r: nat :: RanksAt(keyword, id, r) && id !in Ids(vector) ==>
      Score(keyword, vector, id) == 1.0 / (61 + r) as real
    ensures forall q: nat :: id !in Ids(keyword) && RanksAt(vector, id, q) ==>
      Score(keyword, vector, id) == 1.0 / (61 + q) as real
    ensures id !in Ids(keyword) && id !in Ids(vector) ==> Score(keyword, vector, id) == 0.0
  {
    ScoreOfDistinct(keyword, vector, id);
    forall r: nat
      ensures Weight(r) == 1.0 / (61 + r) as real
    {
      assert RRF_K + r + 1 == 61 + r;
    }
    if id !in Ids(keyword) && id !in Ids(vector) {
      AbsentScoresNothing(keyword, id);
      AbsentScoresNothing(vector, id);
    }
  }

  lemma {:induction false} DistinctCount(s: seq<string>, members: set<string>)
    requires Distinct(s) && forall id :: id in members <==> id in s
    ensures |s| == |members|
  {
    if s == [] {
      assert members == {};
    } else {
      var n := |s| - 1;
      assert s == s[..n] + [s[n]];
      assert s[n] !in s[..n];
      DistinctCount(s[..n], members - {s[n]});
    }
  }

  /** The result holds the best `topK` ids: as many as there are up to `topK`, each once, in descending score, and no
      omitted id scores higher than a kept one. */
  lemma FusionKeepsTheBest(keyword: seq<Item>, vector: seq<Item>, topK: nat, union: set<string>)
    requires forall id :: id in union <==> id in Ids(keyword) || id in Ids(vector)
    ensures var kept := Fused(keyword, vector, topK);
      && |kept| == Min(topK, |union|)
      && Distinct(kept)
      && (forall id :: id in kept ==> id in union)
      && (forall i, j :: 0 <= i < j < |kept| ==> Score(keyword, vector, kept[i]) >= Score(keyword, vector, kept[j]))
      && (forall id, other :: id in kept && other in union && other !in kept ==>
        Score(keyword, vector, id) >= Score(keyword, vector, other))
  {
    RankingIsArrangement(keyword, vector);
    var r, kept := Ranking(keyword, vector), Fused(keyword, vector, topK);
    DistinctCount(r, union);
    forall id, other | id in kept && other in union && other !in kept
      ensures Score(keyword, vector, id) >= Score(keyword, vector, other)
    {
      var i :| 0 <= i < |kept| && kept[i] == id;
      var j :| 0 <= j < |r| && r[j] == other;
      assert j >= |kept|;
    }
  }

  /** A negative `topK` leaves out that many of the worst ids. */
  lemma NegativeTopKDropsTheWorst(keyword: seq<Item>, vector: seq<Item>, drop: int, union: set<string>)
    requires drop > 0 && forall id :: id in union <==> id in Ids(keyword) || id in Ids(vector)
    ensures Fused(keyword, vector, -drop)
      == Fused(keyword, vector, if |union| >= drop then |union| - drop else 0)
  {
    RankingIsArrangement(keyword, vector);
    DistinctCount(Ranking(keyword, vector), union);
  }

  /** `a` is listed wherever `b` is, at or above it. */
  ghost predicate AtOrAbove(list: seq<Item>, a: string, b: string) {
    forall q: nat :: RanksAt(list, b, q) ==> exists r: nat :: r <= q && RanksAt(list, a, r)
  }

  ghost predicate StrictlyAbove(list: seq<Item>, a: string, b: string) {
    a in Ids(list) && AtOrAbove(list, a, b) && a != b
  }

  lemma PlaceOf(list: seq<Item>, id: string) returns (r: nat)
    requires id in Ids(list)
    ensures RanksAt(list, id, r)
  {
    r :| r < |Ids(list)| && Ids(list)[r] == id;
  }

  lemma HigherPlaceScoresMore(list: seq<Item>, a: string, b: string, r: nat, q: nat)
    requires Distinct(Ids(list)) && RanksAt(list, a, r) && RanksAt(list, b, q) && r <= q
    ensures RankSum(list, a) >= RankSum(list, b)
    ensures a != b ==> RankSum(list, a) > RankSum(list, b)
  {
    RankSumOfDistinct(list, a, r);
    RankSumOfDistinct(list, b, q);
    if r < q {
      WeightDecreases(r, q);
    }
  }

  lemma ListedScoresMoreThanAbsent(list: seq<Item>, a: string, b: string)
    requires Distinct(Ids(list)) && b !in Ids(list)
    ensures RankSum(list, a) >= RankSum(list, b)
    ensures a in Ids(list) ==> RankSum(list, a) > RankSum(list, b)
  {
    AbsentScoresNothing(list, b);
    if a in Ids(list) {
      var r := PlaceOf(list, a);
      RankSumOfDistinct(list, a, r);
      WeightDecreases(r, r + 1);
    } else {
      AbsentScoresNothing(list, a);
    }
  }

  lemma DominanceInOneList(list: seq<Item>, a: string, b: string)
    requires Distinct(Ids(list)) && AtOrAbove(list, a, b)
    ensures RankSum(list, a) >= RankSum(list, b)
    ensures StrictlyAbove(list, a, b) ==> RankSum(list, a) > RankSum(list, b)
  {
    if b in Ids(list) {
      var q := PlaceOf(list, b);
      var r: nat :| r <= q && RanksAt(list, a, r);
      HigherPlaceScoresMore(list, a, b, r, q);
    } else {
      ListedScoresMoreThanAbsent(list, a, b);
    }
  }

  /** An id that both lists place at or above a kept id, one of them strictly, is kept too and comes first. */
  lemma DominatingIdIsKept(keyword: seq<Item>, vector: seq<Item>, topK: int, a: string, b: string)
    requires Distinct(Ids(keyword)) && Distinct(Ids(vector))
    requires AtOrAbove(keyword, a, b) && AtOrAbove(vector, a, b)
    requires StrictlyAbove(keyword, a, b) || StrictlyAbove(vector, a, b)
    requires b in Fused(keyword, vector, topK)
    ensures Precedes(Fused(keyword, vector, topK), a, b)
  {
    DominanceInOneList(keyword, a, b);
    DominanceInOneList(vector, a, b);
    assert Score(keyword, vector, a) > Score(keyword, vector, b);
    RankingIsArrangement(keyword, vector);
    var r, kept := Ranking(keyword, vector), Fused(keyword, vector, topK);
    var j :| 0 <= j < |kept| && kept[j] == b;
    assert a in r;
    var i :| 0 <= i < |r| && r[i] == a;
    assert !Better(keyword, vector)(b, a);
    assert r[j] == b && i < j;
    assert kept[i] == a && kept[j] == b && Precedes(kept, a, b);
  }

  // ---- Which of two results comes first ----

  lemma {:induction false} FirstAppearanceIsPrefix(ids: seq<string>, more: seq<string>)
    ensures FirstAppearance(ids) <= FirstAppearance(ids + more)
  {
    if more == [] {
      assert ids + more == ids;
    } else {
      FirstAppearanceIsPrefix(ids, more[..|more| - 1]);
      assert (ids + more)[..|ids + more| - 1] == ids + more[..|more| - 1];
    }
  }

  /** Among equal scores a keyword result comes before one that only the vector search has found ... */
  lemma KeywordComesFirst(keyword: seq<Item>, vector: seq<Item>, a: string, b: string)
    requires a in Ids(keyword) && b !in Ids(keyword) && b in Ids(vector)
    ensures Precedes(FirstAppearance(Ids(keyword) + Ids(vector)), a, b)
    ensures !Precedes(FirstAppearance(Ids(keyword) + Ids(vector)), b, a)
  {
    var ids, front := Ids(keyword) + Ids(vector), FirstAppearance(Ids(keyword));
    var order := FirstAppearance(ids);
    FirstAppearanceIsPrefix(Ids(keyword), Ids(vector));
    FirstAppearanceHasAll(Ids(keyword), a);
    FirstAppearanceHasAll(Ids(keyword), b);
    FirstAppearanceHasAll(ids, b);
    FirstAppearanceIsDistinct(ids);
    var i :| 0 <= i < |front| && front[i] == a;
    var j :| 0 <= j < |order| && order[j] == b;
    assert order[i] == a && i < j;
  }

  /** ... and of two keyword results the one listed higher. */
  lemma HigherKeywordComesFirst(keyword: seq<Item>, vector: seq<Item>, a: string, b: string, r: nat, s: nat)
    requires Distinct(Ids(keyword)) && RanksAt(keyword, a, r) && RanksAt(keyword, b, s) && a != b
    ensures Precedes(FirstAppearance(Ids(keyword) + Ids(vector)), a, b) <==> r < s
  {
    var ids := Ids(keyword) + Ids(vector);
    var order := FirstAppearance(ids);
    FirstAppearanceKeepsDistinct(Ids(keyword), []);
    assert Ids(keyword) + [] == Ids(keyword);
    FirstAppearanceIsPrefix(Ids(keyword), Ids(vector));
    FirstAppearanceIsDistinct(ids);
    assert order[r] == a && order[s] == b;
  }

  /** Of two results the one with the higher score comes first, and among equals the one that was met first. */
  lemma RankedBeforeIff(keyword: seq<Item>, vector: seq<Item>, a: string, b: string)
    requires a != b && a in Ids(keyword) + Ids(vector) && b in Ids(keyword) + Ids(vector)
    ensures Precedes(Ranking(keyword, vector), a, b) <==>
      || Score(keyword, vector, a) > Score(keyword, vector, b)
      || (Score(keyword, vector, a) == Score(keyword, vector, b)
          && Precedes(FirstAppearance(Ids(keyword) + Ids(vector)), a, b))
  {
    var ids := Ids(keyword) + Ids(vector);
    FirstAppearanceHasAll(ids, a);
    FirstAppearanceHasAll(ids, b);
    FirstAppearanceIsDistinct(ids);
    SortIsStable(Better(keyword, vector), FirstAppearance(ids), a, b);
  }

  /** A cut keeps the order, and keeps `a` wherever it keeps something behind it. */
  ghost predicate KeptInFront(kept: seq<string>, a: string, b: string, first: bool) {
    && (b in kept ==> (Precedes(kept, a, b) <==> first))
    && (a in kept && b !in kept ==> first)
  }

  lemma CutKeepsOrder(keyword: seq<Item>, vector: seq<Item>, topK: int, a: string, b: string)
    requires a != b && a in Ids(keyword) + Ids(vector) && b in Ids(keyword) + Ids(vector)
    ensures KeptInFront(Fused(keyword, vector, topK), a, b, Precedes(Ranking(keyword, vector), a, b))
  {
    RankingIsArrangement(keyword, vector);
    var r, kept := Ranking(keyword, vector), Fused(keyword, vector, topK);
    assert a in r && b in r;
    var i :| 0 <= i < |r| && r[i] == a;
    var j :| 0 <= j < |r| && r[j] == b;
    assert Precedes(r, a, b) <==> i < j;
    assert a in kept <==> i < |kept| by { assert i < |kept| ==> kept[i] == a; }
    assert b in kept <==> j < |kept| by { assert j < |kept| ==> kept[j] == b; }
    if i < j < |kept| {
      assert kept[i] == a && kept[j] == b;
    }
  }

  /** What the constant decides. An id at places `r` and `q` of the two lists comes before one that only the keyword
      search has found, at place `s`, exactly when its two fractions together exceed the other's one ... */
  lemma TwoPlacesBeatKeywordPlaceIff(keyword: seq<Item>, vector: seq<Item>, topK: int, a: string, b: string,
                                     r: nat, q: nat, s: nat)
    requires Distinct(Ids(keyword)) && Distinct(Ids(vector))
    requires RanksAt(keyword, a, r) && RanksAt(vector, a, q) && RanksAt(keyword, b, s) && b !in Ids(vector)
    ensures KeptInFront(Fused(keyword, vector, topK), a, b,
                        1.0 / (61 + r) as real + 1.0 / (61 + q) as real > 1.0 / (61 + s) as real)
  {
    ScoreInNumbers(keyword, vector, a);
    ScoreInNumbers(keyword, vector, b);
    RankedBeforeIff(keyword, vector, a, b);
    HigherKeywordComesFirst(keyword, vector, a, b, r, s);
    CutKeepsOrder(keyword, vector, topK, a, b);
    if r < s {
      WeightDecreases(r, s);
      WeightDecreases(q, q + 1);
    }
  }

  /** ... and before one that only the vector search has found exactly when they reach it. */
  lemma TwoPlacesBeatVectorPlaceIff(keyword: seq<Item>, vector: seq<Item>, topK: int, a: string, b: string,
                                    r: nat, q: nat, s: nat)
    requires Distinct(Ids(keyword)) && Distinct(Ids(vector))
    requires RanksAt(keyword, a, r) && RanksAt(vector, a, q) && RanksAt(vector, b, s) && b !in Ids(keyword)
    ensures KeptInFront(Fused(keyword, vector, topK), a, b,
                        1.0 / (61 + r) as real + 1.0 / (61 + q) as real >= 1.0 / (61 + s) as real)
  {
    ScoreInNumbers(keyword, vector, a);
    ScoreInNumbers(keyword, vector, b);
    RankedBeforeIff(keyword, vector, a, b);
    KeywordComesFirst(keyword, vector, a, b);
    CutKeepsOrder(keyword, vector, topK, a, b);
  }

  /** Fusing a duplicate-free list with itself keeps its order. */
  lemma SelfFusionKeepsOrder(list: seq<Item>, topK: int)
    requires Distinct(Ids(list))
    ensures Fused(list, list, topK) == Slice(Ids(list), topK)
  {
    var ids, better := Ids(list), Better(list, list);
    FirstAppearanceKeepsDistinct(ids, ids);
    forall i, j | 0 <= i < j < |ids|
      ensures better(ids[i], ids[j])
    {
      RankSumOfDistinct(list, ids[i], i);
      RankSumOfDistinct(list, ids[j], j);
      WeightDecreases(i, j);
    }
    SortKeepsSorted(better, ids);
  }
}
