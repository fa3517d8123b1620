/** Example generation and dataset splits (`SyntheticScenarioGenerator`). */
module ScenarioGeneration {
  import opened Foundation
  import opened Sequences

  // ---- Generation ----

  datatype Example = Example(scenarioType: string, body: string)

  function CountOf(examples: seq<Example>, scenarioType: string): nat {
    if examples == [] then 0
    else
      CountOf(examples[..|examples| - 1], scenarioType)
      + (if examples[|examples| - 1].scenarioType == scenarioType then 1 else 0)
  }

  /** Random choices of one run: the body of the n-th example, the type of each filler, and the shuffle. */
  datatype Randomness = Randomness(body: nat -> string, filler: nat -> nat, shuffle: seq<Example> -> seq<Example>)

  ghost predicate ProperRandomness(r: Randomness, types: nat) {
    && (forall n :: r.filler(n) < types)
    && (forall s :: multiset(r.shuffle(s)) == multiset(s))
  }

  /** What a call adds to the earlier examples is of the scenario types, and nothing earlier is lost. */
  ghost predicate AddsTo(earlier: seq<Example>, examples: seq<Example>, types: seq<string>) {
    exists added: seq<Example> ::
      multiset(examples) == multiset(earlier) + multiset(added) && forall e :: e in added ==> e.scenarioType in types
  }

  /** The earlier examples come first, and those behind them are of the scenario types. */
  ghost predicate Continues(earlier: seq<Example>, examples: seq<Example>, types: seq<string>) {
    earlier <= examples && forall e :: e in examples[|earlier|..] ==> e.scenarioType in types
  }

  lemma OneMoreContinues(earlier: seq<Example>, examples: seq<Example>, types: seq<string>, i: nat, body: string)
    requires Continues(earlier, examples, types) && i < |types|
    ensures Continues(earlier, examples + [Example(types[i], body)], types)
  {
    var more := examples + [Example(types[i], body)];
    assert more[|earlier|..] == examples[|earlier|..] + [Example(types[i], body)];
  }

  lemma ShuffledAddsTo(earlier: seq<Example>, examples: seq<Example>, shuffled: seq<Example>, types: seq<string>)
    requires Continues(earlier, examples, types) && multiset(shuffled) == multiset(examples)
    ensures AddsTo(earlier, shuffled, types)
  {
    var added := examples[|earlier|..];
    assert examples == earlier + added;
    assert multiset(shuffled) == multiset(earlier) + multiset(added);
  }

  /** `earlier` are the examples a previous call has left; without scenario types nothing is generated. */
  method Generate(earlier: seq<Example>, types: seq<string>, target: int, r: Randomness)
    returns (examples: seq<Example>)
    requires Distinct(types) && (types != [] ==> ProperRandomness(r, |types|))
    ensures types == [] ==> examples == []
    ensures types != [] ==> |examples| == Max(target, |earlier| + |types| * Max(target / |types|, 0))
    ensures types != [] && earlier == [] && target >= 0 ==> |examples| == target
    ensures types != [] ==> AddsTo(earlier, examples, types)
    ensures types != [] ==> forall i :: 0 <= i < |types| ==> CountOf(examples, types[i]) >= target / |types|
  {
    if types == [] {
      return [];
    }
    var per := target / |types|;
    examples := earlier;
    for i := 0 to |types|
      invariant |examples| == |earlier| + i * Max(per, 0)
      invariant Continues(earlier, examples, types)
      invariant forall j :: 0 <= j < i ==> CountOf(examples, types[j]) >= per
    {
      var k := 0;
      while k < per
        invariant 0 <= k <= Max(per, 0)
        invariant |examples| == |earlier| + i * Max(per, 0) + k
        invariant Continues(earlier, examples, types)
        invariant CountOf(examples, types[i]) >= k
        invariant forall j :: 0 <= j < i ==> CountOf(examples, types[j]) >= per
      {
        var more := examples + [Example(types[i], r.body(|examples|))];
        assert more[..|examples|] == examples;
        OneMoreContinues(earlier, examples, types, i, r.body(|examples|));
        examples := more;
        k := k + 1;
      }
      assert (i + 1) * Max(per, 0) == i * Max(per, 0) + Max(per, 0);
    }
    RoomForFillers(target, |types|);
    while |examples| < target
      invariant |earlier| + |types| * Max(per, 0) <= |examples| <= Max(target, |earlier| + |types| * Max(per, 0))
      invariant forall j :: 0 <= j < |types| ==> CountOf(examples, types[j]) >= per
      invariant Continues(earlier, examples, types)
      decreases target - |examples|
    {
      var more := examples + [Example(types[r.filler(|examples|)], r.body(|examples|))];
      assert more[..|examples|] == examples;
      OneMoreContinues(earlier, examples, types, r.filler(|examples|), r.body(|examples|));
      examples := more;
    }
    var shuffled := r.shuffle(examples);
    forall t: string
      ensures CountOf(shuffled, t) == CountOf(examples, t)
    {
      CountIgnoresOrder(shuffled, examples, t);
    }
    assert |multiset(shuffled)| == |multiset(examples)|;
    ShuffledAddsTo(earlier, examples, shuffled, types);
    examples := shuffled;
  }

  lemma RoomForFillers(target: int, types: nat)
    requires types > 0
    ensures target >= 0 ==> types * Max(target / types, 0) <= target
  {
  }

  lemma {:induction false} CountIgnoresOrder(a: seq<Example>, b: seq<Example>, t: string)
    requires multiset(a) == multiset(b)
    ensures CountOf(a, t) == CountOf(b, t)
  {
    assert |a| == |multiset(a)| == |multiset(b)| == |b|;
    if a != [] {
      var l, r := MatchLast(a, b);
      CountIgnoresOrder(a[..|a| - 1], l + r, t);
      CountAround(l, a[|a| - 1], r, t);
    }
  }

  lemma {:induction false} CountSplits(a: seq<Example>, b: seq<Example>, t: string)
    ensures CountOf(a + b, t) == CountOf(a, t) + CountOf(b, t)
  {
    if b == [] {
      assert a + b == a;
    } else {
      CountSplits(a, b[..|b| - 1], t);
      assert (a + b)[..|a + b| - 1] == a + b[..|b| - 1];
    }
  }

  lemma CountAround(l: seq<Example>, x: Example, r: seq<Example>, t: string)
    ensures CountOf(l + [x] + r, t) == CountOf(l + r, t) + (if x.scenarioType == t then 1 else 0)
  {
    CountSplits(l + [x], r, t);
    CountSplits(l, [x], t);
    CountSplits(l, r, t);
    assert [x][..0] == [];
  }

  // ---- Splits ----

  datatype Splits = Splits(train: seq<Example>, val: seq<Example>, test: seq<Example>)

  function CreateSplits(examples: seq<Example>): (s: Splits)
    ensures s.train + s.val + s.test == examples
    ensures 10 * |s.train| <= 8 * |examples| < 10 * (|s.train| + 1)
    ensures 10 * |s.test| >= |examples|
    ensures 10 * (|s.train| + |s.val|) <= 9 * |examples| < 10 * (|s.train| + |s.val| + 1)
  {
    var n := |examples|;
    Splits(examples[..n * 8 / 10], examples[n * 8 / 10..n * 9 / 10], examples[n * 9 / 10..])
  }
}
