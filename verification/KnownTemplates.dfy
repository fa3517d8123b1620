/** Template filling with the keys and values in use: the one text that can be left with a known placeholder. */
module KnownTemplates {
  import opened Foundation
  import opened Sequences
  import opened TemplateFill
  import opened NestedTemplates
  import opened FillTable

  /** The only placeholder that occurs in a placeholder is itself ... */
  lemma OnlyItself(key: string, other: string, i: nat)
    requires BraceFree(key) && BraceFree(other) && OccursAt(Placeholder(other), Placeholder(key), i)
    ensures other == key
  {
    var s := Placeholder(key);
    PlaceholderShape(s, i, other);
    BraceFreeStretch(s, 1, key);
    assert i == 0 && i + |other| + 1 == |key| + 1;
    assert other == s[1..|key| + 1];
  }

  /** ... and the only one in a doubly braced text is the inner one. */
  lemma OnlyInner(key: string, other: string, i: nat)
    requires BraceFree(key) && BraceFree(other) && OccursAt(Placeholder(other), Placeholder(Placeholder(key)), i)
    ensures other == key && i == 1
  {
    var t := Placeholder(Placeholder(key));
    PlaceholderShape(t, i, other);
    BraceFreeStretch(t, 2, key);
    assert t[1] == '{' && t[|key| + 2] == '}' && t[|key| + 3] == '}';
    assert i == 1 && i + |other| + 1 == |key| + 2;
    assert other == t[2..|key| + 2];
  }

  lemma OnlyInnerPlaceholder(key: string, other: string)
    requires BraceFree(key) && BraceFree(other)
    ensures Occurs(Placeholder(other), Placeholder(key)) ==> other == key
    ensures Occurs(Placeholder(other), Placeholder(Placeholder(key))) ==> other == key
  {
    if i :| 0 <= i <= |Placeholder(key)| && OccursAt(Placeholder(other), Placeholder(key), i) {
      OnlyItself(key, other, i);
    }
    var t := Placeholder(Placeholder(key));
    if i :| 0 <= i <= |t| && OccursAt(Placeholder(other), t, i) {
      OnlyInner(key, other, i);
    }
  }

  lemma InnerPlaceholderIsReplaced(key: string, v: string)
    requires BraceFree(key)
    ensures Occurs(Placeholder(key), Placeholder(Placeholder(key)))
    ensures ReplaceFirst(Placeholder(Placeholder(key)), Placeholder(key), v) == Placeholder(v)
  {
    var t, q := Placeholder(Placeholder(key)), Placeholder(key);
    assert t[1..1 + |q|] == q;
    assert OccursAt(q, t, 1);
    if OccursAt(q, t, 0) {
      OnlyInner(key, key, 0);
      assert false;
    }
    assert FirstIndex(q, t, 0) == 1;
  }

  /** One key at a time: a doubly braced placeholder waits for its own key, and is then the filled value in braces. */
  lemma DoublyBracedStep(key: string, v: string, other: string, n: nat)
    requires BraceFree(key) && BraceFree(v) && BraceFree(other) && v != key
    ensures FillKey(Placeholder(Placeholder(key)), other, Constant(v), n)
      == if other == key then (Placeholder(v), n + 1) else (Placeholder(Placeholder(key)), n)
    ensures other != v ==> FillKey(Placeholder(v), other, Constant(v), n) == (Placeholder(v), n)
  {
    OnlyInnerPlaceholder(key, other);
    OnlyInnerPlaceholder(v, other);
    InnerPlaceholderIsReplaced(key, v);
  }

  /** For a value whose own key comes before: the filled value stays, in braces, to the end. */
  lemma {:induction false} DoublyBracedIsFilledOnce(keys: seq<string>, at: nat, m: nat, v: string)
    requires BraceFreeKeys(keys) && BraceFree(v) && at < |keys| && m <= |keys|
    requires forall i :: 0 <= i < |keys| && i != at ==> keys[i] != keys[at]
    requires forall i :: at <= i < |keys| ==> keys[i] != v
    ensures FillKeys(Placeholder(Placeholder(keys[at])), keys[..m], Constant(v), 0).0
      == if m <= at then Placeholder(Placeholder(keys[at])) else Placeholder(v)
  {
    if m > 0 {
      DoublyBracedIsFilledOnce(keys, at, m - 1, v);
      var s := Placeholder(Placeholder(keys[at]));
      FillKeysStep(s, keys, m - 1, Constant(v), 0);
      var n := FillKeys(s, keys[..m - 1], Constant(v), 0).1;
      DoublyBracedStep(keys[at], v, keys[m - 1], n);
    }
  }

  /** With the keys in use: "contained" is a containment status, and the key of that name has been passed by then. */
  lemma NestedTemplateKeepsPlaceholder()
    ensures BraceFreeKeys(FILL_KEYS) && FILL_KEYS[11] == "contained"
    ensures FillKeys("{{containment}}", FILL_KEYS, Constant("contained"), 0).0 == Placeholder("contained")
  {
    var keys, at := FILL_KEYS, 28;
    FillKeysAreBraceFree();
    assert keys[at] == "containment";
    DoublyBracedIsFilledOnce(keys, at, |keys|, "contained");
    assert keys[..|keys|] == keys;
    assert Placeholder(Placeholder("containment")) == "{{containment}}";
  }

  // ---- Without the doubly braced containment every known placeholder is filled ----

  /** "{{containment}}" */
  function Double(): string {
    Placeholder(Placeholder(FILL_KEYS[CONTAINMENT]))
  }

  /** The first `i` keys have been passed, and none of them can come back. */
  ghost predicate Clear(t: string, i: nat) {
    && !Occurs(Double(), t)
    && forall j :: 0 <= j < i && j < |FILL_KEYS| ==> !Occurs(Placeholder(FILL_KEYS[j]), t)
  }

  /** A braced text found after a replacement was there before, or holds the new value inside its braces. */
  lemma BracedHoldsValue(t: string, at: nat, width: nat, v: string, q: string, x: nat)
    requires at + width <= |t| && BraceFree(v) && v != ""
    requires |q| >= 2 && q[0] == '{' && q[|q| - 1] == '}'
    requires OccursAt(q, ReplaceAt(t, at, width, v), x)
    ensures Occurs(q, t) || (x < at && at + |v| < x + |q| && OccursAt(v, q, at - x))
  {
    var t', e, y := ReplaceAt(t, at, width, v), at + |v|, x + |q|;
    ReplacedChars(t, at, width, v);
    BraceFreeStretch(t', at, v);
    assert forall m :: 0 <= m < |q| ==> t'[x + m] == t'[x..y][m] == q[m];
    if y <= at {
      PlaceholderElsewhere(t', x, q, t, 0);
    } else if x >= e {
      PlaceholderElsewhere(t', x, q, t, width - |v|);
    } else {
      assert t'[x] == '{' && t'[y - 1] == '}';
      assert x < at && e < y;
      assert q[at - x..at - x + |v|] == v;
    }
  }

  lemma ValueIsNonEmpty(k: nat, v: string)
    requires k < |FILL_KEYS| && IsValue(k, v)
    ensures v != ""
  {
    if k != CONTAINMENT || v != "contained" {
      ValueIsStrange(k, v);
    }
  }

  lemma InsidePlaceholder(v: string, key: string, d: int)
    requires OccursAt(v, Placeholder(key), d) && 0 < d && d + |v| < |Placeholder(key)|
    ensures Occurs(v, key)
  {
    assert key[d - 1..d - 1 + |v|] == Placeholder(key)[d..d + |v|];
    assert OccursAt(v, key, d - 1);
  }

  /** A value does not complete the doubly braced text ... */
  lemma DoubleStaysAbsent(t: string, at: nat, k: nat, v: string)
    requires k < |FILL_KEYS| && IsValue(k, v) && BraceFree(v) && BraceFreeKeys(FILL_KEYS)
    requires OccursAt(Placeholder(FILL_KEYS[k]), t, at) && !Occurs(Double(), t)
    ensures !Occurs(Double(), ReplaceAt(t, at, |FILL_KEYS[k]| + 2, v))
  {
    var key, width := FILL_KEYS[CONTAINMENT], |FILL_KEYS[k]| + 2;
    var t' := ReplaceAt(t, at, width, v);
    ValueIsNonEmpty(k, v);
    if x :| 0 <= x <= |t'| && OccursAt(Double(), t', x) {
      BracedHoldsValue(t, at, width, v, Double(), x);
      var d := at - x;
      var p := Placeholder(key);
      assert Double()[1] == '{' && Double()[|p|] == '}' && Double()[1..|p| + 1] == p;
      InsidePlaceholder(v, p, d);
      InsideBraces(v, key);
      ValueMisses(k, v, CONTAINMENT);
    }
  }

  lemma InsideBraces(v: string, key: string)
    requires BraceFree(v) && v != "" && Occurs(v, Placeholder(key))
    ensures Occurs(v, key)
  {
    var p := Placeholder(key);
    var d :| 0 <= d <= |p| && OccursAt(v, p, d);
    assert p[d] == p[d..d + |v|][0] == v[0] && p[d + |v| - 1] == p[d..d + |v|][|v| - 1] == v[|v| - 1];
    assert v[0] in v && v[|v| - 1] in v;
    assert d > 0 && d + |v| < |p|;
    InsidePlaceholder(v, key, d);
  }

  /** ... nor a placeholder whose key has been passed, unless the doubly braced text was there. */
  lemma PassedStaysAbsent(t: string, at: nat, k: nat, v: string, j: nat)
    requires j < k < |FILL_KEYS| && IsValue(k, v) && BraceFree(v) && BraceFreeKeys(FILL_KEYS)
    requires OccursAt(Placeholder(FILL_KEYS[k]), t, at)
    requires !Occurs(Double(), t) && !Occurs(Placeholder(FILL_KEYS[j]), t)
    ensures !Occurs(Placeholder(FILL_KEYS[j]), ReplaceAt(t, at, |FILL_KEYS[k]| + 2, v))
  {
    var p, width := Placeholder(FILL_KEYS[j]), |FILL_KEYS[k]| + 2;
    var t' := ReplaceAt(t, at, width, v);
    ValueIsNonEmpty(k, v);
    if x :| 0 <= x <= |t'| && OccursAt(p, t', x) {
      BracedHoldsValue(t, at, width, v, p, x);
      InsidePlaceholder(v, FILL_KEYS[j], at - x);
      ValueMisses(k, v, j);
      ContainedInBraces(t, at, v, x);
    }
  }

  /** Where "contained" has come to stand in braces of its own, the placeholder it replaced stood in them. */
  lemma ContainedInBraces(t: string, at: nat, v: string, x: nat)
    requires v == FILL_KEYS[CONTAINED] && OccursAt(Placeholder(FILL_KEYS[CONTAINMENT]), t, at)
    requires BraceFree(v) && v != ""
    requires OccursAt(Placeholder(v), ReplaceAt(t, at, |FILL_KEYS[CONTAINMENT]| + 2, v), x)
    requires x < at && at + |v| < x + |Placeholder(v)|
    ensures Occurs(Double(), t)
  {
    var p := Placeholder(FILL_KEYS[CONTAINMENT]);
    var t', width := ReplaceAt(t, at, |p|, v), |p|;
    ReplacedChars(t, at, width, v);
    PlaceholderShape(t', x, v);
    assert at == x + 1;
    assert t[at - 1] == '{' && t[at + width] == '}';
    OccurrenceSplits(p, t, at);
    assert t[at - 1..at + width + 1] == Double();
    assert OccursAt(Double(), t, at - 1);
  }

  lemma ReplacementStaysClear(t: string, k: nat, v: string)
    requires k < |FILL_KEYS| && IsValue(k, v) && BraceFree(v) && BraceFreeKeys(FILL_KEYS)
    requires Occurs(Placeholder(FILL_KEYS[k]), t) && Clear(t, k)
    ensures Clear(ReplaceFirst(t, Placeholder(FILL_KEYS[k]), v), k)
  {
    OccursIffFound(Placeholder(FILL_KEYS[k]), t);
    var at := FirstIndex(Placeholder(FILL_KEYS[k]), t, 0);
    DoubleStaysAbsent(t, at, k, v);
    forall j | 0 <= j < k && j < |FILL_KEYS|
      ensures !Occurs(Placeholder(FILL_KEYS[j]), ReplaceAt(t, at, |FILL_KEYS[k]| + 2, v))
    {
      PassedStaysAbsent(t, at, k, v, j);
    }
  }

  lemma {:induction false} FillKeyStaysClear(t: string, k: nat, draws: Draws, n: nat)
    requires k < |FILL_KEYS| && KnownDraws(draws) && BraceFreeKeys(FILL_KEYS) && Clear(t, k)
    ensures Clear(FillKey(t, FILL_KEYS[k], draws, n).0, k)
    decreases Opens(t)
  {
    if Occurs(Placeholder(FILL_KEYS[k]), t) {
      var v := draws(FILL_KEYS[k], n);
      ReplacementClosesOne(t, FILL_KEYS[k], v);
      ReplacementStaysClear(t, k, v);
      FillKeyStaysClear(ReplaceFirst(t, Placeholder(FILL_KEYS[k]), v), k, draws, n + 1);
    }
  }

  lemma {:induction false} FillKeysStayClear(template: string, k: nat, draws: Draws)
    requires k <= |FILL_KEYS| && KnownDraws(draws) && BraceFreeKeys(FILL_KEYS) && !Occurs(Double(), template)
    ensures Clear(FillKeys(template, FILL_KEYS[..k], draws, 0).0, k)
  {
    if k > 0 {
      FillKeysStayClear(template, k - 1, draws);
      FillKeysStep(template, FILL_KEYS, k - 1, draws, 0);
      var (t, n) := FillKeys(template, FILL_KEYS[..k - 1], draws, 0);
      OneMoreKeyIsClear(t, k - 1, draws, n);
    }
  }

  lemma OneMoreKeyIsClear(t: string, k: nat, draws: Draws, n: nat)
    requires k < |FILL_KEYS| && KnownDraws(draws) && BraceFreeKeys(FILL_KEYS) && Clear(t, k)
    ensures Clear(FillKey(t, FILL_KEYS[k], draws, n).0, k + 1)
  {
    FillKeyStaysClear(t, k, draws, n);
    FillKeyClears(t, FILL_KEYS[k], draws, n);
  }

  // ---- With it, "contained" can be left in braces ----

  /** Filling a key that is not in a group, and is not the group, leaves the group as it is. */
  lemma {:induction false} FillKeyPassesGroup(l: string, w: string, r: string, key: string, draws: Draws, n: nat)
    returns (l': string, r': string)
    requires IsRow(w) && BraceFree(key) && BraceFreeDraws(draws) && w != key && !Occurs(Placeholder(key), w)
    ensures FillKey(Around(l, w, r), key, draws, n).0 == Around(l', w, r')
    decreases Opens(Around(l, w, r))
  {
    var s, p := Around(l, w, r), Placeholder(key);
    l', r' := l, r;
    if Occurs(p, s) {
      OccursIffFound(p, s);
      ReplacementClosesOne(s, key, draws(key, n));
      l', r' := ReplacementPassesGroup(l, w, r, FirstIndex(p, s, 0), key, draws(key, n));
      l', r' := FillKeyPassesGroup(l', w, r', key, draws, n + 1);
    }
  }

  lemma ReplacementPassesGroup(l: string, w: string, r: string, i: nat, key: string, v: string)
    returns (l': string, r': string)
    requires IsRow(w) && BraceFree(key) && w != key && !Occurs(Placeholder(key), w)
    requires OccursAt(Placeholder(key), Around(l, w, r), i)
    ensures ReplaceAt(Around(l, w, r), i, |key| + 2, v) == Around(l', w, r')
  {
    var width := |key| + 2;
    l', r' := l, r;
    PlaceholderMissesGroupEnds(l, w, r, i, key);
    if i + width <= |l| {
      l' := ReplaceAt(l, i, width, v);
      ReplaceBefore(l, w, r, i, width, v);
    } else if i <= |l| + 1 + |w| {
      ReplaceWithin(l, w, r, i - |l| - 1, width, v);
      assert OccursAt(Placeholder(key), w, i - |l| - 1);
      assert false;
    } else {
      r' := ReplaceAt(r, i - |l| - |w| - 2, width, v);
      ReplaceAfter(l, w, r, i - |l| - |w| - 2, width, v);
    }
  }

  lemma ReplaceGroupInside(l: string, p: string, r: string, v: string)
    ensures ReplaceAt(Around(l, p, r), |l| + 1, |p|, v) == Around(l, v, r)
  {
    ReplaceWithin(l, p, r, 0, |p|, v);
    assert ReplaceAt(p, 0, |p|, v) == v;
  }

  /** Where a placeholder can occur in a text that has it doubly braced: before, in the braces, or after. */
  lemma OccurrenceMeetsDouble(l: string, key: string, r: string, i: nat)
    requires BraceFree(key) && OccursAt(Placeholder(key), Around(l, Placeholder(key), r), i)
    ensures i + |key| + 2 <= |l| || i == |l| + 1 || i >= |l| + |Placeholder(key)| + 2
  {
    WalkPlaceholder(key, Outside);
    PlaceholderMissesGroupEnds(l, Placeholder(key), r, i, key);
  }

  lemma ReplacementMeetsDouble(l: string, key: string, r: string, i: nat, v: string)
    returns (l': string, r': string, hit: bool)
    requires BraceFree(key) && OccursAt(Placeholder(key), Around(l, Placeholder(key), r), i)
    ensures ReplaceAt(Around(l, Placeholder(key), r), i, |key| + 2, v)
      == Around(l', if hit then v else Placeholder(key), r')
  {
    var p, width := Placeholder(key), |key| + 2;
    l', r', hit := l, r, i == |l| + 1;
    OccurrenceMeetsDouble(l, key, r, i);
    if hit {
      ReplaceGroupInside(l, p, r, v);
    } else if i + width <= |l| {
      l' := ReplaceAt(l, i, width, v);
      ReplaceBefore(l, p, r, i, width, v);
    } else {
      var at := i - |l| - |p| - 2;
      assert at + width <= |r| by { assert |Around(l, p, r)| == |l| + |p| + 2 + |r|; }
      r' := ReplaceAt(r, at, width, v);
      ReplaceAfter(l, p, r, at, width, v);
    }
  }

  lemma DoubleOccurs(l: string, key: string, r: string)
    ensures Occurs(Placeholder(key), Around(l, Placeholder(key), r))
  {
    assert OccursAt(Placeholder(key), Placeholder(key), 0);
    OccursInside(Placeholder(key), l, Placeholder(key), r);
  }

  /** Filling the key of a doubly braced placeholder with one value leaves that value in braces. */
  lemma {:induction false} DoubleIsFilled(l: string, key: string, r: string, draws: Draws, v: string, n: nat)
    returns (l': string, r': string)
    requires BraceFree(key) && BraceFree(v) && v != key && BraceFreeDraws(draws) && forall m :: draws(key, m) == v
    ensures FillKey(Around(l, Placeholder(key), r), key, draws, n).0 == Around(l', v, r')
    decreases Opens(Around(l, Placeholder(key), r))
  {
    var s, p := Around(l, Placeholder(key), r), Placeholder(key);
    DoubleOccurs(l, key, r);
    OccursIffFound(p, s);
    ReplacementClosesOne(s, key, v);
    var hit;
    l', r', hit := ReplacementMeetsDouble(l, key, r, FirstIndex(p, s, 0), v);
    if hit {
      WalkBraceFree(v, Outside);
      BraceFreeHoldsNoPlaceholder(v, key);
      l', r' := FillKeyPassesGroup(l', v, r', key, draws, n + 1);
    } else {
      l', r' := DoubleIsFilled(l', key, r', draws, v, n + 1);
    }
  }

  lemma PlaceholderHasBrace(v: string, key: string, i: int)
    requires OccursAt(Placeholder(key), v, i)
    ensures '{' in v
  {
    assert v[i] == v[i..i + |key| + 2][0] == '{';
  }

  lemma BraceFreeHoldsNoPlaceholder(v: string, key: string)
    requires BraceFree(v)
    ensures !Occurs(Placeholder(key), v)
  {
    if i :| 0 <= i <= |v| && OccursAt(Placeholder(key), v, i) {
      PlaceholderHasBrace(v, key, i);
    }
  }

  /** What stands in the braces after `k` keys: the placeholder until its key comes up, then the value. */
  function Inside(k: nat): string {
    if k <= CONTAINMENT then Placeholder(FILL_KEYS[CONTAINMENT]) else FILL_KEYS[CONTAINED]
  }

  lemma {:induction false} DoubleLeavesContained(l: string, r: string, k: nat, draws: Draws)
    returns (l': string, r': string)
    requires k <= |FILL_KEYS| && BraceFreeKeys(FILL_KEYS) && BraceFreeDraws(draws)
    requires forall m :: draws(FILL_KEYS[CONTAINMENT], m) == FILL_KEYS[CONTAINED]
    ensures FillKeys(Around(l, Inside(0), r), FILL_KEYS[..k], draws, 0).0 == Around(l', Inside(k), r')
  {
    if k == 0 {
      return l, r;
    }
    l', r' := DoubleLeavesContained(l, r, k - 1, draws);
    FillKeysStep(Around(l, Inside(0), r), FILL_KEYS, k - 1, draws, 0);
    var key, n := FILL_KEYS[k - 1], FillKeys(Around(l, Inside(0), r), FILL_KEYS[..k - 1], draws, 0).1;
    var center, value := FILL_KEYS[CONTAINMENT], FILL_KEYS[CONTAINED];
    KeysAreDistinct();
    if k - 1 == CONTAINMENT {
      l', r' := DoubleIsFilled(l', center, r', draws, value, n);
    } else {
      WalkPlaceholder(center, Outside);
      WalkBraceFree(value, Outside);
      OnlyInnerPlaceholder(center, key);
      BraceFreeHoldsNoPlaceholder(value, key);
      assert Inside(k - 1)[0] == '{' || Inside(k - 1) == value;
      l', r' := FillKeyPassesGroup(l', Inside(k - 1), r', key, draws, n);
    }
  }

  // ---- The exact condition ----

  ghost predicate KnownPlaceholderLeft(template: string, draws: Draws, k: int) {
    && BraceFreeKeys(FILL_KEYS) && KnownDraws(draws) && 0 <= k < |FILL_KEYS|
    && Occurs(Placeholder(FILL_KEYS[k]), FillKeys(template, FILL_KEYS, draws, 0).0)
  }

  lemma SurvivorNeedsDouble(template: string, draws: Draws, k: int)
    requires KnownPlaceholderLeft(template, draws, k)
    ensures Occurs(Double(), template)
  {
    assert FILL_KEYS[..|FILL_KEYS|] == FILL_KEYS;
    if !Occurs(Double(), template) {
      FillKeysStayClear(template, |FILL_KEYS|, draws);
    }
  }

  lemma DoubleIsAround(template: string) returns (l: string, r: string)
    requires Occurs(Double(), template)
    ensures template == Around(l, Inside(0), r)
  {
    var i :| 0 <= i <= |template| && OccursAt(Double(), template, i);
    OccurrenceSplits(Double(), template, i);
    l, r := template[..i], template[i + |Double()|..];
  }

  lemma PlaceholderInAround(l: string, key: string, r: string)
    ensures Occurs(Placeholder(key), Around(l, key, r))
  {
    assert Around(l, key, r) == l + Placeholder(key) + r;
    PartOccurs(l, Placeholder(key), r);
  }

  lemma DoubleSurvives(template: string)
    requires BraceFreeKeys(FILL_KEYS) && Occurs(Double(), template)
    ensures KnownPlaceholderLeft(template, AlwaysContained(), CONTAINED)
  {
    assert FILL_KEYS[..|FILL_KEYS|] == FILL_KEYS;
    var l, r := DoubleIsAround(template);
    AlwaysContainedIsKnown();
    var l', r' := DoubleLeavesContained(l, r, |FILL_KEYS|, AlwaysContained());
    PlaceholderInAround(l', FILL_KEYS[CONTAINED], r');
  }

  /** With the keys and values in use, some known placeholder can be left exactly when the template contains the text
      "{{containment}}". */
  lemma KnownPlaceholderCanSurviveIff(template: string)
    ensures (exists draws, k :: KnownPlaceholderLeft(template, draws, k)) <==> Occurs("{{containment}}", template)
  {
    assert Double() == "{{containment}}";
    FillKeysAreBraceFree();
    if draws, k :| KnownPlaceholderLeft(template, draws, k) {
      SurvivorNeedsDouble(template, draws, k);
    }
    if Occurs(Double(), template) {
      DoubleSurvives(template);
    }
  }
}
