/** Which templates can be left with a placeholder, over all keys and draws, and one for the keys in use. */
module NestedTemplates {
  import opened Foundation
  import opened Sequences
  import opened TemplateFill

  // ---- With a nested group some placeholder can be left ----

  function Constant(v: string): Draws {
    (key: string, n: nat) => v
  }

  ghost predicate GroupsFrom(w': string, w: string) {
    forall k :: BraceFree(k) && Occurs(Placeholder(k), w') ==> Occurs(Placeholder(k), w)
  }

  /** The row still has a group, or it has become longer than any key. */
  predicate Solid(w: string, size: nat) {
    '{' in w || |w| >= size
  }

  /** How filling may change the inside of a group: it closes groups of the row and opens none. */
  ghost predicate Shrinks(w: string, w': string, size: nat) {
    && IsRow(w') && GroupsFrom(w', w)
    && (Solid(w, size) ==> Solid(w', size))
    && (w' == w || Opens(w') < Opens(w))
  }

  /** A placeholder that occurs in a row is one of its groups. */
  lemma GroupOfRow(w: string, i: nat, key: string)
    requires IsRow(w) && BraceFree(key) && OccursAt(Placeholder(key), w, i)
    ensures IsRow(w[..i]) && IsRow(w[i + |key| + 2..])
  {
    var p := Placeholder(key);
    var a, b := w[..i], w[i + |p|..];
    OccurrenceSplits(p, w, i);
    WalkSplits(a + p, b, Outside);
    WalkSplits(a, p, Outside);
    WalkPlaceholder(key, Walk(a, Outside));
    WalkStaysBroken(b);
  }

  /** Filling one group of a row. */
  lemma FillingInsideShrinks(w: string, i: nat, key: string, v: string)
    requires IsRow(w) && BraceFree(key) && BraceFree(v) && OccursAt(Placeholder(key), w, i)
    ensures Shrinks(w, ReplaceAt(w, i, |key| + 2, v), |v|)
  {
    var a, p, b := w[..i], Placeholder(key), w[i + |key| + 2..];
    var w' := ReplaceAt(w, i, |key| + 2, v);
    GroupOfRow(w, i, key);
    WalkSplits(a + v, b, Outside);
    WalkSplits(a, v, Outside);
    WalkBraceFree(v, Outside);
    OccurrenceSplits(p, w, i);
    OpensAround(a, p, b);
    OpensAround(a, v, b);
    PlaceholderOpensOne(key);
    BraceFreeOpensNothing(v);
    forall k | BraceFree(k) && Occurs(Placeholder(k), w')
      ensures Occurs(Placeholder(k), w)
    {
      var x :| 0 <= x <= |w'| && OccursAt(Placeholder(k), w', x);
      GroupOfRow(w', x, k);
      FilledRowHasNoNewGroup(a, v, b, p, k, x);
    }
  }

  lemma FilledRowHasNoNewGroup(a: string, v: string, b: string, p: string, k: string, x: nat)
    requires IsRow(a) && BraceFree(v) && BraceFree(k) && OccursAt(Placeholder(k), a + v + b, x)
    ensures Occurs(Placeholder(k), a + p + b)
  {
    var w', w, q := a + v + b, a + p + b, Placeholder(k);
    var y := x + |k| + 1;
    PlaceholderShape(w', x, k);
    BraceFreeStretch(w', |a|, v);
    if y < |a| {
      PlaceholderElsewhere(w', x, q, w, 0);
    } else if x >= |a| + |v| {
      PlaceholderElsewhere(w', x, q, w, |p| - |v|);
    } else {
      var tail := a[x + 1..];
      assert forall m :: 0 <= m < |tail| ==> tail[m] == w'[x + 1 + m];
      assert a == a[..x] + "{" + tail;
      WalkSplits(a[..x] + "{", tail, Outside);
      WalkSplits(a[..x], "{", Outside);
      WalkChar('{', Walk(a[..x], Outside));
      WalkBraceFree(tail, Walk(a[..x] + "{", Outside));
      assert false;
    }
  }

  /** A group with a row inside, somewhere in a text. */
  function Around(l: string, w: string, r: string): string {
    l + "{" + w + "}" + r
  }

  /** A placeholder other than the group itself lies before it, inside it or after it. */
  lemma PlaceholderMissesGroupEnds(l: string, w: string, r: string, i: nat, key: string)
    requires IsRow(w) && BraceFree(key) && w != key && OccursAt(Placeholder(key), Around(l, w, r), i)
    ensures i + |key| + 2 <= |l| || |l| < i < i + |key| + 2 <= |l| + 1 + |w| || |l| + 1 + |w| < i
  {
    var s, e := Around(l, w, r), i + |key| + 1;
    var x, y := |l|, |l| + 1 + |w|;
    assert s[x] == '{' && s[y] == '}' && s[x + 1..y] == w;
    PlaceholderShape(s, i, key);
    if i == x && e < y {
      assert w == key + "}" + w[|key| + 1..];
      WalkSplits(key + "}", w[|key| + 1..], Outside);
      WalkSplits(key, "}", Outside);
      WalkBraceFree(key, Outside);
      WalkChar('}', Outside);
      WalkStaysBroken(w[|key| + 1..]);
      assert false;
    }
    if x < i && e == y {
      var a := w[..i - x - 1];
      assert w == a + "{" + key;
      WalkSplits(a + "{", key, Outside);
      WalkSplits(a, "{", Outside);
      WalkChar('{', Walk(a, Outside));
      WalkBraceFree(key, Walk(a + "{", Outside));
      assert false;
    }
  }

  lemma ReplaceInPart(a: string, part: string, b: string, at: nat, width: nat, v: string)
    requires at + width <= |part|
    ensures ReplaceAt(a + part + b, |a| + at, width, v) == a + ReplaceAt(part, at, width, v) + b
    ensures (a + part + b)[|a| + at..|a| + at + width] == part[at..at + width]
  {
    var s := a + part + b;
    assert s[..|a| + at] == a + part[..at];
    assert s[|a| + at + width..] == part[at + width..] + b;
    SameStretch(part, at, at + width, s, |a|);
  }

  lemma ReplaceBefore(l: string, w: string, r: string, at: nat, width: nat, v: string)
    requires at + width <= |l|
    ensures ReplaceAt(Around(l, w, r), at, width, v) == Around(ReplaceAt(l, at, width, v), w, r)
  {
    var rest := "{" + w + "}" + r;
    ReplaceInPart("", l, rest, at, width, v);
    assert Around(l, w, r) == "" + l + rest;
    assert Around(ReplaceAt(l, at, width, v), w, r) == "" + ReplaceAt(l, at, width, v) + rest;
  }

  lemma ReplaceWithin(l: string, w: string, r: string, at: nat, width: nat, v: string)
    requires at + width <= |w|
    ensures ReplaceAt(Around(l, w, r), |l| + 1 + at, width, v) == Around(l, ReplaceAt(w, at, width, v), r)
    ensures Around(l, w, r)[|l| + 1 + at..|l| + 1 + at + width] == w[at..at + width]
  {
    ReplaceInPart(l + "{", w, "}" + r, at, width, v);
    assert Around(l, w, r) == (l + "{") + w + ("}" + r);
    assert Around(l, ReplaceAt(w, at, width, v), r) == (l + "{") + ReplaceAt(w, at, width, v) + ("}" + r);
  }

  lemma ReplaceAfter(l: string, w: string, r: string, at: nat, width: nat, v: string)
    requires at + width <= |r|
    ensures ReplaceAt(Around(l, w, r), |l| + |w| + 2 + at, width, v) == Around(l, w, ReplaceAt(r, at, width, v))
  {
    var front := l + "{" + w + "}";
    ReplaceInPart(front, r, "", at, width, v);
    assert Around(l, w, r) == front + r + "";
    assert Around(l, w, ReplaceAt(r, at, width, v)) == front + ReplaceAt(r, at, width, v) + "";
  }

  /** One replacement leaves the group in place and at most shrinks its row. */
  lemma ReplacementKeepsGroup(l: string, w: string, r: string, i: nat, key: string, v: string)
    returns (l': string, w': string, r': string)
    requires IsRow(w) && BraceFree(key) && BraceFree(v) && w != key
    requires OccursAt(Placeholder(key), Around(l, w, r), i)
    ensures ReplaceAt(Around(l, w, r), i, |key| + 2, v) == Around(l', w', r')
    ensures Shrinks(w, w', |v|)
  {
    var s, width := Around(l, w, r), |key| + 2;
    l', w', r' := l, w, r;
    PlaceholderMissesGroupEnds(l, w, r, i, key);
    if i + width <= |l| {
      l' := ReplaceAt(l, i, width, v);
      ReplaceBefore(l, w, r, i, width, v);
    } else if i <= |l| + 1 + |w| {
      w' := ReplaceAt(w, i - |l| - 1, width, v);
      ReplaceWithin(l, w, r, i - |l| - 1, width, v);
      FillingInsideShrinks(w, i - |l| - 1, key, v);
    } else {
      r' := ReplaceAt(r, i - |l| - |w| - 2, width, v);
      ReplaceAfter(l, w, r, i - |l| - |w| - 2, width, v);
    }
  }

  lemma ShrinksTwice(w: string, w1: string, w2: string, size: nat)
    requires Shrinks(w, w1, size) && Shrinks(w1, w2, size)
    ensures Shrinks(w, w2, size)
  {
  }

  /** Filling every placeholder of a key that is too short to be the group's own. */
  lemma {:induction false} FillKeyKeepsGroup(l: string, w: string, r: string, key: string, v: string, n: nat)
    returns (l': string, w': string, r': string)
    requires IsRow(w) && BraceFree(key) && BraceFree(v) && Solid(w, |v|) && |key| < |v|
    ensures FillKey(Around(l, w, r), key, Constant(v), n).0 == Around(l', w', r')
    ensures Shrinks(w, w', |v|)
    decreases Opens(Around(l, w, r))
  {
    var s, p := Around(l, w, r), Placeholder(key);
    l', w', r' := l, w, r;
    if Occurs(p, s) {
      OccursIffFound(p, s);
      l', w', r' := ReplacementKeepsGroup(l, w, r, FirstIndex(p, s, 0), key, v);
      ReplacementClosesOne(s, key, v);
      var w1 := w';
      l', w', r' := FillKeyKeepsGroup(l', w', r', key, v, n + 1);
      ShrinksTwice(w, w1, w', |v|);
    }
  }

  lemma OccursInside(p: string, l: string, w: string, r: string)
    requires Occurs(p, w)
    ensures Occurs(p, Around(l, w, r))
  {
    var i :| 0 <= i <= |w| && OccursAt(p, w, i);
    assert Around(l, w, r)[|l| + 1 + i..|l| + 1 + i + |p|] == w[i..i + |p|];
    assert OccursAt(p, Around(l, w, r), |l| + 1 + i);
  }

  lemma PartOccurs(a: string, p: string, b: string)
    ensures Occurs(p, a + p + b)
  {
    assert (a + p + b)[|a|..|a| + |p|] == p;
    assert OccursAt(p, a + p + b, |a|);
  }

  /** In a row, an opening brace is followed by the one that closes it, with no brace in between. */
  lemma OpenIsClosed(a: string, b: string) returns (u: nat)
    requires IsRow(a + "{" + b)
    ensures u < |b| && b[u] == '}' && BraceFree(b[..u])
  {
    WalkSplits(a + "{", b, Outside);
    WalkSplits(a, "{", Outside);
    WalkChar('{', Walk(a, Outside));
    WalkStaysBroken(b);
    u := FirstClose(b);
    if u == |b| {
      assert b[..u] == b;
      WalkBraceFree(b, Inside);
    }
  }

  /** A row with an opening brace has a group. */
  lemma RowHasGroup(w: string) returns (key: string)
    requires IsRow(w) && '{' in w
    ensures BraceFree(key) && Occurs(Placeholder(key), w)
  {
    var z :| 0 <= z < |w| && w[z] == '{';
    var a, b := w[..z], w[z + 1..];
    assert w == a + "{" + b;
    var u := OpenIsClosed(a, b);
    key := b[..u];
    GroupInPlace(a, b, u);
  }

  lemma GroupInPlace(a: string, b: string, u: nat)
    requires u < |b| && b[u] == '}'
    ensures Occurs(Placeholder(b[..u]), a + "{" + b)
  {
    var p, rest := Placeholder(b[..u]), b[u + 1..];
    assert b == b[..u] + "}" + rest;
    assert a + "{" + b == a + p + rest;
    PartOccurs(a, p, rest);
  }

  lemma RowWithoutOpenIsBraceFree(w: string)
    requires IsRow(w) && '{' !in w
    ensures BraceFree(w)
  {
    if '}' in w {
      var z :| 0 <= z < |w| && w[z] == '}';
      var a, b := w[..z], w[z + 1..];
      assert w == a + "}" + b;
      NeverInside(a);
      WalkSplits(a + "}", b, Outside);
      WalkSplits(a, "}", Outside);
      WalkChar('}', Walk(a, Outside));
      WalkStaysBroken(b);
      assert false;
    }
  }

  lemma {:induction false} NeverInside(w: string)
    requires '{' !in w
    ensures Walk(w, Outside) != Inside
  {
    if w != "" {
      NeverInside(w[..|w| - 1]);
    }
  }

  lemma {:induction false} FillKeysFront(s: string, key: string, keys: seq<string>, draws: Draws, n: nat)
    requires BraceFree(key) && BraceFreeKeys(keys) && BraceFreeDraws(draws)
    ensures BraceFreeKeys([key] + keys)
    ensures FillKeys(s, [key] + keys, draws, n) ==
      FillKeys(FillKey(s, key, draws, n).0, keys, draws, FillKey(s, key, draws, n).1)
  {
    var all := [key] + keys;
    if keys == [] {
      assert all[..0] == [];
    } else {
      var m := |keys| - 1;
      FillKeysFront(s, key, keys[..m], draws, n);
      assert all[..m + 1] == [key] + keys[..m];
    }
  }

  ghost predicate ShortGroups(w: string, size: nat) {
    forall k :: BraceFree(k) && Occurs(Placeholder(k), w) ==> |k| < size
  }

  /** Filling one group of the row, wherever its placeholder occurs. */
  lemma FillOneGroup(l: string, w: string, r: string, v: string, n: nat)
    returns (k: string, l': string, w': string, r': string)
    requires IsRow(w) && '{' in w && BraceFree(v) && ShortGroups(w, |v|)
    ensures BraceFree(k) && |k| < |v| && Occurs(Placeholder(k), w) && !Occurs(Placeholder(k), w')
    ensures FillKey(Around(l, w, r), k, Constant(v), n).0 == Around(l', w', r')
    ensures IsRow(w') && Solid(w', |v|) && GroupsFrom(w', w) && Opens(w') < Opens(w)
  {
    k := RowHasGroup(w);
    l', w', r' := FillKeyKeepsGroup(l, w, r, k, v, n);
    FillKeyClears(Around(l, w, r), k, Constant(v), n);
    if Occurs(Placeholder(k), w') {
      OccursInside(Placeholder(k), l', w', r');
    }
  }

  /** What filling the groups of a row leaves: a group without braces inside, longer than any key used. */
  ghost predicate FilledRow(s: string, keys: seq<string>, w: string, v: string, n: nat, filled: string, key: string)
    requires BraceFree(v)
  {
    && BraceFreeKeys(keys) && Distinct(keys)
    && (forall i :: 0 <= i < |keys| ==> |keys[i]| < |v| && Occurs(Placeholder(keys[i]), w))
    && FillKeys(s, keys, Constant(v), n).0 == filled
    && BraceFree(key) && |key| >= |v|
  }

  lemma OneMoreKey(s: string, k: string, rest: seq<string>, w: string, w': string, v: string, n: nat, filled: string,
                   key: string)
    requires BraceFree(v) && BraceFree(k) && |k| < |v|
    requires Occurs(Placeholder(k), w) && !Occurs(Placeholder(k), w') && GroupsFrom(w', w)
    requires var (t, m) := FillKey(s, k, Constant(v), n); FilledRow(t, rest, w', v, m, filled, key)
    ensures FilledRow(s, [k] + rest, w, v, n, filled, key)
  {
    FillKeysFront(s, k, rest, Constant(v), n);
  }

  /** Filling the groups of the row one after the other leaves a placeholder whose key is the filled row. */
  lemma {:induction false} RowCanBeFilled(l: string, w: string, r: string, v: string, n: nat)
    returns (keys: seq<string>, l': string, key: string, r': string)
    requires IsRow(w) && BraceFree(v) && Solid(w, |v|) && ShortGroups(w, |v|)
    ensures FilledRow(Around(l, w, r), keys, w, v, n, Around(l', key, r'), key)
    decreases Opens(w)
  {
    if '{' !in w {
      RowWithoutOpenIsBraceFree(w);
      return [], l, w, r;
    }
    var k, l1, w1, r1 := FillOneGroup(l, w, r, v, n);
    var (t, m) := FillKey(Around(l, w, r), k, Constant(v), n);
    var rest;
    rest, l', key, r' := RowCanBeFilled(l1, w1, r1, v, m);
    OneMoreKey(Around(l, w, r), k, rest, w, w1, v, n, Around(l', key, r'), key);
    keys := [k] + rest;
  }

  /** For distinct keys and some draws, the placeholder of key `k` is still there after filling. */
  ghost predicate Survives(template: string, keys: seq<string>, draws: Draws, k: int) {
    && BraceFreeKeys(keys) && Distinct(keys) && BraceFreeDraws(draws) && 0 <= k < |keys|
    && Occurs(Placeholder(keys[k]), FillKeys(template, keys, draws, 0).0)
  }

  lemma LongPlaceholderIsAbsent(key: string, s: string)
    requires |key| > |s|
    ensures !Occurs(Placeholder(key), s)
  {
  }

  lemma NestedTemplateCanKeepPlaceholder(template: string) returns (keys: seq<string>, v: string)
    requires Nested(template)
    ensures Survives(template, keys, Constant(v), 0)
  {
    var x, y :| 0 <= x < |template| && 0 <= y < |template| && NestedAt(template, x, y);
    var w := template[x + 1..y];
    var l0, r0 := template[..x], template[y + 1..];
    assert template == Around(l0, w, r0);
    v := seq(|template| + 1, _ => 'v');
    forall k | BraceFree(k) && Occurs(Placeholder(k), w)
      ensures |k| < |v|
    {
      var i :| 0 <= i <= |w| && OccursAt(Placeholder(k), w, i);
    }
    var rest, l, key, r := RowCanBeFilled(l0, w, r0, v, 0);
    keys := [key] + rest;
    FilledRowSurvives(template, rest, w, v, l, key, r);
  }

  lemma FilledRowSurvives(s: string, rest: seq<string>, w: string, v: string, l: string, key: string, r: string)
    requires BraceFree(v) && |v| > |s| && FilledRow(s, rest, w, v, 0, Around(l, key, r), key)
    ensures Survives(s, [key] + rest, Constant(v), 0)
  {
    LongPlaceholderIsAbsent(key, s);
    FillKeysFront(s, key, rest, Constant(v), 0);
    var filled, p := Around(l, key, r), Placeholder(key);
    assert filled == l + p + r;
    PartOccurs(l, p, r);
  }

  /** The exact condition, over all keys and draws: some placeholder can be left exactly when the template has a closed
      group that directly contains another closed group. */
  lemma PlaceholderCanSurviveIff(template: string)
    ensures (exists keys, draws, k :: Survives(template, keys, draws, k)) <==> Nested(template)
  {
    if keys, draws, k :| Survives(template, keys, draws, k) {
      if !Nested(template) {
        FlatTemplateIsFilled(template, keys, draws, 0);
      }
    }
    if Nested(template) {
      var keys, v := NestedTemplateCanKeepPlaceholder(template);
    }
  }
}
