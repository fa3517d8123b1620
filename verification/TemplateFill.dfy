/** Placeholder filling (`_fill_template`): it terminates, and without nested groups it leaves no known placeholder. */
module TemplateFill {
  import opened Foundation

  predicate BraceFree(s: string) {
    '{' !in s && '}' !in s
  }

  function Placeholder(key: string): string {
    "{" + key + "}"
  }

  // ---- Replacing the first occurrence ----

  /** The first position at or after `from` where `sub` occurs, or the length of the text plus one. */
  function FirstIndex(sub: string, s: string, from: nat): (i: nat)
    requires from <= |s| + 1
    ensures from <= i <= |s| + 1
    ensures i <= |s| ==> OccursAt(sub, s, i)
    ensures forall k :: from <= k < i ==> !OccursAt(sub, s, k)
    decreases |s| + 1 - from
  {
    if from == |s| + 1 || OccursAt(sub, s, from) then from else FirstIndex(sub, s, from + 1)
  }

  function ReplaceAt(s: string, i: nat, width: nat, v: string): string
    requires i + width <= |s|
  {
    s[..i] + v + s[i + width..]
  }

  /** `s.replace(sub, v, 1)` */
  function ReplaceFirst(s: string, sub: string, v: string): string {
    var i := FirstIndex(sub, s, 0);
    if i <= |s| then ReplaceAt(s, i, |sub|, v) else s
  }

  lemma OccurrenceSplits(sub: string, s: string, i: nat)
    requires OccursAt(sub, s, i)
    ensures s == s[..i] + sub + s[i + |sub|..]
  {
    assert s == s[..i] + s[i..i + |sub|] + s[i + |sub|..];
  }

  lemma OccursIffFound(sub: string, s: string)
    ensures Occurs(sub, s) <==> FirstIndex(sub, s, 0) <= |s|
  {
    if Occurs(sub, s) {
      var k :| 0 <= k <= |s| && OccursAt(sub, s, k);
      assert !(k < FirstIndex(sub, s, 0));
    }
  }

  /** What `replace` with a count of one does: the first occurrence, and nothing but it, gives way to the value. */
  lemma OnlyFirstIsReplaced(s: string, sub: string, v: string)
    ensures !Occurs(sub, s) ==> ReplaceFirst(s, sub, v) == s
    ensures Occurs(sub, s) ==> exists before: string, behind: string ::
      && s == before + sub + behind && ReplaceFirst(s, sub, v) == before + v + behind
      && forall k :: 0 <= k < |before| ==> !OccursAt(sub, s, k)
  {
    OccursIffFound(sub, s);
    if Occurs(sub, s) {
      var i := FirstIndex(sub, s, 0);
      OccurrenceSplits(sub, s, i);
      var before, behind := s[..i], s[i + |sub|..];
      assert s == before + sub + behind && ReplaceFirst(s, sub, v) == before + v + behind;
    }
  }

  // ---- Counting opening braces ----

  function Opens(s: string): nat {
    if s == "" then 0 else Opens(s[..|s| - 1]) + (if s[|s| - 1] == '{' then 1 else 0)
  }

  lemma {:induction false} OpensSplit(a: string, b: string)
    ensures Opens(a + b) == Opens(a) + Opens(b)
  {
    if b == "" {
      assert a + b == a;
    } else {
      OpensSplit(a, b[..|b| - 1]);
      assert (a + b)[..|a + b| - 1] == a + b[..|b| - 1];
    }
  }

  lemma {:induction false} BraceFreeOpensNothing(s: string)
    requires BraceFree(s)
    ensures Opens(s) == 0
  {
    if s != "" {
      BraceFreeOpensNothing(s[..|s| - 1]);
    }
  }

  lemma PlaceholderOpensOne(key: string)
    requires BraceFree(key)
    ensures Opens(Placeholder(key)) == 1
  {
    OpensSplit("{" + key, "}");
    OpensSplit("{", key);
    BraceFreeOpensNothing(key);
    assert "{"[..0] == "" && "}"[..0] == "";
  }

  lemma OpensAround(a: string, middle: string, b: string)
    ensures Opens(a + middle + b) == Opens(a) + Opens(middle) + Opens(b)
  {
    OpensSplit(a + middle, b);
    OpensSplit(a, middle);
  }

  /** Filling one placeholder with a brace-free value removes exactly one opening brace. */
  lemma ReplacementClosesOne(s: string, key: string, v: string)
    requires BraceFree(key) && BraceFree(v) && Occurs(Placeholder(key), s)
    ensures Opens(ReplaceFirst(s, Placeholder(key), v)) == Opens(s) - 1
  {
    var p := Placeholder(key);
    OccursIffFound(p, s);
    var i := FirstIndex(p, s, 0);
    OccurrenceSplits(p, s, i);
    OpensAround(s[..i], p, s[i + |p|..]);
    OpensAround(s[..i], v, s[i + |p|..]);
    PlaceholderOpensOne(key);
    BraceFreeOpensNothing(v);
  }

  // ---- Filling ----

  /** The random values: what the generator of a key returns on the n-th draw of the call. */
  type Draws = (string, nat) -> string

  ghost predicate BraceFreeDraws(draws: Draws) {
    forall key, n :: BraceFree(draws(key, n))
  }

  /** The text and the number of draws after every placeholder of `key` is filled. */
  function FillKey(s: string, key: string, draws: Draws, n: nat): (string, nat)
    requires BraceFree(key) && BraceFreeDraws(draws)
    decreases Opens(s)
  {
    if Occurs(Placeholder(key), s) then
      ReplacementClosesOne(s, key, draws(key, n));
      FillKey(ReplaceFirst(s, Placeholder(key), draws(key, n)), key, draws, n + 1)
    else (s, n)
  }

  ghost predicate BraceFreeKeys(keys: seq<string>) {
    forall i :: 0 <= i < |keys| ==> BraceFree(keys[i])
  }

  function FillKeys(s: string, keys: seq<string>, draws: Draws, n: nat): (string, nat)
    requires BraceFreeKeys(keys) && BraceFreeDraws(draws)
  {
    if keys == [] then (s, n)
    else
      var (t, m) := FillKeys(s, keys[..|keys| - 1], draws, n);
      FillKey(t, keys[|keys| - 1], draws, m)
  }

  lemma FillKeysStep(s: string, keys: seq<string>, i: nat, draws: Draws, n: nat)
    requires BraceFreeKeys(keys) && BraceFreeDraws(draws) && i < |keys|
    ensures var (t, m) := FillKeys(s, keys[..i], draws, n);
      FillKeys(s, keys[..i + 1], draws, n) == FillKey(t, keys[i], draws, m)
  {
    assert keys[..i + 1][..i] == keys[..i];
  }

  /** The inner loop: fill one placeholder until it is gone. */
  method FillPlaceholder(s: string, key: string, draws: Draws, n0: nat) returns (result: string, n: nat)
    requires BraceFree(key) && BraceFreeDraws(draws)
    ensures (result, n) == FillKey(s, key, draws, n0)
    ensures n >= n0 && Opens(result) + (n - n0) == Opens(s)
  {
    result, n := s, n0;
    var placeholder := Placeholder(key);
    while Occurs(placeholder, result)
      invariant FillKey(result, key, draws, n) == FillKey(s, key, draws, n0)
      invariant n >= n0 && Opens(result) + (n - n0) == Opens(s)
      decreases Opens(result)
    {
      ReplacementClosesOne(result, key, draws(key, n));
      result := ReplaceFirst(result, placeholder, draws(key, n));
      n := n + 1;
    }
  }

  method FillTemplate(template: string, keys: seq<string>, draws: Draws, n0: nat) returns (result: string, n: nat)
    requires BraceFreeKeys(keys) && BraceFreeDraws(draws)
    ensures (result, n) == FillKeys(template, keys, draws, n0)
    ensures Opens(result) + (n - n0) == Opens(template)
  {
    result, n := template, n0;
    for k := 0 to |keys|
      invariant (result, n) == FillKeys(template, keys[..k], draws, n0)
      invariant n >= n0 && Opens(result) + (n - n0) == Opens(template)
    {
      FillKeysStep(template, keys, k, draws, n0);
      result, n := FillPlaceholder(result, keys[k], draws, n);
    }
    assert keys[..|keys|] == keys;
  }

  // ---- Groups: a closed pair of braces, and what stands between them ----

  datatype Place = Outside | Inside | Broken

  /** Walking over a text whose groups lie side by side: a second opening brace, or a stray closing one, breaks it. */
  function Next(at: Place, c: char): Place {
    if c == '{' then if at == Outside then Inside else Broken
    else if c == '}' then if at == Inside then Outside else Broken
    else at
  }

  function Walk(w: string, at: Place): Place {
    if w == "" then at else Next(Walk(w[..|w| - 1], at), w[|w| - 1])
  }

  /** A text in which every brace belongs to a group and no group lies in another. */
  predicate IsRow(w: string) {
    Walk(w, Outside) == Outside
  }

  /** The braces at `x` and `y` close a group that directly contains at least one other closed group. */
  predicate NestedAt(s: string, x: int, y: int) {
    0 <= x < y < |s| && s[x] == '{' && s[y] == '}' && IsRow(s[x + 1..y]) && '{' in s[x + 1..y]
  }

  predicate Nested(s: string) {
    exists x, y :: 0 <= x < |s| && 0 <= y < |s| && NestedAt(s, x, y)
  }

  lemma {:induction false} WalkSplits(a: string, b: string, at: Place)
    ensures Walk(a + b, at) == Walk(b, Walk(a, at))
  {
    if b == "" {
      assert a + b == a;
    } else {
      WalkSplits(a, b[..|b| - 1], at);
      assert (a + b)[..|a + b| - 1] == a + b[..|b| - 1];
    }
  }

  lemma {:induction false} WalkBraceFree(w: string, at: Place)
    requires BraceFree(w)
    ensures Walk(w, at) == at
  {
    if w != "" {
      WalkBraceFree(w[..|w| - 1], at);
    }
  }

  lemma {:induction false} WalkStaysBroken(w: string)
    ensures Walk(w, Broken) == Broken
  {
    if w != "" {
      WalkStaysBroken(w[..|w| - 1]);
    }
  }

  lemma WalkChar(c: char, at: Place)
    ensures Walk([c], at) == Next(at, c)
  {
    assert [c][..0] == "";
  }

  lemma WalkPlaceholder(key: string, at: Place)
    requires BraceFree(key)
    ensures Walk(Placeholder(key), at) == if at == Outside then Outside else Broken
  {
    WalkSplits("{" + key, "}", at);
    WalkSplits("{", key, at);
    WalkChar('{', at);
    WalkBraceFree(key, Walk("{", at));
    WalkChar('}', Walk("{", at));
  }

  /** Inside a group at the end of a text: the brace that opened it, and no brace after that. */
  lemma {:induction false} LastOpen(w: string) returns (z: nat)
    requires Walk(w, Outside) == Inside
    ensures z < |w| && w[z] == '{' && BraceFree(w[z + 1..])
  {
    var n := |w| - 1;
    if w[n] == '{' {
      z := n;
    } else {
      z := LastOpen(w[..n]);
      assert w[z + 1..] == w[..n][z + 1..] + [w[n]];
    }
  }

  /** Inside a group at the start of a text: no brace before the one that closes it, if there is one. */
  lemma {:induction false} FirstClose(w: string) returns (u: nat)
    requires Walk(w, Inside) != Broken
    ensures u <= |w| && BraceFree(w[..u]) && (u < |w| ==> w[u] == '}')
  {
    if w == "" {
      return 0;
    }
    var n := |w| - 1;
    u := FirstClose(w[..n]);
    assert w[..n][..u] == w[..u];
    if u == n {
      WalkBraceFree(w[..n], Inside);
      if w[n] != '}' {
        assert w == w[..n] + [w[n]];
        u := n + 1;
        assert w[..u] == w;
      }
    }
  }

  /** Where a placeholder occurs: its braces are at the ends, its key in between, and no other brace. */
  lemma PlaceholderShape(s: string, i: nat, key: string)
    requires BraceFree(key) && OccursAt(Placeholder(key), s, i)
    ensures s[i] == '{' && s[i + |key| + 1] == '}' && s[i + 1..i + |key| + 1] == key
    ensures forall m :: i < m < i + |key| + 1 ==> s[m] != '{' && s[m] != '}'
  {
    var p := s[i..i + |key| + 2];
    assert p[0] == '{' && p[|key| + 1] == '}' && p[1..|key| + 1] == key;
    forall m | i < m < i + |key| + 1
      ensures s[m] == key[m - i - 1] && s[m] != '{' && s[m] != '}'
    {
      assert s[m] == p[m - i] && key[m - i - 1] in key;
    }
  }

  /** A stretch without braces keeps them out of every position it covers. */
  lemma BraceFreeStretch(t: string, i: nat, v: string)
    requires BraceFree(v) && i + |v| <= |t| && forall m :: i <= m < i + |v| ==> t[m] == v[m - i]
    ensures forall m :: i <= m < i + |v| ==> t[m] != '{' && t[m] != '}'
  {
    assert forall m :: i <= m < i + |v| ==> t[m] == v[m - i] && v[m - i] in v;
  }

  lemma NestedIntro(s: string, l: string, w: string, r: string)
    requires s == l + "{" + w + "}" + r && IsRow(w) && '{' in w
    ensures Nested(s)
  {
    var x, y := |l|, |l| + 1 + |w|;
    assert s[x] == '{' && s[y] == '}' && s[x + 1..y] == w;
    assert NestedAt(s, x, y);
  }

  /** Putting a placeholder in place of a brace-free stretch of a row makes a nested group. */
  lemma PlaceholderInRowNests(l: string, a: string, v: string, b: string, r: string, key: string)
    requires BraceFree(v) && BraceFree(key) && IsRow(a + v + b)
    ensures Nested((l + "{" + a) + Placeholder(key) + (b + "}" + r))
  {
    var p := Placeholder(key);
    var s := (l + "{" + a) + p + (b + "}" + r);
    WalkSplits(a + v, b, Outside);
    WalkSplits(a, v, Outside);
    WalkBraceFree(v, Walk(a, Outside));
    WalkStaysBroken(b);
    assert p[0] == '{';
    if Walk(a, Outside) == Outside {
      WalkSplits(a + p, b, Outside);
      WalkSplits(a, p, Outside);
      WalkPlaceholder(key, Outside);
      assert '{' in a + p + b;
      assert s == l + "{" + (a + p + b) + "}" + r;
      NestedIntro(s, l, a + p + b, r);
    } else {
      var z := LastOpen(a);
      var u := FirstClose(b);
      if u == |b| {
        assert b[..u] == b;
        WalkBraceFree(b, Inside);
      }
      assert s == (l + "{") + a + p + b + ("}" + r);
      InnerGroupNests(s, l + "{", a, p, b, "}" + r, z, u, key);
    }
  }

  lemma InnerGroupNests(s: string, l: string, a: string, p: string, b: string, r: string, z: nat, u: nat, key: string)
    requires s == l + a + p + b + r && p == Placeholder(key) && BraceFree(key)
    requires z < |a| && a[z] == '{' && BraceFree(a[z + 1..])
    requires u < |b| && b[u] == '}' && BraceFree(b[..u])
    ensures Nested(s)
  {
    var w := a[z + 1..] + p + b[..u];
    WalkSplits(a[z + 1..] + p, b[..u], Outside);
    WalkSplits(a[z + 1..], p, Outside);
    WalkBraceFree(a[z + 1..], Outside);
    WalkPlaceholder(key, Outside);
    WalkBraceFree(b[..u], Outside);
    assert p[0] == '{' && '{' in w;
    assert a == a[..z] + "{" + a[z + 1..] && b == b[..u] + "}" + b[u + 1..];
    assert s == (l + a[..z]) + "{" + w + "}" + (b[u + 1..] + r);
    NestedIntro(s, l + a[..z], w, b[u + 1..] + r);
  }

  // ---- Without nested groups no placeholder is left ----

  /** Character by character, what a replacement leaves in place, puts in, and moves. */
  lemma ReplacedChars(s: string, i: nat, width: nat, v: string)
    requires i + width <= |s|
    ensures var t := ReplaceAt(s, i, width, v);
      && |t| == |s| - width + |v|
      && (forall m :: 0 <= m < i ==> t[m] == s[m])
      && (forall m :: i <= m < i + |v| ==> t[m] == v[m - i])
      && (forall m :: i + |v| <= m < |t| ==> t[m] == s[m + width - |v|])
  {
  }

  /** Equal stretches, the second one `d` further on. */
  lemma SameStretch(t: string, x: nat, y: nat, s: string, d: int)
    requires x <= y <= |t| && 0 <= x + d && y + d <= |s|
    requires forall m :: x <= m < y ==> t[m] == s[m + d]
    ensures t[x..y] == s[x + d..y + d]
  {
    forall k | 0 <= k < y - x
      ensures t[x..y][k] == s[x + d..y + d][k]
    {
      assert t[x + k] == s[x + k + d];
    }
  }

  lemma NestedElsewhere(t: string, x: nat, y: nat, s: string, d: int)
    requires NestedAt(t, x, y) && 0 <= x + d && y + d < |s|
    requires forall m :: x <= m < y + 1 ==> t[m] == s[m + d]
    ensures Nested(s)
  {
    SameStretch(t, x + 1, y, s, d);
    assert NestedAt(s, x + d, y + d);
  }

  lemma PlaceholderElsewhere(t: string, x: nat, p: string, s: string, d: int)
    requires OccursAt(p, t, x) && 0 <= x + d && x + |p| + d <= |s|
    requires forall m :: x <= m < x + |p| ==> t[m] == s[m + d]
    ensures Occurs(p, s)
  {
    SameStretch(t, x, x + |p|, s, d);
    assert OccursAt(p, s, x + d);
  }

  /** Filling creates no nested group. */
  lemma ReplacementNestsNothing(s: string, i: nat, key: string, v: string)
    requires OccursAt(Placeholder(key), s, i) && BraceFree(key) && BraceFree(v)
    requires Nested(ReplaceAt(s, i, |key| + 2, v))
    ensures Nested(s)
  {
    var w := |key| + 2;
    var t, e := ReplaceAt(s, i, w, v), i + |v|;
    var x, y :| 0 <= x < |t| && 0 <= y < |t| && NestedAt(t, x, y);
    BracesAroundValue(s, i, w, v, x, y);
    if y < i {
      ReplacedChars(s, i, w, v);
      NestedElsewhere(t, x, y, s, 0);
    } else if x >= e {
      ReplacedChars(s, i, w, v);
      NestedElsewhere(t, x, y, s, w - |v|);
    } else {
      RowAcrossValueNests(s, i, key, v, x, y);
    }
  }

  /** Braces are not in a brace-free value: two of them lie both before it, both after it, or around it. */
  lemma BracesAroundValue(s: string, i: nat, width: nat, v: string, x: int, y: int)
    requires i + width <= |s| && BraceFree(v) && NestedAt(ReplaceAt(s, i, width, v), x, y)
    ensures y < i || x >= i + |v| || (x < i && i + |v| <= y)
  {
    ReplacedChars(s, i, width, v);
    BraceFreeStretch(ReplaceAt(s, i, width, v), i, v);
  }

  /** The text before and after a replacement, seen from two positions around it. */
  lemma AroundReplacement(s: string, i: nat, width: nat, v: string, x: nat, y: nat)
    requires i + width <= |s| && x < i && i + |v| <= y < |ReplaceAt(s, i, width, v)|
    ensures var t := ReplaceAt(s, i, width, v);
      && t[x + 1..y] == s[x + 1..i] + v + t[i + |v|..y]
      && s == (s[..x] + [t[x]] + s[x + 1..i]) + s[i..i + width] + (t[i + |v|..y] + [t[y]] + t[y + 1..])
  {
    var t := ReplaceAt(s, i, width, v);
    assert s[..i] == s[..x] + [s[x]] + s[x + 1..i];
    assert t[i + |v|..] == s[i + width..];
    assert t[i + |v|..] == t[i + |v|..y] + [t[y]] + t[y + 1..];
  }

  /** A row of braces across the filled value was nested before the value was filled in. */
  lemma RowAcrossValueNests(s: string, i: nat, key: string, v: string, x: nat, y: nat)
    requires OccursAt(Placeholder(key), s, i) && BraceFree(key) && BraceFree(v)
    requires x < i && i + |v| <= y < |ReplaceAt(s, i, |key| + 2, v)|
    requires ReplaceAt(s, i, |key| + 2, v)[x] == '{' && ReplaceAt(s, i, |key| + 2, v)[y] == '}'
    requires IsRow(ReplaceAt(s, i, |key| + 2, v)[x + 1..y])
    ensures Nested(s)
  {
    var t := ReplaceAt(s, i, |key| + 2, v);
    AroundReplacement(s, i, |key| + 2, v, x, y);
    PlaceholderInRowNests(s[..x], s[x + 1..i], v, t[i + |v|..y], t[y + 1..], key);
  }

  /** Nor, in a text without nested groups, a placeholder that was not there. */
  lemma ReplacementCreatesNone(s: string, i: nat, key: string, v: string, other: string)
    requires !Nested(s) && OccursAt(Placeholder(key), s, i) && BraceFree(key) && BraceFree(v) && BraceFree(other)
    requires Occurs(Placeholder(other), ReplaceAt(s, i, |key| + 2, v))
    ensures Occurs(Placeholder(other), s)
  {
    var w := |key| + 2;
    var t, p, e := ReplaceAt(s, i, w, v), Placeholder(other), i + |v|;
    var x :| 0 <= x <= |t| && OccursAt(p, t, x);
    var y := x + |other| + 1;
    PlaceholderShape(t, x, other);
    ReplacedChars(s, i, w, v);
    BraceFreeStretch(t, i, v);
    if y < i {
      PlaceholderElsewhere(t, x, p, s, 0);
    } else if x >= e {
      PlaceholderElsewhere(t, x, p, s, w - |v|);
    } else {
      WalkBraceFree(other, Outside);
      RowAcrossValueNests(s, i, key, v, x, y);
    }
  }

  lemma {:induction false} FillKeyClears(s: string, key: string, draws: Draws, n: nat)
    requires BraceFree(key) && BraceFreeDraws(draws)
    ensures !Occurs(Placeholder(key), FillKey(s, key, draws, n).0)
    decreases Opens(s)
  {
    if Occurs(Placeholder(key), s) {
      ReplacementClosesOne(s, key, draws(key, n));
      FillKeyClears(ReplaceFirst(s, Placeholder(key), draws(key, n)), key, draws, n + 1);
    }
  }

  lemma OneFillKeepsFlatAndAbsent(s: string, key: string, v: string, other: string)
    requires !Nested(s) && Occurs(Placeholder(key), s) && BraceFree(key) && BraceFree(v) && BraceFree(other)
    ensures !Nested(ReplaceFirst(s, Placeholder(key), v))
    ensures !Occurs(Placeholder(other), s) ==> !Occurs(Placeholder(other), ReplaceFirst(s, Placeholder(key), v))
  {
    OccursIffFound(Placeholder(key), s);
    var i := FirstIndex(Placeholder(key), s, 0);
    if Nested(ReplaceAt(s, i, |key| + 2, v)) {
      ReplacementNestsNothing(s, i, key, v);
    }
    if Occurs(Placeholder(other), ReplaceFirst(s, Placeholder(key), v)) {
      ReplacementCreatesNone(s, i, key, v, other);
    }
  }

  lemma {:induction false} FillKeyKeepsFlatAndAbsent(s: string, key: string, draws: Draws, n: nat, other: string)
    requires BraceFree(key) && BraceFree(other) && BraceFreeDraws(draws) && !Nested(s)
    ensures !Nested(FillKey(s, key, draws, n).0)
    ensures !Occurs(Placeholder(other), s) ==> !Occurs(Placeholder(other), FillKey(s, key, draws, n).0)
    decreases Opens(s)
  {
    if Occurs(Placeholder(key), s) {
      var v := draws(key, n);
      ReplacementClosesOne(s, key, v);
      OneFillKeepsFlatAndAbsent(s, key, v, other);
      FillKeyKeepsFlatAndAbsent(ReplaceFirst(s, Placeholder(key), v), key, draws, n + 1, other);
    }
  }

  /** A template without nested groups is left without any known placeholder, whatever the keys and draws. */
  lemma {:induction false} FlatTemplateIsFilled(template: string, keys: seq<string>, draws: Draws, n: nat)
    requires BraceFreeKeys(keys) && BraceFreeDraws(draws) && !Nested(template)
    ensures !Nested(FillKeys(template, keys, draws, n).0)
    ensures forall k :: 0 <= k < |keys| ==> !Occurs(Placeholder(keys[k]), FillKeys(template, keys, draws, n).0)
  {
    if keys != [] {
      var last := |keys| - 1;
      FlatTemplateIsFilled(template, keys[..last], draws, n);
      var (t, m) := FillKeys(template, keys[..last], draws, n);
      FillKeyClears(t, keys[last], draws, m);
      FillKeyKeepsFlatAndAbsent(t, keys[last], draws, m, keys[last]);
      forall k | 0 <= k < last
        ensures !Occurs(Placeholder(keys[k]), FillKey(t, keys[last], draws, m).0)
      {
        assert keys[..last][k] == keys[k];
        FillKeyKeepsFlatAndAbsent(t, keys[last], draws, m, keys[k]);
      }
    }
  }
}
