/** A separator-joined text has one reading when one side of the join is free of the separator. */
module Splitting {

  predicate FreeOf(c: char, s: string) {
    c !in s
  }

  /** The length of the text before the first `c`. */
  function Before(c: char, s: string): nat {
    if s == "" || s[0] == c then 0 else 1 + Before(c, s[1..])
  }

  /** The length of the text after the last `c`. */
  function After(c: char, s: string): nat {
    if s == "" || s[|s| - 1] == c then 0 else 1 + After(c, s[..|s| - 1])
  }

  lemma {:induction false} BeforeJoin(c: char, a: string, rest: string)
    requires FreeOf(c, a)
    ensures Before(c, a + [c] + rest) == |a|
  {
    if a == "" {
      assert a + [c] + rest == [c] + rest;
    } else {
      assert (a + [c] + rest)[1..] == a[1..] + [c] + rest;
      BeforeJoin(c, a[1..], rest);
    }
  }

  lemma {:induction false} AfterJoin(c: char, rest: string, a: string)
    requires FreeOf(c, a)
    ensures After(c, rest + [c] + a) == |a|
  {
    var s := rest + [c] + a;
    if a == "" {
      assert s == rest + [c];
    } else {
      assert s[..|s| - 1] == rest + [c] + a[..|a| - 1];
      AfterJoin(c, rest, a[..|a| - 1]);
    }
  }

  lemma FirstSeparatorSplits(c: char, a: string, rest: string, b: string, rest': string)
    requires FreeOf(c, a) && FreeOf(c, b) && a + [c] + rest == b + [c] + rest'
    ensures a == b && rest == rest'
  {
    BeforeJoin(c, a, rest);
    BeforeJoin(c, b, rest');
    var s := a + [c] + rest;
    assert a == s[..|a|] == b;
    assert rest == s[|a| + 1..] == rest';
  }

  lemma LastSeparatorSplits(c: char, rest: string, a: string, rest': string, b: string)
    requires FreeOf(c, a) && FreeOf(c, b) && rest + [c] + a == rest' + [c] + b
    ensures a == b && rest == rest'
  {
    AfterJoin(c, rest, a);
    AfterJoin(c, rest', b);
    var s := rest + [c] + a;
    assert rest == s[..|rest|] == rest';
    assert a == s[|rest| + 1..] == b;
  }
}
