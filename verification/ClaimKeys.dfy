/** The key under which work orders are compared for duplicate claims, and when it stands for one claim only. */
module ClaimKeys {
  import opened Foundation
  import opened MarginModel
  import opened Splitting

  /** What a work order claims: the normalised activity, location and date. */
  datatype Claim = Claim(activity: string, location: string, date: string)

  const NO_CLAIM := Claim("", "", "")

  function ClaimOf(tools: TextTools, wo: WorkOrder): Claim {
    Claim(tools.lower(ActivityOf(tools, wo)), tools.lower(tools.strip(wo.location)), tools.strip(wo.scheduledDate))
  }

  function ClaimText(c: Claim): string {
    c.activity + "|" + c.location + "|" + c.date
  }

  function ClaimKey(tools: TextTools, wo: WorkOrder): string {
    ClaimText(ClaimOf(tools, wo))
  }

  /** The key in terms of the work order's entries: activity, location, date, in that order. */
  lemma KeyOfEntries(tools: TextTools, wo: WorkOrder)
    ensures ClaimKey(tools, wo) ==
      tools.lower(tools.strip(if wo.activity.Some? then wo.activity.value else ""))
      + "|" + tools.lower(tools.strip(wo.location)) + "|" + tools.strip(wo.scheduledDate)
  {
  }

  lemma EmptyTextIff(c: Claim)
    ensures ClaimText(c) == "||" <==> c == NO_CLAIM
  {
    if ClaimText(c) == "||" {
      assert |c.activity| + |c.location| + |c.date| == 0;
    }
  }

  // ---- Arbitrary texts ----

  /** Enough for two claims to be told apart; a date may contain the separator. */
  predicate PipeFree(c: Claim) {
    FreeOf('|', c.activity) && FreeOf('|', c.location)
  }

  predicate AllPipeFree(c: Claim) {
    PipeFree(c) && FreeOf('|', c.date)
  }

  lemma ClaimTextsAgreeIff(a: Claim, b: Claim)
    requires PipeFree(a) && PipeFree(b)
    ensures ClaimText(a) == ClaimText(b) <==> a == b
  {
    if ClaimText(a) == ClaimText(b) {
      assert ClaimText(a) == a.activity + "|" + (a.location + "|" + a.date);
      assert ClaimText(b) == b.activity + "|" + (b.location + "|" + b.date);
      FirstSeparatorSplits('|', a.activity, a.location + "|" + a.date, b.activity, b.location + "|" + b.date);
      FirstSeparatorSplits('|', a.location, a.date, b.location, b.date);
    }
  }

  /** A claim free of the separator has just the two separators of the key, so every claim with that key is free too. */
  lemma PipeFreeIsShared(a: Claim, b: Claim)
    requires AllPipeFree(a) && ClaimText(a) == ClaimText(b)
    ensures AllPipeFree(b)
  {
    assert multiset(ClaimText(a))['|'] == 2;
    assert multiset(ClaimText(b))['|']
      == multiset(b.activity)['|'] + multiset(b.location)['|'] + multiset(b.date)['|'] + 2;
    assert '|' !in multiset(b.activity) && '|' !in multiset(b.location) && '|' !in multiset(b.date);
  }

  /** Two claims, one key. */
  lemma SeparatorInAFieldMergesClaims(date: string)
    ensures ClaimText(Claim("dig|north", "site", date)) == ClaimText(Claim("dig", "north|site", date))
  {
    assert "dig|north" + "|" + "site" == "dig" + "|" + "north|site";
  }

  ghost predicate UnambiguousText(a: Claim) {
    forall b :: ClaimText(b) == ClaimText(a) ==> b == a
  }

  /** Cutting a text at a separator. */
  lemma CutAt(s: string) returns (x: string, y: string)
    requires !FreeOf('|', s)
    ensures s == x + "|" + y && |x| < |s| && |y| < |s|
  {
    var i :| 0 <= i < |s| && s[i] == '|';
    x, y := s[..i], s[i + 1..];
  }

  /** Among arbitrary triples of texts, a key has one reading exactly when no field contains the separator. Fewer
      triples are claims of work orders, so for those this is only sufficient. */
  lemma TextIsUnambiguousIff(a: Claim)
    ensures UnambiguousText(a) <==> AllPipeFree(a)
  {
    if AllPipeFree(a) {
      forall b | ClaimText(b) == ClaimText(a)
        ensures b == a
      {
        PipeFreeIsShared(a, b);
        ClaimTextsAgreeIff(a, b);
      }
    } else if !FreeOf('|', a.activity) {
      var x, y := CutAt(a.activity);
      var b := Claim(x, y + "|" + a.location, a.date);
      assert ClaimText(b) == ClaimText(a) && |b.activity| != |a.activity|;
    } else if !FreeOf('|', a.location) {
      var x, y := CutAt(a.location);
      var b := Claim(a.activity + "|" + x, y, a.date);
      assert ClaimText(b) == ClaimText(a) && |b.location| != |a.location|;
    } else {
      var x, y := CutAt(a.date);
      var b := Claim(a.activity, a.location + "|" + x, y);
      assert ClaimText(b) == ClaimText(a) && |b.date| != |a.date|;
    }
  }

  // ---- The claims of work orders ----

  predicate Stripped(s: string) {
    s != "" ==> !IsSpace(s[0]) && !IsSpace(s[|s| - 1])
  }

  predicate Lowered(tools: TextTools, s: string) {
    tools.lower(s) == s
  }

  /** What is used of Python's `strip` and `lower`: stripping leaves no space at either end and changes nothing else,
      lower-casing is idempotent, makes no space, and treats the two sides of a separator apart. */
  ghost predicate TextLaws(tools: TextTools) {
    && (forall s :: Stripped(tools.strip(s)) && (Stripped(s) ==> tools.strip(s) == s))
    && (forall s :: Lowered(tools, tools.lower(s)) && (Stripped(s) ==> Stripped(tools.lower(s))))
    && (forall x, y {:trigger Lowered(tools, x + "|" + y)} ::
      Lowered(tools, x + "|" + y) <==> Lowered(tools, x) && Lowered(tools, y))
  }

  /** Python's `strip`. */
  function Strip(s: string): (r: string)
    ensures Stripped(r) && (Stripped(s) ==> r == s)
  {
    if s == "" then ""
    else if IsSpace(s[0]) then Strip(s[1..])
    else if IsSpace(s[|s| - 1]) then Strip(s[..|s| - 1])
    else s
  }

  function LowerChar(c: char): char {
    if 'A' <= c <= 'Z' then c - 'A' + 'a' else c
  }

  /** `lower` on ASCII text. */
  function Lower(s: string): string {
    seq(|s|, i requires 0 <= i < |s| => LowerChar(s[i]))
  }

  lemma LowerActsApart(x: string, y: string)
    ensures Lower(x + "|" + y) == x + "|" + y <==> Lower(x) == x && Lower(y) == y
  {
    var s := x + "|" + y;
    assert Lower(s) == Lower(x) + "|" + Lower(y);
    if Lower(s) == s {
      assert Lower(x) == Lower(s)[..|x|] == s[..|x|] == x;
      assert Lower(y) == Lower(s)[|x| + 1..] == s[|x| + 1..] == y;
    }
  }

  /** The laws hold of stripping and of lower-casing ASCII text. */
  lemma LawsHoldOfAscii(tools: TextTools)
    requires tools.strip == Strip && tools.lower == Lower
    ensures TextLaws(tools)
  {
    forall s
      ensures Lowered(tools, tools.lower(s)) && (Stripped(s) ==> Stripped(tools.lower(s)))
    {
      assert Lower(Lower(s)) == Lower(s);
    }
    forall x, y
      ensures Lowered(tools, x + "|" + y) <==> Lowered(tools, x) && Lowered(tools, y)
    {
      LowerActsApart(x, y);
    }
  }

  /** The triples that are the claim of some work order. */
  predicate Formable(tools: TextTools, c: Claim) {
    && Stripped(c.activity) && Stripped(c.location) && Stripped(c.date)
    && Lowered(tools, c.activity) && Lowered(tools, c.location)
  }

  function OrderFor(c: Claim): WorkOrder {
    BLANK_ORDER.(activity := Some(c.activity), location := c.location, scheduledDate := c.date)
  }

  lemma FormableIsMade(tools: TextTools, c: Claim)
    requires TextLaws(tools) && Formable(tools, c)
    ensures ClaimOf(tools, OrderFor(c)) == c
  {
  }

  lemma FormableIff(tools: TextTools, c: Claim)
    requires TextLaws(tools)
    ensures Formable(tools, c) <==> exists wo :: ClaimOf(tools, wo) == c
  {
    if Formable(tools, c) {
      FormableIsMade(tools, c);
    }
  }

  /** A separator with no space on either side of it. */
  predicate CleanAt(s: string, j: int) {
    && 0 <= j < |s| && s[j] == '|'
    && (j > 0 ==> !IsSpace(s[j - 1])) && (j + 1 < |s| ==> !IsSpace(s[j + 1]))
  }

  predicate HasCleanSeparator(s: string) {
    exists j :: 0 <= j < |s| && CleanAt(s, j)
  }

  /** A clean separator whose left side, being lower-case, could as well be the end of a location. */
  predicate HasMovableSeparator(tools: TextTools, date: string) {
    exists j :: 0 <= j < |date| && CleanAt(date, j) && Lowered(tools, date[..j])
  }

  predicate Ambiguous(tools: TextTools, c: Claim) {
    HasCleanSeparator(c.activity) || HasCleanSeparator(c.location) || HasMovableSeparator(tools, c.date)
  }

  lemma CleanCut(s: string, j: int) returns (x: string, y: string)
    requires Stripped(s) && CleanAt(s, j)
    ensures x == s[..j] && y == s[j + 1..] && s == x + "|" + y && Stripped(x) && Stripped(y)
  {
    x, y := s[..j], s[j + 1..];
  }

  lemma StrippedJoin(x: string, y: string)
    requires Stripped(x) && Stripped(y)
    ensures Stripped(x + "|" + y)
  {
    var s := x + "|" + y;
    assert s[0] == if x == "" then '|' else x[0];
    assert s[|s| - 1] == if y == "" then '|' else y[|y| - 1];
  }

  lemma LoweredParts(tools: TextTools, x: string, y: string)
    requires TextLaws(tools)
    ensures Lowered(tools, x + "|" + y) <==> Lowered(tools, x) && Lowered(tools, y)
  {
  }

  ghost predicate Rivals(tools: TextTools, a: Claim, b: Claim) {
    Formable(tools, b) && b != a && ClaimText(b) == ClaimText(a)
  }

  /** What stands right of a clean separator in the activity can move to the location ... */
  lemma ActivityCutRivals(tools: TextTools, a: Claim, x: string, y: string)
    requires TextLaws(tools) && Formable(tools, a) && a.activity == x + "|" + y && Stripped(x) && Stripped(y)
    ensures Rivals(tools, a, Claim(x, y + "|" + a.location, a.date))
  {
    StrippedJoin(y, a.location);
    LoweredParts(tools, x, y);
    LoweredParts(tools, y, a.location);
    assert |x| < |a.activity|;
    assert x + "|" + (y + "|" + a.location) + "|" + a.date == (x + "|" + y) + "|" + a.location + "|" + a.date;
  }

  /** ... what stands left of one in the location to the activity ... */
  lemma LocationCutRivals(tools: TextTools, a: Claim, x: string, y: string)
    requires TextLaws(tools) && Formable(tools, a) && a.location == x + "|" + y && Stripped(x) && Stripped(y)
    ensures Rivals(tools, a, Claim(a.activity + "|" + x, y, a.date))
  {
    StrippedJoin(a.activity, x);
    LoweredParts(tools, x, y);
    LoweredParts(tools, a.activity, x);
    assert |y| < |a.location|;
    assert (a.activity + "|" + x) + "|" + y + "|" + a.date == a.activity + "|" + (x + "|" + y) + "|" + a.date;
  }

  /** ... and what stands left of one in the date, if it is lower-case, to the location. */
  lemma DateCutRivals(tools: TextTools, a: Claim, x: string, y: string)
    requires TextLaws(tools) && Formable(tools, a) && a.date == x + "|" + y && Stripped(x) && Stripped(y)
    requires Lowered(tools, x)
    ensures Rivals(tools, a, Claim(a.activity, a.location + "|" + x, y))
  {
    StrippedJoin(a.location, x);
    LoweredParts(tools, a.location, x);
    assert |y| < |a.date|;
    assert a.activity + "|" + (a.location + "|" + x) + "|" + y == a.activity + "|" + a.location + "|" + (x + "|" + y);
  }

  lemma AmbiguousHasRival(tools: TextTools, a: Claim) returns (b: Claim)
    requires TextLaws(tools) && Formable(tools, a) && Ambiguous(tools, a)
    ensures Rivals(tools, a, b)
  {
    if HasCleanSeparator(a.activity) {
      var j :| 0 <= j < |a.activity| && CleanAt(a.activity, j);
      var x, y := CleanCut(a.activity, j);
      b := Claim(x, y + "|" + a.location, a.date);
      ActivityCutRivals(tools, a, x, y);
    } else if HasCleanSeparator(a.location) {
      var j :| 0 <= j < |a.location| && CleanAt(a.location, j);
      var x, y := CleanCut(a.location, j);
      b := Claim(a.activity + "|" + x, y, a.date);
      LocationCutRivals(tools, a, x, y);
    } else {
      var j :| 0 <= j < |a.date| && CleanAt(a.date, j) && Lowered(tools, a.date[..j]);
      var x, y := CleanCut(a.date, j);
      b := Claim(a.activity, a.location + "|" + x, y);
      DateCutRivals(tools, a, x, y);
    }
  }

  /** Two ways to cut one text at a separator: the longer left side holds the shorter one's cut. */
  lemma TwoCuts(x: string, y: string, x': string, y': string) returns (m: string)
    requires x + "|" + y == x' + "|" + y' && |x| < |x'|
    ensures x' == x + "|" + m && y == m + "|" + y'
  {
    var s := x + "|" + y;
    m := s[|x| + 1..|x'|];
    assert x' == s[..|x'|] && x == s[..|x|] && s[|x|] == '|' == s[|x'|];
    assert y == s[|x| + 1..] && y' == s[|x'| + 1..];
  }

  lemma SameCut(x: string, y: string, x': string, y': string)
    requires x + "|" + y == x' + "|" + y' && |x| == |x'|
    ensures x == x' && y == y'
  {
    var s := x + "|" + y;
    assert x == s[..|x|] == x' && y == s[|x| + 1..] == y';
  }

  /** No space at the end of a text, or at its start. */
  predicate EndsClean(x: string) {
    x != "" ==> !IsSpace(x[|x| - 1])
  }

  predicate StartsClean(y: string) {
    y != "" ==> !IsSpace(y[0])
  }

  lemma CleanBetween(x: string, y: string)
    requires EndsClean(x) && StartsClean(y)
    ensures CleanAt(x + "|" + y, |x|) && (x + "|" + y)[..|x|] == x
  {
    var s := x + "|" + y;
    assert |x| > 0 ==> s[|x| - 1] == x[|x| - 1];
    assert |y| > 0 ==> s[|x| + 1] == y[0];
  }

  /** What follows a separator of a stripped claim starts clean, however the rest of the key is cut. */
  lemma StartsCleanInBoth(y: string, rest: string, y': string, rest': string)
    requires y + "|" + rest == y' + "|" + rest' && StartsClean(y')
    ensures StartsClean(y)
  {
    if y != "" {
      assert (y + "|" + rest)[0] == y[0];
      assert (y' + "|" + rest')[0] == if y' == "" then '|' else y'[0];
    }
  }

  lemma EndOfSuffix(x: string, m: string, whole: string)
    requires whole == x + "|" + m && Stripped(whole)
    ensures EndsClean(m)
  {
    assert m != "" ==> m[|m| - 1] == whole[|whole| - 1];
  }

  /** Both keys, cut at their first separators. */
  lemma RestsAgree(a: Claim, b: Claim)
    requires ClaimText(a) == ClaimText(b)
    ensures a.activity + "|" + (a.location + "|" + a.date) == b.activity + "|" + (b.location + "|" + b.date)
  {
    assert ClaimText(a) == a.activity + "|" + (a.location + "|" + a.date);
    assert ClaimText(b) == b.activity + "|" + (b.location + "|" + b.date);
  }

  /** A rival that moves the first separator to the left. */
  lemma EarlierFirstCut(tools: TextTools, a: Claim, b: Claim)
    requires Rivals(tools, a, b) && |b.activity| < |a.activity|
    ensures HasCleanSeparator(a.activity)
  {
    RestsAgree(a, b);
    var m := TwoCuts(b.activity, b.location + "|" + b.date, a.activity, a.location + "|" + a.date);
    StartsCleanInBoth(m, a.location + "|" + a.date, b.location, b.date);
    CleanBetween(b.activity, m);
  }

  /** A rival with the first separator in its place moves the second one, into the location or into the date. */
  lemma SecondCutMoves(tools: TextTools, location: string, date: string, location': string, date': string)
    requires TextLaws(tools) && location + "|" + date == location' + "|" + date' && location != location'
    requires Stripped(date) && Stripped(location') && Stripped(date') && Lowered(tools, location')
    ensures HasCleanSeparator(location) || HasMovableSeparator(tools, date)
  {
    if |location'| < |location| {
      var m := TwoCuts(location', date', location, date);
      assert m != "" ==> m[0] == date'[0];
      CleanBetween(location', m);
    } else if |location| < |location'| {
      var m := TwoCuts(location, date, location', date');
      EndOfSuffix(location, m, location');
      LoweredParts(tools, location, m);
      CleanBetween(m, date');
    } else {
      SameCut(location, date, location', date');
    }
  }

  lemma SameFirstCut(tools: TextTools, a: Claim, b: Claim)
    requires TextLaws(tools) && Formable(tools, a) && Rivals(tools, a, b) && |b.activity| == |a.activity|
    ensures Ambiguous(tools, a)
  {
    RestsAgree(a, b);
    SameCut(a.activity, a.location + "|" + a.date, b.activity, b.location + "|" + b.date);
    if a.location == b.location {
      SameCut(a.location, a.date, b.location, b.date);
    } else {
      SecondCutMoves(tools, a.location, a.date, b.location, b.date);
    }
  }

  /** A rival that moves the first separator to the right, past `m`: into the location, to its end, or into the date. */
  lemma FirstCutMoves(tools: TextTools, location: string, date: string, m: string, location': string, date': string)
    requires TextLaws(tools) && location + "|" + date == m + "|" + (location' + "|" + date')
    requires EndsClean(m) && Lowered(tools, m)
    requires Stripped(location') && Stripped(date') && Lowered(tools, location')
    ensures HasCleanSeparator(location) || HasMovableSeparator(tools, date)
  {
    var rest := location' + "|" + date';
    if |m| < |location| {
      var n := TwoCuts(m, rest, location, date);
      StartsCleanInBoth(n, date, location', date');
      CleanBetween(m, n);
    } else if |m| == |location| {
      SameCut(m, rest, location, date);
      CleanBetween(location', date');
    } else {
      var n := TwoCuts(location, date, m, rest);
      assert n != "" ==> n[|n| - 1] == m[|m| - 1];
      LoweredParts(tools, location, n);
      RestStartsClean(location', date');
      CleanBetween(n, rest);
    }
  }

  lemma LaterFirstCut(tools: TextTools, a: Claim, b: Claim)
    requires TextLaws(tools) && Formable(tools, a) && Rivals(tools, a, b) && |a.activity| < |b.activity|
    ensures Ambiguous(tools, a)
  {
    RestsAgree(a, b);
    var m := TwoCuts(a.activity, a.location + "|" + a.date, b.activity, b.location + "|" + b.date);
    LoweredParts(tools, a.activity, m);
    EndOfSuffix(a.activity, m, b.activity);
    FirstCutMoves(tools, a.location, a.date, m, b.location, b.date);
  }

  lemma RestStartsClean(location: string, date: string)
    requires Stripped(location)
    ensures StartsClean(location + "|" + date)
  {
    var s := location + "|" + date;
    assert s[0] == if location == "" then '|' else location[0];
  }

  lemma RivalMakesAmbiguous(tools: TextTools, a: Claim, b: Claim)
    requires TextLaws(tools) && Formable(tools, a) && Rivals(tools, a, b)
    ensures Ambiguous(tools, a)
  {
    if |b.activity| < |a.activity| {
      EarlierFirstCut(tools, a, b);
    } else if |b.activity| == |a.activity| {
      SameFirstCut(tools, a, b);
    } else {
      LaterFirstCut(tools, a, b);
    }
  }

  /** No other claim has the key of this work order. */
  ghost predicate KeyOfOneClaim(tools: TextTools, wo: WorkOrder) {
    forall other: WorkOrder :: ClaimKey(tools, other) == ClaimKey(tools, wo) ==>
      ClaimOf(tools, other) == ClaimOf(tools, wo)
  }

  /** The exact condition, work order by work order: its key stands for its claim only exactly when no separator without
      surrounding spaces is in its activity, in its location, or in its date behind lower-case text. */
  lemma ClaimIsUnambiguousIff(tools: TextTools, wo: WorkOrder)
    requires TextLaws(tools)
    ensures KeyOfOneClaim(tools, wo) <==> !Ambiguous(tools, ClaimOf(tools, wo))
  {
    var a := ClaimOf(tools, wo);
    FormableIff(tools, a);
    if Ambiguous(tools, a) {
      var b := AmbiguousHasRival(tools, a);
      FormableIff(tools, b);
      var other :| ClaimOf(tools, other) == b;
      assert ClaimKey(tools, other) == ClaimKey(tools, wo);
    } else {
      forall other: WorkOrder | ClaimKey(tools, other) == ClaimKey(tools, wo)
        ensures ClaimOf(tools, other) == a
      {
        FormableIff(tools, ClaimOf(tools, other));
        if ClaimOf(tools, other) != a {
          RivalMakesAmbiguous(tools, a, ClaimOf(tools, other));
        }
      }
    }
  }

  /** The claims of two work orders can be told apart by their keys: one is unambiguous, or both are nearly free of the
      separator. */
  ghost predicate ToldApart(tools: TextTools, a: WorkOrder, b: WorkOrder) {
    var (x, y) := (ClaimOf(tools, a), ClaimOf(tools, b));
    || (PipeFree(x) && PipeFree(y))
    || AllPipeFree(x) || AllPipeFree(y)
    || (TextLaws(tools) && (!Ambiguous(tools, x) || !Ambiguous(tools, y)))
  }

  lemma ToldApartByKey(tools: TextTools, a: WorkOrder, b: WorkOrder)
    requires ToldApart(tools, a, b)
    ensures ClaimKey(tools, a) == ClaimKey(tools, b) <==> ClaimOf(tools, a) == ClaimOf(tools, b)
  {
    var (x, y) := (ClaimOf(tools, a), ClaimOf(tools, b));
    if PipeFree(x) && PipeFree(y) {
      ClaimTextsAgreeIff(x, y);
    } else if AllPipeFree(x) || AllPipeFree(y) {
      TextIsUnambiguousIff(x);
      TextIsUnambiguousIff(y);
    } else {
      ClaimIsUnambiguousIff(tools, a);
      ClaimIsUnambiguousIff(tools, b);
    }
  }
}
