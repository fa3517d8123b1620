/** The prompt-template cache (`PromptRegistry`): when it is transparent. */
module PromptCache {
  import opened Decimals
  import opened Foundation
  import opened Splitting

  datatype Request = Request(name: string, domainPack: Option<string>, version: Option<int>)

  /** The two sources behind the cache: the database row for a request, and the template file for a name and pack. */
  datatype Store = Store(db: Request -> Option<string>, files: (string, Option<string>) -> Option<string>)

  // ---- Keys ----

  function PackPart(pack: Option<string>): string {
    if pack.None? || pack.value == "" then "_" else pack.value
  }

  function VersionPart(version: Option<int>): string {
    if version.None? || version.value == 0 then "latest" else Decimal(version.value)
  }

  function CacheKey(q: Request): string {
    q.name + ":" + PackPart(q.domainPack) + ":" + VersionPart(q.version)
  }

  /** The parts of a key: an absent or empty pack is "_", an absent version or version 0 is "latest". */
  lemma KeyIsNamePackVersion(q: Request)
    ensures CacheKey(q) == q.name
      + ":" + (if q.domainPack.Some? && q.domainPack.value != "" then q.domainPack.value else "_")
      + ":" + (if q.version.Some? && q.version.value != 0 then Decimal(q.version.value) else "latest")
  {
  }

  lemma VersionPartColonFree(version: Option<int>)
    ensures FreeOf(':', VersionPart(version))
    ensures VersionPart(version) == "latest" <==> version.None? || version.value == 0
  {
    if version.Some? {
      DigitsAreDigits(if version.value < 0 then -version.value else version.value);
      if version.value != 0 {
        assert Decimal(version.value)[0] == '-' || DigitChar(Decimal(version.value)[0]);
      }
    }
  }

  /** `version or 'latest'` does not tell version 0 from no version. */
  function VersionKey(version: Option<int>): Option<int> {
    if version == Some(0) then None else version
  }

  lemma VersionPartsAgreeIff(a: Option<int>, b: Option<int>)
    ensures VersionPart(a) == VersionPart(b) <==> VersionKey(a) == VersionKey(b)
  {
    VersionPartColonFree(a);
    VersionPartColonFree(b);
    if VersionPart(a) == VersionPart(b) != "latest" {
      DecimalInjective(a.value, b.value);
    }
  }

  predicate SameParts(q: Request, r: Request) {
    && q.name == r.name && PackPart(q.domainPack) == PackPart(r.domainPack)
    && VersionKey(q.version) == VersionKey(r.version)
  }

  /** Two requests share a key exactly when they agree on name, pack part and version key, as long as both names or
      both pack parts are free of the separator. */
  lemma CacheKeysAgreeIff(q: Request, r: Request)
    requires (FreeOf(':', q.name) && FreeOf(':', r.name))
      || (FreeOf(':', PackPart(q.domainPack)) && FreeOf(':', PackPart(r.domainPack)))
    ensures CacheKey(q) == CacheKey(r) <==> SameParts(q, r)
  {
    VersionPartColonFree(q.version);
    VersionPartColonFree(r.version);
    VersionPartsAgreeIff(q.version, r.version);
    if CacheKey(q) == CacheKey(r) {
      var (p, s) := (PackPart(q.domainPack), PackPart(r.domainPack));
      LastSeparatorSplits(':', q.name + ":" + p, VersionPart(q.version), r.name + ":" + s, VersionPart(r.version));
      if FreeOf(':', q.name) && FreeOf(':', r.name) {
        FirstSeparatorSplits(':', q.name, p, r.name, s);
      } else {
        LastSeparatorSplits(':', q.name, p, r.name, s);
      }
    }
  }

  /** Whatever request has the key of `q` has its parts. */
  ghost predicate Unambiguous(q: Request) {
    forall r :: CacheKey(r) == CacheKey(q) ==> SameParts(q, r)
  }

  /** No separator in the name, and none in the pack part before its last character. */
  predicate SeparatorsInPlace(q: Request) {
    var pack := PackPart(q.domainPack);
    FreeOf(':', q.name) && FreeOf(':', pack[..|pack| - 1])
  }

  lemma InPlaceIsUnambiguous(q: Request, r: Request)
    requires SeparatorsInPlace(q) && CacheKey(q) == CacheKey(r)
    ensures SameParts(q, r)
  {
    var p, s := PackPart(q.domainPack), PackPart(r.domainPack);
    var a, b := q.name + ":" + p, r.name + ":" + s;
    VersionPartColonFree(q.version);
    VersionPartColonFree(r.version);
    VersionPartsAgreeIff(q.version, r.version);
    LastSeparatorSplits(':', a, VersionPart(q.version), b, VersionPart(r.version));
    var n, m := |q.name|, |r.name|;
    assert a[m] == b[m] == ':';
    assert forall k :: 0 <= k < n ==> a[k] == q.name[k] && a[k] != ':';
    assert forall k :: n < k < |a| - 1 ==> a[k] == p[..|p| - 1][k - n - 1] && a[k] != ':';
    assert m == n;
    assert q.name == a[..n] == b[..n] == r.name && p == a[n + 1..] == b[n + 1..] == s;
  }

  /** A separator in the name can be read as the end of a shorter name ... */
  lemma SeparatorInNameCollides(q: Request) returns (r: Request)
    requires !FreeOf(':', q.name)
    ensures CacheKey(r) == CacheKey(q) && r.name != q.name
  {
    var i :| 0 <= i < |q.name| && q.name[i] == ':';
    var pack := q.name[i + 1..] + ":" + PackPart(q.domainPack);
    r := Request(q.name[..i], Some(pack), q.version);
    assert q.name == q.name[..i] + ":" + q.name[i + 1..];
    assert q.name[..i] + ":" + pack == q.name + ":" + PackPart(q.domainPack);
    assert |r.name| != |q.name|;
  }

  /** ... and one inside the pack part as the end of a longer name. */
  lemma SeparatorInPackCollides(q: Request) returns (r: Request)
    requires var pack := PackPart(q.domainPack); !FreeOf(':', pack[..|pack| - 1])
    ensures CacheKey(r) == CacheKey(q) && r.name != q.name
  {
    var pack := PackPart(q.domainPack);
    var i :| 0 <= i < |pack| - 1 && pack[..|pack| - 1][i] == ':';
    r := Request(q.name + ":" + pack[..i], Some(pack[i + 1..]), q.version);
    assert pack == pack[..i] + ":" + pack[i + 1..];
    assert r.name + ":" + pack[i + 1..] == q.name + ":" + pack;
    assert |r.name| != |q.name|;
  }

  /** The exact condition, request by request: a key is read in one way only exactly when neither the name nor the pack
      part, but for its last character, contains the separator. */
  lemma KeyIsUnambiguousIff(q: Request)
    ensures Unambiguous(q) <==> SeparatorsInPlace(q)
  {
    if SeparatorsInPlace(q) {
      forall r | CacheKey(r) == CacheKey(q)
        ensures SameParts(q, r)
      {
        InPlaceIsUnambiguous(q, r);
      }
    } else if !FreeOf(':', q.name) {
      var r := SeparatorInNameCollides(q);
      assert !SameParts(q, r);
    } else {
      var r := SeparatorInPackCollides(q);
      assert !SameParts(q, r);
    }
  }

  /** A witness: different names and packs, one key. */
  lemma SeparatorInBothCollides(version: Option<int>)
    ensures CacheKey(Request("a:b", Some("c"), version)) == CacheKey(Request("a", Some("b:c"), version))
  {
    assert "a:b" + ":" + "c" == "a" + ":" + "b:c";
  }

  // ---- Lookups ----

  function FilePack(pack: Option<string>): Option<string> {
    if pack == Some("") then None else pack
  }

  /** What `get` finds when nothing is cached. */
  function Uncached(store: Store, session: bool, q: Request): Option<string> {
    if session && store.db(q).Some? then store.db(q) else store.files(q.name, FilePack(q.domainPack))
  }

  /** The source that is read: the row if there is a session and a row, else the file of that very pack, and the file
      of no pack where the pack is absent or empty. */
  lemma SourceOfLookup(store: Store, session: bool, q: Request)
    ensures session && store.db(q).Some? ==> Uncached(store, session, q) == store.db(q)
    ensures !session || store.db(q).None? ==>
      Uncached(store, session, q) ==
        if q.domainPack.Some? && q.domainPack.value != "" then store.files(q.name, Some(q.domainPack.value))
        else store.files(q.name, None)
  {
  }

  type Cache = map<string, string>

  function GetStep(cache: Cache, store: Store, session: bool, q: Request): (Cache, Option<string>) {
    var key := CacheKey(q);
    if key in cache then (cache, Some(cache[key]))
    else
      var found := Uncached(store, session, q);
      (if found.Some? then cache[key := found.value] else cache, found)
  }

  predicate StartsWith(s: string, prefix: string) {
    |prefix| <= |s| && s[..|prefix|] == prefix
  }

  function InvalidateStep(cache: Cache, name: Option<string>): Cache {
    if name.None? then map[]
    else map k | k in cache && !StartsWith(k, name.value + ":") :: cache[k]
  }

  /** Requests the cache can tell apart: a pack is not spelled as the placeholder for no pack, and version 0 is not
      spelled out. */
  predicate Canonical(q: Request) {
    q.domainPack != Some("") && q.domainPack != Some("_") && q.version != Some(0) && FreeOf(':', q.name)
  }

  lemma CanonicalKeysInjective(q: Request, r: Request)
    requires Canonical(q) && Canonical(r) && CacheKey(q) == CacheKey(r)
    ensures q == r
  {
    CacheKeysAgreeIff(q, r);
  }

  /** Whatever a canonical request finds in the cache is what an uncached lookup would find. */
  ghost predicate Faithful(cache: Cache, store: Store, session: bool) {
    forall q :: Canonical(q) && CacheKey(q) in cache ==> Uncached(store, session, q) == Some(cache[CacheKey(q)])
  }

  lemma GetIsTransparent(cache: Cache, store: Store, session: bool, q: Request)
    requires Faithful(cache, store, session) && Canonical(q)
    ensures GetStep(cache, store, session, q).1 == Uncached(store, session, q)
    ensures Faithful(GetStep(cache, store, session, q).0, store, session)
  {
    var cache' := GetStep(cache, store, session, q).0;
    forall r | Canonical(r) && CacheKey(r) in cache'
      ensures Uncached(store, session, r) == Some(cache'[CacheKey(r)])
    {
      if CacheKey(r) == CacheKey(q) {
        CanonicalKeysInjective(q, r);
      }
    }
  }

  // ---- Runs ----

  /** Each lookup brings a database session or does not. */
  datatype Op = Get(request: Request, session: bool) | Invalidate(name: Option<string>)

  function Step(cache: Cache, store: Store, op: Op): (Cache, Option<string>) {
    match op
    case Get(q, session) => GetStep(cache, store, session, q)
    case Invalidate(name) => (InvalidateStep(cache, name), None)
  }

  function CacheAfter(cache: Cache, store: Store, ops: seq<Op>): Cache {
    if ops == [] then cache
    else Step(CacheAfter(cache, store, ops[..|ops| - 1]), store, ops[|ops| - 1]).0
  }

  ghost predicate CanonicalOps(ops: seq<Op>) {
    forall i :: 0 <= i < |ops| && ops[i].Get? ==> Canonical(ops[i].request)
  }

  ghost predicate SameSession(ops: seq<Op>, session: bool) {
    forall i :: 0 <= i < |ops| && ops[i].Get? ==> ops[i].session == session
  }

  lemma {:induction false} RunsStayFaithful(cache: Cache, store: Store, session: bool, ops: seq<Op>)
    requires Faithful(cache, store, session) && CanonicalOps(ops) && SameSession(ops, session)
    ensures Faithful(CacheAfter(cache, store, ops), store, session)
  {
    if ops != [] {
      var n := |ops| - 1;
      RunsStayFaithful(cache, store, session, ops[..n]);
      if ops[n].Get? {
        GetIsTransparent(CacheAfter(cache, store, ops[..n]), store, session, ops[n].request);
      }
    }
  }

  /** After any run of lookups with one session choice, and of invalidations, on a new registry, a lookup with that
      choice answers as if there were no cache. */
  lemma CacheIsTransparent(store: Store, session: bool, ops: seq<Op>, q: Request)
    requires CanonicalOps(ops) && SameSession(ops, session) && Canonical(q)
    ensures GetStep(CacheAfter(map[], store, ops), store, session, q).1 == Uncached(store, session, q)
  {
    RunsStayFaithful(map[], store, session, ops);
    GetIsTransparent(CacheAfter(map[], store, ops), store, session, q);
  }

  /** After any such run, a lookup that finds no row is answered with the file of its own name and pack. */
  lemma LookupReadsItsOwnPack(store: Store, session: bool, ops: seq<Op>, name: string, pack: string)
    requires CanonicalOps(ops) && SameSession(ops, session) && Canonical(Request(name, Some(pack), None))
    requires session ==> store.db(Request(name, Some(pack), None)).None?
    ensures GetStep(CacheAfter(map[], store, ops), store, session, Request(name, Some(pack), None)).1
      == store.files(name, Some(pack))
  {
    CacheIsTransparent(store, session, ops, Request(name, Some(pack), None));
    SourceOfLookup(store, session, Request(name, Some(pack), None));
  }

  // ---- Runs that mix lookups with and without a session ----

  predicate Drops(op: Op, key: string) {
    op.Invalidate? && (op.name.None? || StartsWith(key, op.name.value + ":"))
  }

  /** A lookup: what is asked for, and whether it brings a session. */
  datatype Lookup = Lookup(request: Request, session: bool)

  /** The lookups under a key since it was last dropped. */
  function LookupsOf(ops: seq<Op>, key: string): seq<Lookup> {
    if ops == [] then []
    else
      var front, last := LookupsOf(ops[..|ops| - 1], key), ops[|ops| - 1];
      if Drops(last, key) then []
      else if last.Get? && CacheKey(last.request) == key then front + [Lookup(last.request, last.session)]
      else front
  }

  function Finds(store: Store, l: Lookup): Option<string> {
    Uncached(store, l.session, l.request)
  }

  /** What the first of these lookups to find anything has found. */
  function FirstFound(store: Store, lookups: seq<Lookup>): Option<string> {
    if lookups == [] then None
    else
      var front := FirstFound(store, lookups[..|lookups| - 1]);
      if front.Some? then front else Finds(store, lookups[|lookups| - 1])
  }

  function Cached(cache: Cache, key: string): Option<string> {
    if key in cache then Some(cache[key]) else None
  }

  lemma {:induction false} CacheHoldsFirstFound(store: Store, ops: seq<Op>, key: string)
    ensures Cached(CacheAfter(map[], store, ops), key) == FirstFound(store, LookupsOf(ops, key))
  {
    if ops != [] {
      var n := |ops| - 1;
      CacheHoldsFirstFound(store, ops[..n], key);
      var lookups, last := LookupsOf(ops[..n], key), ops[n];
      if last.Get? && CacheKey(last.request) == key {
        assert (lookups + [Lookup(last.request, last.session)])[..|lookups|] == lookups;
      }
    }
  }

  ghost predicate AnswersRight(store: Store, ops: seq<Op>, q: Request, session: bool) {
    GetStep(CacheAfter(map[], store, ops), store, session, q).1 == Uncached(store, session, q)
  }

  predicate SameFile(q: Request, r: Request) {
    q.name == r.name && FilePack(q.domainPack) == FilePack(r.domainPack)
  }

  /** The lookup consults nothing that one of `q` with this session choice would not consult. */
  predicate ConsultsNoMore(l: Lookup, q: Request, session: bool) {
    if l.session then session && l.request == q else SameFile(l.request, q)
  }

  /** No lookup consults more, and with a session the database comes first. */
  predicate LookupsFit(lookups: seq<Lookup>, q: Request, session: bool) {
    && (forall i :: 0 <= i < |lookups| ==> ConsultsNoMore(lookups[i], q, session))
    && (session && lookups != [] ==> lookups[0].session)
  }

  /** Fitting lookups leave what the lookup of `q` itself would find. */
  lemma {:induction false} FittingLookupsFind(store: Store, lookups: seq<Lookup>, q: Request, session: bool)
    requires LookupsFit(lookups, q, session) && lookups != []
    ensures FirstFound(store, lookups) == Uncached(store, session, q)
  {
    var n := |lookups| - 1;
    if n > 0 {
      FittingLookupsFind(store, lookups[..n], q, session);
    } else {
      assert lookups[..0] == [];
    }
    assert ConsultsNoMore(lookups[n], q, session);
  }

  /** A store that knows one row, or one file, and nothing else. */
  function OnlyRow(q: Request): Store {
    Store((x: Request) => if x == q then Some("only") else None, (name: string, pack: Option<string>) => None)
  }

  function OnlyFile(q: Request): Store {
    Store((x: Request) => None,
          (name: string, pack: Option<string>) =>
            if name == q.name && pack == FilePack(q.domainPack) then Some("only") else None)
  }

  /** Where only one text can be found, and some lookup finds it, it is what is first found. */
  lemma {:induction false} OnlyTextIsFound(store: Store, lookups: seq<Lookup>, i: nat)
    requires forall l :: Finds(store, l).None? || Finds(store, l) == Some("only")
    requires i < |lookups| && Finds(store, lookups[i]).Some?
    ensures FirstFound(store, lookups) == Some("only")
  {
    var n := |lookups| - 1;
    if i < n {
      OnlyTextIsFound(store, lookups[..n], i);
    } else {
      NothingElseIsFound(store, lookups[..n]);
    }
  }

  lemma {:induction false} NothingElseIsFound(store: Store, lookups: seq<Lookup>)
    requires forall l :: Finds(store, l).None? || Finds(store, l) == Some("only")
    ensures FirstFound(store, lookups).None? || FirstFound(store, lookups) == Some("only")
  {
    if lookups != [] {
      NothingElseIsFound(store, lookups[..|lookups| - 1]);
    }
  }

  /** A lookup that consults more can find what the lookup of `q` would not. */
  lemma ConsultingMoreMisleads(lookups: seq<Lookup>, q: Request, session: bool, i: nat) returns (store: Store)
    requires i < |lookups| && !ConsultsNoMore(lookups[i], q, session)
    ensures FirstFound(store, lookups) == Some("only") && Uncached(store, session, q) == None
  {
    var l := lookups[i];
    store := if l.session then OnlyRow(l.request) else OnlyFile(l.request);
    OnlyTextIsFound(store, lookups, i);
  }

  /** A database with a row for every request, and a file for every name. */
  function FullStore(): Store {
    Store((q: Request) => Some("row"), (name: string, pack: Option<string>) => Some("file"))
  }

  /** With rows and files for everything, the first lookup decides. */
  lemma {:induction false} FirstLookupDecides(lookups: seq<Lookup>)
    requires lookups != []
    ensures FirstFound(FullStore(), lookups) == Some(if lookups[0].session then "row" else "file")
  {
    if |lookups| > 1 {
      FirstLookupDecides(lookups[..|lookups| - 1]);
    } else {
      assert lookups[..0] == [];
    }
  }

  /** The exact condition for any run of lookups and invalidations, whatever is asked for: a lookup answers as if there
      were no cache, for every store, exactly when the lookups under its key since that was last dropped fit it. */
  lemma MixedRunIsTransparentIff(ops: seq<Op>, q: Request, session: bool)
    ensures (forall store :: AnswersRight(store, ops, q, session))
      <==> LookupsFit(LookupsOf(ops, CacheKey(q)), q, session)
  {
    var lookups := LookupsOf(ops, CacheKey(q));
    if LookupsFit(lookups, q, session) {
      forall store
        ensures AnswersRight(store, ops, q, session)
      {
        CacheHoldsFirstFound(store, ops, CacheKey(q));
        if lookups != [] {
          FittingLookupsFind(store, lookups, q, session);
        }
      }
    } else if i :| 0 <= i < |lookups| && !ConsultsNoMore(lookups[i], q, session) {
      var store := ConsultingMoreMisleads(lookups, q, session, i);
      CacheHoldsFirstFound(store, ops, CacheKey(q));
      assert !AnswersRight(store, ops, q, session);
    } else {
      FirstLookupDecides(lookups);
      CacheHoldsFirstFound(FullStore(), ops, CacheKey(q));
      assert !AnswersRight(FullStore(), ops, q, session);
    }
  }

  /** For canonical requests only lookups of the same request share its key, so the session choices alone decide. */
  lemma {:induction false} CanonicalLookupsAgree(ops: seq<Op>, q: Request)
    requires CanonicalOps(ops) && Canonical(q)
    ensures forall l :: l in LookupsOf(ops, CacheKey(q)) ==> l.request == q
  {
    if ops != [] {
      var n := |ops| - 1;
      CanonicalLookupsAgree(ops[..n], q);
      if ops[n].Get? && CacheKey(ops[n].request) == CacheKey(q) {
        CanonicalKeysInjective(ops[n].request, q);
      }
    }
  }

  /** A witness: a lookup without a session hides the database row from the next one with a session. */
  lemma FileHidesRow(q: Request)
    ensures exists store :: !AnswersRight(store, [Get(q, false)], q, true)
  {
    var ops := [Get(q, false)];
    assert ops[..0] == [];
    assert LookupsOf(ops, CacheKey(q)) == [Lookup(q, false)];
    MixedRunIsTransparentIff(ops, q, true);
  }

  /** Two requests mean the same lookup. */
  predicate SameLookup(session: bool, q: Request, r: Request) {
    if session then q == r else SameFile(q, r)
  }

  ghost predicate AnsweredCorrectlyAfter(store: Store, q: Request, early: bool, r: Request, late: bool) {
    GetStep(GetStep(map[], store, early, q).0, store, late, r).1 == Uncached(store, late, r)
  }

  /** For arbitrary requests: after looking up `q`, the lookup of `r` is right for every store exactly when their keys
      differ, or the session choices agree and the two mean the same lookup. */
  lemma CollisionIsHarmlessIff(q: Request, early: bool, r: Request, late: bool)
    ensures (forall store :: AnsweredCorrectlyAfter(store, q, early, r, late))
      <==> CacheKey(q) != CacheKey(r) || (early == late && SameLookup(late, q, r))
  {
    if CacheKey(q) == CacheKey(r) && early != late {
      assert !AnsweredCorrectlyAfter(FullStore(), q, early, r, late);
    } else if CacheKey(q) == CacheKey(r) && !SameLookup(late, q, r) {
      var store := Store((x: Request) => if x == q then Some("q") else Some("other"),
                         (name: string, pack: Option<string>) =>
                           if name == q.name && pack == FilePack(q.domainPack) then Some("q") else Some("other"));
      assert Uncached(store, early, q) == Some("q") && Uncached(store, late, r) == Some("other");
      assert !AnsweredCorrectlyAfter(store, q, early, r, late);
    }
  }

  // ---- Invalidation ----

  lemma KeyBelongsToName(q: Request, name: string)
    requires FreeOf(':', q.name) && FreeOf(':', name)
    ensures StartsWith(CacheKey(q), name + ":") <==> q.name == name
  {
    var key, rest := CacheKey(q), PackPart(q.domainPack) + ":" + VersionPart(q.version);
    assert key == q.name + [':'] + rest;
    if q.name == name {
      assert key[..|name| + 1] == name + ":";
    }
    if StartsWith(key, name + ":") {
      assert key == name + [':'] + key[|name| + 1..];
      FirstSeparatorSplits(':', q.name, rest, name, key[|name| + 1..]);
    }
  }

  /** `invalidate(name)` drops the entries of that name and keeps every other one. */
  lemma InvalidateIsExact(cache: Cache, name: string, q: Request)
    requires FreeOf(':', name) && FreeOf(':', q.name) && CacheKey(q) in cache
    ensures CacheKey(q) in InvalidateStep(cache, Some(name)) <==> q.name != name
    ensures q.name != name ==> InvalidateStep(cache, Some(name))[CacheKey(q)] == cache[CacheKey(q)]
  {
    KeyBelongsToName(q, name);
  }

  /** What invalidation is for: after the templates of one name change, invalidating that name is enough. */
  lemma InvalidateRestoresTransparency(cache: Cache, before: Store, after: Store, session: bool, name: string)
    requires Faithful(cache, before, session) && FreeOf(':', name)
    requires forall q: Request :: q.name != name ==> Uncached(after, session, q) == Uncached(before, session, q)
    ensures Faithful(InvalidateStep(cache, Some(name)), after, session)
  {
    var cache' := InvalidateStep(cache, Some(name));
    forall q | Canonical(q) && CacheKey(q) in cache'
      ensures Uncached(after, session, q) == Some(cache'[CacheKey(q)])
    {
      InvalidateIsExact(cache, name, q);
    }
  }

  // ---- The registry object ----

  class PromptRegistry {
    var cache: Cache

    constructor ()
      ensures cache == map[]
    {
      cache := map[];
    }

    method GetTemplate(store: Store, session: bool, q: Request) returns (template: Option<string>)
      modifies this
      ensures (cache, template) == GetStep(old(cache), store, session, q)
      ensures old(Faithful(cache, store, session)) && Canonical(q) ==>
        template == Uncached(store, session, q) && Faithful(cache, store, session)
    {
      if Faithful(cache, store, session) && Canonical(q) {
        GetIsTransparent(cache, store, session, q);
      }
      var key := CacheKey(q);
      if key in cache {
        return Some(cache[key]);
      }
      if session {
        template := store.db(q);
        if template.Some? {
          cache := cache[key := template.value];
          return;
        }
      }
      template := store.files(q.name, FilePack(q.domainPack));
      if template.Some? {
        cache := cache[key := template.value];
      }
    }

    method InvalidateName(name: Option<string>)
      modifies this
      ensures cache == InvalidateStep(old(cache), name)
    {
      if name.None? {
        cache := map[];
      } else {
        var toRemove := set k | k in cache && StartsWith(k, name.value + ":");
        cache := cache - toRemove;
      }
    }
  }
}
