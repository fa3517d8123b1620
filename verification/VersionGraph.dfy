/** The version links that `build_control_object` and `supersede_object` leave between control objects. */
module VersionGraph {
  import opened Foundation
  import opened ControlLifecycle

  datatype ControlObjectCreate = ControlObjectCreate(
    displayLabel: string, domain: string, confidence: real,
    evidence: seq<Evidence>, payload: map<string, Opaque>, derivedFrom: seq<Id>)

  datatype BuildError = EmptyLabel | EmptyDomain | ConfidenceOutOfRange

  function BuildFailure(create: ControlObjectCreate): Option<BuildError> {
    if IsBlank(create.displayLabel) then Some(EmptyLabel)
    else if IsBlank(create.domain) then Some(EmptyDomain)
    else if create.confidence < 0.0 || create.confidence > 1.0 then Some(ConfidenceOutOfRange)
    else None
  }

  /** Labels and domains in words: spaces, tabs and line ends alone are refused, a visible ASCII character is enough. */
  lemma BlankInWords(create: ControlObjectCreate)
    ensures (forall c :: c in create.displayLabel ==> c == ' ' || c == '\t' || c == '\n' || c == '\r') ==>
      BuildFailure(create) == Some(EmptyLabel)
    ensures (exists c :: c in create.displayLabel && '!' <= c <= '~') ==>
      && ((forall c :: c in create.domain ==> c == ' ' || c == '\t' || c == '\n' || c == '\r') ==>
        BuildFailure(create) == Some(EmptyDomain))
      && ((exists c :: c in create.domain && '!' <= c <= '~') ==>
        BuildFailure(create) == if 0.0 <= create.confidence <= 1.0 then None else Some(ConfidenceOutOfRange))
  {
  }

  function FreshRecord(tenantId: Id, create: ControlObjectCreate, actor: string, now: int): ControlRecord {
    ControlRecord(tenantId, Draft, 1, create.payload, create.evidence, None, create.derivedFrom,
                  [Audit(actor, "created", now)], now)
  }

  /** A new object can be brought into every one of the nine states, none of the commands being refused. */
  lemma NewObjectReachesEveryState(tenantId: Id, create: ControlObjectCreate, actor: string, now: int,
                                   target: ControlState)
    ensures exists h: seq<ControlRecord>, script: seq<Timed> ::
      && IsAcceptedRun(h, script) && h[0] == FreshRecord(tenantId, create, actor, now)
      && h[|script|].state == target
  {
    var r := FreshRecord(tenantId, create, actor, now);
    var h, script := EveryStateIsReached(r, target, Audit(actor, "", now), now);
  }

  /** The new version `supersede_object` builds before it touches the original. */
  function NextVersion(original: Id, r: ControlRecord, update: ControlObjectCreate, actor: string, now: int)
    : ControlRecord
  {
    FreshRecord(r.tenantId, update, actor, now).(version := r.version + 1, derivedFrom := [original])
  }

  // ---- A heap of control objects, by identity ----

  type Store = map<Id, ControlRecord>

  datatype Event =
    | BuildObject(id: Id, tenantId: Id, create: ControlObjectCreate, actor: string, now: int)
    | Apply(id: Id, command: Command, now: int)
    | SupersedeObject(original: Id, newId: Id, update: ControlObjectCreate, actor: string, now: int)

  /** When the transition is refused the original keeps the dangling link and the new version is dropped. */
  function Superseding(st: Store, original: Id, newId: Id, update: ControlObjectCreate, actor: string, now: int): Store
    requires original in st
  {
    if BuildFailure(update).Some? then st
    else
      var r := st[original];
      var (r', outcome) := Execute(r, Supersede(newId, Audit(actor, "superseded", now)), now);
      var touched := st[original := r'];
      if outcome.Done? then touched[newId := NextVersion(original, r, update, actor, now)] else touched
  }

  function Step(st: Store, e: Event): Store {
    match e
    case BuildObject(id, tenantId, create, actor, now) =>
      if BuildFailure(create).Some? then st else st[id := FreshRecord(tenantId, create, actor, now)]
    case Apply(id, command, now) =>
      if id in st then st[id := Execute(st[id], command, now).0] else st
    case SupersedeObject(original, newId, update, actor, now) =>
      if original in st then Superseding(st, original, newId, update, actor, now) else st
  }

  function Run(st: Store, events: seq<Event>): Store
    decreases |events|
  {
    if events == [] then st else Run(Step(st, events[0]), events[1..])
  }

  predicate CanSupersede(s: ControlState) {
    s == Active || s == Enriched || s == Actioned
  }

  lemma SupersedeSucceedsIff(r: ControlRecord, newVersion: Id, audit: Audit, now: int)
    ensures Execute(r, Supersede(newVersion, audit), now).1 == Done <==> CanSupersede(r.state)
  {
  }

  /** Identities are fresh, SUPERSEDED is entered through `supersede_object` only, and only from a state
      that allows it. */
  predicate Disciplined(st: Store, e: Event) {
    match e
    case BuildObject(id, _, _, _, _) => id !in st
    case Apply(_, command, _) => !command.Supersede? && !(command.Transition? && command.target == Superseded)
    case SupersedeObject(original, newId, update, _, _) =>
      newId !in st && (original in st && BuildFailure(update).None? ==> CanSupersede(st[original].state))
  }

  predicate DisciplinedRun(st: Store, events: seq<Event>)
    decreases |events|
  {
    events != [] ==> Disciplined(st, events[0]) && DisciplinedRun(Step(st, events[0]), events[1..])
  }

  // ---- Well-linked stores ----

  ghost predicate ForwardLink(st: Store, id: Id)
    requires id in st
  {
    st[id].supersededBy.Some? ==>
      var n := st[id].supersededBy.value;
      && n in st
      && st[n].version == st[id].version + 1
      && st[n].derivedFrom == [id]
      && st[n].tenantId == st[id].tenantId
  }

  ghost predicate BackLink(st: Store, id: Id)
    requires id in st
  {
    && st[id].version >= 1
    && (st[id].version > 1 ==>
      && |st[id].derivedFrom| == 1
      && st[id].derivedFrom[0] in st
      && st[st[id].derivedFrom[0]].supersededBy == Some(id))
  }

  ghost predicate WellLinked(st: Store) {
    forall id :: id in st ==>
      && ForwardLink(st, id)
      && BackLink(st, id)
      && (st[id].supersededBy.Some? <==> st[id].state == Superseded)
  }

  lemma CommandKeepsLinks(st: Store, id: Id, command: Command, now: int)
    requires WellLinked(st) && id in st
    requires Disciplined(st, Apply(id, command, now))
    ensures WellLinked(st[id := Execute(st[id], command, now).0])
  {
    var r := Execute(st[id], command, now).0;
    assert r.version == st[id].version && r.derivedFrom == st[id].derivedFrom && r.tenantId == st[id].tenantId;
    assert r.supersededBy == st[id].supersededBy;
    assert r.state == Superseded <==> st[id].state == Superseded;
    var st' := st[id := r];
    forall x | x in st'
      ensures ForwardLink(st', x) && BackLink(st', x) && (st'[x].supersededBy.Some? <==> st'[x].state == Superseded)
    {
      assert ForwardLink(st, x) && BackLink(st, x);
    }
  }

  lemma NewVersionKeepsLinks(st: Store, original: Id, newId: Id, update: ControlObjectCreate, actor: string, now: int)
    requires WellLinked(st) && original in st && newId !in st
    requires BuildFailure(update).None? && CanSupersede(st[original].state)
    ensures WellLinked(Superseding(st, original, newId, update, actor, now))
  {
    var st' := Superseding(st, original, newId, update, actor, now);
    assert st'[original].supersededBy == Some(newId) && st'[newId].supersededBy == None;
    forall x | x in st'
      ensures ForwardLink(st', x) && BackLink(st', x) && (st'[x].supersededBy.Some? <==> st'[x].state == Superseded)
    {
      if x != original && x != newId {
        assert ForwardLink(st, x) && BackLink(st, x);
      } else if x == original {
        assert BackLink(st, x);
      }
    }
  }

  /** The exact condition under which one `supersede_object` call leaves the version graph sound: the build is
      refused (nothing is written) or the original is ACTIVE, ENRICHED or ACTIONED. Any other call raises, yet
      leaves the original pointing at an object that does not exist. */
  lemma SupersedeObjectKeepsLinksIff(st: Store, original: Id, newId: Id, update: ControlObjectCreate, actor: string,
                                     now: int)
    requires WellLinked(st) && original in st && newId !in st
    ensures WellLinked(Superseding(st, original, newId, update, actor, now))
      <==> BuildFailure(update).Some? || CanSupersede(st[original].state)
  {
    if BuildFailure(update).None? && CanSupersede(st[original].state) {
      NewVersionKeepsLinks(st, original, newId, update, actor, now);
    } else if BuildFailure(update).None? {
      assert !ForwardLink(Superseding(st, original, newId, update, actor, now), original);
    }
  }

  lemma StepKeepsLinks(st: Store, e: Event)
    requires WellLinked(st) && Disciplined(st, e)
    ensures WellLinked(Step(st, e))
  {
    match e
    case BuildObject(id, tenantId, create, actor, now) =>
      if BuildFailure(create).None? {
        var st' := Step(st, e);
        forall x | x in st'
          ensures ForwardLink(st', x) && BackLink(st', x) && (st'[x].supersededBy.Some? <==> st'[x].state == Superseded)
        {
          if x != id {
            assert ForwardLink(st, x) && BackLink(st, x);
          }
        }
      }
    case Apply(id, command, now) =>
      if id in st {
        CommandKeepsLinks(st, id, command, now);
      }
    case SupersedeObject(original, newId, update, actor, now) =>
      if original in st {
        SupersedeObjectKeepsLinksIff(st, original, newId, update, actor, now);
      }
  }

  /** Every store reachable from an empty one by a disciplined run is well linked. */
  lemma {:induction false} ReachableStoresAreWellLinked(st: Store, events: seq<Event>)
    requires WellLinked(st) && DisciplinedRun(st, events)
    ensures WellLinked(Run(st, events))
    decreases |events|
  {
    if events != [] {
      StepKeepsLinks(st, events[0]);
      ReachableStoresAreWellLinked(Step(st, events[0]), events[1..]);
    }
  }

  // ---- The shape of a well-linked store ----

  /** The versions from the first one up to `id`. */
  ghost function Lineage(st: Store, id: Id): seq<Id>
    requires WellLinked(st) && id in st
    decreases st[id].version
  {
    assert BackLink(st, id);
    if st[id].version == 1 then [id]
    else
      assert ForwardLink(st, st[id].derivedFrom[0]);
      Lineage(st, st[id].derivedFrom[0]) + [id]
  }

  /** Version is one plus the distance from the root; links are mutually inverse; one tenant throughout; every
      version but possibly the last is SUPERSEDED. */
  ghost predicate IsChain(st: Store, l: seq<Id>) {
    && (forall k :: 0 <= k < |l| ==> l[k] in st && st[l[k]].version == k + 1)
    && (forall k :: 0 <= k < |l| - 1 ==>
      && st[l[k]].state == Superseded
      && st[l[k]].supersededBy == Some(l[k + 1])
      && st[l[k + 1]].derivedFrom == [l[k]]
      && st[l[k + 1]].tenantId == st[l[k]].tenantId)
  }

  lemma {:induction false} LineageIsChain(st: Store, id: Id)
    requires WellLinked(st) && id in st
    ensures IsChain(st, Lineage(st, id))
    ensures |Lineage(st, id)| == st[id].version && Lineage(st, id)[st[id].version - 1] == id
    decreases st[id].version
  {
    assert BackLink(st, id);
    if st[id].version > 1 {
      assert ForwardLink(st, st[id].derivedFrom[0]);
      LineageIsChain(st, st[id].derivedFrom[0]);
    }
  }

  /** No version occurs twice on a lineage: supersession has no cycles. */
  lemma LineageIsSimple(st: Store, id: Id)
    requires WellLinked(st) && id in st
    ensures forall i, j :: 0 <= i < j < |Lineage(st, id)| ==> Lineage(st, id)[i] != Lineage(st, id)[j]
  {
    LineageIsChain(st, id);
  }

  lemma {:induction false} ChainsAgreeAt(st: Store, la: seq<Id>, lb: seq<Id>, i: nat, k: nat)
    requires IsChain(st, la) && IsChain(st, lb)
    requires i < |la| <= |lb| && k < |la| && la[i] == lb[i]
    ensures la[k] == lb[k]
    decreases if i < k then k - i else i - k
  {
    if k < i {
      ChainsAgreeAt(st, la, lb, i, k + 1);
      assert [la[k]] == st[la[k + 1]].derivedFrom == [lb[k]];
    } else if i < k {
      ChainsAgreeAt(st, la, lb, i, k - 1);
      assert st[la[k - 1]].supersededBy == Some(la[k - 1 + 1]) == Some(lb[k - 1 + 1]);
    }
  }

  lemma ChainsMeetAlongOne(st: Store, la: seq<Id>, lb: seq<Id>, x: Id)
    requires IsChain(st, la) && IsChain(st, lb) && |la| <= |lb|
    requires x in la && x in lb
    ensures la <= lb
  {
    var i :| 0 <= i < |la| && la[i] == x;
    var j :| 0 <= j < |lb| && lb[j] == x;
    assert i + 1 == st[x].version == j + 1;
    forall k | 0 <= k < |la|
      ensures la[k] == lb[k]
    {
      ChainsAgreeAt(st, la, lb, i, k);
    }
  }

  /** Two lineages that share a version are on the same chain: the shorter one is a prefix of the longer. */
  lemma LineagesMeetAlongOneChain(st: Store, a: Id, b: Id, x: Id)
    requires WellLinked(st) && a in st && b in st
    requires x in Lineage(st, a) && x in Lineage(st, b)
    requires st[a].version <= st[b].version
    ensures Lineage(st, a) <= Lineage(st, b)
  {
    LineageIsChain(st, a);
    LineageIsChain(st, b);
    ChainsMeetAlongOne(st, Lineage(st, a), Lineage(st, b), x);
  }

  lemma {:induction false} DistinctMembersFit(s: seq<Id>, keys: set<Id>)
    requires forall i :: 0 <= i < |s| ==> s[i] in keys
    requires forall i, j :: 0 <= i < j < |s| ==> s[i] != s[j]
    ensures |s| <= |keys|
  {
    if s != [] {
      var last := s[|s| - 1];
      DistinctMembersFit(s[..|s| - 1], keys - {last});
    }
  }

  lemma VersionsAreBounded(st: Store, id: Id)
    requires WellLinked(st) && id in st
    ensures st[id].version <= |st|
  {
    LineageIsChain(st, id);
    LineageIsSimple(st, id);
    DistinctMembersFit(Lineage(st, id), st.Keys);
  }

  /** The newest version reached by following `superseded_by`. */
  ghost function Tip(st: Store, id: Id): (t: Id)
    requires WellLinked(st) && id in st
    ensures t in st && st[t].state != Superseded
    decreases |st| - st[id].version
  {
    if st[id].supersededBy.None? then id
    else
      assert ForwardLink(st, id);
      VersionsAreBounded(st, st[id].supersededBy.value);
      Tip(st, st[id].supersededBy.value)
  }

  lemma {:induction false} TipContinuesLineage(st: Store, id: Id)
    requires WellLinked(st) && id in st
    ensures Lineage(st, id) <= Lineage(st, Tip(st, id))
    decreases |st| - st[id].version
  {
    if st[id].supersededBy.Some? {
      var n := st[id].supersededBy.value;
      assert ForwardLink(st, id) && BackLink(st, n);
      VersionsAreBounded(st, n);
      TipContinuesLineage(st, n);
      assert Lineage(st, n) == Lineage(st, id) + [n];
    }
  }

  /** Supersession partitions the store into disjoint simple chains: every object lies on the lineage of exactly
      one object that is not SUPERSEDED, its tip. */
  lemma EveryObjectIsOnExactlyOneChain(st: Store, id: Id, t: Id)
    requires WellLinked(st) && id in st && t in st
    ensures st[t].state != Superseded && id in Lineage(st, t) <==> t == Tip(st, id)
  {
    TipContinuesLineage(st, id);
    LineageIsChain(st, id);
    var tip := Tip(st, id);
    assert id == Lineage(st, id)[|Lineage(st, id)| - 1] == Lineage(st, tip)[|Lineage(st, id)| - 1];
    if st[t].state != Superseded && id in Lineage(st, t) {
      var (a, b) := if st[t].version <= st[tip].version then (t, tip) else (tip, t);
      LineagesMeetAlongOneChain(st, a, b, id);
      LineageIsChain(st, a);
      LineageIsChain(st, b);
      assert Lineage(st, b)[|Lineage(st, a)| - 1] == a;
    }
  }
}
