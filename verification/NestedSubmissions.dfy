/** Executors that submit to the gate while they run: what every run still keeps when it is at rest, and exactly when
    the two logs stay in step. */
module NestedSubmissions {
  import opened Foundation
  import opened Sequences
  import opened ValidationChain
  import opened ReleaseGate

  // ---- The submissions of a run ----

  /** The submissions made during one call of `submit`, in the order they start. */
  function Made(cfg: Config, sub: Submission): seq<Submission>
    decreases sub
  {
    [sub]
    + if VerdictOn(cfg, sub).Certified? && sub.executor.Some? then MadeAll(cfg, sub.executor.value.nested) else []
  }

  function MadeAll(cfg: Config, subs: seq<Submission>): seq<Submission>
    decreases subs
  {
    if subs == [] then [] else MadeAll(cfg, subs[..|subs| - 1]) + Made(cfg, subs[|subs| - 1])
  }

  /** The same submissions in the order they end. */
  function Closed(cfg: Config, sub: Submission): seq<Submission>
    decreases sub
  {
    (if VerdictOn(cfg, sub).Certified? && sub.executor.Some? then ClosedAll(cfg, sub.executor.value.nested) else [])
    + [sub]
  }

  function ClosedAll(cfg: Config, subs: seq<Submission>): seq<Submission>
    decreases subs
  {
    if subs == [] then [] else ClosedAll(cfg, subs[..|subs| - 1]) + Closed(cfg, subs[|subs| - 1])
  }

  lemma {:induction false} ClosedRearrangesMade(cfg: Config, sub: Submission)
    ensures multiset(Closed(cfg, sub)) == multiset(Made(cfg, sub))
    decreases sub
  {
    if VerdictOn(cfg, sub).Certified? && sub.executor.Some? {
      ClosedAllRearrangesMade(cfg, sub.executor.value.nested);
    }
  }

  /** What ends is what started. */
  lemma {:induction false} ClosedAllRearrangesMade(cfg: Config, subs: seq<Submission>)
    ensures multiset(ClosedAll(cfg, subs)) == multiset(MadeAll(cfg, subs))
    decreases subs
  {
    if subs != [] {
      ClosedAllRearrangesMade(cfg, subs[..|subs| - 1]);
      ClosedRearrangesMade(cfg, subs[|subs| - 1]);
    }
  }

  // ---- What each submission leaves behind ----

  function Processing(cfg: Config): Submission -> seq<(Request, Verdict)> {
    (sub: Submission) => [(Wrap(cfg, sub), VerdictOn(cfg, sub))]
  }

  function Logging(cfg: Config): Submission -> seq<LogEntry> {
    (sub: Submission) => if EntryOf(cfg, sub).Some? then [EntryOf(cfg, sub).value] else []
  }

  function Storing(cfg: Config): Submission -> seq<Package> {
    (sub: Submission) =>
      if VerdictOn(cfg, sub).Certified? then [Compile(cfg, sub, VerdictOn(cfg, sub).certificate)] else []
  }

  function Calling(cfg: Config): Submission -> seq<Call> {
    (sub: Submission) =>
      if VerdictOn(cfg, sub).Certified? && sub.executor.Some? then [Call(sub.packageId, sub.payload)] else []
  }

  function Stored(store: map<string, Package>, added: seq<Package>): map<string, Package> {
    if added == [] then store
    else Stored(store, added[..|added| - 1])[added[|added| - 1].packageId := added[|added| - 1]]
  }

  /** The state after submissions that started as `made` and ended as `closed`. */
  function Extended(cfg: Config, s: GateState, made: seq<Submission>, closed: seq<Submission>): GateState {
    GateState(s.processed + FlatMap(Processing(cfg), made), s.auditLog + FlatMap(Logging(cfg), closed),
              Stored(s.packages, FlatMap(Storing(cfg), made)), s.calls + FlatMap(Calling(cfg), made))
  }

  lemma {:induction false} StoredSplits(store: map<string, Package>, a: seq<Package>, b: seq<Package>)
    ensures Stored(store, a + b) == Stored(Stored(store, a), b)
  {
    if b == [] {
      assert a + b == a;
    } else {
      StoredSplits(store, a, b[..|b| - 1]);
      assert (a + b)[..|a + b| - 1] == a + b[..|b| - 1];
    }
  }

  lemma ExtendedTwice(cfg: Config, s: GateState, m: seq<Submission>, c: seq<Submission>, m': seq<Submission>,
                      c': seq<Submission>)
    ensures Extended(cfg, Extended(cfg, s, m, c), m', c') == Extended(cfg, s, m + m', c + c')
  {
    FlatMapAppends(s.processed, Processing(cfg), m, m');
    FlatMapAppends(s.auditLog, Logging(cfg), c, c');
    FlatMapAppends(s.calls, Calling(cfg), m, m');
    FlatMapSplits(Storing(cfg), m, m');
    StoredSplits(s.packages, FlatMap(Storing(cfg), m), FlatMap(Storing(cfg), m'));
  }

  lemma StartedExtends(cfg: Config, s: GateState, sub: Submission)
    ensures Started(cfg, s, sub) == Extended(cfg, s, [sub], [])
  {
    FlatMapOne(Processing(cfg), sub);
    FlatMapOne(Storing(cfg), sub);
    FlatMapOne(Calling(cfg), sub);
    if VerdictOn(cfg, sub).Certified? {
      var p := Compile(cfg, sub, VerdictOn(cfg, sub).certificate);
      assert Stored(s.packages, [p]) == Stored(s.packages, [p][..0])[p.packageId := p];
    }
  }

  function Logged(cfg: Config, s: GateState, sub: Submission): GateState {
    if EntryOf(cfg, sub).Some? then s.(auditLog := s.auditLog + [EntryOf(cfg, sub).value]) else s
  }

  lemma LoggedExtends(cfg: Config, s: GateState, sub: Submission)
    ensures Logged(cfg, s, sub) == Extended(cfg, s, [], [sub])
  {
    FlatMapOne(Logging(cfg), sub);
  }

  /** Starting, the executor's own submissions, and logging, put together. */
  lemma PhasesExtend(cfg: Config, s: GateState, sub: Submission, made: seq<Submission>, closed: seq<Submission>)
    ensures Logged(cfg, Extended(cfg, Started(cfg, s, sub), made, closed), sub)
      == Extended(cfg, s, [sub] + made, closed + [sub])
  {
    StartedExtends(cfg, s, sub);
    var all := [sub] + made;
    assert [] + closed == closed && all + [] == all;
    ExtendedTwice(cfg, s, [sub], [], made, closed);
    LoggedExtends(cfg, Extended(cfg, s, all, closed), sub);
    ExtendedTwice(cfg, s, all, closed, [], [sub]);
  }

  lemma ExtendedByNothing(cfg: Config, s: GateState)
    ensures Extended(cfg, s, [], []) == s
  {
  }

  lemma {:induction false} SubmittedExtends(cfg: Config, s: GateState, sub: Submission)
    ensures Submitted(cfg, s, sub).0 == Extended(cfg, s, Made(cfg, sub), Closed(cfg, sub))
    decreases sub
  {
    var s1 := Started(cfg, s, sub);
    if VerdictOn(cfg, sub).Certified? && sub.executor.Some? {
      var nested := sub.executor.value.nested;
      RunExtends(cfg, s1, nested);
      PhasesExtend(cfg, s, sub, MadeAll(cfg, nested), ClosedAll(cfg, nested));
      assert Submitted(cfg, s, sub).0 == Logged(cfg, RunGate(cfg, s1, nested), sub);
    } else {
      ExtendedByNothing(cfg, s1);
      PhasesExtend(cfg, s, sub, [], []);
      assert Submitted(cfg, s, sub).0 == Logged(cfg, s1, sub);
    }
  }

  /** Every run: requests are processed, packages stored and executors called in the order the submissions start;
      entries are logged in the order they end. */
  lemma {:induction false} RunExtends(cfg: Config, s: GateState, subs: seq<Submission>)
    ensures RunGate(cfg, s, subs) == Extended(cfg, s, MadeAll(cfg, subs), ClosedAll(cfg, subs))
    decreases subs
  {
    if subs != [] {
      var front, last := subs[..|subs| - 1], subs[|subs| - 1];
      RunExtends(cfg, s, front);
      SubmittedExtends(cfg, RunGate(cfg, s, front), last);
      ExtendedTwice(cfg, s, MadeAll(cfg, front), ClosedAll(cfg, front), Made(cfg, last), Closed(cfg, last));
    }
  }

  // ---- Fresh identifiers ----

  function PackageId(): Submission -> seq<string> {
    (sub: Submission) => [sub.packageId]
  }

  function CertificateId(): Submission -> seq<string> {
    (sub: Submission) => [sub.draw.certificateId]
  }

  ghost predicate DistinctIds(id: Submission -> seq<string>, subs: seq<Submission>) {
    Distinct(FlatMap(id, subs))
  }

  lemma DistinctIdsAt(id: Submission -> seq<string>, subs: seq<Submission>, i: nat, j: nat)
    requires DistinctIds(id, subs) && i < j < |subs|
    requires forall sub :: |id(sub)| == 1
    ensures id(subs[i])[0] != id(subs[j])[0]
  {
    FlatMapSingles(id, subs);
    assert FlatMap(id, subs)[i] != FlatMap(id, subs)[j];
  }

  lemma DistinctIdsAnyOrder(id: Submission -> seq<string>, a: seq<Submission>, b: seq<Submission>)
    requires DistinctIds(id, a) && multiset(a) == multiset(b)
    ensures DistinctIds(id, b)
  {
    FlatMapIgnoresOrder(id, a, b);
    PermutationKeepsDistinct(FlatMap(id, a), FlatMap(id, b));
  }

  lemma SameMembers(a: seq<Submission>, b: seq<Submission>)
    requires multiset(a) == multiset(b)
    ensures |a| == |b| && forall x :: x in a <==> x in b
  {
    assert |a| == |multiset(a)| == |multiset(b)| == |b|;
    assert forall x :: x in a <==> x in multiset(a);
    assert forall x :: x in b <==> x in multiset(b);
  }

  lemma PositionIn(a: seq<Submission>, b: seq<Submission>, i: nat) returns (j: nat)
    requires multiset(a) == multiset(b) && i < |a|
    ensures j < |b| && b[j] == a[i]
  {
    assert a[i] in multiset(a);
    assert a[i] in b;
    j :| 0 <= j < |b| && b[j] == a[i];
  }

  // ---- The package store ----

  lemma {:induction false} StoredMembers(store: map<string, Package>, added: seq<Package>, id: string)
    ensures id in Stored(store, added) <==> id in store || exists i :: 0 <= i < |added| && added[i].packageId == id
    ensures id in Stored(store, added) ==>
      (id in store && Stored(store, added)[id] == store[id])
      || exists i :: 0 <= i < |added| && added[i] == Stored(store, added)[id] && added[i].packageId == id
  {
    if added != [] {
      var n := |added| - 1;
      StoredMembers(store, added[..n], id);
      assert forall i :: 0 <= i < n ==> added[..n][i] == added[i];
    }
  }

  ghost predicate CertifiedUnder(cfg: Config, subs: seq<Submission>, id: string, i: int) {
    0 <= i < |subs| && VerdictOn(cfg, subs[i]).Certified? && subs[i].packageId == id
  }

  function PackageFor(cfg: Config, sub: Submission): Package
    requires VerdictOn(cfg, sub).Certified?
  {
    Compile(cfg, sub, VerdictOn(cfg, sub).certificate)
  }

  lemma StoredOneOf(cfg: Config, made: seq<Submission>, p: Package) returns (i: nat)
    requires p in FlatMap(Storing(cfg), made)
    ensures CertifiedUnder(cfg, made, p.packageId, i) && p == PackageFor(cfg, made[i])
  {
    FlatMapMembers(Storing(cfg), made, p);
    i :| 0 <= i < |made| && p in Storing(cfg)(made[i]);
  }

  lemma EachIsStored(cfg: Config, made: seq<Submission>, i: nat)
    requires i < |made| && VerdictOn(cfg, made[i]).Certified?
    ensures PackageFor(cfg, made[i]) in FlatMap(Storing(cfg), made)
  {
    var p := PackageFor(cfg, made[i]);
    assert Storing(cfg)(made[i]) == [p];
    FlatMapMembers(Storing(cfg), made, p);
  }

  function StoreOf(cfg: Config, made: seq<Submission>): map<string, Package> {
    Stored(map[], FlatMap(Storing(cfg), made))
  }

  /** A stored package is that of a certified submission ... */
  lemma PackageHasSubmission(cfg: Config, made: seq<Submission>, id: string) returns (i: nat)
    requires id in StoreOf(cfg, made)
    ensures CertifiedUnder(cfg, made, id, i) && StoreOf(cfg, made)[id] == PackageFor(cfg, made[i])
  {
    var added := FlatMap(Storing(cfg), made);
    StoredMembers(map[], added, id);
    var k :| 0 <= k < |added| && added[k] == Stored(map[], added)[id] && added[k].packageId == id;
    i := StoredOneOf(cfg, made, added[k]);
  }

  /** ... and every certified submission has one. */
  lemma SubmissionHasPackage(cfg: Config, made: seq<Submission>, i: nat)
    requires i < |made| && VerdictOn(cfg, made[i]).Certified?
    ensures made[i].packageId in StoreOf(cfg, made)
  {
    var added, p := FlatMap(Storing(cfg), made), PackageFor(cfg, made[i]);
    EachIsStored(cfg, made, i);
    var k :| 0 <= k < |added| && added[k] == p;
    StoredMembers(map[], added, p.packageId);
  }

  /** Over every run, whatever its executors submit: a stored package is that of a submission made during the run that
      nothing blocks, field by field. */
  lemma StoredPackagesAreTold(cfg: Config, subs: seq<Submission>, id: string) returns (i: nat)
    requires id in RunGate(cfg, EMPTY_GATE, subs).packages
    ensures i < |MadeAll(cfg, subs)| && MadeAll(cfg, subs)[i].packageId == id
    ensures BlockingReason(cfg.policies, MadeAll(cfg, subs)[i]).None?
    ensures RunGate(cfg, EMPTY_GATE, subs).packages[id] == PackageOf(cfg, MadeAll(cfg, subs)[i])
  {
    RunExtends(cfg, EMPTY_GATE, subs);
    i := PackageHasSubmission(cfg, MadeAll(cfg, subs), id);
    VerdictIsTold(cfg, MadeAll(cfg, subs)[i]);
    PackageIsTold(cfg, MadeAll(cfg, subs)[i]);
  }

  // ---- What every run keeps at rest ----

  ghost predicate AllRecordable(cfg: Config, subs: seq<Submission>) {
    forall i :: 0 <= i < |subs| ==> Recordable(cfg, subs[i])
  }

  /** The stored package was compiled for a processed, certified request, with all five checks. */
  ghost predicate SoundPackage(cfg: Config, s: GateState, id: string, i: int)
    requires id in s.packages
  {
    var p := s.packages[id];
    && 0 <= i < |s.processed| && s.processed[i].1 == Certified(p.certificate)
    && p.packageId == id && p.certificate.checksPassed == ALL_CHECKS
    && p.certificate.validForActionType == p.actionType == s.processed[i].0.actionType
    && VerifyIntegrity(cfg.text, p)
  }

  ghost predicate RanFor(log: seq<LogEntry>, id: string, i: int) {
    0 <= i < |log| && Executed(log[i]) && log[i].packageId == id
  }

  ghost predicate HasRun(log: seq<LogEntry>, id: string) {
    exists i :: RanFor(log, id, i)
  }

  ghost predicate CalledFor(calls: seq<Call>, id: string, i: int) {
    0 <= i < |calls| && calls[i].packageId == id
  }

  ghost predicate WasCalled(calls: seq<Call>, id: string) {
    exists i :: CalledFor(calls, id, i)
  }

  ghost predicate PackagesSound(cfg: Config, s: GateState) {
    forall id :: id in s.packages ==> exists i :: SoundPackage(cfg, s, id, i)
  }

  ghost predicate CalledOnce(calls: seq<Call>) {
    forall i, j :: 0 <= i < j < |calls| ==> calls[i].packageId != calls[j].packageId
  }

  /** The executors called are those of the DISPATCHED and FAILED entries, once each. */
  ghost predicate CallsMatch(s: GateState) {
    && (forall id :: WasCalled(s.calls, id) <==> HasRun(s.auditLog, id))
    && CalledOnce(s.calls)
  }

  ghost predicate ReleasedAreStored(s: GateState) {
    forall i :: Released(s.auditLog, i) ==> s.auditLog[i].packageId in s.packages
  }

  /** Between submissions: as many entries as processed requests, the stored packages those of the released entries and
      each sound, and the executors called those of the executed entries. */
  ghost predicate AtRest(cfg: Config, s: GateState) {
    && |s.auditLog| == |s.processed|
    && StoreMatches(s) && ReleasedAreStored(s) && PackagesSound(cfg, s)
    && CallsMatch(s)
  }

  lemma ProcessedOne(cfg: Config, made: seq<Submission>)
    ensures var processed := FlatMap(Processing(cfg), made);
      && |processed| == |made|
      && forall i :: 0 <= i < |made| ==> processed[i] == (Wrap(cfg, made[i]), VerdictOn(cfg, made[i]))
  {
    FlatMapSingles(Processing(cfg), made);
  }

  lemma LoggedOne(cfg: Config, closed: seq<Submission>)
    requires AllRecordable(cfg, closed)
    ensures var log := FlatMap(Logging(cfg), closed);
      && |log| == |closed|
      && forall i :: 0 <= i < |closed| ==> EntryOf(cfg, closed[i]) == Some(log[i])
  {
    FlatMapSingles(Logging(cfg), closed);
  }

  lemma EntryShape(cfg: Config, sub: Submission)
    requires Recordable(cfg, sub)
    ensures EntryOf(cfg, sub).Some?
    ensures var entry := EntryOf(cfg, sub).value;
      && (entry.status != Blocked <==> VerdictOn(cfg, sub).Certified?)
      && (entry.status != Blocked ==> entry.packageId == sub.packageId)
      && (Executed(entry) <==> VerdictOn(cfg, sub).Certified? && sub.executor.Some?)
  {
  }

  /** The released entries are those of the certified submissions, under their package ids. */
  lemma ReleasedIff(cfg: Config, closed: seq<Submission>, id: string, i: int)
    requires AllRecordable(cfg, closed)
    ensures var log := FlatMap(Logging(cfg), closed);
      Released(log, i) && log[i].packageId == id <==> CertifiedUnder(cfg, closed, id, i)
  {
    LoggedOne(cfg, closed);
    if 0 <= i < |closed| {
      EntryShape(cfg, closed[i]);
    }
  }

  lemma ReleasedIdsDiffer(cfg: Config, closed: seq<Submission>, i: nat, j: nat)
    requires AllRecordable(cfg, closed) && DistinctIds(PackageId(), closed) && i < j
    requires Released(FlatMap(Logging(cfg), closed), i) && Released(FlatMap(Logging(cfg), closed), j)
    ensures FlatMap(Logging(cfg), closed)[i].packageId != FlatMap(Logging(cfg), closed)[j].packageId
  {
    var log := FlatMap(Logging(cfg), closed);
    ReleasedIff(cfg, closed, log[i].packageId, i);
    ReleasedIff(cfg, closed, log[j].packageId, j);
    DistinctIdsAt(PackageId(), closed, i, j);
  }

  lemma RestingStoreMatches(cfg: Config, made: seq<Submission>, closed: seq<Submission>)
    requires multiset(made) == multiset(closed) && AllRecordable(cfg, closed) && DistinctIds(PackageId(), closed)
    ensures StoreMatches(Extended(cfg, EMPTY_GATE, made, closed))
  {
    var s, log := Extended(cfg, EMPTY_GATE, made, closed), FlatMap(Logging(cfg), closed);
    assert s.auditLog == log && s.packages == StoreOf(cfg, made);
    forall id | id in s.packages
      ensures exists i :: Released(log, i) && log[i].packageId == id
    {
      var k := PackageHasSubmission(cfg, made, id);
      var i := PositionIn(made, closed, k);
      ReleasedIff(cfg, closed, id, i);
    }
    forall i, j | Released(log, i) && Released(log, j) && i != j
      ensures log[i].packageId != log[j].packageId
    {
      ReleasedIdsDiffer(cfg, closed, if i < j then i else j, if i < j then j else i);
    }
  }

  lemma RestingEntriesAreStored(cfg: Config, made: seq<Submission>, closed: seq<Submission>)
    requires multiset(made) == multiset(closed) && AllRecordable(cfg, closed)
    ensures ReleasedAreStored(Extended(cfg, EMPTY_GATE, made, closed))
  {
    var s, log := Extended(cfg, EMPTY_GATE, made, closed), FlatMap(Logging(cfg), closed);
    assert s.auditLog == log && s.packages == StoreOf(cfg, made);
    forall i | Released(log, i)
      ensures log[i].packageId in s.packages
    {
      ReleasedIff(cfg, closed, log[i].packageId, i);
      var k := PositionIn(closed, made, i);
      SubmissionHasPackage(cfg, made, k);
    }
  }

  lemma RestingPackagesAreSound(cfg: Config, made: seq<Submission>, closed: seq<Submission>)
    ensures PackagesSound(cfg, Extended(cfg, EMPTY_GATE, made, closed))
  {
    var s := Extended(cfg, EMPTY_GATE, made, closed);
    ProcessedOne(cfg, made);
    assert s.processed == FlatMap(Processing(cfg), made) && s.packages == StoreOf(cfg, made);
    forall id | id in s.packages
      ensures exists i :: SoundPackage(cfg, s, id, i)
    {
      var i := PackageHasSubmission(cfg, made, id);
      assert SoundPackage(cfg, s, id, i);
    }
  }

  ghost predicate CallsUnder(cfg: Config, subs: seq<Submission>, id: string, i: int) {
    CertifiedUnder(cfg, subs, id, i) && subs[i].executor.Some?
  }

  lemma CallHasSubmission(cfg: Config, made: seq<Submission>, k: nat) returns (i: nat)
    requires k < |FlatMap(Calling(cfg), made)|
    ensures CallsUnder(cfg, made, FlatMap(Calling(cfg), made)[k].packageId, i)
  {
    var calls := FlatMap(Calling(cfg), made);
    FlatMapMembers(Calling(cfg), made, calls[k]);
    i :| 0 <= i < |made| && calls[k] in Calling(cfg)(made[i]);
  }

  lemma SubmissionHasCall(cfg: Config, made: seq<Submission>, id: string, i: nat)
    requires CallsUnder(cfg, made, id, i)
    ensures WasCalled(FlatMap(Calling(cfg), made), id)
  {
    var calls, call := FlatMap(Calling(cfg), made), Call(id, made[i].payload);
    assert Calling(cfg)(made[i]) == [call];
    FlatMapMembers(Calling(cfg), made, call);
    var k :| 0 <= k < |calls| && calls[k] == call;
    assert CalledFor(calls, id, k);
  }

  lemma RanIff(cfg: Config, closed: seq<Submission>, id: string, i: int)
    requires AllRecordable(cfg, closed)
    ensures RanFor(FlatMap(Logging(cfg), closed), id, i) <==> CallsUnder(cfg, closed, id, i)
  {
    LoggedOne(cfg, closed);
    if 0 <= i < |closed| {
      EntryShape(cfg, closed[i]);
    }
  }

  lemma CalledIffRan(cfg: Config, made: seq<Submission>, closed: seq<Submission>, id: string)
    requires multiset(made) == multiset(closed) && AllRecordable(cfg, closed)
    ensures WasCalled(FlatMap(Calling(cfg), made), id) <==> HasRun(FlatMap(Logging(cfg), closed), id)
  {
    var calls, log := FlatMap(Calling(cfg), made), FlatMap(Logging(cfg), closed);
    if WasCalled(calls, id) {
      var k :| CalledFor(calls, id, k);
      var i := CallHasSubmission(cfg, made, k);
      var j := PositionIn(made, closed, i);
      RanIff(cfg, closed, id, j);
    }
    if HasRun(log, id) {
      var j :| RanFor(log, id, j);
      RanIff(cfg, closed, id, j);
      var i := PositionIn(closed, made, j);
      SubmissionHasCall(cfg, made, id, i);
    }
  }

  lemma DistinctFront(id: Submission -> seq<string>, subs: seq<Submission>)
    requires DistinctIds(id, subs) && subs != []
    ensures DistinctIds(id, subs[..|subs| - 1])
  {
    var front, all := FlatMap(id, subs[..|subs| - 1]), FlatMap(id, subs);
    assert forall i :: 0 <= i < |front| ==> front[i] == all[i];
  }

  lemma {:induction false} EachExecutorIsCalledOnce(cfg: Config, made: seq<Submission>)
    requires DistinctIds(PackageId(), made)
    ensures CalledOnce(FlatMap(Calling(cfg), made))
  {
    if made != [] {
      var n := |made| - 1;
      var front, last := FlatMap(Calling(cfg), made[..n]), Calling(cfg)(made[n]);
      DistinctFront(PackageId(), made);
      EachExecutorIsCalledOnce(cfg, made[..n]);
      forall i | 0 <= i < |front| && last != []
        ensures front[i].packageId != last[0].packageId
      {
        var k := CallHasSubmission(cfg, made[..n], i);
        DistinctIdsAt(PackageId(), made, k, n);
      }
      assert FlatMap(Calling(cfg), made) == front + last;
    }
  }

  lemma RestingCallsMatch(cfg: Config, made: seq<Submission>, closed: seq<Submission>)
    requires multiset(made) == multiset(closed) && AllRecordable(cfg, closed) && DistinctIds(PackageId(), made)
    ensures CallsMatch(Extended(cfg, EMPTY_GATE, made, closed))
  {
    var s := Extended(cfg, EMPTY_GATE, made, closed);
    assert s.auditLog == FlatMap(Logging(cfg), closed) && s.calls == FlatMap(Calling(cfg), made);
    forall id
      ensures WasCalled(s.calls, id) <==> HasRun(s.auditLog, id)
    {
      CalledIffRan(cfg, made, closed, id);
    }
    EachExecutorIsCalledOnce(cfg, made);
  }

  lemma RestingLogsHaveOneLength(cfg: Config, made: seq<Submission>, closed: seq<Submission>)
    requires multiset(made) == multiset(closed) && AllRecordable(cfg, closed)
    ensures var s := Extended(cfg, EMPTY_GATE, made, closed); |s.auditLog| == |s.processed|
  {
    ProcessedOne(cfg, made);
    LoggedOne(cfg, closed);
    SameMembers(made, closed);
  }

  lemma RecordableAnyOrder(cfg: Config, made: seq<Submission>, closed: seq<Submission>)
    requires multiset(made) == multiset(closed) && AllRecordable(cfg, made)
    ensures AllRecordable(cfg, closed)
  {
    forall j | 0 <= j < |closed|
      ensures Recordable(cfg, closed[j])
    {
      var i := PositionIn(closed, made, j);
    }
  }

  /** Every run of recordable submissions with fresh package ids, whatever its executors submit, is sound at rest. */
  lemma EveryRunIsSoundAtRest(cfg: Config, subs: seq<Submission>)
    requires AllRecordable(cfg, MadeAll(cfg, subs)) && DistinctIds(PackageId(), MadeAll(cfg, subs))
    ensures AtRest(cfg, RunGate(cfg, EMPTY_GATE, subs))
  {
    var made, closed := MadeAll(cfg, subs), ClosedAll(cfg, subs);
    RunExtends(cfg, EMPTY_GATE, subs);
    ClosedAllRearrangesMade(cfg, subs);
    RecordableAnyOrder(cfg, made, closed);
    DistinctIdsAnyOrder(PackageId(), made, closed);
    RestingLogsHaveOneLength(cfg, made, closed);
    RestingStoreMatches(cfg, made, closed);
    RestingEntriesAreStored(cfg, made, closed);
    RestingPackagesAreSound(cfg, made, closed);
    RestingCallsMatch(cfg, made, closed);
  }

  // ---- What the logs of every run say ----

  /** Processed entry `i` is decided by the submission that started as number `i` alone. */
  lemma EveryRunProcessesWhatStarts(cfg: Config, subs: seq<Submission>)
    ensures var made, processed := MadeAll(cfg, subs), RunGate(cfg, EMPTY_GATE, subs).processed;
      && |processed| == |made|
      && forall i :: 0 <= i < |made| ==> processed[i] == (Wrap(cfg, made[i]), VerdictOn(cfg, made[i]))
  {
    RunExtends(cfg, EMPTY_GATE, subs);
    ProcessedOne(cfg, MadeAll(cfg, subs));
    assert RunGate(cfg, EMPTY_GATE, subs).processed == FlatMap(Processing(cfg), MadeAll(cfg, subs));
  }

  lemma EntryHasExpectedStatus(cfg: Config, sub: Submission)
    requires Recordable(cfg, sub)
    ensures EntryOf(cfg, sub).Some? && EntryOf(cfg, sub).value.status == ExpectedStatus(cfg.policies, sub)
  {
    CertifiedIffReleasable(cfg, sub);
  }

  /** Entry `i` has the status that the submission that ended as number `i` calls for. */
  lemma EveryRunLogsWhatEnds(cfg: Config, subs: seq<Submission>)
    requires AllRecordable(cfg, MadeAll(cfg, subs))
    ensures var closed, log := ClosedAll(cfg, subs), RunGate(cfg, EMPTY_GATE, subs).auditLog;
      && |log| == |closed|
      && forall i :: 0 <= i < |closed| ==>
        EntryOf(cfg, closed[i]) == Some(log[i]) && log[i].status == ExpectedStatus(cfg.policies, closed[i])
  {
    var closed := ClosedAll(cfg, subs);
    RunExtends(cfg, EMPTY_GATE, subs);
    ClosedAllRearrangesMade(cfg, subs);
    RecordableAnyOrder(cfg, MadeAll(cfg, subs), closed);
    LoggedOne(cfg, closed);
    assert RunGate(cfg, EMPTY_GATE, subs).auditLog == FlatMap(Logging(cfg), closed);
    forall i | 0 <= i < |closed|
      ensures EntryOf(cfg, closed[i]).Some?
      ensures EntryOf(cfg, closed[i]).value.status == ExpectedStatus(cfg.policies, closed[i])
    {
      EntryHasExpectedStatus(cfg, closed[i]);
    }
  }

  lemma {:induction false} CertificatesArePackages(cfg: Config, made: seq<Submission>)
    ensures CountCertified(FlatMap(Processing(cfg), made)) == |FlatMap(Storing(cfg), made)|
  {
    if made != [] {
      var n := |made| - 1;
      CertificatesArePackages(cfg, made[..n]);
      var processed, front := FlatMap(Processing(cfg), made), FlatMap(Processing(cfg), made[..n]);
      assert processed == front + [(Wrap(cfg, made[n]), VerdictOn(cfg, made[n]))];
      assert processed[..|processed| - 1] == front;
    }
  }

  lemma {:induction false} BlockedHaveNoPackage(cfg: Config, closed: seq<Submission>)
    requires AllRecordable(cfg, closed)
    ensures CountBlocked(FlatMap(Logging(cfg), closed)) + |FlatMap(Storing(cfg), closed)| == |closed|
  {
    if closed != [] {
      var n := |closed| - 1;
      BlockedHaveNoPackage(cfg, closed[..n]);
      EntryShape(cfg, closed[n]);
      var log, front := FlatMap(Logging(cfg), closed), FlatMap(Logging(cfg), closed[..n]);
      assert log == front + [EntryOf(cfg, closed[n]).value];
      assert log[..|log| - 1] == front;
    }
  }

  /** At rest the counters of gate and chain agree, whatever was submitted in between. */
  lemma CountersAgreeAtRest(cfg: Config, subs: seq<Submission>)
    requires AllRecordable(cfg, MadeAll(cfg, subs))
    ensures var s := RunGate(cfg, EMPTY_GATE, subs);
      CountBlocked(s.auditLog) + CountCertified(s.processed) == |s.auditLog|
  {
    var made, closed := MadeAll(cfg, subs), ClosedAll(cfg, subs);
    RunExtends(cfg, EMPTY_GATE, subs);
    ClosedAllRearrangesMade(cfg, subs);
    RecordableAnyOrder(cfg, made, closed);
    CertificatesArePackages(cfg, made);
    BlockedHaveNoPackage(cfg, closed);
    LoggedOne(cfg, closed);
    FlatMapIgnoresOrder(Storing(cfg), made, closed);
    assert |multiset(FlatMap(Storing(cfg), made))| == |multiset(FlatMap(Storing(cfg), closed))|;
    var s := RunGate(cfg, EMPTY_GATE, subs);
    assert s.auditLog == FlatMap(Logging(cfg), closed) && s.processed == FlatMap(Processing(cfg), made);
  }

  // ---- Stricter policies ----

  lemma StricterCertifiesLess(strict: Config, cfg: Config, sub: Submission)
    requires strict.text == cfg.text && Stricter(strict.policies, cfg.policies)
    ensures VerdictOn(strict, sub).Certified? ==> VerdictOn(cfg, sub).Certified?
  {
    CertifiedIffReleasable(strict, sub);
    CertifiedIffReleasable(cfg, sub);
  }

  lemma {:induction false} StricterMakesLess(strict: Config, cfg: Config, sub: Submission, x: Submission)
    requires strict.text == cfg.text && Stricter(strict.policies, cfg.policies)
    ensures x in Made(strict, sub) ==> x in Made(cfg, sub)
    decreases sub
  {
    StricterCertifiesLess(strict, cfg, sub);
    if VerdictOn(strict, sub).Certified? && sub.executor.Some? {
      StricterMakesLessOfAll(strict, cfg, sub.executor.value.nested, x);
    }
  }

  lemma {:induction false} StricterMakesLessOfAll(strict: Config, cfg: Config, subs: seq<Submission>, x: Submission)
    requires strict.text == cfg.text && Stricter(strict.policies, cfg.policies)
    ensures x in MadeAll(strict, subs) ==> x in MadeAll(cfg, subs)
    decreases subs
  {
    if subs != [] {
      StricterMakesLessOfAll(strict, cfg, subs[..|subs| - 1], x);
      StricterMakesLess(strict, cfg, subs[|subs| - 1], x);
    }
  }

  /** Every run: what is released under stricter policies is released without them. An executor that is not reached
      submits nothing, so this is about the nested submissions too. */
  lemma StricterPoliciesStoreLess(strict: Config, cfg: Config, subs: seq<Submission>, id: string)
    requires strict.text == cfg.text && Stricter(strict.policies, cfg.policies)
    requires id in RunGate(strict, EMPTY_GATE, subs).packages
    ensures id in RunGate(cfg, EMPTY_GATE, subs).packages
  {
    var few, many := MadeAll(strict, subs), MadeAll(cfg, subs);
    RunExtends(strict, EMPTY_GATE, subs);
    RunExtends(cfg, EMPTY_GATE, subs);
    var i := PackageHasSubmission(strict, few, id);
    StricterMakesLessOfAll(strict, cfg, subs, few[i]);
    StricterCertifiesLess(strict, cfg, few[i]);
    var k :| 0 <= k < |many| && many[k] == few[i];
    SubmissionHasPackage(cfg, many, k);
  }

  // ---- When the logs stay in step ----

  /** Identifiers drawn during one call: new package ids, and no certificate id twice. */
  ghost predicate FreshIds(cfg: Config, s: GateState, sub: Submission) {
    var made := Made(cfg, sub);
    && DistinctIds(PackageId(), made) && DistinctIds(CertificateId(), made)
    && forall i :: 0 <= i < |made| ==> made[i].packageId !in s.packages
  }

  /** An executor that ends unrecordably, anywhere in the call, leaves the audit log behind. */
  lemma UnrecordableLosesAnEntry(cfg: Config, s: GateState, made: seq<Submission>, closed: seq<Submission>)
    requires |s.auditLog| == |s.processed| && |closed| == |made| && !AllRecordable(cfg, closed)
    ensures |Extended(cfg, s, made, closed).auditLog| < |Extended(cfg, s, made, closed).processed|
  {
    var k :| 0 <= k < |closed| && !Recordable(cfg, closed[k]);
    ProcessedOne(cfg, made);
    FlatMapShorter(Logging(cfg), closed, k);
  }

  lemma ClosedIsNonEmpty(cfg: Config, subs: seq<Submission>)
    requires subs != []
    ensures ClosedAll(cfg, subs) != []
  {
  }

  /** Whose package is stored under a fresh id. */
  lemma FreshPackageHasSubmission(cfg: Config, s: GateState, made: seq<Submission>, id: string) returns (i: nat)
    requires id !in s.packages && id in Stored(s.packages, FlatMap(Storing(cfg), made))
    ensures CertifiedUnder(cfg, made, id, i)
    ensures Stored(s.packages, FlatMap(Storing(cfg), made))[id] == PackageFor(cfg, made[i])
  {
    var added := FlatMap(Storing(cfg), made);
    StoredMembers(s.packages, added, id);
    var k :| 0 <= k < |added| && added[k] == Stored(s.packages, added)[id] && added[k].packageId == id;
    i := StoredOneOf(cfg, made, added[k]);
  }

  /** The entry at the position of the outer request is the one of the submission that ended first: not its own. */
  lemma FirstEntryIsForeign(cfg: Config, s: GateState, sub: Submission, made: seq<Submission>, closed: seq<Submission>)
    requires |s.auditLog| == |s.processed| && multiset(made) == multiset(closed) && |closed| > 1
    requires made[0] == sub == closed[|closed| - 1] && VerdictOn(cfg, sub).Certified?
    requires AllRecordable(cfg, closed) && DistinctIds(PackageId(), closed) && DistinctIds(CertificateId(), made)
    requires forall i :: 0 <= i < |made| ==> made[i].packageId !in s.packages
    ensures !EntriesMatch(cfg, Extended(cfg, s, made, closed))
  {
    var s', n, first := Extended(cfg, s, made, closed), |s.auditLog|, closed[0];
    ProcessedOne(cfg, made);
    LoggedOne(cfg, closed);
    EntryShape(cfg, first);
    assert s'.processed[n] == FlatMap(Processing(cfg), made)[0] && s'.auditLog[n] == FlatMap(Logging(cfg), closed)[0];
    if EntriesMatch(cfg, s') {
      assert EntryMatches(cfg, s', n);
      var id := first.packageId;
      var k := PositionIn(closed, made, 0);
      var i := FreshPackageHasSubmission(cfg, s, made, id);
      assert made[i].draw.certificateId == sub.draw.certificateId;
      if i > 0 {
        DistinctIdsAt(CertificateId(), made, 0, i);
      }
      DistinctIdsAt(PackageId(), closed, 0, |closed| - 1);
    }
  }

  lemma NestingBreaksStep(cfg: Config, s: GateState, sub: Submission)
    requires GateInvariant(cfg, s) && FreshIds(cfg, s, sub) && !ExecutorKeepsPromise(cfg, sub)
    ensures !EntriesMatch(cfg, Submitted(cfg, s, sub).0)
  {
    var made, closed := Made(cfg, sub), Closed(cfg, sub);
    SubmittedExtends(cfg, s, sub);
    ClosedRearrangesMade(cfg, sub);
    SameMembers(made, closed);
    if AllRecordable(cfg, closed) {
      assert closed[|closed| - 1] == sub && Recordable(cfg, sub);
      ClosedIsNonEmpty(cfg, NestedIn(cfg, sub));
      DistinctIdsAnyOrder(PackageId(), made, closed);
      FirstEntryIsForeign(cfg, s, sub, made, closed);
    } else {
      UnrecordableLosesAnEntry(cfg, s, made, closed);
    }
  }

  /** With fresh identifiers the two logs, the store and the calls stay in step over one call of `submit` exactly when
      the executor, if it is reached, ends in a way that can be recorded and submits nothing itself. */
  lemma SubmitKeepsInvariantIff(cfg: Config, s: GateState, sub: Submission)
    requires GateInvariant(cfg, s) && FreshIds(cfg, s, sub)
    ensures GateInvariant(cfg, Submitted(cfg, s, sub).0) <==> ExecutorKeepsPromise(cfg, sub)
  {
    if ExecutorKeepsPromise(cfg, sub) {
      assert Made(cfg, sub)[0] == sub;
      LoggedStepKeepsInvariant(cfg, s, sub);
    } else {
      NestingBreaksStep(cfg, s, sub);
    }
  }

  /** A witness: the executor submits a request without an action type and returns. The rejection is logged first, but
      the certificate was processed first. */
  lemma NestedSubmissionPartsTheLogs(cfg: Config, value: Opaque)
    returns (outer: Submission)
    requires cfg.policies == Policies({}, map[])
    ensures Recordable(cfg, outer) && !ExecutorKeepsPromise(cfg, outer)
    ensures var s := Submitted(cfg, EMPTY_GATE, outer).0;
      && |s.auditLog| == |s.processed| == 2
      && s.auditLog[0].status == Blocked && s.processed[0].1.Certified?
      && s.auditLog[1].status == Dispatched && s.processed[1].1.Rejected?
  {
    var inner := Submission("", map[], "user", HumanOperator, [], [], None, "request-2",
                            Draw("cert-2", "no-2", 0), "p-2");
    outer := Submission("update", map["field" := value], "user", HumanOperator, [], [],
                        Some(Executor([inner], _ => Returned(map[]))), "request-1",
                        Draw("cert-1", "no-1", 0), "p-1");
    assert "field" in outer.payload;
    CertifiedIffReleasable(cfg, inner);
    CertifiedIffReleasable(cfg, outer);
    assert NestedIn(cfg, outer) == [inner];
    var s1 := Started(cfg, EMPTY_GATE, outer);
    assert [inner][..0] == [];
    assert RunGate(cfg, s1, [inner]) == Submitted(cfg, s1, inner).0;
  }
}
