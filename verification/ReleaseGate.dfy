/** The evidence-gated release gate: validate, compile a package, run the executor, log. */
module ReleaseGate {
  import opened Foundation
  import opened Sequences
  import opened Sorting
  import opened ValidationChain

  type Fields = map<string, Opaque>

  /** What a caller's executor does with a payload. The annotation promises a dictionary with string keys; the gate
      also handles an `Exception`. Three things it does not handle, and `submit` itself raises:
      `ReturnedUnrecordable` is any output the result record refuses (not a dictionary, or a key that is no string),
      `Escaped` is what passes `except Exception` (SystemExit, KeyboardInterrupt, CancelledError), and
      `RaisedUnprintable` is an exception whose own `str` raises. */
  datatype ExecutorResult =
    | Returned(output: Fields)
    | RaisedError(message: string)
    | ReturnedUnrecordable
    | Escaped
    | RaisedUnprintable

  /** An executor may itself submit to the gate while it runs; then it ends in one of the ways above. */
  datatype Executor = Executor(nested: seq<Submission>, ends: Fields -> ExecutorResult)

  /** One call of `submit`, with the identifiers and the clock reading drawn during it. `executor` is present when
      it is truthy; asking whether it is, is assumed to return. */
  datatype Submission = Submission(
    actionType: string, payload: Fields, requestedBy: string, origin: Origin, evidence: seq<string>,
    provenance: seq<string>, executor: Option<Executor>,
    requestId: string, draw: Draw, packageId: string)

  datatype Package = Package(
    packageId: string, manifest: Fields, certificate: Certificate, evidenceChain: seq<string>,
    provenanceTrail: seq<string>, policySnapshot: Policies, requestedBy: string, actionType: string,
    origin: Origin, compiledAt: int, packageHash: string)

  datatype Status = Compiled | Dispatched | Blocked | Failed

  datatype DispatchBody =
    | Empty
    | Output(output: Fields)
    | Error(message: string)
    | Reference(packageId: string, packageHash: string)

  datatype LogEntry = LogEntry(packageId: string, status: Status, reason: Option<(Check, Detail)>, body: DispatchBody)

  datatype Config = Config(text: Text, policies: Policies)

  function Wrap(cfg: Config, sub: Submission): Request {
    Request(sub.requestId, sub.origin, sub.actionType, Dict(sub.payload), sub.evidence, sub.provenance,
            sub.requestedBy, sub.draw.now,
            RequestHash(cfg.text, sub.requestId, sub.origin, sub.actionType, sub.requestedBy, sub.draw.now))
  }

  /** Only the fields listed here enter the hash: the manifest and the policy snapshot do not. */
  function PackageHash(t: Text, packageId: string, certificateHash: string, evidence: seq<string>,
                       provenance: seq<string>, requestedBy: string, actionType: string, origin: Origin,
                       compiledAt: int): string
  {
    t.sha256(packageId + certificateHash + t.listRepr(Sort(TextLeq, evidence)) + t.listRepr(Sort(TextLeq, provenance))
             + requestedBy + actionType + t.originRepr(origin) + t.isoformat(compiledAt))
  }

  function HashOf(t: Text, p: Package): string {
    PackageHash(t, p.packageId, p.certificate.certificateHash, p.evidenceChain, p.provenanceTrail,
                p.requestedBy, p.actionType, p.origin, p.compiledAt)
  }

  predicate VerifyIntegrity(t: Text, p: Package) {
    p.packageHash == HashOf(t, p)
  }

  function Compile(cfg: Config, sub: Submission, certificate: Certificate): (p: Package)
    ensures VerifyIntegrity(cfg.text, p)
  {
    Package(sub.packageId, sub.payload, certificate, sub.evidence, sub.provenance, cfg.policies, sub.requestedBy,
            sub.actionType, sub.origin, sub.draw.now,
            PackageHash(cfg.text, sub.packageId, certificate.certificateHash, sub.evidence, sub.provenance,
                        sub.requestedBy, sub.actionType, sub.origin, sub.draw.now))
  }

  /** Reordering evidence or provenance goes unnoticed: with every other hashed field fixed, the hash sees only
      the two multisets. */
  lemma HashIgnoresOrder(t: Text, p: Package, q: Package)
    requires multiset(p.evidenceChain) == multiset(q.evidenceChain)
    requires multiset(p.provenanceTrail) == multiset(q.provenanceTrail)
    requires p.packageId == q.packageId && p.certificate.certificateHash == q.certificate.certificateHash
    requires p.requestedBy == q.requestedBy && p.actionType == q.actionType
    requires p.origin == q.origin && p.compiledAt == q.compiledAt
    ensures HashOf(t, p) == HashOf(t, q)
  {
    SortedTextsAgreeIff(p.evidenceChain, q.evidenceChain);
    SortedTextsAgreeIff(p.provenanceTrail, q.provenanceTrail);
  }

  // ---- One submission as a step of the gate's state ----

  datatype Call = Call(packageId: string, manifest: Fields)

  /** The chain's log, the gate's log, the package store, and the executor calls made so far. */
  datatype GateState = GateState(
    processed: seq<(Request, Verdict)>, auditLog: seq<LogEntry>, packages: map<string, Package>, calls: seq<Call>)

  const EMPTY_GATE := GateState([], [], map[], [])

  function VerdictOn(cfg: Config, sub: Submission): Verdict {
    Judge(cfg.text, cfg.policies, Wrap(cfg, sub), sub.draw)
  }

  function BlockedEntry(j: Rejection): LogEntry {
    LogEntry("none", Blocked, Some((j.failedCheck, j.detail)), Empty)
  }

  /** The entry a submission that gets past its executor logs; `None` when `submit` itself raises because of how the
      executor ended. */
  function EntryOf(cfg: Config, sub: Submission): Option<LogEntry> {
    match VerdictOn(cfg, sub)
    case Rejected(j) => Some(BlockedEntry(j))
    case Certified(certificate) =>
      var package := Compile(cfg, sub, certificate);
      match sub.executor
      case None =>
        Some(LogEntry(package.packageId, Compiled, None, Reference(package.packageId, package.packageHash)))
      case Some(executor) =>
        match executor.ends(sub.payload)
        case Returned(output) => Some(LogEntry(package.packageId, Dispatched, None, Output(output)))
        case RaisedError(message) => Some(LogEntry(package.packageId, Failed, None, Error(message)))
        case ReturnedUnrecordable => None
        case Escaped => None
        case RaisedUnprintable => None
  }

  /** The state when the executor starts: the request is processed, and if certified, the package stored. */
  function Started(cfg: Config, s: GateState, sub: Submission): GateState {
    var s1 := s.(processed := s.processed + [(Wrap(cfg, sub), VerdictOn(cfg, sub))]);
    match VerdictOn(cfg, sub)
    case Rejected(_) => s1
    case Certified(certificate) =>
      s1.(packages := s.packages[sub.packageId := Compile(cfg, sub, certificate)],
          calls := s.calls + if sub.executor.Some? then [Call(sub.packageId, sub.payload)] else [])
  }

  function NestedIn(cfg: Config, sub: Submission): seq<Submission> {
    if VerdictOn(cfg, sub).Certified? && sub.executor.Some? then sub.executor.value.nested else []
  }

  /** The state after `submit`, and the logged result. The executor's own submissions come between the package and the
      log entry. */
  function Submitted(cfg: Config, s: GateState, sub: Submission): (GateState, Option<LogEntry>)
    decreases sub
  {
    var s1, entry := Started(cfg, s, sub), EntryOf(cfg, sub);
    var s2 := if VerdictOn(cfg, sub).Certified? && sub.executor.Some? then RunGate(cfg, s1, sub.executor.value.nested)
              else s1;
    (if entry.Some? then s2.(auditLog := s2.auditLog + [entry.value]) else s2, entry)
  }

  /** One submission after the other. */
  function RunGate(cfg: Config, s: GateState, subs: seq<Submission>): GateState
    decreases subs
  {
    if subs == [] then s else Submitted(cfg, RunGate(cfg, s, subs[..|subs| - 1]), subs[|subs| - 1]).0
  }

  /** A submission never fails the provenance or the schema gate: it hashes its own request over a dictionary. */
  lemma SubmissionsFailOnlyTheFirstThreeGates(cfg: Config, sub: Submission)
    ensures var v := VerdictOn(cfg, sub);
      v.Rejected? ==> v.rejection.failedCheck in {Completeness, EvidenceSufficiency, PolicyCompliance}
  {
    var v := VerdictOn(cfg, sub);
    if v.Rejected? {
      var k: nat :| FirstFailure(cfg.text, cfg.policies, Wrap(cfg, sub), k) && v.rejection.failedCheck == ALL_CHECKS[k];
      assert GateResult(cfg.text, cfg.policies, Wrap(cfg, sub), ProvenanceIntegrity).None?;
      assert GateResult(cfg.text, cfg.policies, Wrap(cfg, sub), SchemaConformance).None?;
    }
  }

  /** What a caller must bring for an action to be released, told without the chain. */
  predicate Releasable(p: Policies, sub: Submission) {
    && sub.actionType != "" && sub.requestedBy != "" && sub.payload != map[]
    && (sub.origin == AiInference ==> sub.evidence != [])
    && sub.actionType !in p.blockedActionTypes
    && (sub.actionType in p.requiredOriginsFor ==> NamesOrigin(p.requiredOriginsFor[sub.actionType], sub.origin))
  }

  lemma CertifiedIffReleasable(cfg: Config, sub: Submission)
    ensures VerdictOn(cfg, sub).Certified? <==> Releasable(cfg.policies, sub)
  {
    var r := Wrap(cfg, sub);
    if sub.actionType in cfg.policies.requiredOriginsFor {
      NamesOriginIff(cfg.policies.requiredOriginsFor[sub.actionType], sub.origin);
    }
    assert Releasable(cfg.policies, sub) <==>
      GateResult(cfg.text, cfg.policies, r, Completeness).None?
      && GateResult(cfg.text, cfg.policies, r, EvidenceSufficiency).None?
      && GateResult(cfg.text, cfg.policies, r, PolicyCompliance).None?;
    assert GateResult(cfg.text, cfg.policies, r, ProvenanceIntegrity).None?;
    assert GateResult(cfg.text, cfg.policies, r, SchemaConformance).None?;
    if VerdictOn(cfg, sub).Rejected? {
      SubmissionsFailOnlyTheFirstThreeGates(cfg, sub);
      var k: nat :| FirstFailure(cfg.text, cfg.policies, r, k);
      assert ALL_CHECKS[k] in {Completeness, EvidenceSufficiency, PolicyCompliance};
    }
  }

  function ExpectedStatus(p: Policies, sub: Submission): Status {
    if !Releasable(p, sub) then Blocked
    else if sub.executor.None? then Compiled
    else if sub.executor.value.ends(sub.payload).RaisedError? then Failed
    else Dispatched
  }

  // ---- The outcome of one submission, told from the submission and the policies ----

  /** Why a submission is blocked, if it is. */
  function BlockingReason(p: Policies, sub: Submission): Option<(Check, Detail)> {
    if sub.actionType == "" then Some((Completeness, ActionTypeRequired))
    else if sub.requestedBy == "" then Some((Completeness, RequestedByRequired))
    else if sub.payload == map[] then Some((Completeness, PayloadEmpty))
    else if sub.origin == AiInference && sub.evidence == [] then Some((EvidenceSufficiency, EvidenceRequired))
    else if sub.actionType in p.blockedActionTypes then Some((PolicyCompliance, ActionTypeBlocked))
    else if sub.actionType in p.requiredOriginsFor && !NamesOrigin(p.requiredOriginsFor[sub.actionType], sub.origin)
    then Some((PolicyCompliance, OriginNotAllowed))
    else None
  }

  /** The certificate a submission gets if nothing blocks it. */
  ghost function CertificateOf(t: Text, sub: Submission): Certificate {
    var now := t.isoformat(sub.draw.now);
    var hash := t.sha256(sub.requestId + t.originRepr(sub.origin) + sub.actionType + sub.requestedBy + now);
    var names := ["completeness", "evidence_sufficiency", "policy_compliance", "provenance_integrity",
                  "schema_conformance"];
    Certificate(
      sub.draw.certificateId, sub.requestId, hash,
      [Completeness, EvidenceSufficiency, PolicyCompliance, ProvenanceIntegrity, SchemaConformance],
      sub.draw.now, sub.actionType,
      t.sha256(sub.draw.certificateId + sub.requestId + hash + t.listRepr(names) + now + sub.actionType))
  }

  /** The package that authorises it: it carries the submission's own evidence, provenance and payload and the policies
      in force, and its hash binds what is listed here. */
  ghost function PackageOf(cfg: Config, sub: Submission): Package {
    var t, certificate := cfg.text, CertificateOf(cfg.text, sub);
    var evidence, provenance := t.listRepr(Sort(TextLeq, sub.evidence)), t.listRepr(Sort(TextLeq, sub.provenance));
    Package(sub.packageId, sub.payload, certificate, sub.evidence, sub.provenance, cfg.policies, sub.requestedBy,
            sub.actionType, sub.origin, sub.draw.now,
            t.sha256(sub.packageId + certificate.certificateHash + evidence + provenance + sub.requestedBy
                     + sub.actionType + t.originRepr(sub.origin) + t.isoformat(sub.draw.now)))
  }

  lemma VerdictIsTold(cfg: Config, sub: Submission)
    ensures VerdictOn(cfg, sub) ==
      match BlockingReason(cfg.policies, sub)
      case Some((check, detail)) =>
        Rejected(Rejection(sub.draw.rejectionId, sub.requestId, check, detail, sub.draw.now))
      case None => Certified(CertificateOf(cfg.text, sub))
  {
    JudgesGateByGate(cfg.text, cfg.policies, Wrap(cfg, sub), sub.draw);
  }

  lemma PackageIsTold(cfg: Config, sub: Submission)
    ensures Compile(cfg, sub, CertificateOf(cfg.text, sub)) == PackageOf(cfg, sub)
  {
  }

  /** What `submit` logs and returns, whatever came before: the reason it was blocked for or, on release, the status and
      the result that its executor calls for. Where it returns nothing, the executor has ended unrecordably. */
  lemma OutcomeIsTold(cfg: Config, s: GateState, sub: Submission)
    ensures Submitted(cfg, s, sub).1 ==
      if BlockingReason(cfg.policies, sub).Some? then
        Some(LogEntry("none", Blocked, BlockingReason(cfg.policies, sub), Empty))
      else if sub.executor.None? then
        Some(LogEntry(sub.packageId, Compiled, None, Reference(sub.packageId, PackageOf(cfg, sub).packageHash)))
      else
        match sub.executor.value.ends(sub.payload)
        case Returned(output) => Some(LogEntry(sub.packageId, Dispatched, None, Output(output)))
        case RaisedError(message) => Some(LogEntry(sub.packageId, Failed, None, Error(message)))
        case _ => None
  {
    VerdictIsTold(cfg, sub);
    PackageIsTold(cfg, sub);
  }

  /** An action type that one origin alone may request: the submission is blocked for its origin exactly when it comes
      from another, and is not blocked at all otherwise. */
  lemma SoleOriginDecides(cfg: Config, s: GateState, sub: Submission, sole: Origin, text: string)
    requires (sole, text) in {(HumanOperator, "human_operator"), (AutomatedWorkflow, "automated_workflow"),
                              (AiInference, "ai_inference"), (ApiRequest, "api_request"),
                              (ScheduledTask, "scheduled_task"), (DomainPack, "domain_pack")}
    requires sub.actionType != "" && sub.requestedBy != "" && sub.payload != map[]
    requires sub.origin == AiInference ==> sub.evidence != []
    requires sub.actionType !in cfg.policies.blockedActionTypes
    requires sub.actionType in cfg.policies.requiredOriginsFor
    requires cfg.policies.requiredOriginsFor[sub.actionType] == {text}
    ensures var logged := Submitted(cfg, s, sub).1;
      if sub.origin == sole then logged.Some? ==> logged.value.status != Blocked
      else logged == Some(LogEntry("none", Blocked, Some((PolicyCompliance, OriginNotAllowed)), Empty))
  {
    OutcomeIsTold(cfg, s, sub);
    SoleNameDecides(sub.origin, sole, text);
  }

  lemma SoleNameDecides(o: Origin, sole: Origin, text: string)
    requires (sole, text) in {(HumanOperator, "human_operator"), (AutomatedWorkflow, "automated_workflow"),
                              (AiInference, "ai_inference"), (ApiRequest, "api_request"),
                              (ScheduledTask, "scheduled_task"), (DomainPack, "domain_pack")}
    ensures NamesOrigin({text}, o) <==> o == sole
  {
    OriginTextsDiffer();
  }

  lemma OriginTextsDiffer()
    ensures |"human_operator"| == |"scheduled_task"| == 14 && "human_operator"[0] != "scheduled_task"[0]
    ensures |"automated_workflow"| == 18 && |"ai_inference"| == 12
    ensures |"api_request"| == |"domain_pack"| == 11 && "api_request"[0] != "domain_pack"[0]
  {
  }

  // ---- The invariant that ties the four pieces of state together ----

  ghost predicate EntryMatches(cfg: Config, s: GateState, i: nat)
    requires |s.auditLog| == |s.processed| && i < |s.auditLog|
  {
    var entry, (request, verdict) := s.auditLog[i], s.processed[i];
    && (entry.status != Blocked <==> verdict.Certified?)
    && (verdict.Rejected? ==> entry == BlockedEntry(verdict.rejection))
    && (verdict.Certified? ==>
      && entry.packageId in s.packages
      && var package := s.packages[entry.packageId];
        && package.packageId == entry.packageId
        && package.certificate == verdict.certificate
        && package.certificate.checksPassed == ALL_CHECKS
        && package.certificate.validForActionType == package.actionType == request.actionType
        && Dict(package.manifest) == request.payload
        && VerifyIntegrity(cfg.text, package))
  }

  predicate Executed(entry: LogEntry) {
    entry.status == Dispatched || entry.status == Failed
  }

  /** The calls the log accounts for: one per DISPATCHED or FAILED entry, in order, on that entry's payload. */
  ghost function AccountedCalls(log: seq<LogEntry>, processed: seq<(Request, Verdict)>): seq<Call>
    requires |log| <= |processed|
  {
    if log == [] then []
    else
      var n := |log| - 1;
      AccountedCalls(log[..n], processed)
      + (if Executed(log[n]) && processed[n].0.payload.Dict? then
           [Call(log[n].packageId, processed[n].0.payload.entries)]
         else [])
  }

  ghost predicate Released(log: seq<LogEntry>, i: int) {
    0 <= i < |log| && log[i].status != Blocked
  }

  /** Every stored package belongs to a released entry, and no two released entries share one. */
  ghost predicate StoreMatches(s: GateState) {
    && (forall id :: id in s.packages ==> exists i :: Released(s.auditLog, i) && s.auditLog[i].packageId == id)
    && (forall i, j :: Released(s.auditLog, i) && Released(s.auditLog, j) && i != j ==>
      s.auditLog[i].packageId != s.auditLog[j].packageId)
  }

  ghost predicate EntriesMatch(cfg: Config, s: GateState) {
    && |s.auditLog| == |s.processed|
    && forall i :: 0 <= i < |s.auditLog| ==> EntryMatches(cfg, s, i)
  }

  ghost predicate GateInvariant(cfg: Config, s: GateState) {
    && EntriesMatch(cfg, s)
    && StoreMatches(s)
    && s.calls == AccountedCalls(s.auditLog, s.processed)
  }

  lemma {:induction false} AccountedCallsIgnoreLaterRequests(log: seq<LogEntry>, a: seq<(Request, Verdict)>,
                                                             b: seq<(Request, Verdict)>)
    requires |log| <= |a| <= |b| && a == b[..|a|]
    ensures AccountedCalls(log, a) == AccountedCalls(log, b)
  {
    if log != [] {
      AccountedCallsIgnoreLaterRequests(log[..|log| - 1], a, b);
    }
  }

  /** Whether the executor, if the request gets that far, ends in a way `submit` can record: with a dictionary whose
      keys are strings, or with an `Exception` that can be printed. */
  predicate Recordable(cfg: Config, sub: Submission) {
    VerdictOn(cfg, sub).Certified? && sub.executor.Some? ==>
      sub.executor.value.ends(sub.payload).Returned? || sub.executor.value.ends(sub.payload).RaisedError?
  }

  /** Whether it besides submits nothing to the gate itself. */
  predicate ExecutorKeepsPromise(cfg: Config, sub: Submission) {
    Recordable(cfg, sub) && NestedIn(cfg, sub) == []
  }

  /** The four updates a logged submission makes. */
  lemma StepShape(cfg: Config, s: GateState, sub: Submission) returns (entry: LogEntry)
    requires ExecutorKeepsPromise(cfg, sub)
    ensures Submitted(cfg, s, sub).1 == Some(entry)
    ensures var s', verdict := Submitted(cfg, s, sub).0, VerdictOn(cfg, sub);
      && s'.processed == s.processed + [(Wrap(cfg, sub), verdict)]
      && s'.auditLog == s.auditLog + [entry]
      && s'.packages == (if verdict.Certified? then s.packages[sub.packageId := Compile(cfg, sub, verdict.certificate)]
                         else s.packages)
      && s'.calls == s.calls + (if Executed(entry) then [Call(sub.packageId, sub.payload)] else [])
      && (verdict.Rejected? ==> entry == BlockedEntry(verdict.rejection))
      && (verdict.Certified? ==> entry.status != Blocked && entry.packageId == sub.packageId)
  {
    entry := Submitted(cfg, s, sub).1.value;
  }

  lemma EntriesStillMatch(cfg: Config, s: GateState, sub: Submission)
    requires EntriesMatch(cfg, s) && sub.packageId !in s.packages && ExecutorKeepsPromise(cfg, sub)
    ensures EntriesMatch(cfg, Submitted(cfg, s, sub).0)
  {
    var entry := StepShape(cfg, s, sub);
    var s' := Submitted(cfg, s, sub).0;
    forall i | 0 <= i < |s'.auditLog|
      ensures EntryMatches(cfg, s', i)
    {
      if i < |s.auditLog| {
        assert EntryMatches(cfg, s, i);
      }
    }
  }

  /** One more entry, with a package under a new id exactly when it is released. */
  lemma StoreGrows(s: GateState, s': GateState, entry: LogEntry)
    requires StoreMatches(s)
    requires forall i :: Released(s.auditLog, i) ==> s.auditLog[i].packageId in s.packages
    requires s'.auditLog == s.auditLog + [entry]
    requires s'.packages.Keys == s.packages.Keys + if entry.status != Blocked then {entry.packageId} else {}
    requires entry.status != Blocked ==> entry.packageId !in s.packages
    ensures StoreMatches(s')
  {
    var n := |s.auditLog|;
    forall i | Released(s'.auditLog, i) && i < n
      ensures Released(s.auditLog, i) && s'.auditLog[i].packageId in s.packages
    {
    }
    forall id | id in s'.packages
      ensures exists i :: Released(s'.auditLog, i) && s'.auditLog[i].packageId == id
    {
      if id in s.packages {
        var i :| Released(s.auditLog, i) && s.auditLog[i].packageId == id;
        assert Released(s'.auditLog, i);
      } else {
        assert Released(s'.auditLog, n);
      }
    }
  }

  lemma StoreStillMatches(cfg: Config, s: GateState, sub: Submission)
    requires EntriesMatch(cfg, s) && StoreMatches(s) && sub.packageId !in s.packages && ExecutorKeepsPromise(cfg, sub)
    ensures StoreMatches(Submitted(cfg, s, sub).0)
  {
    var entry := StepShape(cfg, s, sub);
    forall i | Released(s.auditLog, i)
      ensures s.auditLog[i].packageId in s.packages
    {
      assert EntryMatches(cfg, s, i);
    }
    StoreGrows(s, Submitted(cfg, s, sub).0, entry);
  }

  lemma LoggedStepKeepsInvariant(cfg: Config, s: GateState, sub: Submission)
    requires GateInvariant(cfg, s) && sub.packageId !in s.packages
    requires ExecutorKeepsPromise(cfg, sub)
    ensures GateInvariant(cfg, Submitted(cfg, s, sub).0)
  {
    EntriesStillMatch(cfg, s, sub);
    StoreStillMatches(cfg, s, sub);
    var entry := StepShape(cfg, s, sub);
    var s', n := Submitted(cfg, s, sub).0, |s.auditLog|;
    assert s'.auditLog[..n] == s.auditLog;
    AccountedCallsIgnoreLaterRequests(s.auditLog, s.processed, s'.processed);
  }

  // ---- Runs ----

  ghost predicate ProperSubmissions(cfg: Config, subs: seq<Submission>) {
    && (forall i :: 0 <= i < |subs| ==> ExecutorKeepsPromise(cfg, subs[i]))
    && (forall i, j :: 0 <= i < j < |subs| ==> subs[i].packageId != subs[j].packageId)
  }

  /** Over every sequence of submissions to a new gate, entry `i` is decided by submission `i` alone ... */
  lemma {:induction false} EveryRunIsPointwise(cfg: Config, subs: seq<Submission>)
    requires ProperSubmissions(cfg, subs)
    ensures var s := RunGate(cfg, EMPTY_GATE, subs);
      && |s.processed| == |subs|
      && forall i :: 0 <= i < |subs| ==> s.processed[i] == (Wrap(cfg, subs[i]), VerdictOn(cfg, subs[i]))
  {
    if subs != [] {
      var front, sub := subs[..|subs| - 1], subs[|subs| - 1];
      EveryRunIsPointwise(cfg, front);
      var entry := StepShape(cfg, RunGate(cfg, EMPTY_GATE, front), sub);
    }
  }

  ghost predicate Submits(subs: seq<Submission>, id: string) {
    exists i :: 0 <= i < |subs| && subs[i].packageId == id
  }

  lemma {:induction false} UnsubmittedPackageIsAbsent(cfg: Config, subs: seq<Submission>, id: string)
    requires ProperSubmissions(cfg, subs) && !Submits(subs, id)
    ensures id !in RunGate(cfg, EMPTY_GATE, subs).packages
  {
    if subs != [] {
      var front, sub := subs[..|subs| - 1], subs[|subs| - 1];
      assert forall i :: 0 <= i < |front| ==> front[i] == subs[i];
      UnsubmittedPackageIsAbsent(cfg, front, id);
      var entry := StepShape(cfg, RunGate(cfg, EMPTY_GATE, front), sub);
    }
  }

  /** ... and the two logs, the package store and the executor calls stay consistent. */
  lemma {:induction false} EveryRunKeepsInvariant(cfg: Config, subs: seq<Submission>)
    requires ProperSubmissions(cfg, subs)
    ensures GateInvariant(cfg, RunGate(cfg, EMPTY_GATE, subs))
  {
    if subs != [] {
      var front, sub := subs[..|subs| - 1], subs[|subs| - 1];
      EveryRunKeepsInvariant(cfg, front);
      var s := RunGate(cfg, EMPTY_GATE, front);
      UnsubmittedPackageIsAbsent(cfg, front, sub.packageId);
      LoggedStepKeepsInvariant(cfg, s, sub);
    }
  }

  lemma StatusIsExpected(cfg: Config, s: GateState, sub: Submission)
    requires ExecutorKeepsPromise(cfg, sub)
    ensures Submitted(cfg, s, sub).1.Some? && Submitted(cfg, s, sub).1.value.status == ExpectedStatus(cfg.policies, sub)
  {
    CertifiedIffReleasable(cfg, sub);
  }

  /** Entry by entry, the status is what the submission itself calls for: blocked unless releasable, then compiled,
      dispatched or failed by what its executor does. */
  lemma {:induction false} EveryStatusIsExpected(cfg: Config, subs: seq<Submission>)
    requires ProperSubmissions(cfg, subs)
    ensures |RunGate(cfg, EMPTY_GATE, subs).auditLog| == |subs|
    ensures forall i :: 0 <= i < |subs| ==>
      RunGate(cfg, EMPTY_GATE, subs).auditLog[i].status == ExpectedStatus(cfg.policies, subs[i])
  {
    if subs != [] {
      var front, sub := subs[..|subs| - 1], subs[|subs| - 1];
      EveryStatusIsExpected(cfg, front);
      var s := RunGate(cfg, EMPTY_GATE, front);
      StatusIsExpected(cfg, s, sub);
      var entry := StepShape(cfg, s, sub);
      assert RunGate(cfg, EMPTY_GATE, subs).auditLog == s.auditLog + [entry];
    }
  }

  /** The same submissions under stricter policies: whatever is still released was released before. */
  lemma StricterPoliciesReleaseLess(t: Text, strict: Policies, p: Policies, subs: seq<Submission>, i: nat)
    requires Stricter(strict, p) && i < |subs|
    requires ProperSubmissions(Config(t, strict), subs) && ProperSubmissions(Config(t, p), subs)
    ensures var a := RunGate(Config(t, strict), EMPTY_GATE, subs).auditLog;
      var b := RunGate(Config(t, p), EMPTY_GATE, subs).auditLog;
      |a| == |b| == |subs| && (a[i].status != Blocked ==> b[i].status != Blocked)
  {
    var ca, cb := Config(t, strict), Config(t, p);
    EveryRunKeepsInvariant(ca, subs);
    EveryRunKeepsInvariant(cb, subs);
    EveryRunIsPointwise(ca, subs);
    EveryRunIsPointwise(cb, subs);
    var a, b := RunGate(ca, EMPTY_GATE, subs), RunGate(cb, EMPTY_GATE, subs);
    assert EntryMatches(ca, a, i) && EntryMatches(cb, b, i);
    assert Wrap(ca, subs[i]) == Wrap(cb, subs[i]);
    if a.auditLog[i].status != Blocked {
      StricterPoliciesCertifyLess(t, strict, p, Wrap(ca, subs[i]));
    }
  }

  function CountBlocked(log: seq<LogEntry>): nat {
    if log == [] then 0
    else CountBlocked(log[..|log| - 1]) + (if log[|log| - 1].status == Blocked then 1 else 0)
  }

  /** The gate's and the chain's counters agree: certificates and blocked entries add up to the submissions. */
  lemma {:induction false} CountersAgree(cfg: Config, s: GateState, n: nat)
    requires GateInvariant(cfg, s) && n <= |s.auditLog|
    ensures CountBlocked(s.auditLog[..n]) + CountCertified(s.processed[..n]) == n
  {
    if n > 0 {
      CountersAgree(cfg, s, n - 1);
      assert EntryMatches(cfg, s, n - 1);
      assert s.auditLog[..n][..n - 1] == s.auditLog[..n - 1];
      assert s.processed[..n][..n - 1] == s.processed[..n - 1];
    }
  }

  // ---- The gate object ----

  class Gate {
    const cfg: Config
    const chain: Chain
    var auditLog: seq<LogEntry>
    var packages: map<string, Package>
    ghost var calls: seq<Call>

    ghost predicate Valid()
      reads this, chain
    {
      chain.text == cfg.text && chain.policies == cfg.policies
    }

    ghost function State(): GateState
      reads this, chain
    {
      GateState(chain.processed, auditLog, packages, calls)
    }

    constructor (text: Text, policies: Policies)
      ensures Valid() && State() == EMPTY_GATE && cfg == Config(text, policies) && fresh(chain)
    {
      cfg := Config(text, policies);
      chain := new Chain(text, policies);
      auditLog, packages, calls := [], map[], [];
    }

    /** What the executor does before it returns: its own submissions, one after the other. */
    method RunExecutor(executor: Executor, payload: Fields) returns (outcome: ExecutorResult)
      requires Valid()
      modifies this, chain
      decreases executor
      ensures Valid()
      ensures State() == RunGate(cfg, old(State()), executor.nested) && outcome == executor.ends(payload)
    {
      var nested := executor.nested;
      for i := 0 to |nested|
        invariant Valid() && State() == RunGate(cfg, old(State()), nested[..i])
      {
        assert nested[..i + 1][..i] == nested[..i];
        var _ := Submit(nested[i]);
      }
      assert nested[..|nested|] == nested;
      outcome := executor.ends(payload);
    }

    method Submit(sub: Submission) returns (r: Option<LogEntry>)
      requires Valid()
      modifies this, chain
      decreases sub
      ensures Valid()
      ensures (State(), r) == Submitted(cfg, old(State()), sub)
    {
      var request := Wrap(cfg, sub);
      var certificate, rejection := chain.Validate(request, sub.draw);
      ghost var verdict := if certificate.Some? then Certified(certificate.value) else Rejected(rejection.value);
      VerdictIsUnique(cfg.text, cfg.policies, request, sub.draw, verdict, VerdictOn(cfg, sub));

      if rejection.Some? {
        var result := BlockedEntry(rejection.value);
        auditLog := auditLog + [result];
        return Some(result);
      }

      var package := Compile(cfg, sub, certificate.value);
      if !VerifyIntegrity(cfg.text, package) {
        assert false;
      }
      packages := packages[package.packageId := package];

      var status, body;
      if sub.executor.Some? {
        calls := calls + [Call(package.packageId, sub.payload)];
        var outcome := RunExecutor(sub.executor.value, sub.payload);
        match outcome
        case Returned(output) => status, body := Dispatched, Output(output);
        case RaisedError(message) => status, body := Failed, Error(message);
        case ReturnedUnrecordable => return None;
        case Escaped => return None;
        case RaisedUnprintable => return None;
      } else {
        status, body := Compiled, Reference(package.packageId, package.packageHash);
        assert State() == Started(cfg, old(State()), sub);
      }
      var result := LogEntry(package.packageId, status, None, body);
      assert Some(result) == EntryOf(cfg, sub);
      auditLog := auditLog + [result];
      return Some(result);
    }
  }
}
