/** The deterministic validation chain: five gates in order, one recorded verdict per request. */
module ValidationChain {
  import opened Foundation
  import opened Sorting

  datatype Origin = HumanOperator | AutomatedWorkflow | AiInference | ApiRequest | ScheduledTask | DomainPack {
    function Value(): string {
      match this
      case HumanOperator => "human_operator"
      case AutomatedWorkflow => "automated_workflow"
      case AiInference => "ai_inference"
      case ApiRequest => "api_request"
      case ScheduledTask => "scheduled_task"
      case DomainPack => "domain_pack"
    }
  }

  datatype Check = Completeness | EvidenceSufficiency | PolicyCompliance | ProvenanceIntegrity | SchemaConformance {
    function Value(): string {
      match this
      case Completeness => "completeness"
      case EvidenceSufficiency => "evidence_sufficiency"
      case PolicyCompliance => "policy_compliance"
      case ProvenanceIntegrity => "provenance_integrity"
      case SchemaConformance => "schema_conformance"
    }
  }

  const ALL_CHECKS: seq<Check> :=
    [Completeness, EvidenceSufficiency, PolicyCompliance, ProvenanceIntegrity, SchemaConformance]

  datatype Detail =
    | ActionTypeRequired | RequestedByRequired | PayloadEmpty | EvidenceRequired
    | ActionTypeBlocked | OriginNotAllowed | HashMismatch | PayloadNotDict

  /** A request is mutable, so a payload may have been replaced by something that is not a dictionary. */
  datatype Payload = Dict(entries: map<string, Opaque>) | NotDict(truthy: bool) {
    predicate Truthy() {
      match this
      case Dict(entries) => entries != map[]
      case NotDict(truthy) => truthy
    }
  }

  datatype Policies = Policies(blockedActionTypes: set<string>, requiredOriginsFor: map<string, set<string>>)

  /** SHA-256 and the formatting of times, lists and origins: the chain uses them and never inspects them. */
  datatype Text = Text(
    sha256: string -> string, isoformat: int -> string, listRepr: seq<string> -> string, originRepr: Origin -> string)

  datatype Request = Request(
    requestId: string, origin: Origin, actionType: string, payload: Payload, evidence: seq<string>,
    provenance: seq<string>, requestedBy: string, requestedAt: int, requestHash: string)

  datatype Certificate = Certificate(
    certificateId: string, requestId: string, requestHash: string, checksPassed: seq<Check>,
    issuedAt: int, validForActionType: string, certificateHash: string)

  datatype Rejection = Rejection(
    rejectionId: string, requestId: string, failedCheck: Check, detail: Detail, rejectedAt: int)

  datatype Verdict = Certified(certificate: Certificate) | Rejected(rejection: Rejection)

  /** Identifiers and the clock reading drawn while a request is judged. */
  datatype Draw = Draw(certificateId: string, rejectionId: string, now: int)

  function RequestHash(t: Text, requestId: string, origin: Origin, actionType: string, requestedBy: string, at: int)
    : string
  {
    t.sha256(requestId + t.originRepr(origin) + actionType + requestedBy + t.isoformat(at))
  }

  function CheckValues(checks: seq<Check>): seq<string> {
    seq(|checks|, i requires 0 <= i < |checks| => checks[i].Value())
  }

  function Certify(t: Text, r: Request, checks: seq<Check>, draw: Draw): Certificate {
    Certificate(draw.certificateId, r.requestId, r.requestHash, checks, draw.now, r.actionType,
      t.sha256(draw.certificateId + r.requestId + r.requestHash + t.listRepr(Sort(TextLeq, CheckValues(checks)))
               + t.isoformat(draw.now) + r.actionType))
  }

  // ---- The gates: `None` is a pass, `Some` the detail of the failure ----

  function CheckCompleteness(r: Request): Option<Detail> {
    if r.actionType == "" then Some(ActionTypeRequired)
    else if r.requestedBy == "" then Some(RequestedByRequired)
    else if !r.payload.Truthy() then Some(PayloadEmpty)
    else None
  }

  function CheckEvidence(r: Request): Option<Detail> {
    if r.origin == AiInference && r.evidence == [] then Some(EvidenceRequired) else None
  }

  function CheckPolicy(p: Policies, r: Request): Option<Detail> {
    if r.actionType in p.blockedActionTypes then Some(ActionTypeBlocked)
    else if r.actionType in p.requiredOriginsFor && r.origin.Value() !in p.requiredOriginsFor[r.actionType]
    then Some(OriginNotAllowed)
    else None
  }

  function CheckProvenance(t: Text, r: Request): Option<Detail> {
    if r.requestHash != RequestHash(t, r.requestId, r.origin, r.actionType, r.requestedBy, r.requestedAt)
    then Some(HashMismatch) else None
  }

  function CheckSchema(r: Request): Option<Detail> {
    if r.payload.Dict? then None else Some(PayloadNotDict)
  }

  function GateResult(t: Text, p: Policies, r: Request, c: Check): Option<Detail> {
    match c
    case Completeness => CheckCompleteness(r)
    case EvidenceSufficiency => CheckEvidence(r)
    case PolicyCompliance => CheckPolicy(p, r)
    case ProvenanceIntegrity => CheckProvenance(t, r)
    case SchemaConformance => CheckSchema(r)
  }

  ghost predicate AllGatesHold(t: Text, p: Policies, r: Request) {
    forall c: Check :: GateResult(t, p, r, c).None?
  }

  /** Gate `k` in the fixed order fails and every earlier gate holds. */
  ghost predicate FirstFailure(t: Text, p: Policies, r: Request, k: nat) {
    && k < |ALL_CHECKS|
    && GateResult(t, p, r, ALL_CHECKS[k]).Some?
    && forall j :: 0 <= j < k ==> GateResult(t, p, r, ALL_CHECKS[j]).None?
  }

  function RejectionAt(t: Text, p: Policies, r: Request, draw: Draw, k: nat): Rejection
    requires k < |ALL_CHECKS| && GateResult(t, p, r, ALL_CHECKS[k]).Some?
  {
    Rejection(draw.rejectionId, r.requestId, ALL_CHECKS[k], GateResult(t, p, r, ALL_CHECKS[k]).value, draw.now)
  }

  /** What it means for `v` to be the verdict on `r`. It mentions no earlier request. */
  ghost predicate IsVerdict(t: Text, p: Policies, r: Request, draw: Draw, v: Verdict) {
    match v
    case Certified(certificate) =>
      AllGatesHold(t, p, r) && certificate == Certify(t, r, ALL_CHECKS, draw)
    case Rejected(j) =>
      exists k: nat :: FirstFailure(t, p, r, k) && j == RejectionAt(t, p, r, draw, k)
  }

  function FirstFailing(t: Text, p: Policies, r: Request, from: nat): (k: nat)
    requires from <= |ALL_CHECKS|
    requires forall j :: 0 <= j < from ==> GateResult(t, p, r, ALL_CHECKS[j]).None?
    ensures k == |ALL_CHECKS| || FirstFailure(t, p, r, k)
    ensures k == |ALL_CHECKS| ==> forall j :: 0 <= j < |ALL_CHECKS| ==> GateResult(t, p, r, ALL_CHECKS[j]).None?
    decreases |ALL_CHECKS| - from
  {
    if from == |ALL_CHECKS| || GateResult(t, p, r, ALL_CHECKS[from]).Some? then from
    else FirstFailing(t, p, r, from + 1)
  }

  /** Every request has a verdict ... */
  function Judge(t: Text, p: Policies, r: Request, draw: Draw): (v: Verdict)
    ensures IsVerdict(t, p, r, draw, v)
  {
    var k := FirstFailing(t, p, r, 0);
    if k == |ALL_CHECKS| then
      AllListedGatesAreAll(t, p, r);
      Certified(Certify(t, r, ALL_CHECKS, draw))
    else
      Rejected(RejectionAt(t, p, r, draw, k))
  }

  lemma AllListedGatesAreAll(t: Text, p: Policies, r: Request)
    requires forall j :: 0 <= j < |ALL_CHECKS| ==> GateResult(t, p, r, ALL_CHECKS[j]).None?
    ensures AllGatesHold(t, p, r)
  {
    forall c: Check
      ensures GateResult(t, p, r, c).None?
    {
      assert c in ALL_CHECKS by {
        assert c == ALL_CHECKS[0] || c == ALL_CHECKS[1] || c == ALL_CHECKS[2] || c == ALL_CHECKS[3]
          || c == ALL_CHECKS[4];
      }
    }
  }

  /** ... and only one: identical requests under identical policies are judged identically. */
  lemma VerdictIsUnique(t: Text, p: Policies, r: Request, draw: Draw, v: Verdict, w: Verdict)
    requires IsVerdict(t, p, r, draw, v) && IsVerdict(t, p, r, draw, w)
    ensures v == w
  {
    if v.Rejected? && w.Rejected? {
      var k: nat :| FirstFailure(t, p, r, k) && v.rejection == RejectionAt(t, p, r, draw, k);
      var m: nat :| FirstFailure(t, p, r, m) && w.rejection == RejectionAt(t, p, r, draw, m);
      assert k == m;
    }
  }

  // ---- The verdict, told gate by gate ----

  /** One of the texts of a policy names the origin. */
  predicate NamesOrigin(texts: set<string>, o: Origin) {
    || (o == HumanOperator && "human_operator" in texts)
    || (o == AutomatedWorkflow && "automated_workflow" in texts)
    || (o == AiInference && "ai_inference" in texts)
    || (o == ApiRequest && "api_request" in texts)
    || (o == ScheduledTask && "scheduled_task" in texts)
    || (o == DomainPack && "domain_pack" in texts)
  }

  lemma NamesOriginIff(texts: set<string>, o: Origin)
    ensures NamesOrigin(texts, o) <==> o.Value() in texts
  {
  }

  function Refuse(r: Request, draw: Draw, check: Check, detail: Detail): Verdict {
    Rejected(Rejection(draw.rejectionId, r.requestId, check, detail, draw.now))
  }

  /** The five gates in their order, each with what it asks, and the certificate behind them. */
  ghost function GateByGate(t: Text, p: Policies, r: Request, draw: Draw): Verdict {
    if r.actionType == "" then Refuse(r, draw, Completeness, ActionTypeRequired)
    else if r.requestedBy == "" then Refuse(r, draw, Completeness, RequestedByRequired)
    else if r.payload == Dict(map[]) || r.payload == NotDict(false) then Refuse(r, draw, Completeness, PayloadEmpty)
    else if r.origin == AiInference && r.evidence == [] then Refuse(r, draw, EvidenceSufficiency, EvidenceRequired)
    else if r.actionType in p.blockedActionTypes then Refuse(r, draw, PolicyCompliance, ActionTypeBlocked)
    else if r.actionType in p.requiredOriginsFor && !NamesOrigin(p.requiredOriginsFor[r.actionType], r.origin)
    then Refuse(r, draw, PolicyCompliance, OriginNotAllowed)
    else if r.requestHash
      != t.sha256(r.requestId + t.originRepr(r.origin) + r.actionType + r.requestedBy + t.isoformat(r.requestedAt))
    then Refuse(r, draw, ProvenanceIntegrity, HashMismatch)
    else if r.payload.NotDict? then Refuse(r, draw, SchemaConformance, PayloadNotDict)
    else
      var names := ["completeness", "evidence_sufficiency", "policy_compliance", "provenance_integrity",
                    "schema_conformance"];
      Certified(Certificate(
        draw.certificateId, r.requestId, r.requestHash,
        [Completeness, EvidenceSufficiency, PolicyCompliance, ProvenanceIntegrity, SchemaConformance],
        draw.now, r.actionType,
        t.sha256(draw.certificateId + r.requestId + r.requestHash + t.listRepr(names) + t.isoformat(draw.now)
                 + r.actionType)))
  }

  lemma SortedCheckNames()
    ensures Sort(TextLeq, CheckValues(ALL_CHECKS))
      == ["completeness", "evidence_sufficiency", "policy_compliance", "provenance_integrity", "schema_conformance"]
  {
    var c, e, p := "completeness", "evidence_sufficiency", "policy_compliance";
    var q, s := "provenance_integrity", "schema_conformance";
    assert CheckValues(ALL_CHECKS) == [c, e, p, q, s];
    PolicyBeforeProvenance();
    ListedInOrder(c, e, p, q, s);
  }

  lemma PolicyBeforeProvenance()
    ensures TextLeq("policy_compliance", "provenance_integrity")
  {
    var p, q := "policy_compliance", "provenance_integrity";
    assert p[0] == q[0] && p[1..][0] == 'o' && q[1..][0] == 'r';
  }

  /** Five texts in order, the third and fourth of which share their first letter. */
  lemma ListedInOrder(c: string, e: string, p: string, q: string, s: string)
    requires c != "" && e != "" && p != "" && q != "" && s != ""
    requires c[0] < e[0] < p[0] == q[0] < s[0] && TextLeq(p, q)
    ensures Sort(TextLeq, [c, e, p, q, s]) == [c, e, p, q, s]
  {
    SortKeepsSorted(TextLeq, [c, e, p, q, s]);
  }

  /** The verdict on any request is the one told gate by gate, its reason and its certificate included. */
  lemma JudgesGateByGate(t: Text, p: Policies, r: Request, draw: Draw)
    ensures Judge(t, p, r, draw) == GateByGate(t, p, r, draw)
  {
    NamesOriginIff(if r.actionType in p.requiredOriginsFor then p.requiredOriginsFor[r.actionType] else {}, r.origin);
    SortedCheckNames();
    var v := GateByGate(t, p, r, draw);
    if v.Rejected? {
      var k := FailingGate(t, p, r, draw);
      assert IsVerdict(t, p, r, draw, v);
    } else {
      AllListedGatesAreAll(t, p, r);
    }
    VerdictIsUnique(t, p, r, draw, v, Judge(t, p, r, draw));
  }

  lemma FailingGate(t: Text, p: Policies, r: Request, draw: Draw) returns (k: nat)
    requires GateByGate(t, p, r, draw).Rejected?
    ensures FirstFailure(t, p, r, k)
    ensures GateByGate(t, p, r, draw).rejection == RejectionAt(t, p, r, draw, k)
  {
    NamesOriginIff(if r.actionType in p.requiredOriginsFor then p.requiredOriginsFor[r.actionType] else {}, r.origin);
    k := match GateByGate(t, p, r, draw).rejection.failedCheck
      case Completeness => 0
      case EvidenceSufficiency => 1
      case PolicyCompliance => 2
      case ProvenanceIntegrity => 3
      case SchemaConformance => 4;
  }

  /** A stricter policy set: more blocked types, more guarded types, fewer allowed origins. */
  ghost predicate Stricter(strict: Policies, p: Policies) {
    && p.blockedActionTypes <= strict.blockedActionTypes
    && forall a :: a in p.requiredOriginsFor ==>
      a in strict.requiredOriginsFor && strict.requiredOriginsFor[a] <= p.requiredOriginsFor[a]
  }

  /** Tightening policy never releases a blocked action. */
  lemma StricterPoliciesCertifyLess(t: Text, strict: Policies, p: Policies, r: Request)
    requires Stricter(strict, p) && AllGatesHold(t, strict, r)
    ensures AllGatesHold(t, p, r)
  {
    forall c: Check
      ensures GateResult(t, p, r, c).None?
    {
      assert GateResult(t, strict, r, c).None?;
    }
  }

  function CountCertified(processed: seq<(Request, Verdict)>): nat {
    if processed == [] then 0
    else CountCertified(processed[..|processed| - 1]) + (if processed[|processed| - 1].1.Certified? then 1 else 0)
  }

  class Chain {
    const text: Text
    const policies: Policies
    var processed: seq<(Request, Verdict)>

    constructor (text: Text, policies: Policies)
      ensures this.text == text && this.policies == policies && processed == []
    {
      this.text, this.policies, processed := text, policies, [];
    }

    method Validate(request: Request, draw: Draw)
      returns (certificate: Option<Certificate>, rejection: Option<Rejection>)
      modifies this`processed
      ensures certificate.Some? <==> rejection.None?
      ensures certificate.Some? <==> AllGatesHold(text, policies, request)
      ensures var verdict := if certificate.Some? then Certified(certificate.value) else Rejected(rejection.value);
        IsVerdict(text, policies, request, draw, verdict) && processed == old(processed) + [(request, verdict)]
    {
      var checksPassed: seq<Check> := [];

      var result := CheckCompleteness(request);
      if result.Some? {
        rejection := Reject(request, Completeness, result.value, draw, 0);
        return None, rejection;
      }
      checksPassed := checksPassed + [Completeness];

      result := CheckEvidence(request);
      if result.Some? {
        rejection := Reject(request, EvidenceSufficiency, result.value, draw, 1);
        return None, rejection;
      }
      checksPassed := checksPassed + [EvidenceSufficiency];

      result := CheckPolicy(policies, request);
      if result.Some? {
        rejection := Reject(request, PolicyCompliance, result.value, draw, 2);
        return None, rejection;
      }
      checksPassed := checksPassed + [PolicyCompliance];

      result := CheckProvenance(text, request);
      if result.Some? {
        rejection := Reject(request, ProvenanceIntegrity, result.value, draw, 3);
        return None, rejection;
      }
      checksPassed := checksPassed + [ProvenanceIntegrity];

      result := CheckSchema(request);
      if result.Some? {
        rejection := Reject(request, SchemaConformance, result.value, draw, 4);
        return None, rejection;
      }
      checksPassed := checksPassed + [SchemaConformance];

      assert checksPassed == ALL_CHECKS;
      var issued := Certify(text, request, checksPassed, draw);
      processed := processed + [(request, Certified(issued))];
      return Some(issued), None;
    }

    /** `_reject` followed by `_record`. */
    method Reject(request: Request, check: Check, detail: Detail, draw: Draw, ghost k: nat)
      returns (rejection: Option<Rejection>)
      requires FirstFailure(text, policies, request, k) && check == ALL_CHECKS[k]
      requires GateResult(text, policies, request, check) == Some(detail)
      modifies this`processed
      ensures !AllGatesHold(text, policies, request)
      ensures rejection.Some? && IsVerdict(text, policies, request, draw, Rejected(rejection.value))
      ensures processed == old(processed) + [(request, Rejected(rejection.value))]
    {
      var j := Rejection(draw.rejectionId, request.requestId, check, detail, draw.now);
      processed := processed + [(request, Rejected(j))];
      rejection := Some(j);
    }

    function GetPassRate(): (rate: real)
      reads this
      ensures 0.0 <= rate <= 1.0
      ensures rate * |processed| as real == CountCertified(processed) as real
      ensures processed == [] ==> rate == 0.0
    {
      if processed == [] then 0.0
      else
        CountIsBounded(processed);
        ShareIsInRange(CountCertified(processed), |processed|);
        CountCertified(processed) as real / |processed| as real
    }
  }

  lemma ShareIsInRange(part: nat, whole: nat)
    requires part <= whole && whole > 0
    ensures 0.0 <= part as real / whole as real <= 1.0
  {
  }

  lemma {:induction false} CountIsBounded(processed: seq<(Request, Verdict)>)
    ensures CountCertified(processed) <= |processed|
  {
    if processed != [] {
      CountIsBounded(processed[..|processed| - 1]);
    }
  }
}
