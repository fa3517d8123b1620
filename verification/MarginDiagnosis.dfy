/** The end-to-end margin diagnosis and its verdict (`MarginDiagnosisReconciler`). */
module MarginDiagnosis {
  import opened Foundation
  import opened MarginModel
  import opened Sequences
  import Billability
  import SlaAccountability
  import Leakage
  import Contradictions

  /** A status record is present as soon as it holds anything, with or without a `status` key. */
  datatype SlaStatus = SlaStatus(status: Option<string>)

  datatype SlaPerformance = SlaPerformance(
    slaStatus: Option<SlaStatus>, fieldBlockers: seq<SlaAccountability.FieldBlocker>, slaBreaches: seq<SlaBreach>)

  datatype Input = Input(
    contractObjects: seq<ContractObject>, workOrders: seq<WorkOrder>, incidents: seq<Incident>,
    workHistory: seq<WorkOrder>, sla: SlaPerformance)

  datatype Verdict = Healthy | LeakageDetected | PenaltyRisk | UnderRecovery

  datatype Diagnosis = Diagnosis(
    billingConflicts: seq<Conflict>, slaConflicts: seq<Conflict>, contradictions: seq<Conflict>,
    leakage: seq<Leakage.Trigger>, verdict: Verdict)

  // ---- Contract data ----

  function KindOf(tools: TextTools, o: ContractObject): string {
    tools.strip(o.kind.GetOr(o.controlType.GetOr(o.objectType.GetOr(""))))
  }

  const RATE_KINDS := {"rate_card", "rate", "billable_event"}
  const OBLIGATION_KINDS := {"obligation", "sla"}
  const SCOPE_KINDS := {"scope", "scope_boundary"}
  const INVOICE_KINDS := {"invoice"}

  function KindFinder(tools: TextTools, kinds: set<string>): ContractObject -> seq<ContractObject> {
    (o: ContractObject) => if KindOf(tools, o) in kinds then [o] else []
  }

  function OfKind(tools: TextTools, objects: seq<ContractObject>, kinds: set<string>): seq<ContractObject> {
    FlatMap(KindFinder(tools, kinds), objects)
  }

  /** `requires_approval`, `sla_status` and `penalty_triggered` are never set, so their defaults apply. */
  function ContractDataOf(tools: TextTools, objects: seq<ContractObject>): ContractData {
    ContractData(OfKind(tools, objects, RATE_KINDS), OfKind(tools, objects, OBLIGATION_KINDS),
                 OfKind(tools, objects, SCOPE_KINDS), OfKind(tools, objects, INVOICE_KINDS), false, "", false)
  }

  lemma OfKindStep(tools: TextTools, objects: seq<ContractObject>, i: nat, kinds: set<string>)
    requires i < |objects|
    ensures OfKind(tools, objects[..i + 1], kinds)
      == OfKind(tools, objects[..i], kinds) + (if KindOf(tools, objects[i]) in kinds then [objects[i]] else [])
  {
    FlatMapStep(KindFinder(tools, kinds), objects, i);
  }

  /** No kind goes to two lists. */
  lemma KindsAreDisjoint(kind: string)
    ensures kind in RATE_KINDS ==> kind !in OBLIGATION_KINDS && kind !in SCOPE_KINDS && kind !in INVOICE_KINDS
    ensures kind in OBLIGATION_KINDS ==> kind !in SCOPE_KINDS && kind !in INVOICE_KINDS
    ensures kind in SCOPE_KINDS ==> kind !in INVOICE_KINDS
  {
  }

  method BuildContractData(tools: TextTools, objects: seq<ContractObject>) returns (data: ContractData)
    ensures data == ContractDataOf(tools, objects)
  {
    var rateCard: seq<ContractObject>, obligations: seq<ContractObject> := [], [];
    var boundaries: seq<ContractObject>, invoices: seq<ContractObject> := [], [];
    for i := 0 to |objects|
      invariant rateCard == OfKind(tools, objects[..i], RATE_KINDS)
      invariant obligations == OfKind(tools, objects[..i], OBLIGATION_KINDS)
      invariant boundaries == OfKind(tools, objects[..i], SCOPE_KINDS)
      invariant invoices == OfKind(tools, objects[..i], INVOICE_KINDS)
    {
      OfKindStep(tools, objects, i, RATE_KINDS);
      OfKindStep(tools, objects, i, OBLIGATION_KINDS);
      OfKindStep(tools, objects, i, SCOPE_KINDS);
      OfKindStep(tools, objects, i, INVOICE_KINDS);
      var kind := KindOf(tools, objects[i]);
      KindsAreDisjoint(kind);
      if kind in RATE_KINDS {
        rateCard := rateCard + [objects[i]];
      } else if kind in OBLIGATION_KINDS {
        obligations := obligations + [objects[i]];
      } else if kind in SCOPE_KINDS {
        boundaries := boundaries + [objects[i]];
      } else if kind in INVOICE_KINDS {
        invoices := invoices + [objects[i]];
      }
    }
    assert objects[..|objects|] == objects;
    data := ContractData(rateCard, obligations, boundaries, invoices, false, "", false);
  }

  lemma OfKindIsExact(tools: TextTools, objects: seq<ContractObject>, kinds: set<string>, o: ContractObject)
    ensures o in OfKind(tools, objects, kinds) <==> o in objects && KindOf(tools, o) in kinds
  {
    FlatMapMembers(KindFinder(tools, kinds), objects, o);
  }

  // ---- Conflicts ----

  function BillingConflicts(blockers: seq<Billability.Blocker>): seq<Conflict> {
    seq(|blockers|, i requires 0 <= i < |blockers| => Conflict(Billing(blockers[i].rule), Error))
  }

  function BlockersOf(wo: WorkOrder): seq<Billability.Blocker> {
    Billability.Blockers(wo, wo.completionEvidence, wo.billingGates, wo.reattendance)
  }

  function BillingFinder(): WorkOrder -> seq<Conflict> {
    (wo: WorkOrder) => BillingConflicts(BlockersOf(wo))
  }

  function ContradictionFinder(tools: TextTools, contract: ContractData, primary: Option<Incident>)
    : WorkOrder -> seq<Conflict>
  {
    (wo: WorkOrder) => Contradictions.AllContradictions(tools, contract, wo, primary)
  }

  function Primary(incidents: seq<Incident>): Option<Incident> {
    if incidents == [] then None else Some(incidents[0])
  }

  predicate Breached(sla: SlaPerformance) {
    sla.slaStatus.Some? && sla.slaStatus.value.status == Some("breached")
  }

  /** The provider answers for a breach that no customer- or authority-caused blocker excuses. */
  predicate PenaltyExposed(sla: SlaPerformance) {
    Breached(sla) && SlaAccountability.NoneExcuses(sla.fieldBlockers)
  }

  function SlaConflicts(sla: SlaPerformance): seq<Conflict> {
    (if PenaltyExposed(sla) then [Conflict(SlaAccountability, Critical)] else [])
    + seq(|SlaAccountability.Factors(sla.fieldBlockers)|, i => Conflict(SlaMitigation, Warning))
  }

  method CheckSla(sla: SlaPerformance) returns (conflicts: seq<Conflict>)
    ensures conflicts == SlaConflicts(sla)
  {
    conflicts := [];
    if sla.slaStatus.Some? || sla.fieldBlockers != [] {
      var status := if sla.slaStatus.Some? then sla.slaStatus.value.status else None;
      var result := SlaAccountability.Evaluate(status, sla.fieldBlockers);
      if result.accountable && status == Some("breached") {
        conflicts := conflicts + [Conflict(SlaAccountability, Critical)];
      }
      conflicts := conflicts + seq(|result.factors|, i => Conflict(SlaMitigation, Warning));
    }
  }

  // ---- Verdict ----

  predicate AnySerious(conflicts: seq<Conflict>) {
    exists i :: 0 <= i < |conflicts| && Serious(conflicts[i].severity)
  }

  predicate AnyPenalty(sla: seq<Conflict>) {
    exists i :: 0 <= i < |sla| && sla[i].field == SlaAccountability && sla[i].severity == Critical
  }

  function DetermineVerdict(leakage: seq<Leakage.Trigger>, all: seq<Conflict>, sla: seq<Conflict>): Verdict {
    if AnyPenalty(sla) then PenaltyRisk
    else if leakage != [] then
      if exists i :: 0 <= i < |leakage| && Serious(leakage[i].severity) then UnderRecovery else LeakageDetected
    else if all != [] then
      if AnySerious(all) then UnderRecovery else LeakageDetected
    else Healthy
  }

  function BookOf(tools: TextTools, contract: ContractData): Leakage.Book {
    Leakage.Book(Leakage.InvoicedIds(contract.invoices), Leakage.RateMap(tools, contract.rateCard))
  }

  function InputBook(tools: TextTools, input: Input): Leakage.Book {
    BookOf(tools, ContractDataOf(tools, input.contractObjects))
  }

  function FindingsOf(tools: TextTools, input: Input): seq<Leakage.Finding> {
    Leakage.AllFindings(tools, InputBook(tools, input),
                        input.workOrders + input.workHistory, input.sla.slaBreaches)
  }

  function TriggersOf(findings: seq<Leakage.Finding>): seq<Leakage.Trigger> {
    seq(|findings|, i requires 0 <= i < |findings| => findings[i].trigger)
  }

  function BillingPart(input: Input): seq<Conflict> {
    FlatMap(BillingFinder(), input.workOrders)
  }

  function ContradictionPart(tools: TextTools, input: Input): seq<Conflict> {
    FlatMap(ContradictionFinder(tools, ContractDataOf(tools, input.contractObjects), Primary(input.incidents)),
            input.workOrders)
  }

  function DiagnosisOf(tools: TextTools, input: Input): Diagnosis {
    var billing, sla, contradictions := BillingPart(input), SlaConflicts(input.sla), ContradictionPart(tools, input);
    var leakage := TriggersOf(FindingsOf(tools, input));
    Diagnosis(billing, sla, contradictions, leakage, DetermineVerdict(leakage, billing + sla + contradictions, sla))
  }

  method CheckBilling(orders: seq<WorkOrder>) returns (conflicts: seq<Conflict>)
    ensures conflicts == FlatMap(BillingFinder(), orders)
  {
    conflicts := [];
    for i := 0 to |orders|
      invariant conflicts == FlatMap(BillingFinder(), orders[..i])
    {
      FlatMapStep(BillingFinder(), orders, i);
      var wo := orders[i];
      var result := Billability.Evaluate(wo, wo.completionEvidence, wo.billingGates, wo.reattendance);
      conflicts := conflicts + BillingConflicts(result.blockers);
    }
    assert orders[..|orders|] == orders;
  }

  method CheckContradictions(tools: TextTools, contract: ContractData, orders: seq<WorkOrder>, incidents: seq<Incident>)
    returns (conflicts: seq<Conflict>)
    ensures conflicts == FlatMap(ContradictionFinder(tools, contract, Primary(incidents)), orders)
  {
    conflicts := [];
    for i := 0 to |orders|
      invariant conflicts == FlatMap(ContradictionFinder(tools, contract, Primary(incidents)), orders[..i])
    {
      FlatMapStep(ContradictionFinder(tools, contract, Primary(incidents)), orders, i);
      var primary := if incidents != [] then Some(incidents[0]) else None;
      var detected := Contradictions.Detect(tools, contract, orders[i], primary);
      conflicts := conflicts + detected;
    }
    assert orders[..|orders|] == orders;
  }

  method Reconcile(tools: TextTools, input: Input) returns (d: Diagnosis)
    ensures d == DiagnosisOf(tools, input)
  {
    var contract := BuildContractData(tools, input.contractObjects);
    var billing := CheckBilling(input.workOrders);
    var sla := CheckSla(input.sla);
    var book := Leakage.BuildBook(tools, contract);
    var ledger := Leakage.Reconcile(tools, book, input.workOrders + input.workHistory, input.sla.slaBreaches);
    assert ledger.triggers == TriggersOf(FindingsOf(tools, input));
    var contradictions := CheckContradictions(tools, contract, input.workOrders, input.incidents);
    var verdict := DetermineVerdict(ledger.triggers, billing + sla + contradictions, sla);
    d := Diagnosis(billing, sla, contradictions, ledger.triggers, verdict);
  }

  // ---- What each verdict says about the input ----

  lemma PenaltyConflictIffExposed(sla: SlaPerformance)
    ensures AnyPenalty(SlaConflicts(sla)) <==> PenaltyExposed(sla)
  {
    if PenaltyExposed(sla) {
      assert SlaConflicts(sla)[0] == Conflict(SlaAccountability, Critical);
    }
  }

  /** Penalty risk is exactly an SLA status of breached with no blocker of the four excusing types. */
  lemma PenaltyRiskIff(tools: TextTools, input: Input)
    ensures DiagnosisOf(tools, input).verdict == PenaltyRisk <==> PenaltyExposed(input.sla)
  {
    PenaltyConflictIffExposed(input.sla);
  }

  /** Reordering the field blockers does not change whether there is a penalty risk. */
  lemma PenaltyRiskIgnoresBlockerOrder(tools: TextTools, a: Input, b: Input)
    requires a.sla.slaStatus == b.sla.slaStatus
    requires multiset(a.sla.fieldBlockers) == multiset(b.sla.fieldBlockers)
    ensures DiagnosisOf(tools, a).verdict == PenaltyRisk <==> DiagnosisOf(tools, b).verdict == PenaltyRisk
  {
    PenaltyRiskIff(tools, a);
    PenaltyRiskIff(tools, b);
    var x, y := a.sla.fieldBlockers, b.sla.fieldBlockers;
    assert forall k :: k in x <==> k in multiset(x);
    assert forall k :: k in y <==> k in multiset(y);
    assert SlaAccountability.NoneExcuses(x) <==> forall k :: k in x ==> !SlaAccountability.Excuses(k);
    assert SlaAccountability.NoneExcuses(y) <==> forall k :: k in y ==> !SlaAccountability.Excuses(k);
  }

  /** Reporting one more blocker never creates a penalty risk. */
  lemma BlockersNeverCreatePenaltyRisk(tools: TextTools, input: Input, more: seq<SlaAccountability.FieldBlocker>)
    ensures var after := input.(sla := input.sla.(fieldBlockers := input.sla.fieldBlockers + more));
      DiagnosisOf(tools, after).verdict == PenaltyRisk ==> DiagnosisOf(tools, input).verdict == PenaltyRisk
  {
    var after := input.(sla := input.sla.(fieldBlockers := input.sla.fieldBlockers + more));
    PenaltyRiskIff(tools, input);
    PenaltyRiskIff(tools, after);
    var x, y := input.sla.fieldBlockers, after.sla.fieldBlockers;
    assert forall i :: 0 <= i < |x| ==> x[i] == y[i];
  }

  function Rank(v: Verdict): nat {
    match v
    case Healthy => 0
    case LeakageDetected => 1
    case UnderRecovery => 2
    case PenaltyRisk => 3
  }

  /** Leakage hides conflicts: one more trigger makes the verdict milder exactly when it is the first trigger, it is
      only a warning, no penalty applies, and some conflict was serious. */
  lemma ExtraTriggerLowersVerdictIff(before: seq<Leakage.Trigger>, t: Leakage.Trigger, after: seq<Leakage.Trigger>,
                                     all: seq<Conflict>, sla: seq<Conflict>)
    ensures Rank(DetermineVerdict(before + [t] + after, all, sla)) < Rank(DetermineVerdict(before + after, all, sla))
      <==> before + after == [] && !Serious(t.severity) && !AnyPenalty(sla) && AnySerious(all)
  {
    var short, long := before + after, before + [t] + after;
    assert long[|before|] == t;
    assert forall i :: 0 <= i < |short| ==> short[i] == long[if i < |before| then i else i + 1];
  }

  // ---- Healthy, characterised by the input alone ----

  ghost predicate InvoicedBy(tools: TextTools, objects: seq<ContractObject>, id: string) {
    exists o :: o in objects && KindOf(tools, o) in INVOICE_KINDS && o.workOrderId == Some(id)
  }

  /** What a healthy diagnosis says about every work order, current or past. */
  ghost predicate NothingLost(tools: TextTools, input: Input, wo: WorkOrder) {
    && (Completed(wo) ==> InvoicedBy(tools, input.contractObjects, wo.workOrderId))
    && (wo.abortive ==> wo.abortiveClaimed)
    && !Leakage.EmergencyUnderbilled(tools, InputBook(tools, input), wo)
    && (ReattendedFor(wo.reattendance, "provider_fault") ==> !wo.reattendance.value.billed)
    && (wo.permitCost > 0.0 ==> wo.permitCostRecovered)
    && (wo.escalationDue && !wo.escalationApplied ==> Leakage.EscalationDelta(wo) <= 0.0)
    && !UncoveredVariation(wo)
    && !Leakage.EvidenceMissing(wo)
  }

  /** What it says about a current work order besides. */
  ghost predicate InOrder(tools: TextTools, input: Input, wo: WorkOrder) {
    && Billability.EvidenceComplete(wo, wo.completionEvidence)
    && Billability.GatesSatisfied(wo.billingGates)
    && !ReattendedFor(wo.reattendance, "provider_fault")
    && !Billability.DayworkUnsigned(wo)
    && !UncoveredVariation(wo)
    && (forall o :: o in input.contractObjects && KindOf(tools, o) in SCOPE_KINDS ==>
      !Contradictions.ScopeDisputed(tools, o, wo))
    && (forall o :: o in input.contractObjects && KindOf(tools, o) in RATE_KINDS ==>
      !Contradictions.RateDisputed(tools, o, wo))
    && (input.incidents != [] ==>
      && !Contradictions.CompletedTooEarly(tools, wo, input.incidents[0])
      && !Contradictions.LeftOpen(tools, wo, input.incidents[0]))
  }

  /** No order lost money, no two claim the same work, and every breach was credited. */
  ghost predicate NoLeakage(tools: TextTools, input: Input) {
    var orders := input.workOrders + input.workHistory;
    && (forall i :: 0 <= i < |orders| ==> NothingLost(tools, input, orders[i]))
    && Leakage.NoSharedKey(tools, orders)
    && forall i :: 0 <= i < |input.sla.slaBreaches| ==> input.sla.slaBreaches[i].creditApplied
  }

  /** Every current order is in order, and there is neither a breach nor a mitigating blocker. */
  ghost predicate NoConflict(tools: TextTools, input: Input) {
    && (forall i :: 0 <= i < |input.workOrders| ==> InOrder(tools, input, input.workOrders[i]))
    && !Breached(input.sla)
    && forall i :: 0 <= i < |input.sla.fieldBlockers| ==> !SlaAccountability.Mitigates(input.sla.fieldBlockers[i])
  }

  ghost predicate HealthyInput(tools: TextTools, input: Input) {
    NoLeakage(tools, input) && NoConflict(tools, input)
  }

  lemma HealthyIffEmpty(l: seq<Leakage.Trigger>, b: seq<Conflict>, s: seq<Conflict>, c: seq<Conflict>)
    ensures DetermineVerdict(l, b + s + c, s) == Healthy <==> l == [] && b == [] && s == [] && c == []
  {
    assert |b + s + c| == |b| + |s| + |c|;
  }

  lemma HealthyIffNothingFound(tools: TextTools, input: Input)
    ensures DiagnosisOf(tools, input).verdict == Healthy <==>
      && FindingsOf(tools, input) == [] && BillingPart(input) == []
      && SlaConflicts(input.sla) == [] && ContradictionPart(tools, input) == []
  {
    var d, findings := DiagnosisOf(tools, input), FindingsOf(tools, input);
    HealthyIffEmpty(d.leakage, d.billingConflicts, d.slaConflicts, d.contradictions);
    assert |d.leakage| == |findings|;
  }

  lemma InvoicedIffObject(tools: TextTools, objects: seq<ContractObject>, id: string)
    ensures Some(id) in Leakage.InvoicedIds(OfKind(tools, objects, INVOICE_KINDS)) <==> InvoicedBy(tools, objects, id)
  {
    forall o ensures o in OfKind(tools, objects, INVOICE_KINDS) <==> o in objects && KindOf(tools, o) in INVOICE_KINDS {
      OfKindIsExact(tools, objects, INVOICE_KINDS, o);
    }
  }

  lemma OrderIsCleanIff(tools: TextTools, input: Input, wo: WorkOrder)
    ensures Leakage.OrderFindings(tools, InputBook(tools, input), wo) == []
      <==> NothingLost(tools, input, wo)
  {
    Leakage.NoOrderFindingsIffClean(tools, InputBook(tools, input), wo);
    InvoicedIffObject(tools, input.contractObjects, wo.workOrderId);
  }

  lemma NoOrderFindingsIff(tools: TextTools, input: Input, orders: seq<WorkOrder>)
    ensures Leakage.AllOrderFindings(tools, InputBook(tools, input), orders) == []
      <==> forall i :: 0 <= i < |orders| ==> NothingLost(tools, input, orders[i])
  {
    var book := InputBook(tools, input);
    var finder := Leakage.Finder(tools, book);
    FlatMapEmptyIff(finder, orders);
    forall i | 0 <= i < |orders|
      ensures finder(orders[i]) == [] <==> NothingLost(tools, input, orders[i])
    {
      OrderIsCleanIff(tools, input, orders[i]);
    }
  }

  lemma NoFindingsIff(tools: TextTools, input: Input)
    ensures FindingsOf(tools, input) == [] <==> NoLeakage(tools, input)
  {
    var orders, book := input.workOrders + input.workHistory, InputBook(tools, input);
    NoOrderFindingsIff(tools, input, orders);
    FlatMapEmptyIff(Leakage.CreditFinder(), input.sla.slaBreaches);
    Leakage.NoGroupsIffNoneReported(tools, orders);
    Leakage.ReportedIffShared(tools, orders);
    EmptyParts(Leakage.AllOrderFindings(tools, book, orders), Leakage.CreditFindings(input.sla.slaBreaches),
               Leakage.GroupFindings(tools, orders));
  }

  lemma EmptyParts<T>(a: seq<T>, b: seq<T>, c: seq<T>)
    ensures a + b + c == [] <==> a == [] && b == [] && c == []
  {
    assert |a + b + c| == |a| + |b| + |c|;
  }

  lemma NoSlaConflictsIff(sla: SlaPerformance)
    ensures SlaConflicts(sla) == []
      <==> (!Breached(sla)
            && forall i :: 0 <= i < |sla.fieldBlockers| ==> !SlaAccountability.Mitigates(sla.fieldBlockers[i]))
  {
    SlaAccountability.FactorsEmptyIff(sla.fieldBlockers);
    assert |SlaConflicts(sla)|
      == (if PenaltyExposed(sla) then 1 else 0) + |SlaAccountability.Factors(sla.fieldBlockers)|;
  }

  lemma ConsistentIff(tools: TextTools, input: Input, wo: WorkOrder)
    ensures Contradictions.Consistent(tools, ContractDataOf(tools, input.contractObjects), wo,
                                      Primary(input.incidents)) <==>
      && (forall o :: o in input.contractObjects && KindOf(tools, o) in SCOPE_KINDS ==>
        !Contradictions.ScopeDisputed(tools, o, wo))
      && (forall o :: o in input.contractObjects && KindOf(tools, o) in RATE_KINDS ==>
        !Contradictions.RateDisputed(tools, o, wo))
      && (input.incidents != [] ==>
        && !Contradictions.CompletedTooEarly(tools, wo, input.incidents[0])
        && !Contradictions.LeftOpen(tools, wo, input.incidents[0]))
  {
    var contract := ContractDataOf(tools, input.contractObjects);
    forall o
      ensures o in contract.scopeBoundaries <==> o in input.contractObjects && KindOf(tools, o) in SCOPE_KINDS
      ensures o in contract.rateCard <==> o in input.contractObjects && KindOf(tools, o) in RATE_KINDS
    {
      OfKindIsExact(tools, input.contractObjects, SCOPE_KINDS, o);
      OfKindIsExact(tools, input.contractObjects, RATE_KINDS, o);
    }
  }

  lemma OrderHasNoConflictsIff(tools: TextTools, input: Input, wo: WorkOrder)
    ensures BillingFinder()(wo) == []
        && ContradictionFinder(tools, ContractDataOf(tools, input.contractObjects), Primary(input.incidents))(wo) == []
      <==> InOrder(tools, input, wo)
  {
    assert |BillingFinder()(wo)| == |BlockersOf(wo)|;
    Billability.BlockersEmptyIff(wo, wo.completionEvidence, wo.billingGates, wo.reattendance);
    Contradictions.NoContradictionsIffConsistent(tools, ContractDataOf(tools, input.contractObjects), wo,
                                                 Primary(input.incidents));
    ConsistentIff(tools, input, wo);
  }

  lemma NoOrderConflictsIff(tools: TextTools, input: Input)
    ensures BillingPart(input) == [] && ContradictionPart(tools, input) == []
      <==> forall i :: 0 <= i < |input.workOrders| ==> InOrder(tools, input, input.workOrders[i])
  {
    var billing := BillingFinder();
    var contradictions := ContradictionFinder(tools, ContractDataOf(tools, input.contractObjects),
                                              Primary(input.incidents));
    FlatMapEmptyIff(billing, input.workOrders);
    FlatMapEmptyIff(contradictions, input.workOrders);
    forall i | 0 <= i < |input.workOrders|
      ensures billing(input.workOrders[i]) == [] && contradictions(input.workOrders[i]) == []
        <==> InOrder(tools, input, input.workOrders[i])
    {
      OrderHasNoConflictsIff(tools, input, input.workOrders[i]);
    }
  }

  /** A healthy verdict is sound and complete: it is given exactly when no order, past or present, lost money, no two
      orders claim the same work, every breach was credited, every current order is billable without blockers and
      contradicts nothing, and no SLA breach or mitigating blocker exists. */
  lemma HealthyIff(tools: TextTools, input: Input)
    ensures DiagnosisOf(tools, input).verdict == Healthy <==> HealthyInput(tools, input)
  {
    HealthyIffNothingFound(tools, input);
    NoFindingsIff(tools, input);
    NoSlaConflictsIff(input.sla);
    NoOrderConflictsIff(tools, input);
  }

  /** In particular every current order of a healthy diagnosis may be invoiced. */
  lemma HealthyOrdersAreBillable(tools: TextTools, input: Input, i: nat)
    requires DiagnosisOf(tools, input).verdict == Healthy && i < |input.workOrders|
    ensures var wo := input.workOrders[i];
      BlockersOf(wo) == [] && Billability.Billable(wo, wo.completionEvidence, wo.billingGates, wo.reattendance)
  {
    HealthyIff(tools, input);
    var wo := input.workOrders[i];
    assert InOrder(tools, input, wo);
    Billability.BillableDespiteBlockersIff(wo, wo.completionEvidence, wo.billingGates, wo.reattendance);
    Billability.BlockersEmptyIff(wo, wo.completionEvidence, wo.billingGates, wo.reattendance);
  }

  // ---- The two verdicts in between, characterised by the input alone ----

  ghost predicate SeriousConflictIn(conflicts: seq<Conflict>) {
    exists c :: c in conflicts && Serious(c.severity)
  }

  lemma SeriousConflictInFlatMap<T>(finder: T -> seq<Conflict>, s: seq<T>)
    ensures SeriousConflictIn(FlatMap(finder, s)) <==> exists i :: 0 <= i < |s| && SeriousConflictIn(finder(s[i]))
  {
    if c :| c in FlatMap(finder, s) && Serious(c.severity) {
      FlatMapMembers(finder, s, c);
      var i :| 0 <= i < |s| && c in finder(s[i]);
      assert SeriousConflictIn(finder(s[i]));
    }
    if i :| 0 <= i < |s| && SeriousConflictIn(finder(s[i])) {
      var c :| c in finder(s[i]) && Serious(c.severity);
      FlatMapMembers(finder, s, c);
    }
  }

  lemma SeriousConflictInParts(a: seq<Conflict>, b: seq<Conflict>)
    ensures SeriousConflictIn(a + b) <==> SeriousConflictIn(a) || SeriousConflictIn(b)
  {
    assert forall c :: c in a + b <==> c in a || c in b;
  }

  /** The rate on the card and the rate in the field are more than 10% apart. */
  predicate RateFarOff(tools: TextTools, o: ContractObject, wo: WorkOrder) {
    var contract := o.rate.GetOr(0.0);
    && Contradictions.RateDisputed(tools, o, wo)
    && Contradictions.Abs(contract - Contradictions.FieldRate(wo)) > contract * 0.10
  }

  /** A current work order with a blocker, a scope dispute, an incident still open after completion, or a rate that is
      far off. */
  ghost predicate SeriouslyWrong(tools: TextTools, input: Input, wo: WorkOrder) {
    || BlockersOf(wo) != []
    || (exists o ::
      o in input.contractObjects && KindOf(tools, o) in SCOPE_KINDS && Contradictions.ScopeDisputed(tools, o, wo))
    || (exists o :: o in input.contractObjects && KindOf(tools, o) in RATE_KINDS && RateFarOff(tools, o, wo))
    || (input.incidents != [] && Contradictions.CompletedTooEarly(tools, wo, input.incidents[0]))
  }

  lemma BillingConflictIsSerious(wo: WorkOrder)
    ensures SeriousConflictIn(BillingFinder()(wo)) <==> BlockersOf(wo) != []
  {
    if BlockersOf(wo) != [] {
      assert BillingFinder()(wo)[0] in BillingFinder()(wo);
    }
  }

  lemma RateConflictIsSerious(tools: TextTools, o: ContractObject, wo: WorkOrder)
    ensures SeriousConflictIn(Contradictions.RateFinder(tools, wo)(o)) <==> RateFarOff(tools, o, wo)
  {
    if Contradictions.RateDisputed(tools, o, wo) {
      var contract, diff := o.rate.GetOr(0.0), Contradictions.Abs(o.rate.GetOr(0.0) - Contradictions.FieldRate(wo));
      ShareAbove(diff, contract);
      var conflicts := Contradictions.RateFinder(tools, wo)(o);
      assert conflicts == [Conflict(Rate, if diff / contract > 0.10 then Critical else Warning)];
      assert conflicts[0] in conflicts;
    }
  }

  lemma ShareAbove(part: real, whole: real)
    requires whole > 0.0
    ensures part / whole > 0.10 <==> part > whole * 0.10
  {
    var share := part / whole;
    assert part == share * whole;
    assert (share - 0.10) * whole == part - whole * 0.10;
  }

  lemma ScopeConflictIsSerious(tools: TextTools, o: ContractObject, wo: WorkOrder)
    ensures SeriousConflictIn(Contradictions.ScopeFinder(tools, wo)(o)) <==> Contradictions.ScopeDisputed(tools, o, wo)
  {
    if Contradictions.ScopeDisputed(tools, o, wo) {
      assert Contradictions.ScopeFinder(tools, wo)(o)[0] in Contradictions.ScopeFinder(tools, wo)(o);
    }
  }

  lemma SeriousScopeIff(tools: TextTools, objects: seq<ContractObject>, wo: WorkOrder)
    ensures SeriousConflictIn(FlatMap(Contradictions.ScopeFinder(tools, wo), OfKind(tools, objects, SCOPE_KINDS)))
      <==> exists o :: o in objects && KindOf(tools, o) in SCOPE_KINDS && Contradictions.ScopeDisputed(tools, o, wo)
  {
    var boundaries := OfKind(tools, objects, SCOPE_KINDS);
    SeriousConflictInFlatMap(Contradictions.ScopeFinder(tools, wo), boundaries);
    forall o
      ensures o in boundaries <==> o in objects && KindOf(tools, o) in SCOPE_KINDS
      ensures SeriousConflictIn(Contradictions.ScopeFinder(tools, wo)(o))
        <==> Contradictions.ScopeDisputed(tools, o, wo)
    {
      OfKindIsExact(tools, objects, SCOPE_KINDS, o);
      ScopeConflictIsSerious(tools, o, wo);
    }
  }

  lemma SeriousRateIff(tools: TextTools, objects: seq<ContractObject>, wo: WorkOrder)
    ensures SeriousConflictIn(FlatMap(Contradictions.RateFinder(tools, wo), OfKind(tools, objects, RATE_KINDS)))
      <==> exists o :: o in objects && KindOf(tools, o) in RATE_KINDS && RateFarOff(tools, o, wo)
  {
    var rateCard := OfKind(tools, objects, RATE_KINDS);
    SeriousConflictInFlatMap(Contradictions.RateFinder(tools, wo), rateCard);
    forall o
      ensures o in rateCard <==> o in objects && KindOf(tools, o) in RATE_KINDS
      ensures SeriousConflictIn(Contradictions.RateFinder(tools, wo)(o)) <==> RateFarOff(tools, o, wo)
    {
      OfKindIsExact(tools, objects, RATE_KINDS, o);
      RateConflictIsSerious(tools, o, wo);
    }
  }

  lemma SeriousCompletionIff(tools: TextTools, wo: WorkOrder, incident: Option<Incident>)
    ensures SeriousConflictIn(Contradictions.CompletionConflicts(tools, wo, incident))
      <==> incident.Some? && Contradictions.CompletedTooEarly(tools, wo, incident.value)
  {
    var conflicts := Contradictions.CompletionConflicts(tools, wo, incident);
    if conflicts != [] {
      assert conflicts[0] in conflicts;
    }
  }

  lemma SeriousContradictionParts(tools: TextTools, contract: ContractData, wo: WorkOrder, primary: Option<Incident>)
    requires !contract.requiresApproval && !contract.penaltyTriggered
    ensures SeriousConflictIn(Contradictions.AllContradictions(tools, contract, wo, primary)) <==> (
      SeriousConflictIn(FlatMap(Contradictions.ScopeFinder(tools, wo), contract.scopeBoundaries))
      || SeriousConflictIn(Contradictions.CompletionConflicts(tools, wo, primary))
      || SeriousConflictIn(FlatMap(Contradictions.RateFinder(tools, wo), contract.rateCard)))
  {
    var a := FlatMap(Contradictions.ScopeFinder(tools, wo), contract.scopeBoundaries);
    var b := Contradictions.CompletionConflicts(tools, wo, primary);
    var c := FlatMap(Contradictions.RateFinder(tools, wo), contract.rateCard);
    SeriousConflictInParts(a, b);
    SeriousConflictInParts(a + b, c);
    assert Contradictions.AllContradictions(tools, contract, wo, primary) == a + b + c;
  }

  lemma OrderIsSeriouslyWrongIff(tools: TextTools, input: Input, wo: WorkOrder)
    ensures SeriousConflictIn(BillingFinder()(wo))
        || SeriousConflictIn(ContradictionFinder(tools, ContractDataOf(tools, input.contractObjects),
                                                 Primary(input.incidents))(wo))
      <==> SeriouslyWrong(tools, input, wo)
  {
    BillingConflictIsSerious(wo);
    SeriousContradictionParts(tools, ContractDataOf(tools, input.contractObjects), wo, Primary(input.incidents));
    SeriousScopeIff(tools, input.contractObjects, wo);
    SeriousRateIff(tools, input.contractObjects, wo);
    SeriousCompletionIff(tools, wo, Primary(input.incidents));
  }

  ghost predicate AnyOrderSeriouslyWrong(tools: TextTools, input: Input) {
    exists i :: 0 <= i < |input.workOrders| && SeriouslyWrong(tools, input, input.workOrders[i])
  }

  lemma SlaConflictsAreMild(sla: SlaPerformance)
    requires !PenaltyExposed(sla)
    ensures !SeriousConflictIn(SlaConflicts(sla))
  {
  }

  lemma SeriousOrdersIff(tools: TextTools, input: Input)
    ensures SeriousConflictIn(BillingPart(input)) || SeriousConflictIn(ContradictionPart(tools, input))
      <==> AnyOrderSeriouslyWrong(tools, input)
  {
    var billing := BillingFinder();
    var contradictions := ContradictionFinder(tools, ContractDataOf(tools, input.contractObjects),
                                              Primary(input.incidents));
    SeriousConflictInFlatMap(billing, input.workOrders);
    SeriousConflictInFlatMap(contradictions, input.workOrders);
    forall i | 0 <= i < |input.workOrders|
      ensures SeriousConflictIn(billing(input.workOrders[i])) || SeriousConflictIn(contradictions(input.workOrders[i]))
        <==> SeriouslyWrong(tools, input, input.workOrders[i])
    {
      OrderIsSeriouslyWrongIff(tools, input, input.workOrders[i]);
    }
  }

  lemma SeriousConflictsIff(tools: TextTools, input: Input)
    requires !PenaltyExposed(input.sla)
    ensures SeriousConflictIn(BillingPart(input) + SlaConflicts(input.sla) + ContradictionPart(tools, input))
      <==> AnyOrderSeriouslyWrong(tools, input)
  {
    SlaConflictsAreMild(input.sla);
    SeriousConflictInParts(BillingPart(input), SlaConflicts(input.sla));
    SeriousConflictInParts(BillingPart(input) + SlaConflicts(input.sla), ContradictionPart(tools, input));
    SeriousOrdersIff(tools, input);
  }

  ghost predicate AnyOrderShowsSerious(tools: TextTools, input: Input) {
    var orders := input.workOrders + input.workHistory;
    exists i :: 0 <= i < |orders| && Leakage.ShowsSerious(tools, InputBook(tools, input), orders[i])
  }

  lemma UnderRecoveryOf(l: seq<Leakage.Trigger>, all: seq<Conflict>, sla: seq<Conflict>)
    requires !AnyPenalty(sla)
    ensures DetermineVerdict(l, all, sla) == UnderRecovery <==>
      if l != [] then exists t :: t in l && Serious(t.severity) else SeriousConflictIn(all)
  {
    if t :| t in l && Serious(t.severity) {
      var i :| 0 <= i < |l| && l[i] == t;
    }
    if c :| c in all && Serious(c.severity) {
      var i :| 0 <= i < |all| && all[i] == c;
    }
  }

  /** Without a penalty, the diagnosis is under-recovery exactly when some order shows a serious leakage pattern or,
      where no leakage at all is found, some current order is seriously wrong. */
  lemma UnderRecoveryIff(tools: TextTools, input: Input)
    ensures DiagnosisOf(tools, input).verdict == UnderRecovery <==>
      && !PenaltyExposed(input.sla)
      && if NoLeakage(tools, input) then AnyOrderSeriouslyWrong(tools, input) else AnyOrderShowsSerious(tools, input)
  {
    NoFindingsIff(tools, input);
    PenaltyRiskIff(tools, input);
    PenaltyConflictIffExposed(input.sla);
    if !PenaltyExposed(input.sla) {
      var d, findings := DiagnosisOf(tools, input), FindingsOf(tools, input);
      UnderRecoveryOf(d.leakage, d.billingConflicts + d.slaConflicts + d.contradictions, d.slaConflicts);
      SeriousConflictsIff(tools, input);
      Leakage.AnalysisIsSeriousIff(tools, InputBook(tools, input),
                                   input.workOrders + input.workHistory, input.sla.slaBreaches);
      SeriousTriggersIff(findings);
    }
  }

  /** Leakage detected is what remains without a penalty: leakage that no serious pattern shows, or no leakage and
      conflicts none of which is serious. */
  lemma LeakageDetectedIff(tools: TextTools, input: Input)
    ensures DiagnosisOf(tools, input).verdict == LeakageDetected <==>
      && !PenaltyExposed(input.sla)
      && if NoLeakage(tools, input) then !NoConflict(tools, input) && !AnyOrderSeriouslyWrong(tools, input)
         else !AnyOrderShowsSerious(tools, input)
  {
    HealthyIff(tools, input);
    PenaltyRiskIff(tools, input);
    UnderRecoveryIff(tools, input);
  }

  function WithBreach(input: Input, b: SlaBreach): Input {
    input.(sla := input.sla.(slaBreaches := input.sla.slaBreaches + [b]))
  }

  lemma NothingLostShowsNothingSerious(tools: TextTools, input: Input)
    requires NoLeakage(tools, input)
    ensures !AnyOrderShowsSerious(tools, input)
  {
    NoFindingsIff(tools, input);
    Leakage.AnalysisIsSeriousIff(tools, InputBook(tools, input), input.workOrders + input.workHistory,
                                 input.sla.slaBreaches);
  }

  /** The masking of conflicts, at the input: one more uncredited breach makes the verdict milder exactly when nothing
      had leaked before, no penalty applies, and some current order is seriously wrong. */
  lemma UncreditedBreachLowersVerdictIff(tools: TextTools, input: Input, b: SlaBreach)
    requires !b.creditApplied
    ensures Rank(DiagnosisOf(tools, WithBreach(input, b)).verdict) < Rank(DiagnosisOf(tools, input).verdict)
      <==> NoLeakage(tools, input) && !PenaltyExposed(input.sla) && AnyOrderSeriouslyWrong(tools, input)
  {
    var after := WithBreach(input, b);
    assert after.sla.slaBreaches[|input.sla.slaBreaches|] == b;
    assert !NoLeakage(tools, after);
    assert AnyOrderShowsSerious(tools, after) <==> AnyOrderShowsSerious(tools, input);
    PenaltyRiskIff(tools, input);
    PenaltyRiskIff(tools, after);
    UnderRecoveryIff(tools, input);
    UnderRecoveryIff(tools, after);
    LeakageDetectedIff(tools, input);
    LeakageDetectedIff(tools, after);
    if NoLeakage(tools, input) {
      NothingLostShowsNothingSerious(tools, input);
    }
  }

  /** An open work order with one gate not met, and nothing else. */
  const GATED_INPUT := Input([], [BLANK_ORDER.(billingGates := [BillingGate("sign-off", false)])], [], [],
                             SlaPerformance(None, [], []))

  /** A witness: an unmet billing gate is under-recovery, until an uncredited breach is reported besides. */
  lemma BreachMasksUnmetGate(tools: TextTools, b: SlaBreach)
    requires !b.creditApplied
    ensures DiagnosisOf(tools, GATED_INPUT).verdict == UnderRecovery
    ensures DiagnosisOf(tools, WithBreach(GATED_INPUT, b)).verdict == LeakageDetected
  {
    var input, wo := GATED_INPUT, GATED_INPUT.workOrders[0];
    assert !Leakage.EvidenceMissing(wo) && NothingLost(tools, input, wo);
    assert NoLeakage(tools, input);
    Billability.BlockersEmptyIff(wo, wo.completionEvidence, wo.billingGates, wo.reattendance);
    assert !wo.billingGates[0].satisfied;
    assert SeriouslyWrong(tools, input, input.workOrders[0]);
    UnderRecoveryIff(tools, input);
    UncreditedBreachLowersVerdictIff(tools, input, b);
    LeakageDetectedIff(tools, WithBreach(input, b));
    HealthyIff(tools, WithBreach(input, b));
  }

  lemma SeriousTriggersIff(findings: seq<Leakage.Finding>)
    ensures (exists t :: t in TriggersOf(findings) && Serious(t.severity)) <==> Leakage.SeriousIn(findings)
  {
    var triggers := TriggersOf(findings);
    if t :| t in triggers && Serious(t.severity) {
      var i :| 0 <= i < |triggers| && triggers[i] == t;
      assert findings[i] in findings;
    }
    if f :| f in findings && Serious(f.trigger.severity) {
      var i :| 0 <= i < |findings| && findings[i] == f;
      assert triggers[i] in triggers;
    }
  }
}
