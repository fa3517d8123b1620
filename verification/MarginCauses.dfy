/** What causes each finding of a margin diagnosis, told from the input in its own words and numbers. */
module MarginCauses {
  import opened Foundation
  import opened MarginModel
  import opened Sequences
  import opened MarginDiagnosis
  import Billability
  import SlaAccountability
  import Leakage
  import Contradictions

  // ---- Contract objects ----

  /** An object's kind is its type, else its control type, else its object type. */
  predicate IsOfKind(tools: TextTools, o: ContractObject, kind: string) {
    tools.strip(
      if o.kind.Some? then o.kind.value
      else if o.controlType.Some? then o.controlType.value
      else if o.objectType.Some? then o.objectType.value
      else "") == kind
  }

  predicate OnRateCard(tools: TextTools, o: ContractObject) {
    IsOfKind(tools, o, "rate_card") || IsOfKind(tools, o, "rate") || IsOfKind(tools, o, "billable_event")
  }

  predicate IsBoundary(tools: TextTools, o: ContractObject) {
    IsOfKind(tools, o, "scope") || IsOfKind(tools, o, "scope_boundary")
  }

  lemma KindsAreTold(tools: TextTools, o: ContractObject)
    ensures KindOf(tools, o) in RATE_KINDS <==> OnRateCard(tools, o)
    ensures KindOf(tools, o) in SCOPE_KINDS <==> IsBoundary(tools, o)
    ensures KindOf(tools, o) in INVOICE_KINDS <==> IsOfKind(tools, o, "invoice")
    ensures KindOf(tools, o) in OBLIGATION_KINDS <==> IsOfKind(tools, o, "obligation") || IsOfKind(tools, o, "sla")
  {
  }

  /** Which objects go to which list. */
  lemma ListsHoldTheirKinds(tools: TextTools, objects: seq<ContractObject>, o: ContractObject)
    ensures var data := ContractDataOf(tools, objects);
      && (o in data.rateCard <==> o in objects && OnRateCard(tools, o))
      && (o in data.obligations <==>
        o in objects && (IsOfKind(tools, o, "obligation") || IsOfKind(tools, o, "sla")))
      && (o in data.scopeBoundaries <==> o in objects && IsBoundary(tools, o))
      && (o in data.invoices <==> o in objects && IsOfKind(tools, o, "invoice"))
  {
    KindsAreTold(tools, o);
    OfKindIsExact(tools, objects, RATE_KINDS, o);
    OfKindIsExact(tools, objects, OBLIGATION_KINDS, o);
    OfKindIsExact(tools, objects, SCOPE_KINDS, o);
    OfKindIsExact(tools, objects, INVOICE_KINDS, o);
  }

  // ---- Contradictions ----

  /** One of the two says the work is in scope and the other says it is not, and the boundary names an activity that
      the order describes. */
  ghost predicate ScopeClash(tools: TextTools, o: ContractObject, wo: WorkOrder) {
    var contract, field := tools.strip(o.scopeType), tools.strip(wo.scopeStatus);
    && ((contract == "in_scope" && field == "out_of_scope") || (contract == "out_of_scope" && field == "in_scope"))
    && exists a :: a in o.activities && tools.strip(tools.lower(a)) in tools.tokens(tools.strip(wo.description))
  }

  /** Card and field each have a rate for named activities that are alike. */
  predicate SameWork(tools: TextTools, o: ContractObject, wo: WorkOrder, card: real, field: real) {
    var listed := tools.strip(o.activity);
    var done := tools.strip(if wo.activity.Some? then wo.activity.value else wo.workOrderType);
    && o.rate == Some(card) && card > 0.0
    && (wo.rate == Some(field) || (wo.rate.None? && wo.billedRate == Some(field))) && field > 0.0
    && listed != "" && done != ""
    && tools.similarity(tools.strip(tools.lower(listed)), tools.strip(tools.lower(done))) >= 0.55
  }

  predicate WithinOnePercent(card: real, field: real) {
    99.0 * card <= 100.0 * field <= 101.0 * card
  }

  predicate WithinTenPercent(card: real, field: real) {
    90.0 * card <= 100.0 * field <= 110.0 * card
  }

  /** The rates part by more than one percent, which is a warning, or by more than ten, which is critical. */
  predicate RateClash(tools: TextTools, o: ContractObject, wo: WorkOrder, card: real, field: real, severity: Severity) {
    && SameWork(tools, o, wo, card, field)
    && match severity
       case Warning => !WithinOnePercent(card, field) && WithinTenPercent(card, field)
       case Critical => !WithinTenPercent(card, field)
       case Error => false
  }

  /** Completed work on an incident that is still worked on is an error, open work on one that is over a warning. */
  predicate CompletionClash(tools: TextTools, wo: WorkOrder, incident: Incident, severity: Severity) {
    var status, state := tools.strip(wo.status), tools.strip(incident.state);
    match severity
    case Error => status == "completed" && (state == "new" || state == "investigating" || state == "in_progress")
    case Warning =>
      && (state == "resolved" || state == "closed")
      && (status == "pending" || status == "in_progress" || status == "assigned")
    case Critical => false
  }

  /** The order, a contract object or the first incident make the contradiction `c`. */
  ghost predicate Contradicts(tools: TextTools, input: Input, wo: WorkOrder, c: Conflict) {
    match c.field
    case Scope =>
      c.severity == Error && exists o :: o in input.contractObjects && IsBoundary(tools, o) && ScopeClash(tools, o, wo)
    case CompletionVsIncident => input.incidents != [] && CompletionClash(tools, wo, input.incidents[0], c.severity)
    case Rate =>
      exists o, card, field ::
        && o in input.contractObjects && OnRateCard(tools, o)
        && RateClash(tools, o, wo, card, field, c.severity)
    case _ => false
  }

  lemma ScopePair(tools: TextTools, o: ContractObject, wo: WorkOrder, c: Conflict)
    ensures c in Contradictions.ScopeFinder(tools, wo)(o) <==> c == Conflict(Scope, Error) && ScopeClash(tools, o, wo)
  {
    assert Contradictions.ScopeDisputed(tools, o, wo) <==> ScopeClash(tools, o, wo);
  }

  lemma PartingRates(card: real, field: real)
    requires card > 0.0
    ensures Contradictions.Abs(card - field) > card * 0.01 <==> !WithinOnePercent(card, field)
    ensures Contradictions.Abs(card - field) / card > 0.10 <==> !WithinTenPercent(card, field)
  {
    ShareAbove(Contradictions.Abs(card - field), card);
  }

  lemma RatePair(tools: TextTools, o: ContractObject, wo: WorkOrder, c: Conflict)
    ensures c in Contradictions.RateFinder(tools, wo)(o)
      <==> c.field == Rate && exists card, field :: RateClash(tools, o, wo, card, field, c.severity)
  {
    var card, field := o.rate.GetOr(0.0), Contradictions.FieldRate(wo);
    if card > 0.0 {
      PartingRates(card, field);
    }
    var parted := Contradictions.Abs(card - field) > card * 0.01;
    assert Contradictions.RateDisputed(tools, o, wo) <==> SameWork(tools, o, wo, card, field) && parted;
    forall x, y | RateClash(tools, o, wo, x, y, c.severity)
      ensures x == card && y == field
    {
    }
    assert c in Contradictions.RateFinder(tools, wo)(o)
      <==> c.field == Rate && RateClash(tools, o, wo, card, field, c.severity);
  }

  lemma ScopePart(tools: TextTools, input: Input, wo: WorkOrder, c: Conflict)
    ensures c in FlatMap(Contradictions.ScopeFinder(tools, wo),
                         ContractDataOf(tools, input.contractObjects).scopeBoundaries)
      <==> c.field == Scope && Contradicts(tools, input, wo, c)
  {
    var finder, boundaries := Contradictions.ScopeFinder(tools, wo),
      ContractDataOf(tools, input.contractObjects).scopeBoundaries;
    FlatMapMembers(finder, boundaries, c);
    forall o
      ensures o in boundaries <==> o in input.contractObjects && IsBoundary(tools, o)
      ensures c in finder(o) <==> c == Conflict(Scope, Error) && ScopeClash(tools, o, wo)
    {
      ListsHoldTheirKinds(tools, input.contractObjects, o);
      ScopePair(tools, o, wo, c);
    }
  }

  lemma RatePart(tools: TextTools, input: Input, wo: WorkOrder, c: Conflict)
    ensures c in FlatMap(Contradictions.RateFinder(tools, wo), ContractDataOf(tools, input.contractObjects).rateCard)
      <==> c.field == Rate && Contradicts(tools, input, wo, c)
  {
    var finder, card := Contradictions.RateFinder(tools, wo), ContractDataOf(tools, input.contractObjects).rateCard;
    FlatMapMembers(finder, card, c);
    forall o
      ensures o in card <==> o in input.contractObjects && OnRateCard(tools, o)
      ensures c in finder(o)
        <==> c.field == Rate && exists x, y :: RateClash(tools, o, wo, x, y, c.severity)
    {
      ListsHoldTheirKinds(tools, input.contractObjects, o);
      RatePair(tools, o, wo, c);
    }
  }

  lemma CompletionPart(tools: TextTools, input: Input, wo: WorkOrder, c: Conflict)
    ensures c in Contradictions.CompletionConflicts(tools, wo, Primary(input.incidents))
      <==> c.field == CompletionVsIncident && Contradicts(tools, input, wo, c)
  {
  }

  lemma OrderContradictionIff(tools: TextTools, input: Input, wo: WorkOrder, c: Conflict)
    ensures c in Contradictions.AllContradictions(tools, ContractDataOf(tools, input.contractObjects), wo,
                                                  Primary(input.incidents))
      <==> Contradicts(tools, input, wo, c)
  {
    ScopePart(tools, input, wo, c);
    RatePart(tools, input, wo, c);
    CompletionPart(tools, input, wo, c);
  }

  /** The contradictions of a diagnosis are exactly those that its current orders make. */
  lemma ContradictionIff(tools: TextTools, input: Input, c: Conflict)
    ensures c in DiagnosisOf(tools, input).contradictions
      <==> exists i :: 0 <= i < |input.workOrders| && Contradicts(tools, input, input.workOrders[i], c)
  {
    var contract := ContractDataOf(tools, input.contractObjects);
    FlatMapMembers(ContradictionFinder(tools, contract, Primary(input.incidents)), input.workOrders, c);
    forall i | 0 <= i < |input.workOrders|
      ensures c in ContradictionFinder(tools, contract, Primary(input.incidents))(input.workOrders[i])
        <==> Contradicts(tools, input, input.workOrders[i], c)
    {
      OrderContradictionIff(tools, input, input.workOrders[i], c);
    }
  }

  lemma ContradictionSpoilsHealth(tools: TextTools, input: Input, c: Conflict)
    requires c in DiagnosisOf(tools, input).contradictions
    ensures DiagnosisOf(tools, input).verdict != Healthy
  {
    HealthyIffNothingFound(tools, input);
  }

  lemma OrderContradicts(tools: TextTools, input: Input, i: nat, c: Conflict)
    requires i < |input.workOrders| && Contradicts(tools, input, input.workOrders[i], c)
    ensures c in DiagnosisOf(tools, input).contradictions
  {
    ContradictionIff(tools, input, c);
  }

  /** A rate that is off by more than one percent is in the diagnosis, which then is not healthy. */
  lemma RateOffIsReported(tools: TextTools, input: Input, i: nat, o: ContractObject, card: real, field: real)
    requires i < |input.workOrders| && o in input.contractObjects && OnRateCard(tools, o)
    requires SameWork(tools, o, input.workOrders[i], card, field)
    requires 100.0 * field < 99.0 * card || 100.0 * field > 101.0 * card
    ensures 90.0 * card <= 100.0 * field <= 110.0 * card ==>
      Conflict(Rate, Warning) in DiagnosisOf(tools, input).contradictions
    ensures 100.0 * field < 90.0 * card || 100.0 * field > 110.0 * card ==>
      Conflict(Rate, Critical) in DiagnosisOf(tools, input).contradictions
    ensures DiagnosisOf(tools, input).verdict != Healthy
  {
    var severity := if WithinTenPercent(card, field) then Warning else Critical;
    assert RateClash(tools, o, input.workOrders[i], card, field, severity);
    OrderContradicts(tools, input, i, Conflict(Rate, severity));
    ContradictionSpoilsHealth(tools, input, Conflict(Rate, severity));
  }

  /** In a healthy diagnosis every rate charged is within one percent of every rate the card has for similar work. */
  lemma HealthyRatesAreWithinOnePercent(tools: TextTools, input: Input, i: nat, o: ContractObject, card: real,
                                        field: real)
    requires DiagnosisOf(tools, input).verdict == Healthy
    requires i < |input.workOrders| && o in input.contractObjects && OnRateCard(tools, o)
    requires SameWork(tools, o, input.workOrders[i], card, field)
    ensures 99.0 * card <= 100.0 * field <= 101.0 * card
  {
    if !WithinOnePercent(card, field) {
      RateOffIsReported(tools, input, i, o, card, field);
    }
  }

  // ---- The verdict ----

  /** The verdict from the four lists: an accountable breach first, then leakage, then conflicts; what is more than a
      warning makes it under-recovery. */
  lemma VerdictFromLists(tools: TextTools, input: Input)
    ensures var d := DiagnosisOf(tools, input);
      var conflicts := d.billingConflicts + d.slaConflicts + d.contradictions;
      d.verdict ==
        if Conflict(SlaAccountability, Critical) in d.slaConflicts then PenaltyRisk
        else if d.leakage != [] then
          if exists t :: t in d.leakage && t.severity != Warning then UnderRecovery else LeakageDetected
        else if conflicts != [] then
          if exists c :: c in conflicts && c.severity != Warning then UnderRecovery else LeakageDetected
        else Healthy
  {
    var d := DiagnosisOf(tools, input);
    var conflicts := d.billingConflicts + d.slaConflicts + d.contradictions;
    assert AnyPenalty(d.slaConflicts) <==> Conflict(SlaAccountability, Critical) in d.slaConflicts by {
      if i :| 0 <= i < |d.slaConflicts| && d.slaConflicts[i] == Conflict(SlaAccountability, Critical) {
        assert AnyPenalty(d.slaConflicts);
      }
    }
    assert d.verdict == DetermineVerdict(d.leakage, conflicts, d.slaConflicts);
    MoreThanWarning(d.leakage, conflicts);
  }

  lemma MoreThanWarning(leakage: seq<Leakage.Trigger>, conflicts: seq<Conflict>)
    ensures (exists i :: 0 <= i < |leakage| && Serious(leakage[i].severity))
      <==> exists t :: t in leakage && t.severity != Warning
    ensures AnySerious(conflicts) <==> exists c :: c in conflicts && c.severity != Warning
  {
    if t :| t in leakage && t.severity != Warning {
      var i :| 0 <= i < |leakage| && leakage[i] == t;
      assert Serious(leakage[i].severity);
    }
    if c :| c in conflicts && c.severity != Warning {
      var i :| 0 <= i < |conflicts| && conflicts[i] == c;
      assert Serious(conflicts[i].severity);
    }
  }

  // ---- Billing conflicts ----

  /** A required type is given by no provided item under its evidence type or, lacking one, its type. */
  ghost predicate LacksEvidence(wo: WorkOrder) {
    exists t :: t in wo.requiredEvidence && (forall e :: e in wo.completionEvidence && e.provided ==>
      (if e.evidenceType.Some? then e.evidenceType.value else if e.kind.Some? then e.kind.value else "") != t)
  }

  ghost predicate Blocks(wo: WorkOrder, rule: BlockerRule) {
    match rule
    case MissingCompletionEvidence => LacksEvidence(wo)
    case BillingGateUnsatisfied => exists g :: g in wo.billingGates && !g.satisfied
    case ReattendanceProviderFault => wo.reattendance.Some? && wo.reattendance.value.trigger == "provider_fault"
    case DayworkSheetNotSigned => wo.category == Some("daywork") && !wo.dayworkSheetSigned
    case VariationNoChangeOrder =>
      wo.isVariation && (wo.variationOrderRef.None? || wo.variationOrderRef == Some(""))
  }

  lemma EvidenceLacksIff(wo: WorkOrder)
    ensures !Billability.EvidenceComplete(wo, wo.completionEvidence) <==> LacksEvidence(wo)
  {
    var given := Billability.ProvidedTypes(wo.completionEvidence);
    forall t
      ensures t in given <==> exists e :: (
        e in wo.completionEvidence && e.provided
        && (if e.evidenceType.Some? then e.evidenceType.value else if e.kind.Some? then e.kind.value else "") == t)
    {
    }
  }

  ghost predicate HasRule(blockers: seq<Billability.Blocker>, rule: BlockerRule) {
    exists k :: 0 <= k < |blockers| && blockers[k].rule == rule
  }

  lemma HasRuleInParts(x: seq<Billability.Blocker>, y: seq<Billability.Blocker>, rule: BlockerRule)
    ensures HasRule(x + y, rule) <==> HasRule(x, rule) || HasRule(y, rule)
  {
    if HasRule(x, rule) {
      var k :| 0 <= k < |x| && x[k].rule == rule;
      assert (x + y)[k] == x[k];
    }
    if HasRule(y, rule) {
      var k :| 0 <= k < |y| && y[k].rule == rule;
      assert (x + y)[|x| + k] == y[k];
    }
  }

  lemma HasRuleWhen(condition: bool, b: Billability.Blocker, rule: BlockerRule)
    ensures HasRule(When(condition, b), rule) <==> condition && b.rule == rule
  {
    if condition {
      assert When(condition, b)[0] == b;
    }
  }

  lemma {:induction false} GateBlockersAreGates(gates: seq<BillingGate>)
    ensures forall k :: 0 <= k < |Billability.GateBlockers(gates)| ==>
      Billability.GateBlockers(gates)[k].rule == BillingGateUnsatisfied
    ensures Billability.GateBlockers(gates) != [] <==> exists g :: g in gates && !g.satisfied
  {
    if gates != [] {
      GateBlockersAreGates(gates[..|gates| - 1]);
      assert gates == gates[..|gates| - 1] + [gates[|gates| - 1]];
    }
  }

  lemma BlockerIff(wo: WorkOrder, rule: BlockerRule)
    ensures HasRule(BlockersOf(wo), rule) <==> Blocks(wo, rule)
  {
    EvidenceLacksIff(wo);
    GateBlockersAreGates(wo.billingGates);
    var evidence := Billability.Blocker(MissingCompletionEvidence, "");
    var fault := Billability.Blocker(ReattendanceProviderFault, "");
    var daywork := Billability.Blocker(DayworkSheetNotSigned, "");
    var variation := Billability.Blocker(VariationNoChangeOrder, "");
    var a := When(!Billability.EvidenceComplete(wo, wo.completionEvidence), evidence);
    var b := Billability.GateBlockers(wo.billingGates);
    var c := When(ReattendedFor(wo.reattendance, "provider_fault"), fault);
    var d := When(Billability.DayworkUnsigned(wo), daywork);
    var e := When(UncoveredVariation(wo), variation);
    assert BlockersOf(wo) == a + b + c + d + e;
    HasRuleInParts(a + b + c + d, e, rule);
    HasRuleInParts(a + b + c, d, rule);
    HasRuleInParts(a + b, c, rule);
    HasRuleInParts(a, b, rule);
    HasRuleWhen(!Billability.EvidenceComplete(wo, wo.completionEvidence), evidence, rule);
    HasRuleWhen(ReattendedFor(wo.reattendance, "provider_fault"), fault, rule);
    HasRuleWhen(Billability.DayworkUnsigned(wo), daywork, rule);
    HasRuleWhen(UncoveredVariation(wo), variation, rule);
    assert HasRule(b, rule) <==> b != [] && rule == BillingGateUnsatisfied by {
      if b != [] { assert b[0].rule == BillingGateUnsatisfied; }
    }
  }

  /** The billing conflicts of a diagnosis are errors, one kind for each rule that blocks some current order. */
  lemma BillingConflictIff(tools: TextTools, input: Input, c: Conflict)
    ensures c in DiagnosisOf(tools, input).billingConflicts <==>
      && c.field.Billing? && c.severity == Error
      && exists i :: 0 <= i < |input.workOrders| && Blocks(input.workOrders[i], c.field.rule)
  {
    FlatMapMembers(BillingFinder(), input.workOrders, c);
    forall i | 0 <= i < |input.workOrders|
      ensures c in BillingFinder()(input.workOrders[i])
        <==> c.field.Billing? && c.severity == Error && Blocks(input.workOrders[i], c.field.rule)
    {
      OrderBillingConflictIff(input.workOrders[i], c);
    }
  }

  lemma OrderBillingConflictIff(wo: WorkOrder, c: Conflict)
    ensures c in BillingFinder()(wo) <==> c.field.Billing? && c.severity == Error && Blocks(wo, c.field.rule)
  {
    var blockers, conflicts := BlockersOf(wo), BillingFinder()(wo);
    assert |conflicts| == |blockers|;
    assert forall k :: 0 <= k < |blockers| ==> conflicts[k] == Conflict(Billing(blockers[k].rule), Error);
    if c.field.Billing? {
      BlockerIff(wo, c.field.rule);
      if k :| 0 <= k < |blockers| && blockers[k].rule == c.field.rule {
        assert conflicts[k] in conflicts;
      }
    }
  }

  // ---- SLA conflicts ----

  /** Blockers that the customer, an authority or the weather answers for. */
  predicate NotTheProviders(blockerType: string) {
    || blockerType == "customer_access"
    || blockerType == "local_authority_permit"
    || blockerType == "weather_force_majeure"
    || blockerType == "customer_nominated_supplier"
  }

  /** The SLA conflicts: a critical one for a breach that no such blocker excuses, and a warning for each blocker that
      excuses or that only mitigates. */
  lemma SlaConflictIff(tools: TextTools, input: Input, c: Conflict)
    ensures c in DiagnosisOf(tools, input).slaConflicts <==>
      || (c == Conflict(SlaAccountability, Critical)
          && input.sla.slaStatus.Some? && input.sla.slaStatus.value.status == Some("breached")
          && forall b :: b in input.sla.fieldBlockers ==> !NotTheProviders(b.blockerType))
      || (c == Conflict(SlaMitigation, Warning) && exists b ::
            b in input.sla.fieldBlockers
            && (NotTheProviders(b.blockerType) || b.blockerType == "third_party_dependency"))
  {
    BlockersExcuse(input.sla);
    BlockersMitigate(input.sla);
    SlaConflictShape(input.sla, c);
    assert DiagnosisOf(tools, input).slaConflicts == SlaConflicts(input.sla);
  }

  lemma BlockersExcuse(sla: SlaPerformance)
    ensures PenaltyExposed(sla) <==>
      && sla.slaStatus.Some? && sla.slaStatus.value.status == Some("breached")
      && forall b :: b in sla.fieldBlockers ==> !NotTheProviders(b.blockerType)
  {
  }

  lemma BlockersMitigate(sla: SlaPerformance)
    ensures SlaAccountability.Factors(sla.fieldBlockers) != [] <==> exists b ::
      b in sla.fieldBlockers && (NotTheProviders(b.blockerType) || b.blockerType == "third_party_dependency")
  {
    SlaAccountability.FactorsEmptyIff(sla.fieldBlockers);
    forall b: SlaAccountability.FieldBlocker
      ensures SlaAccountability.Mitigates(b)
        <==> NotTheProviders(b.blockerType) || b.blockerType == "third_party_dependency"
    {
    }
  }

  lemma SlaConflictShape(sla: SlaPerformance, c: Conflict)
    ensures c in SlaConflicts(sla) <==>
      || (c == Conflict(SlaAccountability, Critical) && PenaltyExposed(sla))
      || (c == Conflict(SlaMitigation, Warning) && SlaAccountability.Factors(sla.fieldBlockers) != [])
  {
    var warnings := seq(|SlaAccountability.Factors(sla.fieldBlockers)|, i => Conflict(SlaMitigation, Warning));
    if warnings != [] {
      assert warnings[0] in warnings;
    }
  }

  // ---- Leakage ----

  /** An order counts as invoiced exactly when an invoice among the contract objects names it. */
  lemma InvoicedIff(tools: TextTools, input: Input, id: string)
    ensures Some(id) in InputBook(tools, input).invoiced
      <==> exists o :: o in input.contractObjects && IsOfKind(tools, o, "invoice") && o.workOrderId == Some(id)
  {
    InvoicedIffObject(tools, input.contractObjects, id);
    forall o
      ensures KindOf(tools, o) in INVOICE_KINDS <==> IsOfKind(tools, o, "invoice")
    {
      KindsAreTold(tools, o);
    }
  }

  /** `o` is a rate-card object for the activity. */
  predicate Prices(tools: TextTools, o: ContractObject, activity: string) {
    OnRateCard(tools, o) && tools.strip(o.activity) != "" && tools.lower(tools.strip(o.activity)) == activity
  }

  ghost predicate PricedAt(tools: TextTools, objects: seq<ContractObject>, activity: string, j: int) {
    0 <= j < |objects| && Prices(tools, objects[j], activity)
  }

  function RatesOf(tools: TextTools, objects: seq<ContractObject>): map<string, ContractObject> {
    Leakage.RateMap(tools, ContractDataOf(tools, objects).rateCard)
  }

  lemma OneMoreObject(tools: TextTools, objects: seq<ContractObject>, activity: string)
    requires objects != []
    ensures var n := |objects| - 1;
      var before, after, last := RatesOf(tools, objects[..n]), RatesOf(tools, objects), objects[n];
      && (activity in after <==> activity in before || Prices(tools, last, activity))
      && (activity in after ==> after[activity] == if Prices(tools, last, activity) then last else before[activity])
  {
    var n := |objects| - 1;
    var front, last := objects[..n], objects[n];
    KindsAreTold(tools, last);
    OfKindStep(tools, objects, n, RATE_KINDS);
    assert objects[..n + 1] == objects;
    var card, short := ContractDataOf(tools, objects).rateCard, ContractDataOf(tools, front).rateCard;
    if OnRateCard(tools, last) {
      assert card == short + [last] && card[..|card| - 1] == short;
    } else {
      assert card == short;
    }
  }

  /** The rate an order is checked against is that of the last object that prices its activity. */
  lemma {:induction false} RateIsOfLastObject(tools: TextTools, objects: seq<ContractObject>, activity: string)
    returns (last: int)
    ensures activity in RatesOf(tools, objects) <==> PricedAt(tools, objects, activity, last)
    ensures activity in RatesOf(tools, objects) ==> RatesOf(tools, objects)[activity] == objects[last]
    ensures forall j :: last < j ==> !PricedAt(tools, objects, activity, j)
  {
    last := -1;
    if objects != [] {
      var n := |objects| - 1;
      OneMoreObject(tools, objects, activity);
      if Prices(tools, objects[n], activity) {
        last := n;
      } else {
        last := RateIsOfLastObject(tools, objects[..n], activity);
        forall j | last < j
          ensures !PricedAt(tools, objects, activity, j)
        {
          assert !PricedAt(tools, objects[..n], activity, j);
        }
      }
    }
  }

  /** In a healthy diagnosis the account of every order, current or past, is empty. */
  lemma HealthyOrdersLoseNothing(tools: TextTools, input: Input, i: nat, f: Leakage.Figures)
    requires DiagnosisOf(tools, input).verdict == Healthy
    requires i < |input.workOrders + input.workHistory|
    requires Leakage.AreFigures(tools, InputBook(tools, input), (input.workOrders + input.workHistory)[i], f)
    ensures Leakage.Account(InputBook(tools, input), (input.workOrders + input.workHistory)[i], f) == []
  {
    var orders, book := input.workOrders + input.workHistory, InputBook(tools, input);
    HealthyIffNothingFound(tools, input);
    assert |Leakage.AllOrderFindings(tools, book, orders)| == 0;
    FlatMapEmptyIff(Leakage.Finder(tools, book), orders);
    assert Leakage.Finder(tools, book)(orders[i]) == [];
    Leakage.OrderFindingsAreAccount(tools, book, orders[i], f);
  }
}
