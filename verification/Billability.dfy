/** Whether completed field work may be invoiced (`FieldCompletionBillabilityLinker`). */
module Billability {
  import opened Foundation
  import opened MarginModel
  import opened Sequences

  datatype Blocker = Blocker(rule: BlockerRule, gateType: string)

  datatype BillingTrigger = IncompleteEvidence | ReattendanceBilled | VariationUnbilled

  datatype Result = Result(billable: bool, category: string, blockers: seq<Blocker>, triggers: seq<BillingTrigger>)

  function ProvidedTypes(evidence: seq<EvidenceItem>): set<string> {
    set e | e in evidence && e.provided :: e.evidenceType.GetOr(e.kind.GetOr(""))
  }

  predicate EvidenceComplete(wo: WorkOrder, evidence: seq<EvidenceItem>) {
    wo.requiredEvidence <= ProvidedTypes(evidence)
  }

  predicate GatesSatisfied(gates: seq<BillingGate>) {
    forall i :: 0 <= i < |gates| ==> gates[i].satisfied
  }

  predicate DayworkUnsigned(wo: WorkOrder) {
    wo.category == Some("daywork") && !wo.dayworkSheetSigned
  }

  function GateBlockers(gates: seq<BillingGate>): seq<Blocker> {
    if gates == [] then []
    else
      var last := gates[|gates| - 1];
      GateBlockers(gates[..|gates| - 1])
      + (if last.satisfied then [] else [Blocker(BillingGateUnsatisfied, last.gateType)])
  }

  function Blockers(wo: WorkOrder, evidence: seq<EvidenceItem>, gates: seq<BillingGate>, re: Option<Reattendance>)
    : seq<Blocker>
  {
    When(!EvidenceComplete(wo, evidence), Blocker(MissingCompletionEvidence, ""))
    + GateBlockers(gates)
    + When(ReattendedFor(re, "provider_fault"), Blocker(ReattendanceProviderFault, ""))
    + When(DayworkUnsigned(wo), Blocker(DayworkSheetNotSigned, ""))
    + When(UncoveredVariation(wo), Blocker(VariationNoChangeOrder, ""))
  }

  /** Neither of the two rules that come after the no-access override fires, and either the override applies or
      none of the three rules before it does. */
  predicate Billable(wo: WorkOrder, evidence: seq<EvidenceItem>, gates: seq<BillingGate>, re: Option<Reattendance>) {
    && !DayworkUnsigned(wo)
    && !UncoveredVariation(wo)
    && (ReattendedFor(re, "customer_no_access")
        || (EvidenceComplete(wo, evidence) && GatesSatisfied(gates) && !ReattendedFor(re, "provider_fault")))
  }

  lemma {:induction false} GateBlockersEmptyIff(gates: seq<BillingGate>)
    ensures GateBlockers(gates) == [] <==> GatesSatisfied(gates)
  {
    if gates != [] {
      GateBlockersEmptyIff(gates[..|gates| - 1]);
      assert gates == gates[..|gates| - 1] + [gates[|gates| - 1]];
    }
  }

  method UnsatisfiedGates(gates: seq<BillingGate>) returns (blockers: seq<Blocker>)
    ensures blockers == GateBlockers(gates)
  {
    blockers := [];
    for i := 0 to |gates|
      invariant blockers == GateBlockers(gates[..i])
    {
      assert gates[..i + 1][..i] == gates[..i];
      if !gates[i].satisfied {
        blockers := blockers + [Blocker(BillingGateUnsatisfied, gates[i].gateType)];
      }
    }
    assert gates[..|gates|] == gates;
  }

  method Evaluate(wo: WorkOrder, evidence: seq<EvidenceItem>, gates: seq<BillingGate>, re: Option<Reattendance>)
    returns (r: Result)
    ensures r.billable <==> Billable(wo, evidence, gates, re)
    ensures r.blockers == Blockers(wo, evidence, gates, re)
    ensures r.category ==
      (if ReattendedFor(re, "customer_no_access") then "abortive_visit" else wo.category.GetOr("standard"))
    ensures r.triggers == When(!EvidenceComplete(wo, evidence), IncompleteEvidence)
      + When(ReattendedFor(re, "provider_fault") && re.value.billed, ReattendanceBilled)
      + When(UncoveredVariation(wo), VariationUnbilled)
  {
    var blockers: seq<Blocker>, triggers: seq<BillingTrigger>, billable := [], [], true;
    var category := wo.category.GetOr("standard");

    if !EvidenceComplete(wo, evidence) {
      billable := false;
      blockers := blockers + [Blocker(MissingCompletionEvidence, "")];
      triggers := triggers + [IncompleteEvidence];
    }

    var unsatisfied := UnsatisfiedGates(gates);
    GateBlockersEmptyIff(gates);
    if unsatisfied != [] {
      billable := false;
      blockers := blockers + unsatisfied;
    }
    ghost var early :=
      When(!EvidenceComplete(wo, evidence), Blocker(MissingCompletionEvidence, "")) + GateBlockers(gates);
    assert blockers == early;
    assert billable <==> EvidenceComplete(wo, evidence) && GatesSatisfied(gates);

    if re.Some? {
      if re.value.trigger == "provider_fault" {
        billable := false;
        blockers := blockers + [Blocker(ReattendanceProviderFault, "")];
        if re.value.billed {
          triggers := triggers + [ReattendanceBilled];
        }
      } else if re.value.trigger == "customer_no_access" {
        billable := true;
        category := "abortive_visit";
      }
    }
    ghost var middle := early + When(ReattendedFor(re, "provider_fault"), Blocker(ReattendanceProviderFault, ""));
    assert blockers == middle;
    if DayworkUnsigned(wo) {
      billable := false;
      blockers := blockers + [Blocker(DayworkSheetNotSigned, "")];
    }
    assert blockers == middle + When(DayworkUnsigned(wo), Blocker(DayworkSheetNotSigned, ""));
    if UncoveredVariation(wo) {
      billable := false;
      blockers := blockers + [Blocker(VariationNoChangeOrder, "")];
      triggers := triggers + [VariationUnbilled];
    }
    r := Result(billable, category, blockers, triggers);
  }

  lemma BlockersEmptyIff(wo: WorkOrder, evidence: seq<EvidenceItem>, gates: seq<BillingGate>, re: Option<Reattendance>)
    ensures Blockers(wo, evidence, gates, re) == [] <==>
      && EvidenceComplete(wo, evidence)
      && GatesSatisfied(gates)
      && !ReattendedFor(re, "provider_fault")
      && !DayworkUnsigned(wo)
      && !UncoveredVariation(wo)
  {
    GateBlockersEmptyIff(gates);
  }

  /** Work without blockers is billable; work is billable in spite of its blockers exactly when the customer gave
      no access, evidence or a gate is missing, and neither later rule fires. */
  lemma BillableDespiteBlockersIff(wo: WorkOrder, evidence: seq<EvidenceItem>, gates: seq<BillingGate>,
                                   re: Option<Reattendance>)
    ensures Blockers(wo, evidence, gates, re) == [] ==> Billable(wo, evidence, gates, re)
    ensures Billable(wo, evidence, gates, re) && Blockers(wo, evidence, gates, re) != [] <==>
      && ReattendedFor(re, "customer_no_access")
      && !(EvidenceComplete(wo, evidence) && GatesSatisfied(gates))
      && !DayworkUnsigned(wo)
      && !UncoveredVariation(wo)
  {
    BlockersEmptyIff(wo, evidence, gates, re);
  }
}
