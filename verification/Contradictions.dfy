/** Contradictions between the contract, one work order and the primary incident (`ContradictionDetector`). */
module Contradictions {
  import opened Foundation
  import opened MarginModel
  import opened Sequences

  /** The boundary names an activity that the work order's description mentions. */
  predicate Overlaps(tools: TextTools, boundary: ContractObject, wo: WorkOrder) {
    exists a :: a in boundary.activities && tools.strip(tools.lower(a)) in tools.tokens(tools.strip(wo.description))
  }

  /** Contract and field disagree on whether overlapping work is in scope. */
  predicate ScopeDisputed(tools: TextTools, boundary: ContractObject, wo: WorkOrder) {
    var contract, field := tools.strip(boundary.scopeType), tools.strip(wo.scopeStatus);
    && ((contract == "in_scope" && field == "out_of_scope") || (contract == "out_of_scope" && field == "in_scope"))
    && Overlaps(tools, boundary, wo)
  }

  function ScopeFinder(tools: TextTools, wo: WorkOrder): ContractObject -> seq<Conflict> {
    (b: ContractObject) => if ScopeDisputed(tools, b, wo) then [Conflict(Scope, Error)] else []
  }

  predicate CompletedTooEarly(tools: TextTools, wo: WorkOrder, incident: Incident) {
    tools.strip(wo.status) == "completed" && tools.strip(incident.state) in {"new", "investigating", "in_progress"}
  }

  predicate LeftOpen(tools: TextTools, wo: WorkOrder, incident: Incident) {
    && tools.strip(incident.state) in {"resolved", "closed"}
    && tools.strip(wo.status) in {"pending", "in_progress", "assigned"}
  }

  function CompletionConflicts(tools: TextTools, wo: WorkOrder, incident: Option<Incident>): seq<Conflict> {
    if incident.Some? && CompletedTooEarly(tools, wo, incident.value) then [Conflict(CompletionVsIncident, Error)]
    else if incident.Some? && LeftOpen(tools, wo, incident.value) then [Conflict(CompletionVsIncident, Warning)]
    else []
  }

  function FieldRate(wo: WorkOrder): real {
    wo.rate.GetOr(wo.billedRate.GetOr(0.0))
  }

  function FieldActivity(tools: TextTools, wo: WorkOrder): string {
    tools.strip(wo.activity.GetOr(wo.workOrderType))
  }

  function Abs(x: real): real {
    if x < 0.0 then -x else x
  }

  /** A priced rate-card entry for a similar activity whose rate is more than 1% away from the field's. */
  predicate RateDisputed(tools: TextTools, rc: ContractObject, wo: WorkOrder) {
    var contract, field := rc.rate.GetOr(0.0), FieldRate(wo);
    && field > 0.0 && FieldActivity(tools, wo) != ""
    && contract > 0.0 && tools.strip(rc.activity) != ""
    && TextSimilarity(tools, tools.strip(rc.activity), FieldActivity(tools, wo)) >= SIMILARITY_THRESHOLD
    && Abs(contract - field) > contract * RATE_TOLERANCE
  }

  function RateFinder(tools: TextTools, wo: WorkOrder): ContractObject -> seq<Conflict> {
    (rc: ContractObject) =>
      if !RateDisputed(tools, rc, wo) then []
      else
        var contract := rc.rate.GetOr(0.0);
        [Conflict(Rate, if Abs(contract - FieldRate(wo)) / contract > 0.10 then Critical else Warning)]
  }

  function ContractConflicts(contract: ContractData, wo: WorkOrder): seq<Conflict> {
    (if contract.requiresApproval && !wo.approvalObtained then [Conflict(Approval, Error)] else [])
    + (if contract.slaStatus == "within" && contract.penaltyTriggered then [Conflict(SlaPenalty, Error)] else [])
  }

  function AllContradictions(tools: TextTools, contract: ContractData, wo: WorkOrder, incident: Option<Incident>)
    : seq<Conflict>
  {
    FlatMap(ScopeFinder(tools, wo), contract.scopeBoundaries)
    + CompletionConflicts(tools, wo, incident)
    + FlatMap(RateFinder(tools, wo), contract.rateCard)
    + ContractConflicts(contract, wo)
  }

  method ScopeConflicts(tools: TextTools, boundaries: seq<ContractObject>, wo: WorkOrder)
    returns (conflicts: seq<Conflict>)
    ensures conflicts == FlatMap(ScopeFinder(tools, wo), boundaries)
  {
    conflicts := [];
    for i := 0 to |boundaries|
      invariant conflicts == FlatMap(ScopeFinder(tools, wo), boundaries[..i])
    {
      assert boundaries[..i + 1][..i] == boundaries[..i];
      var b := boundaries[i];
      var contract, field := tools.strip(b.scopeType), tools.strip(wo.scopeStatus);
      if contract == "in_scope" && field == "out_of_scope" && Overlaps(tools, b, wo) {
        conflicts := conflicts + [Conflict(Scope, Error)];
      } else if contract == "out_of_scope" && field == "in_scope" && Overlaps(tools, b, wo) {
        conflicts := conflicts + [Conflict(Scope, Error)];
      }
    }
    assert boundaries[..|boundaries|] == boundaries;
  }

  method RateConflicts(tools: TextTools, rateCard: seq<ContractObject>, wo: WorkOrder)
    returns (conflicts: seq<Conflict>)
    ensures conflicts == FlatMap(RateFinder(tools, wo), rateCard)
  {
    conflicts := [];
    var field, activity := FieldRate(wo), FieldActivity(tools, wo);
    if field > 0.0 && activity != "" {
      for i := 0 to |rateCard|
        invariant conflicts == FlatMap(RateFinder(tools, wo), rateCard[..i])
      {
        assert rateCard[..i + 1][..i] == rateCard[..i];
        var rcActivity, rcRate := tools.strip(rateCard[i].activity), rateCard[i].rate.GetOr(0.0);
        if rcRate > 0.0 && rcActivity != "" && TextSimilarity(tools, rcActivity, activity) >= SIMILARITY_THRESHOLD {
          var diff := Abs(rcRate - field);
          if diff > rcRate * RATE_TOLERANCE {
            conflicts := conflicts + [Conflict(Rate, if diff / rcRate > 0.10 then Critical else Warning)];
          }
        }
      }
      assert rateCard[..|rateCard|] == rateCard;
    } else {
      FlatMapEmptyIff(RateFinder(tools, wo), rateCard);
    }
  }

  method Detect(tools: TextTools, contract: ContractData, wo: WorkOrder, incident: Option<Incident>)
    returns (conflicts: seq<Conflict>)
    ensures conflicts == AllContradictions(tools, contract, wo, incident)
  {
    conflicts := ScopeConflicts(tools, contract.scopeBoundaries, wo);
    conflicts := conflicts + CompletionConflicts(tools, wo, incident);
    var rates := RateConflicts(tools, contract.rateCard, wo);
    conflicts := conflicts + rates + ContractConflicts(contract, wo);
  }

  /** What the absence of every contradiction says about the work order. */
  ghost predicate Consistent(tools: TextTools, contract: ContractData, wo: WorkOrder, incident: Option<Incident>) {
    && (forall i :: 0 <= i < |contract.scopeBoundaries| ==> !ScopeDisputed(tools, contract.scopeBoundaries[i], wo))
    && (incident.Some? ==> !CompletedTooEarly(tools, wo, incident.value) && !LeftOpen(tools, wo, incident.value))
    && (forall i :: 0 <= i < |contract.rateCard| ==> !RateDisputed(tools, contract.rateCard[i], wo))
    && (contract.requiresApproval ==> wo.approvalObtained)
    && !(contract.slaStatus == "within" && contract.penaltyTriggered)
  }

  lemma NoScopeConflictsIff(tools: TextTools, wo: WorkOrder, boundaries: seq<ContractObject>)
    ensures FlatMap(ScopeFinder(tools, wo), boundaries) == []
      <==> forall i :: 0 <= i < |boundaries| ==> !ScopeDisputed(tools, boundaries[i], wo)
  {
    FlatMapEmptyIff(ScopeFinder(tools, wo), boundaries);
  }

  lemma NoRateConflictsIff(tools: TextTools, wo: WorkOrder, rateCard: seq<ContractObject>)
    ensures FlatMap(RateFinder(tools, wo), rateCard) == []
      <==> forall i :: 0 <= i < |rateCard| ==> !RateDisputed(tools, rateCard[i], wo)
  {
    FlatMapEmptyIff(RateFinder(tools, wo), rateCard);
  }

  /** The last two contradictions and how serious they are. A diagnosis never makes them, as its contract data has
      neither an approval to require nor a penalty. */
  lemma ContractConflictIff(contract: ContractData, wo: WorkOrder, c: Conflict)
    ensures c in ContractConflicts(contract, wo) <==>
      || (c == Conflict(Approval, Error) && contract.requiresApproval && !wo.approvalObtained)
      || (c == Conflict(SlaPenalty, Error) && contract.slaStatus == "within" && contract.penaltyTriggered)
  {
  }

  lemma NoContradictionsIffConsistent(tools: TextTools, contract: ContractData, wo: WorkOrder,
                                      incident: Option<Incident>)
    ensures AllContradictions(tools, contract, wo, incident) == [] <==> Consistent(tools, contract, wo, incident)
  {
    NoScopeConflictsIff(tools, wo, contract.scopeBoundaries);
    NoRateConflictsIff(tools, wo, contract.rateCard);
    var a := FlatMap(ScopeFinder(tools, wo), contract.scopeBoundaries);
    var b := FlatMap(RateFinder(tools, wo), contract.rateCard);
    assert AllContradictions(tools, contract, wo, incident) == []
      <==> (a == [] && b == []
            && CompletionConflicts(tools, wo, incident) == [] && ContractConflicts(contract, wo) == []);
  }
}
