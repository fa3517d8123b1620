/** The records the margin reconcilers read. An absent dictionary key whose default is fixed is stored as that
    default; a key whose default depends on another key is an `Option`. */
module MarginModel {
  import opened Foundation

  /** Text functions whose inner workings play no part here. `similarity` stands for `SequenceMatcher.ratio`. */
  datatype TextTools = TextTools(
    lower: string -> string, strip: string -> string, tokens: string -> set<string>,
    similarity: (string, string) -> real)

  ghost predicate SimilarityInRange(tools: TextTools) {
    forall a, b :: 0.0 <= tools.similarity(a, b) <= 1.0
  }

  const SIMILARITY_THRESHOLD := 0.55
  const RATE_TOLERANCE := 0.01

  /** `_text_similarity` */
  function TextSimilarity(tools: TextTools, a: string, b: string): real {
    if a == "" || b == "" then 0.0
    else tools.similarity(tools.strip(tools.lower(a)), tools.strip(tools.lower(b)))
  }

  datatype Severity = Warning | Error | Critical

  predicate Serious(s: Severity) {
    s == Error || s == Critical
  }

  datatype EvidenceItem = EvidenceItem(evidenceType: Option<string>, kind: Option<string>, provided: bool)

  datatype BillingGate = BillingGate(gateType: string, satisfied: bool)

  datatype Reattendance = Reattendance(trigger: string, billed: bool)

  datatype WorkOrder = WorkOrder(
    workOrderId: string, status: string, category: Option<string>, activity: Option<string>, workOrderType: string,
    description: string, scopeStatus: string, location: string, scheduledDate: string,
    value: Option<real>, estimatedValue: Option<real>, rate: Option<real>, billedRate: Option<real>,
    abortive: bool, abortiveClaimed: bool, abortiveValue: real, isEmergency: bool,
    permitCost: real, permitCostRecovered: bool,
    escalationDue: bool, escalationApplied: bool, contractRate: real, escalationPercentage: real, volume: Option<real>,
    isVariation: bool, variationOrderRef: Option<string>, dayworkSheetSigned: bool, approvalObtained: bool,
    requiredEvidence: set<string>, completionEvidence: seq<EvidenceItem>, billingGates: seq<BillingGate>,
    reattendance: Option<Reattendance>)

  /** A work order without any entries. */
  const BLANK_ORDER := WorkOrder(
    "", "", None, None, "", "", "", "", "", None, None, None, None, false, false, 0.0, false, 0.0, false, false, false,
    0.0, 0.0, None, false, None, false, false, {}, [], [], None)

  predicate Completed(wo: WorkOrder) {
    wo.status == "completed"
  }

  /** Variation work that no variation order covers. */
  predicate UncoveredVariation(wo: WorkOrder) {
    wo.isVariation && (wo.variationOrderRef.None? || wo.variationOrderRef.value == "")
  }

  predicate ReattendedFor(reattendance: Option<Reattendance>, trigger: string) {
    reattendance.Some? && reattendance.value.trigger == trigger
  }

  function ActivityOf(tools: TextTools, wo: WorkOrder): string {
    tools.strip(wo.activity.GetOr(""))
  }

  datatype ContractObject = ContractObject(
    kind: Option<string>, controlType: Option<string>, objectType: Option<string>,
    activity: string, rate: Option<real>, baseRate: Option<real>, emergencyMultiplier: Option<real>,
    workOrderId: Option<string>, scopeType: string, activities: seq<string>)

  datatype ContractData = ContractData(
    rateCard: seq<ContractObject>, obligations: seq<ContractObject>, scopeBoundaries: seq<ContractObject>,
    invoices: seq<ContractObject>, requiresApproval: bool, slaStatus: string, penaltyTriggered: bool)

  /** Times are microseconds on one clock. */
  datatype Incident = Incident(
    incidentId: string, affectedServices: seq<string>, description: string, title: string, createdAt: Option<int>,
    location: string, siteId: string, state: string, severity: string, assignedTo: string)

  datatype SlaBreach = SlaBreach(incidentId: string, creditApplied: bool, creditValue: real)

  datatype BlockerRule =
    | MissingCompletionEvidence | BillingGateUnsatisfied | ReattendanceProviderFault
    | DayworkSheetNotSigned | VariationNoChangeOrder

  datatype ConflictField =
    | Scope | CompletionVsIncident | Rate | Approval | SlaPenalty
    | SlaAccountability | SlaMitigation | Billing(rule: BlockerRule)

  datatype Conflict = Conflict(field: ConflictField, severity: Severity)
}
