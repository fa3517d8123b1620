/** The ten leakage patterns, the running at-risk total and the recommendations (`MarginLeakageReconciler`). */
module Leakage {
  import opened Foundation
  import opened MarginModel
  import opened Sequences
  import opened ClaimKeys

  datatype Kind =
    | FieldCompletionNotBilled | AbortiveVisitNotClaimed | EmergencyBilledAtBaseRate | ReattendanceIncorrectlyBilled
    | PermitCostNotRecovered | RateEscalationNotApplied | VariationWorkUnbilled | SlaCreditNotDeducted
    | IncompleteEvidencePreventsBilling | DuplicateClaimRisk

  datatype Trigger = Trigger(kind: Kind, subjects: seq<string>, severity: Severity, atRisk: real)

  /** What a recommendation tells the reader to do, without its wording. */
  datatype Advice = Advice(about: Kind, subjects: seq<string>, amount: Option<real>)

  datatype Finding = Finding(trigger: Trigger, advice: Advice)

  /** The contract side of the analysis: invoiced ids and the rate card by lower-cased activity. */
  datatype Book = Book(invoiced: set<Option<string>>, rates: map<string, ContractObject>)

  function RateKey(tools: TextTools, rc: ContractObject): string {
    tools.lower(tools.strip(rc.activity))
  }

  predicate Priced(tools: TextTools, rc: ContractObject) {
    tools.strip(rc.activity) != ""
  }

  /** Later entries for an activity replace earlier ones. */
  function RateMap(tools: TextTools, rateCard: seq<ContractObject>): map<string, ContractObject> {
    if rateCard == [] then map[]
    else
      var front, last := RateMap(tools, rateCard[..|rateCard| - 1]), rateCard[|rateCard| - 1];
      if Priced(tools, last) then front[RateKey(tools, last) := last] else front
  }

  function InvoicedIds(invoices: seq<ContractObject>): set<Option<string>> {
    set inv | inv in invoices :: inv.workOrderId
  }

  method BuildBook(tools: TextTools, contract: ContractData) returns (book: Book)
    ensures book == Book(InvoicedIds(contract.invoices), RateMap(tools, contract.rateCard))
  {
    var rates: map<string, ContractObject> := map[];
    for i := 0 to |contract.rateCard|
      invariant rates == RateMap(tools, contract.rateCard[..i])
    {
      assert contract.rateCard[..i + 1][..i] == contract.rateCard[..i];
      if Priced(tools, contract.rateCard[i]) {
        rates := rates[RateKey(tools, contract.rateCard[i]) := contract.rateCard[i]];
      }
    }
    assert contract.rateCard[..|contract.rateCard|] == contract.rateCard;
    book := Book(InvoicedIds(contract.invoices), rates);
  }

  ghost predicate PricesActivity(tools: TextTools, rateCard: seq<ContractObject>, activity: string, i: int) {
    0 <= i < |rateCard| && Priced(tools, rateCard[i]) && RateKey(tools, rateCard[i]) == activity
  }

  /** The rate an activity is checked against is that of its last entry on the card; an activity without an entry
      has no rate. */
  lemma {:induction false} RateMapHoldsLastEntry(tools: TextTools, rateCard: seq<ContractObject>, activity: string)
    returns (last: int)
    ensures activity in RateMap(tools, rateCard) <==> PricesActivity(tools, rateCard, activity, last)
    ensures activity in RateMap(tools, rateCard) ==> RateMap(tools, rateCard)[activity] == rateCard[last]
    ensures forall j :: last < j ==> !PricesActivity(tools, rateCard, activity, j)
  {
    last := -1;
    if rateCard != [] {
      var n := |rateCard| - 1;
      if PricesActivity(tools, rateCard, activity, n) {
        last := n;
      } else {
        last := RateMapHoldsLastEntry(tools, rateCard[..n], activity);
        forall j | last < j
          ensures !PricesActivity(tools, rateCard, activity, j)
        {
          assert !PricesActivity(tools, rateCard[..n], activity, j);
        }
      }
    }
  }

  // ---- What each pattern finds on one work order ----

  function ValueOf(wo: WorkOrder): real {
    wo.value.GetOr(wo.estimatedValue.GetOr(0.0))
  }

  predicate Unbilled(book: Book, wo: WorkOrder) {
    Completed(wo) && Some(wo.workOrderId) !in book.invoiced
  }

  predicate AbortiveUnclaimed(wo: WorkOrder) {
    wo.abortive && !wo.abortiveClaimed
  }

  /** The rate an emergency call-out should have been billed at, from the matching rate-card entry if there is one. */
  function ExpectedEmergencyRate(tools: TextTools, book: Book, wo: WorkOrder): (real, real) {
    var activity := tools.lower(ActivityOf(tools, wo));
    if activity in book.rates then
      var rc := book.rates[activity];
      var base := rc.rate.GetOr(rc.baseRate.GetOr(0.0));
      (base, base * rc.emergencyMultiplier.GetOr(1.5))
    else (0.0, 0.0)
  }

  predicate EmergencyUnderbilled(tools: TextTools, book: Book, wo: WorkOrder) {
    var billed := wo.billedRate.GetOr(0.0);
    var (base, expected) := ExpectedEmergencyRate(tools, book, wo);
    wo.isEmergency && billed > 0.0 && base > 0.0 && billed < expected * 0.99
  }

  predicate ReattendanceBilled(wo: WorkOrder) {
    ReattendedFor(wo.reattendance, "provider_fault") && wo.reattendance.value.billed
  }

  predicate PermitUnrecovered(wo: WorkOrder) {
    wo.permitCost > 0.0 && !wo.permitCostRecovered
  }

  function EscalationDelta(wo: WorkOrder): real {
    wo.contractRate * wo.escalationPercentage / 100.0 * wo.volume.GetOr(1.0)
  }

  predicate EscalationMissed(wo: WorkOrder) {
    wo.escalationDue && !wo.escalationApplied && EscalationDelta(wo) > 0.0
  }

  /** Unlike the billability check, this one does not fall back to an item's `type`. */
  predicate EvidenceMissing(wo: WorkOrder) {
    Completed(wo)
    && !(wo.requiredEvidence <= set e | e in wo.completionEvidence && e.provided :: e.evidenceType.GetOr(""))
  }

  function OrderFinding(tools: TextTools, book: Book, wo: WorkOrder, kind: Kind): Finding {
    var ids := [wo.workOrderId];
    match kind
    case FieldCompletionNotBilled => Finding(Trigger(kind, ids, Error, ValueOf(wo)), Advice(kind, ids, None))
    case AbortiveVisitNotClaimed => Finding(Trigger(kind, ids, Warning, wo.abortiveValue), Advice(kind, ids, None))
    case EmergencyBilledAtBaseRate =>
      var expected := ExpectedEmergencyRate(tools, book, wo).1;
      Finding(Trigger(kind, ids, Error, expected - wo.billedRate.GetOr(0.0)), Advice(kind, ids, Some(expected)))
    case ReattendanceIncorrectlyBilled => Finding(Trigger(kind, ids, Critical, ValueOf(wo)), Advice(kind, ids, None))
    case PermitCostNotRecovered =>
      Finding(Trigger(kind, ids, Warning, wo.permitCost), Advice(kind, ids, Some(wo.permitCost)))
    case RateEscalationNotApplied => Finding(Trigger(kind, ids, Warning, EscalationDelta(wo)), Advice(kind, ids, None))
    case VariationWorkUnbilled => Finding(Trigger(kind, ids, Error, ValueOf(wo)), Advice(kind, ids, None))
    case _ => Finding(Trigger(kind, ids, Error, ValueOf(wo)), Advice(kind, ids, None))
  }

  predicate Shows(tools: TextTools, book: Book, wo: WorkOrder, kind: Kind) {
    match kind
    case FieldCompletionNotBilled => Unbilled(book, wo)
    case AbortiveVisitNotClaimed => AbortiveUnclaimed(wo)
    case EmergencyBilledAtBaseRate => EmergencyUnderbilled(tools, book, wo)
    case ReattendanceIncorrectlyBilled => ReattendanceBilled(wo)
    case PermitCostNotRecovered => PermitUnrecovered(wo)
    case RateEscalationNotApplied => EscalationMissed(wo)
    case VariationWorkUnbilled => UncoveredVariation(wo)
    case IncompleteEvidencePreventsBilling => EvidenceMissing(wo)
    case SlaCreditNotDeducted => false
    case DuplicateClaimRisk => false
  }

  /** The findings so far, and the one `kind` adds if it fires. */
  function Noting(tools: TextTools, book: Book, wo: WorkOrder, found: seq<Finding>, kind: Kind): seq<Finding> {
    if Shows(tools, book, wo, kind) then found + [OrderFinding(tools, book, wo, kind)] else found
  }

  function NotingBilling(tools: TextTools, book: Book, wo: WorkOrder, found: seq<Finding>): seq<Finding> {
    var f1 := Noting(tools, book, wo, found, FieldCompletionNotBilled);
    var f2 := Noting(tools, book, wo, f1, AbortiveVisitNotClaimed);
    var f3 := Noting(tools, book, wo, f2, EmergencyBilledAtBaseRate);
    Noting(tools, book, wo, f3, ReattendanceIncorrectlyBilled)
  }

  function NotingRecovery(tools: TextTools, book: Book, wo: WorkOrder, found: seq<Finding>): seq<Finding> {
    var f1 := Noting(tools, book, wo, found, PermitCostNotRecovered);
    var f2 := Noting(tools, book, wo, f1, RateEscalationNotApplied);
    var f3 := Noting(tools, book, wo, f2, VariationWorkUnbilled);
    Noting(tools, book, wo, f3, IncompleteEvidencePreventsBilling)
  }

  /** The findings after one more work order, in the order the patterns are tried. */
  function WithOrder(tools: TextTools, book: Book, found: seq<Finding>, wo: WorkOrder): seq<Finding> {
    NotingRecovery(tools, book, wo, NotingBilling(tools, book, wo, found))
  }

  function OrderFindings(tools: TextTools, book: Book, wo: WorkOrder): seq<Finding> {
    WithOrder(tools, book, [], wo)
  }

  ghost predicate CleanOrder(tools: TextTools, book: Book, wo: WorkOrder) {
    && !Unbilled(book, wo)
    && !AbortiveUnclaimed(wo)
    && !EmergencyUnderbilled(tools, book, wo)
    && !ReattendanceBilled(wo)
    && !PermitUnrecovered(wo)
    && !EscalationMissed(wo)
    && !UncoveredVariation(wo)
    && !EvidenceMissing(wo)
  }

  lemma NoOrderFindingsIffClean(tools: TextTools, book: Book, wo: WorkOrder)
    ensures OrderFindings(tools, book, wo) == [] <==> CleanOrder(tools, book, wo)
  {
  }

  lemma NotingMembers(tools: TextTools, book: Book, wo: WorkOrder, found: seq<Finding>, kind: Kind, f: Finding)
    ensures f in Noting(tools, book, wo, found, kind) <==>
      f in found || (Shows(tools, book, wo, kind) && f == OrderFinding(tools, book, wo, kind))
  {
  }

  /** The patterns whose trigger is more than a warning. */
  const SERIOUS_KINDS := {FieldCompletionNotBilled, EmergencyBilledAtBaseRate, ReattendanceIncorrectlyBilled,
                          VariationWorkUnbilled, IncompleteEvidencePreventsBilling}

  ghost predicate ShowsSerious(tools: TextTools, book: Book, wo: WorkOrder) {
    exists kind :: kind in SERIOUS_KINDS && Shows(tools, book, wo, kind)
  }

  ghost predicate SeriousIn(findings: seq<Finding>) {
    exists f :: f in findings && Serious(f.trigger.severity)
  }

  lemma NotingSerious(tools: TextTools, book: Book, wo: WorkOrder, found: seq<Finding>, kind: Kind)
    requires kind !in {SlaCreditNotDeducted, DuplicateClaimRisk}
    ensures SeriousIn(Noting(tools, book, wo, found, kind))
      <==> SeriousIn(found) || (kind in SERIOUS_KINDS && Shows(tools, book, wo, kind))
  {
    var g := OrderFinding(tools, book, wo, kind);
    assert Serious(g.trigger.severity) <==> kind in SERIOUS_KINDS;
    forall f
      ensures f in Noting(tools, book, wo, found, kind) <==> f in found || (Shows(tools, book, wo, kind) && f == g)
    {
      NotingMembers(tools, book, wo, found, kind, f);
    }
  }

  lemma BillingSerious(tools: TextTools, book: Book, wo: WorkOrder, found: seq<Finding>)
    ensures SeriousIn(NotingBilling(tools, book, wo, found)) <==> (
      SeriousIn(found) || Shows(tools, book, wo, FieldCompletionNotBilled)
      || Shows(tools, book, wo, EmergencyBilledAtBaseRate)
      || Shows(tools, book, wo, ReattendanceIncorrectlyBilled))
  {
    var f1 := Noting(tools, book, wo, found, FieldCompletionNotBilled);
    var f2 := Noting(tools, book, wo, f1, AbortiveVisitNotClaimed);
    var f3 := Noting(tools, book, wo, f2, EmergencyBilledAtBaseRate);
    NotingSerious(tools, book, wo, found, FieldCompletionNotBilled);
    NotingSerious(tools, book, wo, f1, AbortiveVisitNotClaimed);
    NotingSerious(tools, book, wo, f2, EmergencyBilledAtBaseRate);
    NotingSerious(tools, book, wo, f3, ReattendanceIncorrectlyBilled);
  }

  lemma RecoverySerious(tools: TextTools, book: Book, wo: WorkOrder, found: seq<Finding>)
    ensures SeriousIn(NotingRecovery(tools, book, wo, found)) <==> (
      SeriousIn(found) || Shows(tools, book, wo, VariationWorkUnbilled)
      || Shows(tools, book, wo, IncompleteEvidencePreventsBilling))
  {
    var f1 := Noting(tools, book, wo, found, PermitCostNotRecovered);
    var f2 := Noting(tools, book, wo, f1, RateEscalationNotApplied);
    var f3 := Noting(tools, book, wo, f2, VariationWorkUnbilled);
    NotingSerious(tools, book, wo, found, PermitCostNotRecovered);
    NotingSerious(tools, book, wo, f1, RateEscalationNotApplied);
    NotingSerious(tools, book, wo, f2, VariationWorkUnbilled);
    NotingSerious(tools, book, wo, f3, IncompleteEvidencePreventsBilling);
  }

  /** A work order raises an error or worse exactly when it shows one of the serious patterns. */
  lemma OrderIsSeriousIff(tools: TextTools, book: Book, wo: WorkOrder)
    ensures SeriousIn(OrderFindings(tools, book, wo)) <==> ShowsSerious(tools, book, wo)
  {
    BillingSerious(tools, book, wo, []);
    RecoverySerious(tools, book, wo, NotingBilling(tools, book, wo, []));
    assert ShowsSerious(tools, book, wo) <==>
      Shows(tools, book, wo, FieldCompletionNotBilled) || Shows(tools, book, wo, EmergencyBilledAtBaseRate)
      || Shows(tools, book, wo, ReattendanceIncorrectlyBilled) || Shows(tools, book, wo, VariationWorkUnbilled)
      || Shows(tools, book, wo, IncompleteEvidencePreventsBilling);
  }

  lemma NotingAppends(tools: TextTools, book: Book, wo: WorkOrder, a: seq<Finding>, b: seq<Finding>, kind: Kind)
    returns (g: seq<Finding>)
    ensures g == Noting(tools, book, wo, b, kind)
    ensures Noting(tools, book, wo, a + b, kind) == a + g
  {
    g := Noting(tools, book, wo, b, kind);
  }

  lemma WithOrderAppends(tools: TextTools, book: Book, found: seq<Finding>, wo: WorkOrder)
    ensures WithOrder(tools, book, found, wo) == found + OrderFindings(tools, book, wo)
  {
    var g0: seq<Finding> := [];
    assert found + g0 == found;
    var g1 := NotingAppends(tools, book, wo, found, g0, FieldCompletionNotBilled);
    var g2 := NotingAppends(tools, book, wo, found, g1, AbortiveVisitNotClaimed);
    var g3 := NotingAppends(tools, book, wo, found, g2, EmergencyBilledAtBaseRate);
    var g4 := NotingAppends(tools, book, wo, found, g3, ReattendanceIncorrectlyBilled);
    var g5 := NotingAppends(tools, book, wo, found, g4, PermitCostNotRecovered);
    var g6 := NotingAppends(tools, book, wo, found, g5, RateEscalationNotApplied);
    var g7 := NotingAppends(tools, book, wo, found, g6, VariationWorkUnbilled);
    var g8 := NotingAppends(tools, book, wo, found, g7, IncompleteEvidencePreventsBilling);
  }

  function Finder(tools: TextTools, book: Book): WorkOrder -> seq<Finding> {
    (wo: WorkOrder) => OrderFindings(tools, book, wo)
  }

  function AllOrderFindings(tools: TextTools, book: Book, wos: seq<WorkOrder>): seq<Finding> {
    FlatMap(Finder(tools, book), wos)
  }

  function CreditFinding(b: SlaBreach): Finding {
    Finding(Trigger(SlaCreditNotDeducted, [b.incidentId], Warning, b.creditValue),
            Advice(SlaCreditNotDeducted, [], None))
  }

  function CreditFinder(): SlaBreach -> seq<Finding> {
    (b: SlaBreach) =>
      if b.creditApplied then []
      else [CreditFinding(b)]
  }

  function CreditFindings(breaches: seq<SlaBreach>): seq<Finding> {
    FlatMap(CreditFinder(), breaches)
  }

  // ---- Duplicate claims ----

  /** The positions that carry `key`, in order. */
  function Positions(tools: TextTools, wos: seq<WorkOrder>, key: string): (at: seq<nat>)
    ensures forall i :: 0 <= i < |at| ==> at[i] < |wos|
  {
    if wos == [] then []
    else
      var n := |wos| - 1;
      Positions(tools, wos[..n], key) + (if ClaimKey(tools, wos[n]) == key then [n] else [])
  }

  /** The ids gathered under `key`, in order. */
  function GroupIds(tools: TextTools, wos: seq<WorkOrder>, key: string): seq<string> {
    if wos == [] then []
    else
      var n := |wos| - 1;
      GroupIds(tools, wos[..n], key) + (if ClaimKey(tools, wos[n]) == key then [wos[n].workOrderId] else [])
  }

  lemma {:induction false} GroupIdsAreAtPositions(tools: TextTools, wos: seq<WorkOrder>, key: string)
    ensures var ids, at := GroupIds(tools, wos, key), Positions(tools, wos, key);
      |ids| == |at| && forall i :: 0 <= i < |at| ==> ids[i] == wos[at[i]].workOrderId
  {
    if wos != [] {
      GroupIdsAreAtPositions(tools, wos[..|wos| - 1], key);
    }
  }

  /** The distinct keys, in order of first appearance; the all-empty key is left out. */
  function KeysInOrder(tools: TextTools, wos: seq<WorkOrder>): seq<string> {
    if wos == [] then []
    else
      var front, key := KeysInOrder(tools, wos[..|wos| - 1]), ClaimKey(tools, wos[|wos| - 1]);
      if key == "||" || key in front then front else front + [key]
  }

  /** `at` lists the positions that carry `key`, all of them, in increasing order. */
  ghost predicate AreThePositions(tools: TextTools, wos: seq<WorkOrder>, key: string, at: seq<nat>) {
    && (forall i :: 0 <= i < |at| ==> at[i] < |wos| && ClaimKey(tools, wos[at[i]]) == key)
    && (forall p: nat :: p < |wos| && ClaimKey(tools, wos[p]) == key ==> p in at)
    && (forall i, j :: 0 <= i < j < |at| ==> at[i] < at[j])
  }

  lemma OneMorePosition(tools: TextTools, wos: seq<WorkOrder>, wo: WorkOrder, key: string, at: seq<nat>)
    requires AreThePositions(tools, wos, key, at)
    ensures AreThePositions(tools, wos + [wo], key, at + if ClaimKey(tools, wo) == key then [|wos|] else [])
  {
    var all, more := wos + [wo], at + if ClaimKey(tools, wo) == key then [|wos|] else [];
    forall p: nat | p < |all| && ClaimKey(tools, all[p]) == key
      ensures p in more
    {
      if p < |wos| {
        assert all[p] == wos[p] && p in at;
      }
    }
  }

  lemma {:induction false} PositionsAreExact(tools: TextTools, wos: seq<WorkOrder>, key: string)
    ensures AreThePositions(tools, wos, key, Positions(tools, wos, key))
  {
    if wos != [] {
      var n := |wos| - 1;
      PositionsAreExact(tools, wos[..n], key);
      OneMorePosition(tools, wos[..n], wos[n], key, Positions(tools, wos[..n], key));
      assert wos == wos[..n] + [wos[n]];
    }
  }

  ghost predicate Carried(tools: TextTools, wos: seq<WorkOrder>, key: string) {
    exists p :: 0 <= p < |wos| && ClaimKey(tools, wos[p]) == key
  }

  lemma CarriedByFrontOrLast(tools: TextTools, wos: seq<WorkOrder>, key: string)
    requires wos != []
    ensures Carried(tools, wos, key)
      <==> Carried(tools, wos[..|wos| - 1], key) || ClaimKey(tools, wos[|wos| - 1]) == key
  {
    var n := |wos| - 1;
    if Carried(tools, wos[..n], key) {
      var p :| 0 <= p < n && ClaimKey(tools, wos[..n][p]) == key;
      assert ClaimKey(tools, wos[p]) == key;
    }
    if Carried(tools, wos, key) {
      var p :| 0 <= p < |wos| && ClaimKey(tools, wos[p]) == key;
      if p < n {
        assert ClaimKey(tools, wos[..n][p]) == key;
      }
    }
  }

  lemma {:induction false} KeyIsListedIff(tools: TextTools, wos: seq<WorkOrder>, key: string)
    ensures key in KeysInOrder(tools, wos) <==> key != "||" && Carried(tools, wos, key)
  {
    if wos != [] {
      KeyIsListedIff(tools, wos[..|wos| - 1], key);
      CarriedByFrontOrLast(tools, wos, key);
    }
  }

  lemma {:induction false} KeysAreListedOnce(tools: TextTools, wos: seq<WorkOrder>)
    ensures Distinct(KeysInOrder(tools, wos))
  {
    if wos != [] {
      KeysAreListedOnce(tools, wos[..|wos| - 1]);
    }
  }

  function DuplicateFinding(ids: seq<string>): Finding {
    Finding(Trigger(DuplicateClaimRisk, ids, Warning, 0.0), Advice(DuplicateClaimRisk, ids, None))
  }

  function GroupFinder(tools: TextTools, wos: seq<WorkOrder>): string -> seq<Finding> {
    (key: string) => if |GroupIds(tools, wos, key)| > 1 then [DuplicateFinding(GroupIds(tools, wos, key))] else []
  }

  /** One finding per key that two or more work orders carry. */
  function GroupFindings(tools: TextTools, wos: seq<WorkOrder>): seq<Finding> {
    FlatMap(GroupFinder(tools, wos), KeysInOrder(tools, wos))
  }

  ghost predicate Reported(tools: TextTools, wos: seq<WorkOrder>, key: string) {
    key in KeysInOrder(tools, wos) && |GroupIds(tools, wos, key)| > 1
  }

  /** The duplicate findings are the reported groups, ids in list order, and nothing else. */
  lemma GroupFindingsAreReportedGroups(tools: TextTools, wos: seq<WorkOrder>, f: Finding)
    ensures f in GroupFindings(tools, wos)
      <==> exists key :: Reported(tools, wos, key) && f == DuplicateFinding(GroupIds(tools, wos, key))
  {
    var keys := KeysInOrder(tools, wos);
    FlatMapMembers(GroupFinder(tools, wos), keys, f);
    if f in GroupFindings(tools, wos) {
      var i :| 0 <= i < |keys| && f in GroupFinder(tools, wos)(keys[i]);
      assert Reported(tools, wos, keys[i]);
    }
    if key :| Reported(tools, wos, key) && f == DuplicateFinding(GroupIds(tools, wos, key)) {
      var i :| 0 <= i < |keys| && keys[i] == key;
      assert f in GroupFinder(tools, wos)(keys[i]);
    }
  }

  /** Duplicate groups are exact for claims that their keys tell apart: two positions are reported together iff they
      make the same non-empty claim, and a position is in at most one reported group. */
  lemma DuplicateGroupsAreExact(tools: TextTools, wos: seq<WorkOrder>, i: nat, j: nat)
    requires i < |wos| && j < |wos| && i != j
    requires ToldApart(tools, wos[i], wos[j])
    ensures (exists key ::
        Reported(tools, wos, key) && i in Positions(tools, wos, key) && j in Positions(tools, wos, key))
      <==> ClaimOf(tools, wos[i]) == ClaimOf(tools, wos[j]) != NO_CLAIM
    ensures forall key, key' :: i in Positions(tools, wos, key) && i in Positions(tools, wos, key') ==> key == key'
  {
    var a, b := ClaimOf(tools, wos[i]), ClaimOf(tools, wos[j]);
    ToldApartByKey(tools, wos[i], wos[j]);
    EmptyTextIff(a);
    KeyIsListedIff(tools, wos, ClaimKey(tools, wos[i]));
    forall key
      ensures i in Positions(tools, wos, key) <==> ClaimKey(tools, wos[i]) == key
      ensures j in Positions(tools, wos, key) <==> ClaimKey(tools, wos[j]) == key
    {
      PositionsAreExact(tools, wos, key);
    }
    if a == b != NO_CLAIM {
      SharedKeyIsReported(tools, wos, if i < j then i else j, if i < j then j else i);
    }
  }

  /** A witness: two work orders with different claims, reported in one group. */
  lemma SeparatorGroupsDifferentClaims(tools: TextTools, wos: seq<WorkOrder>)
    requires TextLaws(tools) && Lowered(tools, "dig") && Lowered(tools, "north") && Lowered(tools, "site")
    requires wos == [OrderFor(Claim("dig|north", "site", "")), OrderFor(Claim("dig", "north|site", ""))]
    ensures ClaimOf(tools, wos[0]) != ClaimOf(tools, wos[1])
    ensures var key := ClaimKey(tools, wos[0]);
      Reported(tools, wos, key) && 0 in Positions(tools, wos, key) && 1 in Positions(tools, wos, key)
  {
    var a, b := Claim("dig|north", "site", ""), Claim("dig", "north|site", "");
    SeparatorInAFieldMergesClaims("");
    assert "dig" + "|" + "north" == "dig|north" && "north" + "|" + "site" == "north|site";
    LoweredParts(tools, "dig", "north");
    LoweredParts(tools, "north", "site");
    FormableIsMade(tools, a);
    FormableIsMade(tools, b);
    assert |a.activity| != |b.activity|;
    EmptyTextIff(a);
    SharedKeyIsReported(tools, wos, 0, 1);
    PositionsAreExact(tools, wos, ClaimKey(tools, wos[0]));
  }

  // ---- The account of one work order, told from its own entries ----

  /** What a work order is worth, the base and the emergency rate the card has for its activity, and the yearly
      increase that is due on it. */
  datatype Figures = Figures(worth: real, base: real, due: real, increase: real)

  /** An order is worth its value, and its estimate only where no value is given; an activity that is not on the card
      has no rate; an emergency costs one and a half times the base rate unless the card says otherwise. */
  ghost predicate AreFigures(tools: TextTools, book: Book, wo: WorkOrder, f: Figures) {
    IsWorth(wo, f.worth) && IsPriced(tools, book, wo, f.base, f.due) && IsIncrease(wo, f.increase)
  }

  ghost predicate IsWorth(wo: WorkOrder, worth: real) {
    && (wo.value.Some? ==> worth == wo.value.value)
    && (wo.value.None? ==> worth == if wo.estimatedValue.Some? then wo.estimatedValue.value else 0.0)
  }

  ghost predicate IsPriced(tools: TextTools, book: Book, wo: WorkOrder, base: real, due: real) {
    var activity := tools.lower(tools.strip(if wo.activity.Some? then wo.activity.value else ""));
    if activity !in book.rates then base == due == 0.0
    else
      var rc := book.rates[activity];
      && base == (if rc.rate.Some? then rc.rate.value else if rc.baseRate.Some? then rc.baseRate.value else 0.0)
      && (rc.emergencyMultiplier.Some? ==> due == base * rc.emergencyMultiplier.value)
      && (rc.emergencyMultiplier.None? ==> due == base * 1.5)
  }

  ghost predicate IsIncrease(wo: WorkOrder, increase: real) {
    && (wo.volume.Some? ==> 100.0 * increase == wo.contractRate * wo.escalationPercentage * wo.volume.value)
    && (wo.volume.None? ==> 100.0 * increase == wo.contractRate * wo.escalationPercentage)
  }

  /** Some required type is named by no provided item; an item without a type names the empty one. */
  ghost predicate EvidenceShort(wo: WorkOrder) {
    exists t :: t in wo.requiredEvidence && (forall e :: e in wo.completionEvidence && e.provided ==>
      (if e.evidenceType.Some? then e.evidenceType.value else "") != t)
  }

  lemma EvidenceMissingIffShort(wo: WorkOrder)
    ensures EvidenceMissing(wo) <==> wo.status == "completed" && EvidenceShort(wo)
  {
    var given := set e | e in wo.completionEvidence && e.provided :: e.evidenceType.GetOr("");
    if wo.requiredEvidence <= given {
      forall t | t in wo.requiredEvidence
        ensures exists e ::
          e in wo.completionEvidence && e.provided && (if e.evidenceType.Some? then e.evidenceType.value else "") == t
      {
        assert t in given;
      }
    } else {
      var t :| t in wo.requiredEvidence && t !in given;
      forall e | e in wo.completionEvidence && e.provided
        ensures (if e.evidenceType.Some? then e.evidenceType.value else "") != t
      {
        assert e.evidenceType.GetOr("") in given;
      }
    }
  }

  function Note(wo: WorkOrder, kind: Kind, severity: Severity, atRisk: real, advised: Option<real>): Finding {
    Finding(Trigger(kind, [wo.workOrderId], severity, atRisk), Advice(kind, [wo.workOrderId], advised))
  }

  /** When a pattern fires, how serious that is and what it is worth. */
  ghost function Entry(book: Book, wo: WorkOrder, f: Figures, kind: Kind): seq<Finding> {
    match kind
    case FieldCompletionNotBilled =>
      When(wo.status == "completed" && Some(wo.workOrderId) !in book.invoiced, Note(wo, kind, Error, f.worth, None))
    case AbortiveVisitNotClaimed =>
      When(wo.abortive && !wo.abortiveClaimed, Note(wo, kind, Warning, wo.abortiveValue, None))
    case EmergencyBilledAtBaseRate =>
      var billed := if wo.billedRate.Some? then wo.billedRate.value else 0.0;
      When(wo.isEmergency && billed > 0.0 && f.base > 0.0 && 100.0 * billed < 99.0 * f.due,
           Note(wo, kind, Error, f.due - billed, Some(f.due)))
    case ReattendanceIncorrectlyBilled =>
      When(wo.reattendance.Some? && wo.reattendance.value.trigger == "provider_fault" && wo.reattendance.value.billed,
           Note(wo, kind, Critical, f.worth, None))
    case PermitCostNotRecovered =>
      When(wo.permitCost > 0.0 && !wo.permitCostRecovered, Note(wo, kind, Warning, wo.permitCost, Some(wo.permitCost)))
    case RateEscalationNotApplied =>
      When(wo.escalationDue && !wo.escalationApplied && f.increase > 0.0, Note(wo, kind, Warning, f.increase, None))
    case VariationWorkUnbilled =>
      When(wo.isVariation && (wo.variationOrderRef.None? || wo.variationOrderRef.value == ""),
           Note(wo, kind, Error, f.worth, None))
    case IncompleteEvidencePreventsBilling =>
      When(wo.status == "completed" && EvidenceShort(wo), Note(wo, kind, Error, f.worth, None))
    case SlaCreditNotDeducted => []
    case DuplicateClaimRisk => []
  }

  /** The eight entries, in the order in which the patterns are tried. */
  ghost function Account(book: Book, wo: WorkOrder, f: Figures): seq<Finding> {
    Entry(book, wo, f, FieldCompletionNotBilled) + Entry(book, wo, f, AbortiveVisitNotClaimed)
    + Entry(book, wo, f, EmergencyBilledAtBaseRate) + Entry(book, wo, f, ReattendanceIncorrectlyBilled)
    + Entry(book, wo, f, PermitCostNotRecovered) + Entry(book, wo, f, RateEscalationNotApplied)
    + Entry(book, wo, f, VariationWorkUnbilled) + Entry(book, wo, f, IncompleteEvidencePreventsBilling)
  }

  lemma PricedIffExpected(tools: TextTools, book: Book, wo: WorkOrder, base: real, due: real)
    ensures IsPriced(tools, book, wo, base, due) <==> ExpectedEmergencyRate(tools, book, wo) == (base, due)
  {
    var activity, expected := tools.lower(ActivityOf(tools, wo)), ExpectedEmergencyRate(tools, book, wo);
    if activity in book.rates {
      var multiplier := book.rates[activity].emergencyMultiplier.GetOr(1.5);
      assert expected.1 == expected.0 * multiplier;
      assert IsPriced(tools, book, wo, base, due) <==> base == expected.0 && due == base * multiplier;
    }
  }

  lemma IncreaseIffDelta(wo: WorkOrder, increase: real)
    ensures IsIncrease(wo, increase) <==> EscalationDelta(wo) == increase
  {
    var rate, volume := wo.contractRate * wo.escalationPercentage, wo.volume.GetOr(1.0);
    var share := rate / 100.0;
    assert 100.0 * (share * volume) == (100.0 * share) * volume == rate * volume;
  }

  lemma NotingAddsEntry(tools: TextTools, book: Book, wo: WorkOrder, f: Figures, found: seq<Finding>, kind: Kind)
    requires AreFigures(tools, book, wo, f)
    ensures Noting(tools, book, wo, found, kind) == found + Entry(book, wo, f, kind)
  {
    match kind
    case EmergencyBilledAtBaseRate =>
      PricedIffExpected(tools, book, wo, f.base, f.due);
    case IncompleteEvidencePreventsBilling =>
      EvidenceMissingIffShort(wo);
    case FieldCompletionNotBilled =>
    case AbortiveVisitNotClaimed =>
    case ReattendanceIncorrectlyBilled =>
    case PermitCostNotRecovered =>
    case RateEscalationNotApplied =>
      IncreaseIffDelta(wo, f.increase);
    case VariationWorkUnbilled =>
    case SlaCreditNotDeducted =>
    case DuplicateClaimRisk =>
  }

  lemma BillingEntries(tools: TextTools, book: Book, wo: WorkOrder, f: Figures)
    requires AreFigures(tools, book, wo, f)
    ensures NotingBilling(tools, book, wo, []) ==
      Entry(book, wo, f, FieldCompletionNotBilled) + Entry(book, wo, f, AbortiveVisitNotClaimed)
      + Entry(book, wo, f, EmergencyBilledAtBaseRate) + Entry(book, wo, f, ReattendanceIncorrectlyBilled)
  {
    var f1 := Noting(tools, book, wo, [], FieldCompletionNotBilled);
    var f2 := Noting(tools, book, wo, f1, AbortiveVisitNotClaimed);
    var f3 := Noting(tools, book, wo, f2, EmergencyBilledAtBaseRate);
    NotingAddsEntry(tools, book, wo, f, [], FieldCompletionNotBilled);
    NotingAddsEntry(tools, book, wo, f, f1, AbortiveVisitNotClaimed);
    NotingAddsEntry(tools, book, wo, f, f2, EmergencyBilledAtBaseRate);
    NotingAddsEntry(tools, book, wo, f, f3, ReattendanceIncorrectlyBilled);
  }

  lemma RecoveryEntries(tools: TextTools, book: Book, wo: WorkOrder, f: Figures, found: seq<Finding>)
    requires AreFigures(tools, book, wo, f)
    ensures NotingRecovery(tools, book, wo, found) == found
      + Entry(book, wo, f, PermitCostNotRecovered) + Entry(book, wo, f, RateEscalationNotApplied)
      + Entry(book, wo, f, VariationWorkUnbilled) + Entry(book, wo, f, IncompleteEvidencePreventsBilling)
  {
    var f1 := Noting(tools, book, wo, found, PermitCostNotRecovered);
    var f2 := Noting(tools, book, wo, f1, RateEscalationNotApplied);
    var f3 := Noting(tools, book, wo, f2, VariationWorkUnbilled);
    NotingAddsEntry(tools, book, wo, f, found, PermitCostNotRecovered);
    NotingAddsEntry(tools, book, wo, f, f1, RateEscalationNotApplied);
    NotingAddsEntry(tools, book, wo, f, f2, VariationWorkUnbilled);
    NotingAddsEntry(tools, book, wo, f, f3, IncompleteEvidencePreventsBilling);
  }

  /** The findings on one work order are its account. */
  lemma OrderFindingsAreAccount(tools: TextTools, book: Book, wo: WorkOrder, f: Figures)
    requires AreFigures(tools, book, wo, f)
    ensures OrderFindings(tools, book, wo) == Account(book, wo, f)
  {
    BillingEntries(tools, book, wo, f);
    RecoveryEntries(tools, book, wo, f, NotingBilling(tools, book, wo, []));
  }

  lemma FiguresExist(tools: TextTools, book: Book, wo: WorkOrder) returns (f: Figures)
    ensures AreFigures(tools, book, wo, f)
  {
    var (base, due) := ExpectedEmergencyRate(tools, book, wo);
    f := Figures(ValueOf(wo), base, due, EscalationDelta(wo));
    PricedIffExpected(tools, book, wo, base, due);
    IncreaseIffDelta(wo, f.increase);
  }

  lemma InEntryOfItsKind(book: Book, wo: WorkOrder, f: Figures, found: Finding)
    requires found in Account(book, wo, f)
    ensures found in Entry(book, wo, f, found.trigger.kind)
  {
  }

  lemma EntryCountsWorth(book: Book, wo: WorkOrder, f: Figures, found: Finding)
    requires found in Entry(book, wo, f, found.trigger.kind)
    requires found.trigger.kind in {FieldCompletionNotBilled, ReattendanceIncorrectlyBilled, VariationWorkUnbilled,
                                    IncompleteEvidencePreventsBilling}
    ensures found.trigger.atRisk == f.worth
  {
  }

  /** Wherever a finding counts the worth of the work, that is the value the order gives; the estimate counts only where
      no value is given. */
  lemma WorthIsTheValue(tools: TextTools, book: Book, wo: WorkOrder, found: Finding)
    requires found in OrderFindings(tools, book, wo)
    requires found.trigger.kind in {FieldCompletionNotBilled, ReattendanceIncorrectlyBilled, VariationWorkUnbilled,
                                    IncompleteEvidencePreventsBilling}
    ensures wo.value.Some? ==> found.trigger.atRisk == wo.value.value
    ensures wo.value.None? && wo.estimatedValue.Some? ==> found.trigger.atRisk == wo.estimatedValue.value
    ensures wo.value.None? && wo.estimatedValue.None? ==> found.trigger.atRisk == 0.0
  {
    var f := FiguresExist(tools, book, wo);
    OrderFindingsAreAccount(tools, book, wo, f);
    InEntryOfItsKind(book, wo, f, found);
    EntryCountsWorth(book, wo, f, found);
  }

  // ---- The reconciler ----

  function AtRisk(): Finding -> real {
    (f: Finding) => f.trigger.atRisk
  }

  function SumAtRisk(findings: seq<Finding>): real {
    SumOf(AtRisk(), findings)
  }

  /** The three accumulators: triggers, recommendations and the running total. */
  datatype Ledger = Ledger(triggers: seq<Trigger>, recommendations: seq<Advice>, totalAtRisk: real)

  /** The accumulators agree with a list of findings: paired one to one in order, and the total is conserved. */
  ghost predicate Tracks(findings: seq<Finding>, l: Ledger) {
    && |l.triggers| == |l.recommendations| == |findings|
    && (forall i :: 0 <= i < |findings| ==>
      l.triggers[i] == findings[i].trigger && l.recommendations[i] == findings[i].advice)
    && l.totalAtRisk == SumAtRisk(findings)
  }

  lemma NoGroupsIffNoneReported(tools: TextTools, wos: seq<WorkOrder>)
    ensures GroupFindings(tools, wos) == [] <==> forall key :: !Reported(tools, wos, key)
  {
    if GroupFindings(tools, wos) != [] {
      var f := GroupFindings(tools, wos)[0];
      GroupFindingsAreReportedGroups(tools, wos, f);
    }
    if key :| Reported(tools, wos, key) {
      GroupFindingsAreReportedGroups(tools, wos, DuplicateFinding(GroupIds(tools, wos, key)));
    }
  }

  /** No two positions of the list share a key other than the all-empty one. */
  ghost predicate NoSharedKey(tools: TextTools, wos: seq<WorkOrder>) {
    forall i, j :: 0 <= i < j < |wos| && ClaimKey(tools, wos[i]) == ClaimKey(tools, wos[j]) ==>
      ClaimKey(tools, wos[i]) == "||"
  }

  lemma ReportedKeyIsShared(tools: TextTools, wos: seq<WorkOrder>, key: string)
    requires Reported(tools, wos, key)
    ensures !NoSharedKey(tools, wos)
  {
    PositionsAreExact(tools, wos, key);
    GroupIdsAreAtPositions(tools, wos, key);
    KeyIsListedIff(tools, wos, key);
    var at := Positions(tools, wos, key);
    assert at[0] < at[1] && ClaimKey(tools, wos[at[0]]) == ClaimKey(tools, wos[at[1]]);
  }

  lemma SharedKeyIsReported(tools: TextTools, wos: seq<WorkOrder>, i: nat, j: nat)
    requires i < j < |wos| && ClaimKey(tools, wos[i]) == ClaimKey(tools, wos[j]) != "||"
    ensures Reported(tools, wos, ClaimKey(tools, wos[i]))
  {
    var key := ClaimKey(tools, wos[i]);
    PositionsAreExact(tools, wos, key);
    GroupIdsAreAtPositions(tools, wos, key);
    KeyIsListedIff(tools, wos, key);
    var at := Positions(tools, wos, key);
    var x :| 0 <= x < |at| && at[x] == i;
    var y :| 0 <= y < |at| && at[y] == j;
    assert x != y;
  }

  lemma ReportedIffShared(tools: TextTools, wos: seq<WorkOrder>)
    ensures (forall key :: !Reported(tools, wos, key)) <==> NoSharedKey(tools, wos)
  {
    if key :| Reported(tools, wos, key) {
      ReportedKeyIsShared(tools, wos, key);
    }
    if i, j :| 0 <= i < j < |wos| && ClaimKey(tools, wos[i]) == ClaimKey(tools, wos[j]) != "||" {
      SharedKeyIsReported(tools, wos, i, j);
    }
  }

  function AllFindings(tools: TextTools, book: Book, wos: seq<WorkOrder>, breaches: seq<SlaBreach>): seq<Finding> {
    AllOrderFindings(tools, book, wos) + CreditFindings(breaches) + GroupFindings(tools, wos)
  }

  /** Appending to the two lists and growing the total, as every pattern does when it fires. */
  method Report(trigger: Trigger, advice: Advice, l: Ledger, ghost found: seq<Finding>) returns (l': Ledger)
    requires Tracks(found, l)
    ensures Tracks(found + [Finding(trigger, advice)], l')
    ensures l'.totalAtRisk == l.totalAtRisk + trigger.atRisk
  {
    assert (found + [Finding(trigger, advice)])[..|found|] == found;
    l' := Ledger(l.triggers + [trigger], l.recommendations + [advice], l.totalAtRisk + trigger.atRisk);
  }

  /** One `if` of the per-work-order loop: report when the pattern's condition holds. */
  method Consider(fires: bool, trigger: Trigger, advice: Advice, l: Ledger, ghost found: seq<Finding>,
                  wo: WorkOrder, tools: TextTools, book: Book) returns (l': Ledger)
    requires Tracks(found, l)
    requires fires <==> Shows(tools, book, wo, trigger.kind)
    requires Finding(trigger, advice) == OrderFinding(tools, book, wo, trigger.kind)
    ensures Tracks(Noting(tools, book, wo, found, trigger.kind), l')
  {
    l' := l;
    if fires {
      l' := Report(trigger, advice, l, found);
    }
  }

  method ScanBilling(tools: TextTools, book: Book, wo: WorkOrder, l0: Ledger, ghost found: seq<Finding>)
    returns (l: Ledger)
    requires Tracks(found, l0)
    ensures Tracks(NotingBilling(tools, book, wo, found), l)
  {
    l := l0;
    var id, value := wo.workOrderId, ValueOf(wo);
    ghost var f := found;

    l := Consider(Completed(wo) && Some(id) !in book.invoiced,
                  Trigger(FieldCompletionNotBilled, [id], Error, value),
                  Advice(FieldCompletionNotBilled, [id], None), l, f, wo, tools, book);
    f := Noting(tools, book, wo, f, FieldCompletionNotBilled);
    l := Consider(wo.abortive && !wo.abortiveClaimed,
                  Trigger(AbortiveVisitNotClaimed, [id], Warning, wo.abortiveValue),
                  Advice(AbortiveVisitNotClaimed, [id], None), l, f, wo, tools, book);
    f := Noting(tools, book, wo, f, AbortiveVisitNotClaimed);
    var billed := wo.billedRate.GetOr(0.0);
    var (base, expected) := ExpectedEmergencyRate(tools, book, wo);
    l := Consider(wo.isEmergency && billed > 0.0 && base > 0.0 && billed < expected * 0.99,
                  Trigger(EmergencyBilledAtBaseRate, [id], Error, expected - billed),
                  Advice(EmergencyBilledAtBaseRate, [id], Some(expected)), l, f, wo, tools, book);
    f := Noting(tools, book, wo, f, EmergencyBilledAtBaseRate);
    l := Consider(ReattendedFor(wo.reattendance, "provider_fault") && wo.reattendance.value.billed,
                  Trigger(ReattendanceIncorrectlyBilled, [id], Critical, value),
                  Advice(ReattendanceIncorrectlyBilled, [id], None), l, f, wo, tools, book);
    f := Noting(tools, book, wo, f, ReattendanceIncorrectlyBilled);
  }

  method ScanRecovery(tools: TextTools, book: Book, wo: WorkOrder, l0: Ledger, ghost found: seq<Finding>)
    returns (l: Ledger)
    requires Tracks(found, l0)
    ensures Tracks(NotingRecovery(tools, book, wo, found), l)
  {
    l := l0;
    var id, value := wo.workOrderId, ValueOf(wo);
    ghost var f := found;

    l := Consider(wo.permitCost > 0.0 && !wo.permitCostRecovered,
                  Trigger(PermitCostNotRecovered, [id], Warning, wo.permitCost),
                  Advice(PermitCostNotRecovered, [id], Some(wo.permitCost)), l, f, wo, tools, book);
    f := Noting(tools, book, wo, f, PermitCostNotRecovered);
    var delta := wo.contractRate * wo.escalationPercentage / 100.0 * wo.volume.GetOr(1.0);
    l := Consider(wo.escalationDue && !wo.escalationApplied && delta > 0.0,
                  Trigger(RateEscalationNotApplied, [id], Warning, delta),
                  Advice(RateEscalationNotApplied, [id], None), l, f, wo, tools, book);
    f := Noting(tools, book, wo, f, RateEscalationNotApplied);
    l := Consider(wo.isVariation && (wo.variationOrderRef.None? || wo.variationOrderRef.value == ""),
                  Trigger(VariationWorkUnbilled, [id], Error, value),
                  Advice(VariationWorkUnbilled, [id], None), l, f, wo, tools, book);
    f := Noting(tools, book, wo, f, VariationWorkUnbilled);
    l := Consider(EvidenceMissing(wo),
                  Trigger(IncompleteEvidencePreventsBilling, [id], Error, value),
                  Advice(IncompleteEvidencePreventsBilling, [id], None), l, f, wo, tools, book);
    f := Noting(tools, book, wo, f, IncompleteEvidencePreventsBilling);
  }

  /** The body of the per-work-order loop. */
  method ScanOrder(tools: TextTools, book: Book, wo: WorkOrder, l0: Ledger, ghost found: seq<Finding>)
    returns (l: Ledger)
    requires Tracks(found, l0)
    ensures Tracks(found + OrderFindings(tools, book, wo), l)
  {
    l := ScanBilling(tools, book, wo, l0, found);
    l := ScanRecovery(tools, book, wo, l, NotingBilling(tools, book, wo, found));
    WithOrderAppends(tools, book, found, wo);
  }

  lemma {:induction false} UnlistedKeyHasNoIds(tools: TextTools, wos: seq<WorkOrder>, key: string)
    requires key != "||" && key !in KeysInOrder(tools, wos)
    ensures GroupIds(tools, wos, key) == []
  {
    if wos != [] {
      UnlistedKeyHasNoIds(tools, wos[..|wos| - 1], key);
    }
  }

  method GroupClaims(tools: TextTools, wos: seq<WorkOrder>)
    returns (keys: seq<string>, groups: map<string, seq<string>>)
    ensures keys == KeysInOrder(tools, wos)
    ensures forall key :: key in groups <==> key in keys
    ensures forall key :: key in keys ==> groups[key] == GroupIds(tools, wos, key)
  {
    keys, groups := [], map[];
    for i := 0 to |wos|
      invariant keys == KeysInOrder(tools, wos[..i]) && "||" !in keys
      invariant forall key :: key in groups <==> key in keys
      invariant forall key :: key in keys ==> groups[key] == GroupIds(tools, wos[..i], key)
    {
      var key := ClaimKey(tools, wos[i]);
      assert wos[..i + 1][..i] == wos[..i];
      if key != "||" {
        if key !in groups {
          UnlistedKeyHasNoIds(tools, wos[..i], key);
          keys, groups := keys + [key], groups[key := []];
        }
        groups := groups[key := groups[key] + [wos[i].workOrderId]];
      }
    }
    assert wos[..|wos|] == wos;
  }

  method ScanCredits(breaches: seq<SlaBreach>, l0: Ledger, ghost found: seq<Finding>) returns (l: Ledger)
    requires Tracks(found, l0)
    ensures Tracks(found + CreditFindings(breaches), l)
  {
    l := l0;
    ghost var finder := CreditFinder();
    assert found + FlatMap(finder, breaches[..0]) == found;
    for i := 0 to |breaches|
      invariant Tracks(found + FlatMap(finder, breaches[..i]), l)
    {
      ghost var sofar := found + FlatMap(finder, breaches[..i]);
      FlatMapGrows(found, finder, breaches, i);
      var b := breaches[i];
      if !b.creditApplied {
        l := Report(Trigger(SlaCreditNotDeducted, [b.incidentId], Warning, b.creditValue),
                    Advice(SlaCreditNotDeducted, [], None), l, sofar);
      } else {
        assert sofar + finder(b) == sofar;
      }
    }
    assert breaches[..|breaches|] == breaches;
  }

  method ScanClaims(tools: TextTools, wos: seq<WorkOrder>, l0: Ledger, ghost found: seq<Finding>) returns (l: Ledger)
    requires Tracks(found, l0)
    ensures Tracks(found + GroupFindings(tools, wos), l)
  {
    l := l0;
    var keys, groups := GroupClaims(tools, wos);
    ghost var finder := GroupFinder(tools, wos);
    assert found + FlatMap(finder, keys[..0]) == found;
    for i := 0 to |keys|
      invariant Tracks(found + FlatMap(finder, keys[..i]), l)
    {
      ghost var sofar := found + FlatMap(finder, keys[..i]);
      FlatMapGrows(found, finder, keys, i);
      var ids := groups[keys[i]];
      if |ids| > 1 {
        l := Report(Trigger(DuplicateClaimRisk, ids, Warning, 0.0), Advice(DuplicateClaimRisk, ids, None), l, sofar);
      } else {
        assert sofar + finder(keys[i]) == sofar;
      }
    }
    assert keys[..|keys|] == keys;
  }

  method Reconcile(tools: TextTools, book: Book, wos: seq<WorkOrder>, breaches: seq<SlaBreach>) returns (l: Ledger)
    ensures Tracks(AllFindings(tools, book, wos, breaches), l)
  {
    l := Ledger([], [], 0.0);
    for i := 0 to |wos|
      invariant Tracks(AllOrderFindings(tools, book, wos[..i]), l)
    {
      assert wos[..i + 1][..i] == wos[..i];
      l := ScanOrder(tools, book, wos[i], l, AllOrderFindings(tools, book, wos[..i]));
    }
    assert wos[..|wos|] == wos;
    l := ScanCredits(breaches, l, AllOrderFindings(tools, book, wos));
    l := ScanClaims(tools, wos, l, AllOrderFindings(tools, book, wos) + CreditFindings(breaches));
  }

  // ---- Conservation ----

  /** Splitting the field data loses and duplicates nothing. */
  lemma OrderFindingsSplit(tools: TextTools, book: Book, a: seq<WorkOrder>, b: seq<WorkOrder>)
    ensures AllOrderFindings(tools, book, a + b) == AllOrderFindings(tools, book, a) + AllOrderFindings(tools, book, b)
  {
    FlatMapSplits(Finder(tools, book), a, b);
  }

  function OrderValue(tools: TextTools, book: Book): WorkOrder -> real {
    (wo: WorkOrder) => SumAtRisk(Finder(tools, book)(wo))
  }

  lemma {:induction false} TotalIsSumOverOrders(tools: TextTools, book: Book, wos: seq<WorkOrder>)
    ensures SumAtRisk(AllOrderFindings(tools, book, wos)) == SumOf(OrderValue(tools, book), wos)
  {
    if wos != [] {
      var front := wos[..|wos| - 1];
      TotalIsSumOverOrders(tools, book, front);
      SumSplits(AtRisk(), AllOrderFindings(tools, book, front), Finder(tools, book)(wos[|wos| - 1]));
    }
  }

  /** The work-order part of the total depends only on which work orders there are, not on their order. */
  lemma TotalIgnoresOrder(tools: TextTools, book: Book, a: seq<WorkOrder>, b: seq<WorkOrder>)
    requires multiset(a) == multiset(b)
    ensures SumAtRisk(AllOrderFindings(tools, book, a)) == SumAtRisk(AllOrderFindings(tools, book, b))
  {
    TotalIsSumOverOrders(tools, book, a);
    TotalIsSumOverOrders(tools, book, b);
    SumIgnoresOrder(OrderValue(tools, book), a, b);
  }

  // ---- The total, told from the input ----

  function Amount(fires: bool, x: real): real {
    if fires then x else 0.0
  }

  /** What one work order adds to the total. */
  ghost function Loss(book: Book, wo: WorkOrder, f: Figures): real {
    var billed := if wo.billedRate.Some? then wo.billedRate.value else 0.0;
    Amount(wo.status == "completed" && Some(wo.workOrderId) !in book.invoiced, f.worth)
    + Amount(wo.abortive && !wo.abortiveClaimed, wo.abortiveValue)
    + Amount(wo.isEmergency && billed > 0.0 && f.base > 0.0 && 100.0 * billed < 99.0 * f.due, f.due - billed)
    + Amount(wo.reattendance.Some? && wo.reattendance.value.trigger == "provider_fault" && wo.reattendance.value.billed,
             f.worth)
    + Amount(wo.permitCost > 0.0 && !wo.permitCostRecovered, wo.permitCost)
    + Amount(wo.escalationDue && !wo.escalationApplied && f.increase > 0.0, f.increase)
    + Amount(wo.isVariation && (wo.variationOrderRef.None? || wo.variationOrderRef.value == ""), f.worth)
    + Amount(wo.status == "completed" && EvidenceShort(wo), f.worth)
  }

  lemma SumOfWhen(fires: bool, found: Finding)
    ensures SumAtRisk(When(fires, found)) == Amount(fires, found.trigger.atRisk)
  {
    SumOfOne(AtRisk(), found);
  }

  lemma AccountSum(book: Book, wo: WorkOrder, f: Figures)
    ensures SumAtRisk(Account(book, wo, f)) == Loss(book, wo, f)
  {
    var e1, e2 := Entry(book, wo, f, FieldCompletionNotBilled), Entry(book, wo, f, AbortiveVisitNotClaimed);
    var e3, e4 := Entry(book, wo, f, EmergencyBilledAtBaseRate), Entry(book, wo, f, ReattendanceIncorrectlyBilled);
    var e5, e6 := Entry(book, wo, f, PermitCostNotRecovered), Entry(book, wo, f, RateEscalationNotApplied);
    var e7, e8 := Entry(book, wo, f, VariationWorkUnbilled), Entry(book, wo, f, IncompleteEvidencePreventsBilling);
    SumSplits(AtRisk(), e1, e2);
    SumSplits(AtRisk(), e1 + e2, e3);
    SumSplits(AtRisk(), e1 + e2 + e3, e4);
    SumSplits(AtRisk(), e1 + e2 + e3 + e4, e5);
    SumSplits(AtRisk(), e1 + e2 + e3 + e4 + e5, e6);
    SumSplits(AtRisk(), e1 + e2 + e3 + e4 + e5 + e6, e7);
    SumSplits(AtRisk(), e1 + e2 + e3 + e4 + e5 + e6 + e7, e8);
    EntrySums(book, wo, f);
  }

  lemma EntrySums(book: Book, wo: WorkOrder, f: Figures)
    ensures Loss(book, wo, f) ==
      SumAtRisk(Entry(book, wo, f, FieldCompletionNotBilled)) + SumAtRisk(Entry(book, wo, f, AbortiveVisitNotClaimed))
      + SumAtRisk(Entry(book, wo, f, EmergencyBilledAtBaseRate))
      + SumAtRisk(Entry(book, wo, f, ReattendanceIncorrectlyBilled))
      + SumAtRisk(Entry(book, wo, f, PermitCostNotRecovered)) + SumAtRisk(Entry(book, wo, f, RateEscalationNotApplied))
      + SumAtRisk(Entry(book, wo, f, VariationWorkUnbilled))
      + SumAtRisk(Entry(book, wo, f, IncompleteEvidencePreventsBilling))
  {
    forall fires, found: Finding
      ensures SumAtRisk(When(fires, found)) == Amount(fires, found.trigger.atRisk)
    {
      SumOfWhen(fires, found);
    }
  }

  /** What all work orders add to it. */
  ghost function Losses(book: Book, wos: seq<WorkOrder>, figures: seq<Figures>): real
    requires |figures| == |wos|
  {
    if wos == [] then 0.0
    else
      var n := |wos| - 1;
      Losses(book, wos[..n], figures[..n]) + Loss(book, wos[n], figures[n])
  }

  lemma {:induction false} OrderTotalIsLosses(tools: TextTools, book: Book, wos: seq<WorkOrder>, figures: seq<Figures>)
    requires |figures| == |wos| && forall i :: 0 <= i < |wos| ==> AreFigures(tools, book, wos[i], figures[i])
    ensures SumAtRisk(AllOrderFindings(tools, book, wos)) == Losses(book, wos, figures)
  {
    if wos != [] {
      var n := |wos| - 1;
      OrderTotalIsLosses(tools, book, wos[..n], figures[..n]);
      SumSplits(AtRisk(), AllOrderFindings(tools, book, wos[..n]), OrderFindings(tools, book, wos[n]));
      OrderFindingsAreAccount(tools, book, wos[n], figures[n]);
      AccountSum(book, wos[n], figures[n]);
    }
  }

  /** The credits that were not deducted. */
  function Owed(breaches: seq<SlaBreach>): real {
    if breaches == [] then 0.0
    else
      var last := breaches[|breaches| - 1];
      Owed(breaches[..|breaches| - 1]) + (if last.creditApplied then 0.0 else last.creditValue)
  }

  lemma {:induction false} CreditTotalIsOwed(breaches: seq<SlaBreach>)
    ensures SumAtRisk(CreditFindings(breaches)) == Owed(breaches)
  {
    if breaches != [] {
      var n := |breaches| - 1;
      CreditTotalIsOwed(breaches[..n]);
      var last := CreditFinder()(breaches[n]);
      SumSplits(AtRisk(), CreditFindings(breaches[..n]), last);
      if !breaches[n].creditApplied {
        SumOfOne(AtRisk(), last[0]);
        assert last == [last[0]];
      }
    }
  }

  lemma {:induction false} NothingAtRiskSumsToNothing(found: seq<Finding>)
    requires forall f :: f in found ==> f.trigger.atRisk == 0.0
    ensures SumAtRisk(found) == 0.0
  {
    if found != [] {
      NothingAtRiskSumsToNothing(found[..|found| - 1]);
    }
  }

  lemma GroupsAreWorthNothing(tools: TextTools, wos: seq<WorkOrder>)
    ensures SumAtRisk(GroupFindings(tools, wos)) == 0.0
  {
    forall f | f in GroupFindings(tools, wos)
      ensures f.trigger.atRisk == 0.0
    {
      GroupFindingsAreReportedGroups(tools, wos, f);
    }
    NothingAtRiskSumsToNothing(GroupFindings(tools, wos));
  }

  /** The running total of the analysis is what the orders lose and what the breaches owe; duplicates add nothing. */
  lemma TotalIsLossesAndCredits(tools: TextTools, book: Book, wos: seq<WorkOrder>, figures: seq<Figures>,
                                breaches: seq<SlaBreach>, l: Ledger)
    requires |figures| == |wos| && forall i :: 0 <= i < |wos| ==> AreFigures(tools, book, wos[i], figures[i])
    requires Tracks(AllFindings(tools, book, wos, breaches), l)
    ensures l.totalAtRisk == Losses(book, wos, figures) + Owed(breaches)
  {
    var a, b := AllOrderFindings(tools, book, wos), CreditFindings(breaches);
    SumSplits(AtRisk(), a + b, GroupFindings(tools, wos));
    SumSplits(AtRisk(), a, b);
    OrderTotalIsLosses(tools, book, wos, figures);
    CreditTotalIsOwed(breaches);
    GroupsAreWorthNothing(tools, wos);
  }

  /** Computed amounts are real losses: each is positive whenever its pattern fires. */
  lemma ComputedAmountsArePositive(tools: TextTools, book: Book, wo: WorkOrder, kind: Kind)
    requires kind in {EmergencyBilledAtBaseRate, PermitCostNotRecovered, RateEscalationNotApplied}
    requires Shows(tools, book, wo, kind)
    ensures OrderFinding(tools, book, wo, kind).trigger.atRisk > 0.0
  {
  }

  lemma SeriousInFlatMap<T>(finder: T -> seq<Finding>, s: seq<T>)
    ensures SeriousIn(FlatMap(finder, s)) <==> exists i :: 0 <= i < |s| && SeriousIn(finder(s[i]))
  {
    if f :| f in FlatMap(finder, s) && Serious(f.trigger.severity) {
      FlatMapMembers(finder, s, f);
      var i :| 0 <= i < |s| && f in finder(s[i]);
      assert SeriousIn(finder(s[i]));
    }
    if i :| 0 <= i < |s| && SeriousIn(finder(s[i])) {
      var f :| f in finder(s[i]) && Serious(f.trigger.severity);
      FlatMapMembers(finder, s, f);
    }
  }

  lemma OrdersAreSeriousIff(tools: TextTools, book: Book, wos: seq<WorkOrder>)
    ensures SeriousIn(AllOrderFindings(tools, book, wos))
      <==> exists i :: 0 <= i < |wos| && ShowsSerious(tools, book, wos[i])
  {
    var finder := Finder(tools, book);
    SeriousInFlatMap(finder, wos);
    forall i | 0 <= i < |wos|
      ensures SeriousIn(finder(wos[i])) <==> ShowsSerious(tools, book, wos[i])
    {
      OrderIsSeriousIff(tools, book, wos[i]);
    }
  }

  lemma CreditsAreWarnings(breaches: seq<SlaBreach>)
    ensures !SeriousIn(CreditFindings(breaches))
  {
    SeriousInFlatMap(CreditFinder(), breaches);
  }

  lemma GroupsAreWarnings(tools: TextTools, wos: seq<WorkOrder>)
    ensures !SeriousIn(GroupFindings(tools, wos))
  {
    SeriousInFlatMap(GroupFinder(tools, wos), KeysInOrder(tools, wos));
  }

  /** Unapplied credits and duplicate claims are warnings: only work orders can make the analysis serious. */
  lemma AnalysisIsSeriousIff(tools: TextTools, book: Book, wos: seq<WorkOrder>, breaches: seq<SlaBreach>)
    ensures SeriousIn(AllFindings(tools, book, wos, breaches))
      <==> exists i :: 0 <= i < |wos| && ShowsSerious(tools, book, wos[i])
  {
    OrdersAreSeriousIff(tools, book, wos);
    CreditsAreWarnings(breaches);
    GroupsAreWarnings(tools, wos);
    SeriousInParts(AllOrderFindings(tools, book, wos), CreditFindings(breaches), GroupFindings(tools, wos));
  }

  lemma SeriousInParts(a: seq<Finding>, b: seq<Finding>, c: seq<Finding>)
    ensures SeriousIn(a + b + c) <==> SeriousIn(a) || SeriousIn(b) || SeriousIn(c)
  {
    assert forall f :: f in a + b + c <==> f in a || f in b || f in c;
  }
}
