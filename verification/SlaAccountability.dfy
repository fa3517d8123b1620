/** Whether the provider answers for an SLA breach when field blockers exist (`SLAAccountabilityLinker`). */
module SlaAccountability {
  import opened Foundation
  import opened MarginModel

  datatype FieldBlocker = FieldBlocker(blockerType: string, description: string)

  datatype Mapping = Mapping(accountable: bool, mitigated: bool, adjustedStatus: string)

  datatype Factor = Factor(blockerType: string, description: string)

  datatype Result = Result(accountable: bool, factors: seq<Factor>, adjustedStatus: string)

  function BlockerTypeMap(blockerType: string): Option<Mapping> {
    match blockerType
    case "customer_access" => Some(Mapping(false, true, "paused"))
    case "local_authority_permit" => Some(Mapping(false, true, "paused"))
    case "weather_force_majeure" => Some(Mapping(false, true, "excluded"))
    case "customer_nominated_supplier" => Some(Mapping(false, true, "paused"))
    case "third_party_dependency" => Some(Mapping(true, true, "mitigated"))
    case "provider_resource_shortage" => Some(Mapping(true, false, ""))
    case _ => None
  }

  const NON_ACCOUNTABLE :=
    {"customer_access", "local_authority_permit", "weather_force_majeure", "customer_nominated_supplier"}

  predicate Excuses(b: FieldBlocker) {
    b.blockerType in NON_ACCOUNTABLE
  }

  predicate Mitigates(b: FieldBlocker) {
    Excuses(b) || b.blockerType == "third_party_dependency"
  }

  function Factors(blockers: seq<FieldBlocker>): seq<Factor> {
    if blockers == [] then []
    else
      var b := blockers[|blockers| - 1];
      Factors(blockers[..|blockers| - 1]) + (if Mitigates(b) then [Factor(b.blockerType, b.description)] else [])
  }

  /** The status named by the last mitigating blocker, if any. */
  function AdjustedStatus(status: string, blockers: seq<FieldBlocker>): string {
    if blockers == [] then status
    else
      var b := blockers[|blockers| - 1];
      if Mitigates(b) then BlockerTypeMap(b.blockerType).value.adjustedStatus
      else AdjustedStatus(status, blockers[..|blockers| - 1])
  }

  predicate NoneExcuses(blockers: seq<FieldBlocker>) {
    forall i :: 0 <= i < |blockers| ==> !Excuses(blockers[i])
  }

  method Evaluate(status: Option<string>, blockers: seq<FieldBlocker>) returns (r: Result)
    ensures r.accountable <==> NoneExcuses(blockers)
    ensures r.factors == Factors(blockers)
    ensures r.adjustedStatus == AdjustedStatus(status.GetOr("within"), blockers)
  {
    var factors: seq<Factor>, accountable, adjusted := [], true, status.GetOr("within");
    var hasNonAccountable, fullyAccountableOnly := false, true;
    for i := 0 to |blockers|
      invariant hasNonAccountable <==> !NoneExcuses(blockers[..i])
      invariant factors == Factors(blockers[..i])
      invariant adjusted == AdjustedStatus(status.GetOr("within"), blockers[..i])
    {
      assert blockers[..i + 1][..i] == blockers[..i];
      var b := blockers[i];
      assert !NoneExcuses(blockers[..i + 1]) <==> !NoneExcuses(blockers[..i]) || Excuses(b);
      var mapping := BlockerTypeMap(b.blockerType);
      if mapping.Some? {
        if !mapping.value.accountable {
          hasNonAccountable, fullyAccountableOnly := true, false;
          factors := factors + [Factor(b.blockerType, b.description)];
          adjusted := mapping.value.adjustedStatus;
        } else if mapping.value.mitigated {
          fullyAccountableOnly := false;
          factors := factors + [Factor(b.blockerType, b.description)];
          adjusted := mapping.value.adjustedStatus;
        }
      }
    }
    assert blockers[..|blockers|] == blockers;
    if hasNonAccountable {
      accountable := false;
    } else if !fullyAccountableOnly && factors != [] {
      accountable := true;
    }
    r := Result(accountable, factors, adjusted);
  }

  /** The status after evaluation, told by the last blocker of one of the five types that touch it; without such a
      blocker it stays as it was. */
  lemma {:induction false} StatusOfLastBlocker(status: string, blockers: seq<FieldBlocker>, last: int)
    requires -1 <= last < |blockers|
    requires forall i :: last < i < |blockers| ==>
      blockers[i].blockerType !in {"customer_access", "local_authority_permit", "weather_force_majeure",
                                   "customer_nominated_supplier", "third_party_dependency"}
    ensures last == -1 ==> AdjustedStatus(status, blockers) == status
    ensures last >= 0 ==>
      var t := blockers[last].blockerType;
      && (t in {"customer_access", "local_authority_permit", "customer_nominated_supplier"} ==>
        AdjustedStatus(status, blockers) == "paused")
      && (t == "weather_force_majeure" ==> AdjustedStatus(status, blockers) == "excluded")
      && (t == "third_party_dependency" ==> AdjustedStatus(status, blockers) == "mitigated")
  {
    if last < |blockers| - 1 {
      StatusOfLastBlocker(status, blockers[..|blockers| - 1], last);
    }
  }

  lemma {:induction false} FactorsEmptyIff(blockers: seq<FieldBlocker>)
    ensures Factors(blockers) == [] <==> forall i :: 0 <= i < |blockers| ==> !Mitigates(blockers[i])
  {
    if blockers != [] {
      FactorsEmptyIff(blockers[..|blockers| - 1]);
      assert blockers == blockers[..|blockers| - 1] + [blockers[|blockers| - 1]];
    }
  }
}
