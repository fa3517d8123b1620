/** The keys and values templates are filled with (`FILL_VALUES`), and how the values differ from the keys. */
module FillTable {
  import opened Decimals
  import opened Foundation
  import opened Sequences
  import opened TemplateFill

  // ---- The keys in use ----

  const CHANGE_KEYS := [
    "id", "window", "rollback", "impact", "classification", "tested", "duration", "users", "traffic", "degradation"]
  const CHECK_KEYS := [
    "records", "contained", "version", "ci_status", "scan_status", "nia_status", "vendor", "test_status",
    "rollback_status", "risk_level"]
  const STATUS_KEYS := [
    "readiness", "compliance", "approval_status", "driver", "validation_status", "transactions", "vector",
    "data_status", "containment"]
  const OUTCOME_KEYS := [
    "obligations", "evidence", "recommendation", "timeline", "remediation", "notifications", "notification",
    "missing", "risk"]

  /** The keys of `FILL_VALUES`, in order. */
  const FILL_KEYS := CHANGE_KEYS + CHECK_KEYS + STATUS_KEYS + OUTCOME_KEYS

  lemma ChangeKeysAreBraceFree()
    ensures BraceFreeKeys(CHANGE_KEYS)
  {
  }

  lemma CheckKeysAreBraceFree()
    ensures BraceFreeKeys(CHECK_KEYS)
  {
  }

  lemma StatusKeysAreBraceFree()
    ensures BraceFreeKeys(STATUS_KEYS)
  {
  }

  lemma OutcomeKeysAreBraceFree()
    ensures BraceFreeKeys(OUTCOME_KEYS)
  {
  }

  lemma FillKeysAreBraceFree()
    ensures BraceFreeKeys(FILL_KEYS)
  {
    ChangeKeysAreBraceFree();
    CheckKeysAreBraceFree();
    StatusKeysAreBraceFree();
    OutcomeKeysAreBraceFree();
  }

  // ---- The values in use ----

  const WINDOW_VALUES := ["Saturday 02:00-06:00", "Sunday 00:00-04:00", "Wednesday 23:00-03:00"]
  const ROLLBACK_VALUES := ["documented", "not documented", "partial"]
  const IMPACT_VALUES := ["500", "5000", "50000", "500000"]
  const CLASSIFICATION_VALUES := ["critical", "high", "medium", "low"]
  const TESTED_VALUES := ["yes", "no", "partial"]
  const DURATION_VALUES := ["15 minutes", "2 hours", "6 hours", "24 hours"]
  const USERS_VALUES := ["100", "1000", "10000", "100000"]
  const TRAFFIC_VALUES := ["10Gbps", "50Gbps", "100Gbps"]
  const DEGRADATION_VALUES := ["5%", "20%", "50%", "complete"]
  const RECORDS_VALUES := ["1000", "50000", "1000000"]
  const CONTAINED_VALUES := ["yes", "no", "in progress"]
  const CI_STATUS_VALUES := ["passed", "failed", "not run"]
  const SCAN_STATUS_VALUES := ["clean", "3 findings", "not run"]
  const NIA_STATUS_VALUES := ["complete", "pending", "not started"]
  const VENDOR_VALUES := ["Ericsson", "Nokia", "Huawei", "Samsung"]
  const TEST_STATUS_VALUES := ["complete", "partial", "not started"]
  const ROLLBACK_STATUS_VALUES := ["documented", "not documented"]
  const RISK_LEVEL_VALUES := ["HIGH", "MEDIUM", "LOW"]
  const READINESS_VALUES := ["READY", "NOT READY", "CONDITIONAL"]
  const COMPLIANCE_VALUES := ["COMPLIANT", "NON-COMPLIANT", "PARTIAL"]
  const APPROVAL_STATUS_VALUES := ["approved", "pending", "not requested"]
  const DRIVER_VALUES := ["regulatory change", "risk finding", "business request"]
  const VALIDATION_STATUS_VALUES := ["validated", "pending", "expired"]
  const TRANSACTIONS_VALUES := ["10000", "100000", "1000000"]
  const VECTOR_VALUES := ["phishing", "credential stuffing", "zero-day exploit"]
  const DATA_STATUS_VALUES := ["no data compromised", "under investigation"]
  const CONTAINMENT_VALUES := ["contained", "in progress", "not contained"]
  const OBLIGATIONS_VALUES := [
    "- Complete required " + "documentation\n- Obtain " + "necessary approvals",
    "- Submit evidence to " + "governance team\n- Notify " + "regulatory body if required",
    "- Review against applicable " + "regulations\n- Document " + "compliance status"]
  const EVIDENCE_VALUES := [
    "change_control_record, " + "approval_sign_off, " + "risk_assessment",
    "validation_report, " + "compliance_checklist, " + "audit_trail",
    "impact_assessment, " + "regulatory_notification, " + "sign_off_record"]
  const RECOMMENDATION_VALUES := [
    "BLOCK until all required " + "evidence is provided",
    "PROCEED with conditions \U{2014} " + "evidence must be provided " + "within 48 hours",
    "ESCALATE to senior " + "governance for review"]
  const TIMELINE_VALUES := [
    "- 24 hours: early warning\n- " + "72 hours: full " + "notification\n- 1 month: " + "final report",
    "- Immediate: containment\n- " + "48 hours: notification\n- 30 " + "days: final report"]
  const REMEDIATION_VALUES := [
    "Complete missing " + "documentation and resubmit " + "for approval",
    "Obtain required sign-offs " + "and update compliance " + "records",
    "Remediate findings and " + "provide evidence of " + "correction"]
  const NOTIFICATIONS_VALUES := [
    "Regulatory authority, " + "affected parties, internal " + "governance",
    "Board, competent authority, " + "impacted customers"]
  const NOTIFICATION_VALUES := [
    "Required within regulatory " + "timeframe",
    "Not required at this " + "threshold",
    "Required \U{2014} escalate to " + "compliance team"]
  const MISSING_VALUES := [
    "risk_assessment, " + "approval_record",
    "validation_report, sign_off",
    "compliance_checklist, " + "audit_evidence"]
  const RISK_VALUES := ["HIGH", "MEDIUM", "LOW"]

  /** The texts the key at a position is filled with; the two drawn as numbers are left out. */
  function ValuesOf(k: int): seq<string> {
    match k
    case 1 => WINDOW_VALUES
    case 2 => ROLLBACK_VALUES
    case 3 => IMPACT_VALUES
    case 4 => CLASSIFICATION_VALUES
    case 5 => TESTED_VALUES
    case 6 => DURATION_VALUES
    case 7 => USERS_VALUES
    case 8 => TRAFFIC_VALUES
    case 9 => DEGRADATION_VALUES
    case 10 => RECORDS_VALUES
    case 11 => CONTAINED_VALUES
    case 13 => CI_STATUS_VALUES
    case 14 => SCAN_STATUS_VALUES
    case 15 => NIA_STATUS_VALUES
    case 16 => VENDOR_VALUES
    case 17 => TEST_STATUS_VALUES
    case 18 => ROLLBACK_STATUS_VALUES
    case 19 => RISK_LEVEL_VALUES
    case 20 => READINESS_VALUES
    case 21 => COMPLIANCE_VALUES
    case 22 => APPROVAL_STATUS_VALUES
    case 23 => DRIVER_VALUES
    case 24 => VALIDATION_STATUS_VALUES
    case 25 => TRANSACTIONS_VALUES
    case 26 => VECTOR_VALUES
    case 27 => DATA_STATUS_VALUES
    case 28 => CONTAINMENT_VALUES
    case 29 => OBLIGATIONS_VALUES
    case 30 => EVIDENCE_VALUES
    case 31 => RECOMMENDATION_VALUES
    case 32 => TIMELINE_VALUES
    case 33 => REMEDIATION_VALUES
    case 34 => NOTIFICATIONS_VALUES
    case 35 => NOTIFICATION_VALUES
    case 36 => MISSING_VALUES
    case 37 => RISK_VALUES
    case _ => []
  }

  ghost predicate IsVersion(v: string) {
    exists a: nat, b: nat, c: nat :: 1 <= a <= 5 && b <= 20 && c <= 99 && v == VersionText(a, b, c)
  }

  function VersionText(a: nat, b: nat, c: nat): string {
    Decimal(a) + ("." + Decimal(b) + "." + Decimal(c))
  }

  ghost predicate IsId(v: string) {
    exists n: nat :: 1000 <= n <= 9999 && v == Decimal(n)
  }

  /** `v` can be drawn for the key at position `k`. */
  ghost predicate IsValue(k: int, v: string) {
    if k == 0 then IsId(v) else if k == 12 then IsVersion(v) else v in ValuesOf(k)
  }

  ghost predicate KnownDraws(draws: Draws) {
    && BraceFreeDraws(draws)
    && forall k, n :: 0 <= k < |FILL_KEYS| ==> IsValue(k, draws(FILL_KEYS[k], n))
  }

  // ---- No value is part of an earlier key, but one ----

  predicate KeyChar(c: char) {
    c == '_' || 'a' <= c <= 'z'
  }

  /** At `i` begins one of a few groups of letters that no key up to `containment` has. */
  predicate MarkAt(s: string, i: int) {
    && 0 <= i < |s| - 1
    && match s[i]
       case 'c' => s[i + 1] == 'u' || s[i + 1] == 'r'
       case 'a' => s[i + 1] == 'r'
       case 'h' => s[i + 1] == 'i'
       case 'u' => s[i + 1] == 'm'
       case 'l' => s[i + 1] == 'o'
       case 'y' => s[i + 1] == 'e'
       case 'n' => s[i + 1] == 'o' || s[i + 1] == 'g'
       case 'i' => s[i + 1] == 'l' || s[i + 1] == 'r'
       case 'e' => s[i + 1] == 't' || (s[i + 1] == 'a' && i + 2 < |s| && s[i + 2] == 'n')
       case 's' => s[i + 1] == 's' && i + 2 < |s| && s[i + 2] == 'e'
       case 'o' => s[i + 1] == 'v' && i + 2 < |s| && s[i + 2] == 'e'
       case 'd' => s[i + 1] == 'a' && i + 3 < |s| && s[i + 2] == 't' && s[i + 3] == 'e'
       case _ => false
  }

  /** At `i` begins "ned", which of these keys only `contained` has. */
  predicate NedAt(s: string, i: int) {
    0 <= i < |s| - 2 && s[i] == 'n' && s[i + 1] == 'e' && s[i + 2] == 'd'
  }

  ghost predicate PlainKey(s: string) {
    forall i :: 0 <= i < |s| ==> KeyChar(s[i])
  }

  ghost predicate MarkFree(s: string) {
    forall i :: 0 <= i < |s| ==> !MarkAt(s, i)
  }

  ghost predicate NedFree(s: string) {
    forall i :: 0 <= i < |s| ==> !NedAt(s, i)
  }

  lemma ChangeKeysArePlain()
    ensures forall k :: 0 <= k < |CHANGE_KEYS| ==> PlainKey(CHANGE_KEYS[k])
  {
  }

  lemma CheckKeysArePlain()
    ensures forall k :: 0 <= k < |CHECK_KEYS| ==> PlainKey(CHECK_KEYS[k])
  {
  }

  lemma StatusKeysArePlain()
    ensures forall k :: 0 <= k < |STATUS_KEYS| ==> PlainKey(STATUS_KEYS[k])
  {
  }

  lemma OutcomeKeysArePlain()
    ensures forall k :: 0 <= k < |OUTCOME_KEYS| ==> PlainKey(OUTCOME_KEYS[k])
  {
  }

  lemma FirstChangeKeysAreMarkFree()
    ensures forall k :: 0 <= k < 3 ==> MarkFree(CHANGE_KEYS[k])
  {
  }

  lemma NextChangeKeysAreMarkFree()
    ensures forall k :: 3 <= k < 6 ==> MarkFree(CHANGE_KEYS[k])
  {
  }

  lemma LastChangeKeysAreMarkFree()
    ensures forall k :: 6 <= k < |CHANGE_KEYS| ==> MarkFree(CHANGE_KEYS[k])
  {
  }

  lemma ChangeKeysAreNedFree()
    ensures forall k :: 0 <= k < |CHANGE_KEYS| ==> NedFree(CHANGE_KEYS[k])
  {
  }

  lemma FirstCheckKeysAreMarkFree()
    ensures forall k :: 0 <= k < 3 ==> MarkFree(CHECK_KEYS[k])
  {
  }

  lemma NextCheckKeysAreMarkFree()
    ensures forall k :: 3 <= k < 6 ==> MarkFree(CHECK_KEYS[k])
  {
  }

  lemma LastCheckKeysAreMarkFree()
    ensures forall k :: 6 <= k < |CHECK_KEYS| ==> MarkFree(CHECK_KEYS[k])
  {
  }

  lemma CheckKeysAreNedFree()
    ensures forall k :: 0 <= k < |CHECK_KEYS| && k != 1 ==> NedFree(CHECK_KEYS[k])
  {
  }

  lemma FirstStatusKeysAreMarkFree()
    ensures forall k :: 0 <= k < 3 ==> MarkFree(STATUS_KEYS[k])
  {
  }

  lemma NextStatusKeysAreMarkFree()
    ensures forall k :: 3 <= k < 6 ==> MarkFree(STATUS_KEYS[k])
  {
  }

  lemma LastStatusKeysAreMarkFree()
    ensures forall k :: 6 <= k < |STATUS_KEYS| ==> MarkFree(STATUS_KEYS[k])
  {
  }

  lemma StatusKeysAreNedFree()
    ensures forall k :: 0 <= k < |STATUS_KEYS| ==> NedFree(STATUS_KEYS[k])
  {
  }

  const CONTAINED := 11
  const CONTAINMENT := 28

  lemma KeysArePlain(k: nat)
    requires k < |FILL_KEYS|
    ensures PlainKey(FILL_KEYS[k])
  {
    ChangeKeysArePlain();
    CheckKeysArePlain();
    StatusKeysArePlain();
    OutcomeKeysArePlain();
  }

  lemma EarlyKeysAreMarkFree(k: nat)
    requires k <= CONTAINMENT
    ensures MarkFree(FILL_KEYS[k]) && (k != CONTAINED ==> NedFree(FILL_KEYS[k]))
  {
    if k < 10 {
      FirstChangeKeysAreMarkFree();
      NextChangeKeysAreMarkFree();
      LastChangeKeysAreMarkFree();
      ChangeKeysAreNedFree();
    } else if k < 20 {
      FirstCheckKeysAreMarkFree();
      NextCheckKeysAreMarkFree();
      LastCheckKeysAreMarkFree();
      CheckKeysAreNedFree();
    } else {
      FirstStatusKeysAreMarkFree();
      NextStatusKeysAreMarkFree();
      LastStatusKeysAreMarkFree();
      StatusKeysAreNedFree();
    }
  }

  /** Some character of `v` is in no key, or some group of letters in none up to `containment`. */
  ghost predicate Strange(k: int, v: string) {
    exists p :: 0 <= p < |v| && StrangeCharAt(k, v, p)
  }

  predicate StrangeCharAt(k: int, v: string, p: nat)
    requires p < |v|
  {
    !KeyChar(v[p]) || (k <= CONTAINMENT && MarkAt(v, p))
  }

  lemma StrangeAt(k: int, v: string, p: nat)
    requires p < |v| && StrangeCharAt(k, v, p)
    ensures Strange(k, v)
  {
  }

  lemma WindowValuesAreStrange(v: string)
    ensures v in WINDOW_VALUES ==> Strange(1, v)
    ensures v in ROLLBACK_VALUES ==> Strange(2, v)
  {
    StrangeAt(1, WINDOW_VALUES[0], 0);
    StrangeAt(1, WINDOW_VALUES[1], 0);
    StrangeAt(1, WINDOW_VALUES[2], 0);
    StrangeAt(2, ROLLBACK_VALUES[0], 2);
    StrangeAt(2, ROLLBACK_VALUES[1], 3);
    StrangeAt(2, ROLLBACK_VALUES[2], 1);
  }

  lemma ImpactValuesAreStrange(v: string)
    ensures v in IMPACT_VALUES ==> Strange(3, v)
    ensures v in CLASSIFICATION_VALUES ==> Strange(4, v)
  {
    StrangeAt(3, IMPACT_VALUES[0], 0);
    StrangeAt(3, IMPACT_VALUES[1], 0);
    StrangeAt(3, IMPACT_VALUES[2], 0);
    StrangeAt(3, IMPACT_VALUES[3], 0);
    StrangeAt(4, CLASSIFICATION_VALUES[0], 0);
    StrangeAt(4, CLASSIFICATION_VALUES[1], 0);
    StrangeAt(4, CLASSIFICATION_VALUES[2], 4);
    StrangeAt(4, CLASSIFICATION_VALUES[3], 0);
  }

  lemma TestedValuesAreStrange(v: string)
    ensures v in TESTED_VALUES ==> Strange(5, v)
    ensures v in DURATION_VALUES ==> Strange(6, v)
  {
    StrangeAt(5, TESTED_VALUES[0], 0);
    StrangeAt(5, TESTED_VALUES[1], 0);
    StrangeAt(5, TESTED_VALUES[2], 1);
    StrangeAt(6, DURATION_VALUES[0], 0);
    StrangeAt(6, DURATION_VALUES[1], 0);
    StrangeAt(6, DURATION_VALUES[2], 0);
    StrangeAt(6, DURATION_VALUES[3], 0);
  }

  lemma UsersValuesAreStrange(v: string)
    ensures v in USERS_VALUES ==> Strange(7, v)
    ensures v in TRAFFIC_VALUES ==> Strange(8, v)
  {
    StrangeAt(7, USERS_VALUES[0], 0);
    StrangeAt(7, USERS_VALUES[1], 0);
    StrangeAt(7, USERS_VALUES[2], 0);
    StrangeAt(7, USERS_VALUES[3], 0);
    StrangeAt(8, TRAFFIC_VALUES[0], 0);
    StrangeAt(8, TRAFFIC_VALUES[1], 0);
    StrangeAt(8, TRAFFIC_VALUES[2], 0);
  }

  lemma DegradationValuesAreStrange(v: string)
    ensures v in DEGRADATION_VALUES ==> Strange(9, v)
    ensures v in RECORDS_VALUES ==> Strange(10, v)
  {
    StrangeAt(9, DEGRADATION_VALUES[0], 0);
    StrangeAt(9, DEGRADATION_VALUES[1], 0);
    StrangeAt(9, DEGRADATION_VALUES[2], 0);
    StrangeAt(9, DEGRADATION_VALUES[3], 5);
    StrangeAt(10, RECORDS_VALUES[0], 0);
    StrangeAt(10, RECORDS_VALUES[1], 0);
    StrangeAt(10, RECORDS_VALUES[2], 0);
  }

  lemma ContainedValuesAreStrange(v: string)
    ensures v in CONTAINED_VALUES ==> Strange(11, v)
    ensures v in CI_STATUS_VALUES ==> Strange(13, v)
  {
    StrangeAt(11, CONTAINED_VALUES[0], 0);
    StrangeAt(11, CONTAINED_VALUES[1], 0);
    StrangeAt(11, CONTAINED_VALUES[2], 2);
    StrangeAt(13, CI_STATUS_VALUES[0], 2);
    StrangeAt(13, CI_STATUS_VALUES[1], 2);
    StrangeAt(13, CI_STATUS_VALUES[2], 3);
  }

  lemma ScanValuesAreStrange(v: string)
    ensures v in SCAN_STATUS_VALUES ==> Strange(14, v)
    ensures v in NIA_STATUS_VALUES ==> Strange(15, v)
  {
    StrangeAt(14, SCAN_STATUS_VALUES[0], 2);
    StrangeAt(14, SCAN_STATUS_VALUES[1], 0);
    StrangeAt(14, SCAN_STATUS_VALUES[2], 3);
    StrangeAt(15, NIA_STATUS_VALUES[0], 5);
    StrangeAt(15, NIA_STATUS_VALUES[1], 5);
    StrangeAt(15, NIA_STATUS_VALUES[2], 3);
  }

  lemma VendorValuesAreStrange(v: string)
    ensures v in VENDOR_VALUES ==> Strange(16, v)
    ensures v in TEST_STATUS_VALUES ==> Strange(17, v)
  {
    StrangeAt(16, VENDOR_VALUES[0], 0);
    StrangeAt(16, VENDOR_VALUES[1], 0);
    StrangeAt(16, VENDOR_VALUES[2], 0);
    StrangeAt(16, VENDOR_VALUES[3], 0);
    StrangeAt(17, TEST_STATUS_VALUES[0], 5);
    StrangeAt(17, TEST_STATUS_VALUES[1], 1);
    StrangeAt(17, TEST_STATUS_VALUES[2], 3);
  }

  lemma RollbackValuesAreStrange(v: string)
    ensures v in ROLLBACK_STATUS_VALUES ==> Strange(18, v)
    ensures v in RISK_LEVEL_VALUES ==> Strange(19, v)
    ensures v in READINESS_VALUES ==> Strange(20, v)
  {
    StrangeAt(18, ROLLBACK_STATUS_VALUES[0], 2);
    StrangeAt(18, ROLLBACK_STATUS_VALUES[1], 3);
    StrangeAt(19, RISK_LEVEL_VALUES[0], 0);
    StrangeAt(19, RISK_LEVEL_VALUES[1], 0);
    StrangeAt(19, RISK_LEVEL_VALUES[2], 0);
    StrangeAt(20, READINESS_VALUES[0], 0);
    StrangeAt(20, READINESS_VALUES[1], 0);
    StrangeAt(20, READINESS_VALUES[2], 0);
  }

  lemma ComplianceValuesAreStrange(v: string)
    ensures v in COMPLIANCE_VALUES ==> Strange(21, v)
    ensures v in APPROVAL_STATUS_VALUES ==> Strange(22, v)
  {
    StrangeAt(21, COMPLIANCE_VALUES[0], 0);
    StrangeAt(21, COMPLIANCE_VALUES[1], 0);
    StrangeAt(21, COMPLIANCE_VALUES[2], 0);
    StrangeAt(22, APPROVAL_STATUS_VALUES[0], 4);
    StrangeAt(22, APPROVAL_STATUS_VALUES[1], 5);
    StrangeAt(22, APPROVAL_STATUS_VALUES[2], 3);
  }

  lemma DriverValuesAreStrange(v: string)
    ensures v in DRIVER_VALUES ==> Strange(23, v)
    ensures v in VALIDATION_STATUS_VALUES ==> Strange(24, v)
  {
    StrangeAt(23, DRIVER_VALUES[0], 10);
    StrangeAt(23, DRIVER_VALUES[1], 4);
    StrangeAt(23, DRIVER_VALUES[2], 8);
    StrangeAt(24, VALIDATION_STATUS_VALUES[0], 4);
    StrangeAt(24, VALIDATION_STATUS_VALUES[1], 5);
    StrangeAt(24, VALIDATION_STATUS_VALUES[2], 3);
  }

  lemma TransactionValuesAreStrange(v: string)
    ensures v in TRANSACTIONS_VALUES ==> Strange(25, v)
    ensures v in VECTOR_VALUES ==> Strange(26, v)
  {
    StrangeAt(25, TRANSACTIONS_VALUES[0], 0);
    StrangeAt(25, TRANSACTIONS_VALUES[1], 0);
    StrangeAt(25, TRANSACTIONS_VALUES[2], 0);
    StrangeAt(26, VECTOR_VALUES[0], 1);
    StrangeAt(26, VECTOR_VALUES[1], 10);
    StrangeAt(26, VECTOR_VALUES[2], 4);
  }

  lemma ContainmentValuesAreStrange(v: string)
    ensures v in DATA_STATUS_VALUES ==> Strange(27, v)
    ensures v in CONTAINMENT_VALUES && v != "contained" ==> Strange(28, v)
  {
    StrangeAt(27, DATA_STATUS_VALUES[0], 2);
    StrangeAt(27, DATA_STATUS_VALUES[1], 5);
    StrangeAt(28, CONTAINMENT_VALUES[1], 2);
    StrangeAt(28, CONTAINMENT_VALUES[2], 3);
  }

  lemma ObligationValuesAreStrange(v: string)
    ensures v in OBLIGATIONS_VALUES ==> Strange(29, v)
    ensures v in EVIDENCE_VALUES ==> Strange(30, v)
    ensures v in RECOMMENDATION_VALUES ==> Strange(31, v)
    ensures v in TIMELINE_VALUES ==> Strange(32, v)
    ensures v in REMEDIATION_VALUES ==> Strange(33, v)
  {
    StrangeAt(29, OBLIGATIONS_VALUES[0], 0);
    StrangeAt(29, OBLIGATIONS_VALUES[1], 0);
    StrangeAt(29, OBLIGATIONS_VALUES[2], 0);
    StrangeAt(30, EVIDENCE_VALUES[0], 21);
    StrangeAt(30, EVIDENCE_VALUES[1], 17);
    StrangeAt(30, EVIDENCE_VALUES[2], 17);
    StrangeAt(31, RECOMMENDATION_VALUES[0], 0);
    StrangeAt(31, RECOMMENDATION_VALUES[1], 0);
    StrangeAt(31, RECOMMENDATION_VALUES[2], 0);
    StrangeAt(32, TIMELINE_VALUES[0], 0);
    StrangeAt(32, TIMELINE_VALUES[1], 0);
    StrangeAt(33, REMEDIATION_VALUES[0], 0);
    StrangeAt(33, REMEDIATION_VALUES[1], 0);
    StrangeAt(33, REMEDIATION_VALUES[2], 0);
  }

  lemma NotificationValuesAreStrange(v: string)
    ensures v in NOTIFICATIONS_VALUES ==> Strange(34, v)
    ensures v in NOTIFICATION_VALUES ==> Strange(35, v)
    ensures v in MISSING_VALUES ==> Strange(36, v)
    ensures v in RISK_VALUES ==> Strange(37, v)
  {
    StrangeAt(34, NOTIFICATIONS_VALUES[0], 0);
    StrangeAt(34, NOTIFICATIONS_VALUES[1], 0);
    StrangeAt(35, NOTIFICATION_VALUES[0], 0);
    StrangeAt(35, NOTIFICATION_VALUES[1], 0);
    StrangeAt(35, NOTIFICATION_VALUES[2], 0);
    StrangeAt(36, MISSING_VALUES[0], 15);
    StrangeAt(36, MISSING_VALUES[1], 17);
    StrangeAt(36, MISSING_VALUES[2], 20);
    StrangeAt(37, RISK_VALUES[0], 0);
    StrangeAt(37, RISK_VALUES[1], 0);
    StrangeAt(37, RISK_VALUES[2], 0);
  }

  lemma DecimalIsStrange(k: int, n: nat, rest: string)
    ensures Strange(k, Decimal(n) + rest)
  {
    DigitsAreDigits(n);
    var v := Decimal(n) + rest;
    assert v[0] == Digits(n)[0] && DigitChar(Digits(n)[0]);
    StrangeAt(k, v, 0);
  }

  lemma EarlyValueIsStrange(k: int, v: string)
    requires 1 <= k < 14 && k != 12 && v in ValuesOf(k)
    ensures Strange(k, v)
  {
    if k < 3 {
      WindowValuesAreStrange(v);
    } else if k < 5 {
      ImpactValuesAreStrange(v);
    } else if k < 7 {
      TestedValuesAreStrange(v);
    } else if k < 9 {
      UsersValuesAreStrange(v);
    } else if k < 11 {
      DegradationValuesAreStrange(v);
    } else {
      ContainedValuesAreStrange(v);
    }
  }

  lemma MiddleValueIsStrange(k: int, v: string)
    requires 14 <= k < 25 && v in ValuesOf(k)
    ensures Strange(k, v)
  {
    if k < 16 {
      ScanValuesAreStrange(v);
    } else if k < 18 {
      VendorValuesAreStrange(v);
    } else if k < 21 {
      RollbackValuesAreStrange(v);
    } else if k < 23 {
      ComplianceValuesAreStrange(v);
    } else {
      DriverValuesAreStrange(v);
    }
  }

  lemma LateValueIsStrange(k: int, v: string)
    requires 25 <= k < 38 && (k == CONTAINMENT ==> v != "contained") && v in ValuesOf(k)
    ensures Strange(k, v)
  {
    if k < 27 {
      TransactionValuesAreStrange(v);
    } else if k < 29 {
      ContainmentValuesAreStrange(v);
    } else if k < 34 {
      ObligationValuesAreStrange(v);
    } else {
      NotificationValuesAreStrange(v);
    }
  }

  lemma ListedValueIsStrange(k: int, v: string)
    requires 0 < k < |FILL_KEYS| && k != 12 && v in ValuesOf(k) && (k == CONTAINMENT ==> v != "contained")
    ensures Strange(k, v)
  {
    if k < 14 {
      EarlyValueIsStrange(k, v);
    } else if k < 25 {
      MiddleValueIsStrange(k, v);
    } else {
      LateValueIsStrange(k, v);
    }
  }

  lemma IdIsStrange(v: string)
    requires IsId(v)
    ensures Strange(0, v)
  {
    var n: nat :| 1000 <= n <= 9999 && v == Decimal(n);
    DecimalIsStrange(0, n, "");
    assert Decimal(n) + "" == v;
  }

  lemma VersionIsStrange(v: string)
    requires IsVersion(v)
    ensures Strange(12, v)
  {
    var a: nat, b: nat, c: nat :| 1 <= a <= 5 && b <= 20 && c <= 99 && v == VersionText(a, b, c);
    DecimalIsStrange(12, a, "." + Decimal(b) + "." + Decimal(c));
  }

  lemma ValueIsStrange(k: int, v: string)
    requires 0 <= k < |FILL_KEYS| && IsValue(k, v) && (k == CONTAINMENT ==> v != "contained")
    ensures Strange(k, v)
  {
    if k == 0 {
      IdIsStrange(v);
    } else if k == 12 {
      VersionIsStrange(v);
    } else {
      ListedValueIsStrange(k, v);
    }
  }

  /** What is strange in a value is strange in every text it is part of. */
  lemma StrangeCarries(k: int, v: string, key: string, q: int)
    requires Strange(k, v) && OccursAt(v, key, q)
    ensures Strange(k, key)
  {
    var p :| 0 <= p < |v| && StrangeCharAt(k, v, p);
    assert forall m :: 0 <= m < |v| ==> key[q + m] == key[q..q + |v|][m] == v[m];
    StrangeAt(k, key, q + p);
  }

  lemma StrangeMisses(k: int, v: string, key: string)
    requires Strange(k, v) && PlainKey(key) && (k <= CONTAINMENT ==> MarkFree(key))
    ensures !Occurs(v, key)
  {
    if q :| 0 <= q <= |key| && OccursAt(v, key, q) {
      StrangeCarries(k, v, key, q);
    }
  }

  lemma ContainedCarries(key: string, q: int)
    requires OccursAt("contained", key, q)
    ensures NedAt(key, q + 6)
  {
    var v := "contained";
    assert key[q + 6] == key[q..q + |v|][6] && key[q + 7] == key[q..q + |v|][7] && key[q + 8] == key[q..q + |v|][8];
  }

  lemma ContainedMisses(key: string)
    requires NedFree(key)
    ensures !Occurs("contained", key)
  {
    if q :| 0 <= q <= |key| && OccursAt("contained", key, q) {
      ContainedCarries(key, q);
    }
  }

  /** What is special about the table: a value is part of an earlier key, or of `containment`, only when it is
      "contained" and the key is `contained`. */
  lemma ValueMisses(k: nat, v: string, j: nat)
    requires k < |FILL_KEYS| && IsValue(k, v) && (j < k || j == CONTAINMENT) && j < |FILL_KEYS|
    ensures Occurs(v, FILL_KEYS[j]) ==> k == CONTAINMENT && v == "contained" && j == CONTAINED
  {
    KeysArePlain(j);
    if k == CONTAINMENT && v == "contained" {
      EarlyKeysAreMarkFree(j);
      if j != CONTAINED {
        ContainedMisses(FILL_KEYS[j]);
      }
    } else {
      ValueIsStrange(k, v);
      if k <= CONTAINMENT {
        EarlyKeysAreMarkFree(j);
      }
      StrangeMisses(k, v, FILL_KEYS[j]);
    }
  }

  // ---- Draws exist ----

  /** The position of a key, told from its length and first characters. */
  function KeyIndex(s: string): int {
    if s == "" then -1
    else
      match |s|
      case 2 => 0
      case 4 => 37
      case 5 => 7
      case 6 => if s[0] == 'w' then 1 else if s[0] == 'i' then 3 else if s[0] == 't' then 5
        else if s[0] == 'v' then (if s[2] == 'n' then 16 else 26) else 23
      case 7 => if s[0] == 't' then 8 else if s[0] == 'r' then 10 else if s[0] == 'v' then 12 else 36
      case 8 => if s[0] == 'r' then 2 else if s[0] == 'd' then 6 else if s[0] == 'e' then 30 else 32
      case 9 => if s[0] == 'c' then (if s[1] == 'o' then 11 else 13) else 20
      case 10 => if s[0] == 'n' then 15 else if s[0] == 'r' then 19 else 21
      case 11 => if s[0] == 'd' then (if s[1] == 'e' then 9 else 27) else if s[0] == 's' then 14
        else if s[0] == 't' then 17 else if s[0] == 'c' then 28 else if s[0] == 'o' then 29 else 33
      case 12 => if s[0] == 't' then 25 else 35
      case 13 => 34
      case 14 => if s[0] == 'c' then 4 else 31
      case 15 => if s[0] == 'r' then 18 else 22
      case 17 => 24
      case _ => -1
  }

  lemma ChangeKeysAreIndexed()
    ensures forall k :: 0 <= k < |CHANGE_KEYS| ==> KeyIndex(CHANGE_KEYS[k]) == k
  {
  }

  lemma CheckKeysAreIndexed()
    ensures forall k :: 0 <= k < |CHECK_KEYS| ==> KeyIndex(CHECK_KEYS[k]) == 10 + k
  {
  }

  lemma StatusKeysAreIndexed()
    ensures forall k :: 0 <= k < |STATUS_KEYS| ==> KeyIndex(STATUS_KEYS[k]) == 20 + k
  {
  }

  lemma OutcomeKeysAreIndexed()
    ensures forall k :: 0 <= k < |OUTCOME_KEYS| ==> KeyIndex(OUTCOME_KEYS[k]) == 29 + k
  {
  }

  lemma KeyIndexIsPosition(k: nat)
    requires k < |FILL_KEYS|
    ensures KeyIndex(FILL_KEYS[k]) == k
  {
    ChangeKeysAreIndexed();
    CheckKeysAreIndexed();
    StatusKeysAreIndexed();
    OutcomeKeysAreIndexed();
  }

  lemma KeysAreDistinct()
    ensures Distinct(FILL_KEYS)
  {
    forall i, j | 0 <= i < j < |FILL_KEYS|
      ensures FILL_KEYS[i] != FILL_KEYS[j]
    {
      KeyIndexIsPosition(i);
      KeyIndexIsPosition(j);
    }
  }

  function FirstValue(k: int): string {
    if k == 0 then Decimal(1000) else if k == 12 then VersionText(1, 0, 0)
    else if ValuesOf(k) == [] then "" else ValuesOf(k)[0]
  }

  lemma FirstWindowValuesAreBraceFree()
    ensures BraceFree(WINDOW_VALUES[0])
    ensures BraceFree(ROLLBACK_VALUES[0])
    ensures BraceFree(IMPACT_VALUES[0])
    ensures BraceFree(CLASSIFICATION_VALUES[0])
  {
  }

  lemma FirstTestedValuesAreBraceFree()
    ensures BraceFree(TESTED_VALUES[0])
    ensures BraceFree(DURATION_VALUES[0])
    ensures BraceFree(USERS_VALUES[0])
    ensures BraceFree(TRAFFIC_VALUES[0])
    ensures BraceFree(DEGRADATION_VALUES[0])
    ensures BraceFree(RECORDS_VALUES[0])
  {
  }

  lemma FirstContainedValuesAreBraceFree()
    ensures BraceFree(CONTAINED_VALUES[0])
    ensures BraceFree(CI_STATUS_VALUES[0])
    ensures BraceFree(SCAN_STATUS_VALUES[0])
    ensures BraceFree(NIA_STATUS_VALUES[0])
    ensures BraceFree(VENDOR_VALUES[0])
    ensures BraceFree(TEST_STATUS_VALUES[0])
  {
  }

  lemma FirstRollbackValuesAreBraceFree()
    ensures BraceFree(ROLLBACK_STATUS_VALUES[0])
    ensures BraceFree(RISK_LEVEL_VALUES[0])
    ensures BraceFree(READINESS_VALUES[0])
    ensures BraceFree(COMPLIANCE_VALUES[0])
    ensures BraceFree(APPROVAL_STATUS_VALUES[0])
    ensures BraceFree(DRIVER_VALUES[0])
  {
  }

  lemma FirstValidationValuesAreBraceFree()
    ensures BraceFree(VALIDATION_STATUS_VALUES[0])
    ensures BraceFree(TRANSACTIONS_VALUES[0])
    ensures BraceFree(VECTOR_VALUES[0])
    ensures BraceFree(DATA_STATUS_VALUES[0])
    ensures BraceFree(CONTAINMENT_VALUES[0])
  {
  }

  lemma FirstObligationIsBraceFree()
    ensures BraceFree(OBLIGATIONS_VALUES[0])
  {
  }

  lemma FirstEvidenceIsBraceFree()
    ensures BraceFree(EVIDENCE_VALUES[0])
  {
  }

  lemma FirstRecommendationIsBraceFree()
    ensures BraceFree(RECOMMENDATION_VALUES[0])
  {
  }

  lemma BraceFreeJoin(a: string, b: string)
    requires BraceFree(a) && BraceFree(b)
    ensures BraceFree(a + b)
  {
  }

  lemma TimelineStartIsBraceFree()
    ensures BraceFree("- 24 hours: early warning\n- " + "72 hours: full ")
  {
  }

  lemma TimelineEndIsBraceFree()
    ensures BraceFree("notification\n- 1 month: " + "final report")
  {
  }

  lemma FirstTimelineIsBraceFree()
    ensures BraceFree(TIMELINE_VALUES[0])
  {
    var a, b := "- 24 hours: early warning\n- " + "72 hours: full ", "notification\n- 1 month: " + "final report";
    TimelineStartIsBraceFree();
    TimelineEndIsBraceFree();
    BraceFreeJoin(a, b);
    assert TIMELINE_VALUES[0] == a + b;
  }

  lemma FirstRemediationIsBraceFree()
    ensures BraceFree(REMEDIATION_VALUES[0])
  {
  }

  lemma FirstNotificationsIsBraceFree()
    ensures BraceFree(NOTIFICATIONS_VALUES[0])
  {
  }

  lemma FirstNotificationIsBraceFree()
    ensures BraceFree(NOTIFICATION_VALUES[0])
  {
  }

  lemma FirstClosingValuesAreBraceFree()
    ensures BraceFree(MISSING_VALUES[0]) && BraceFree(RISK_VALUES[0])
  {
  }

  lemma DecimalIsBraceFree(n: nat)
    ensures BraceFree(Decimal(n))
  {
    DigitsAreDigits(n);
  }

  lemma FirstValueIsBraceFree(k: int)
    ensures BraceFree(FirstValue(k))
  {
    FirstWindowValuesAreBraceFree();
    FirstTestedValuesAreBraceFree();
    FirstContainedValuesAreBraceFree();
    FirstRollbackValuesAreBraceFree();
    FirstValidationValuesAreBraceFree();
    FirstObligationIsBraceFree();
    FirstEvidenceIsBraceFree();
    FirstRecommendationIsBraceFree();
    FirstTimelineIsBraceFree();
    FirstRemediationIsBraceFree();
    FirstNotificationsIsBraceFree();
    FirstNotificationIsBraceFree();
    FirstClosingValuesAreBraceFree();
    DecimalIsBraceFree(1000);
    DecimalIsBraceFree(1);
    DecimalIsBraceFree(0);
  }

  /** The first value of every key; a containment status is the first of its values, "contained". */
  function AlwaysContained(): Draws {
    (key: string, n: nat) => FirstValue(KeyIndex(key))
  }

  lemma AlwaysContainedIsKnown()
    ensures KnownDraws(AlwaysContained())
    ensures forall m :: AlwaysContained()(FILL_KEYS[CONTAINMENT], m) == FILL_KEYS[CONTAINED]
  {
    forall key, n
      ensures BraceFree(AlwaysContained()(key, n))
    {
      FirstValueIsBraceFree(KeyIndex(key));
    }
    forall k, n | 0 <= k < |FILL_KEYS|
      ensures IsValue(k, AlwaysContained()(FILL_KEYS[k], n))
    {
      KeyIndexIsPosition(k);
      FirstValueIsValue(k);
    }
    KeyIndexIsPosition(CONTAINMENT);
  }

  lemma FirstValueIsValue(k: nat)
    requires k < |FILL_KEYS|
    ensures IsValue(k, FirstValue(k))
  {
  }
}
