/** Typed key records with a fixed list of known names and a dictionary of custom ones: correlation keys and
    external references. */
module KeyRecords {
  import opened Foundation
  import opened Sequences

  const CORRELATION_NAMES := ["contract_ref", "work_order_ref", "incident_ref", "invoice_ref"]
  const EXTERNAL_NAMES := ["crm_id", "erp_id", "billing_system_id", "field_system_id"]

  type Dict = map<string, string>

  /** One optional value per known name, in the order of the names. */
  datatype KeyRecord = KeyRecord(fields: seq<Option<string>>, custom: Dict)

  ghost predicate Fits(names: seq<string>, k: KeyRecord) {
    Distinct(names) && |k.fields| == |names|
  }

  /** `d` holds exactly the truthy fields among the first `n`. */
  ghost predicate HoldsFields(d: Dict, names: seq<string>, k: KeyRecord, n: nat)
    requires Fits(names, k) && n <= |names|
  {
    && (forall i :: 0 <= i < n ==>
      && (names[i] in d <==> Truthy(k.fields[i]))
      && (Truthy(k.fields[i]) ==> d[names[i]] == k.fields[i].value))
    && (forall key :: key in d ==> key in names[..n])
  }

  predicate Truthy(v: Option<string>) {
    v.Some? && v.value != ""
  }

  ghost predicate IsAsDict(d: Dict, names: seq<string>, k: KeyRecord)
    requires Fits(names, k)
  {
    && (forall key :: key in k.custom ==> key in d && d[key] == k.custom[key])
    && (forall i :: 0 <= i < |names| && names[i] !in k.custom ==>
      (names[i] in d <==> Truthy(k.fields[i])) && (Truthy(k.fields[i]) ==> d[names[i]] == k.fields[i].value))
    && (forall key :: key in d ==> key in k.custom || key in names)
  }

  method AsDict(names: seq<string>, k: KeyRecord) returns (d: Dict)
    requires Fits(names, k)
    ensures IsAsDict(d, names, k)
  {
    d := map[];
    for i := 0 to |names|
      invariant HoldsFields(d, names, k, i)
    {
      assert names[..i + 1] == names[..i] + [names[i]];
      if k.fields[i].Some? && k.fields[i].value != "" {
        d := d[names[i] := k.fields[i].value];
      }
    }
    assert names[..|names|] == names;
    d := d + k.custom;
  }

  function Lookup(d: Dict, key: string): Option<string> {
    if key in d then Some(d[key]) else None
  }

  function FromDict(names: seq<string>, d: Dict): KeyRecord {
    KeyRecord(seq(|names|, i requires 0 <= i < |names| => Lookup(d, names[i])),
              map key | key in d && key !in names :: d[key])
  }

  /** Reading a dictionary and writing it back is the identity exactly when no known name maps to the empty string. */
  lemma ReadThenWriteIff(names: seq<string>, d: Dict, written: Dict)
    requires Distinct(names) && IsAsDict(written, names, FromDict(names, d))
    ensures written == d <==> forall i :: 0 <= i < |names| && names[i] in d ==> d[names[i]] != ""
  {
    var k := FromDict(names, d);
    forall i | 0 <= i < |names|
      ensures names[i] in written <==> names[i] in d && d[names[i]] != ""
      ensures names[i] in written ==> written[names[i]] == d[names[i]]
    {
      assert names[i] !in k.custom && k.fields[i] == Lookup(d, names[i]);
    }
    forall key | key !in names
      ensures key in written <==> key in d
      ensures key in d ==> written[key] == d[key]
    {
      assert key in k.custom <==> key in d;
    }
  }

  /** Writing a record and reading it back is the identity exactly when no custom key uses a known name and no field
      is an empty string. */
  lemma WriteThenReadIff(names: seq<string>, k: KeyRecord, written: Dict)
    requires Fits(names, k) && IsAsDict(written, names, k)
    ensures FromDict(names, written) == k <==>
      && (forall i :: 0 <= i < |names| ==> names[i] !in k.custom)
      && (forall i :: 0 <= i < |names| ==> k.fields[i] != Some(""))
  {
    var back := FromDict(names, written);
    if (forall i :: 0 <= i < |names| ==> names[i] !in k.custom)
        && (forall i :: 0 <= i < |names| ==> k.fields[i] != Some("")) {
      forall i | 0 <= i < |names|
        ensures back.fields[i] == k.fields[i]
      {
        assert names[i] in written <==> Truthy(k.fields[i]);
      }
      assert back.custom == k.custom;
      assert back.fields == k.fields;
    }
    if back == k {
      forall i | 0 <= i < |names|
        ensures names[i] !in k.custom && k.fields[i] != Some("")
      {
        assert back.fields[i] == Lookup(written, names[i]);
      }
    }
  }

  /** The four known names of correlation keys ... */
  lemma CorrelationFields(d: Dict)
    ensures FromDict(CORRELATION_NAMES, d).fields
      == [Lookup(d, "contract_ref"), Lookup(d, "work_order_ref"), Lookup(d, "incident_ref"), Lookup(d, "invoice_ref")]
    ensures forall key :: key in FromDict(CORRELATION_NAMES, d).custom <==>
      key in d && key !in {"contract_ref", "work_order_ref", "incident_ref", "invoice_ref"}
  {
  }

  /** ... and of external references; every other key is custom. */
  lemma ExternalFields(d: Dict)
    ensures FromDict(EXTERNAL_NAMES, d).fields
      == [Lookup(d, "crm_id"), Lookup(d, "erp_id"), Lookup(d, "billing_system_id"), Lookup(d, "field_system_id")]
    ensures forall key :: key in FromDict(EXTERNAL_NAMES, d).custom <==>
      key in d && key !in {"crm_id", "erp_id", "billing_system_id", "field_system_id"}
  {
  }

  lemma KnownNamesAreDistinct()
    ensures Distinct(CORRELATION_NAMES) && Distinct(EXTERNAL_NAMES)
  {
    var c, e := CORRELATION_NAMES, EXTERNAL_NAMES;
    assert |c[0]| == 12 && |c[1]| == 14 && |c[2]| == 12 && |c[3]| == 11 && c[0][0] == 'c' && c[2][0] == 'i';
    assert |e[0]| == 6 && |e[1]| == 6 && |e[2]| == 17 && |e[3]| == 15 && e[0][0] == 'c' && e[1][0] == 'e';
  }
}
