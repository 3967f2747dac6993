/**
 * Field definitions (the `FieldDefinition` interface shared by the front
 * end) and the literal field lists of frontend/lib/constants.ts.
 */
module Fields {
  /** One field to extract: its name (also the schema key), a description and a type name. */
  datatype FieldDefinition = FieldDefinition(name: string, description: string, fieldType: string)

  /** `fields.map(f => f.name)`. */
  function Names(fields: seq<FieldDefinition>): (r: seq<string>)
    ensures |r| == |fields|
    ensures forall i :: 0 <= i < |fields| ==> r[i] == fields[i].name
    decreases |fields|
  {
    if fields == [] then [] else [fields[0].name] + Names(fields[1..])
  }

  /** No name occurs twice. */
  predicate DistinctNames(fields: seq<FieldDefinition>) {
    forall i, j :: 0 <= i < j < |fields| ==> fields[i].name != fields[j].name
  }

  lemma NamesAppend(a: seq<FieldDefinition>, b: seq<FieldDefinition>)
    ensures Names(a + b) == Names(a) + Names(b)
  {
    var l, r := Names(a + b), Names(a) + Names(b);
    assert |l| == |r|;
    forall i | 0 <= i < |l| ensures l[i] == r[i] {
      if i < |a| { assert (a + b)[i] == a[i]; } else { assert (a + b)[i] == b[i - |a|]; }
    }
  }

  /** `HARDCODED_FIELDS`: always extracted from waste bills. */
  const HardcodedFields: seq<FieldDefinition> := [
    FieldDefinition("start date", "Start date of reporting period", "string"),
    FieldDefinition("end date", "End date of reporting period", "string"),
    FieldDefinition("total", "Total volume", "number")
  ]

  /** `HARDCODED_FIELD_NAMES`. */
  const HardcodedFieldNames: seq<string> := ["start date", "end date", "total"]

  /** `DEFAULT_STREAM_FIELDS`: the default waste streams. */
  const DefaultStreamFields: seq<FieldDefinition> := [
    FieldDefinition("recycle", "Total volume of all recycling streams", "number"),
    FieldDefinition("compost", "Total volume of all compost streams", "number"),
    FieldDefinition("trash", "Total volume of all trash streams", "number")
  ]

  /** The name list agrees with the field list, in order. */
  lemma HardcodedNamesMatchFields()
    ensures Names(HardcodedFields) == HardcodedFieldNames
  {
  }

  /** Of the hardcoded fields, exactly `total` is number-typed. */
  lemma OnlyTotalIsNumeric()
    ensures forall f :: f in HardcodedFields ==> (f.fieldType == "number" <==> f.name == "total")
  {
  }

  /** Every default stream field is number-typed. */
  lemma StreamFieldsAreNumeric()
    ensures forall f :: f in DefaultStreamFields ==> f.fieldType == "number"
  {
  }

  /** The hardcoded and stream fields together never repeat a name. */
  lemma ConstantNamesDistinct()
    ensures DistinctNames(HardcodedFields + DefaultStreamFields)
  {
    var all := HardcodedFields + DefaultStreamFields;
    assert |all| == 6;
    assert all[0].name == "start date" && all[1].name == "end date" && all[2].name == "total";
    assert all[3].name == "recycle" && all[4].name == "compost" && all[5].name == "trash";
    // names of equal length differ in one character
    assert all[2].name[1] != all[5].name[1];
    assert all[3].name[0] != all[4].name[0];
  }
}
