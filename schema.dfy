/**
 * The pure parts of the single-file extraction page (frontend/app/page.tsx):
 * the JSON schema built from the field list, and the fallbacks that pick
 * the parsed text and the extracted data out of the two responses.
 */
module Schema {
  import opened JsValues
  import opened Fields

  /** One entry of the schema's `properties`. */
  datatype Property = Property(propertyType: string, description: string)

  /** `{type: 'object', properties, required}`. */
  datatype JsonSchema = JsonSchema(schemaType: string, properties: map<string, Property>, required: seq<string>)

  /** The wire type of a field: `number` stays `number`, every other type (`boolean` included) becomes `string`. */
  function PropertyOf(f: FieldDefinition): (p: Property)
    ensures p.propertyType == "number" <==> f.fieldType == "number"
    ensures p.propertyType == "number" || p.propertyType == "string"
    ensures p.description == f.description
  {
    Property(if f.fieldType == "number" then "number" else "string", f.description)
  }

  /** Field `i` is the last one carrying its name. */
  predicate IsLastWithName(fields: seq<FieldDefinition>, i: int)
    requires 0 <= i < |fields|
  {
    forall j :: i < j < |fields| ==> fields[j].name != fields[i].name
  }

  /** The set of names in a field list. */
  function NameSet(fields: seq<FieldDefinition>): set<string> {
    set i | 0 <= i < |fields| :: fields[i].name
  }

  /**
   * The `reduce` that fills `properties`: each field in turn writes its
   * entry, so a later field overwrites an earlier one of the same name.
   */
  function BuildProperties(fields: seq<FieldDefinition>): (props: map<string, Property>)
    ensures props.Keys == NameSet(fields)
    ensures forall i :: 0 <= i < |fields| && IsLastWithName(fields, i) ==>
      props[fields[i].name] == PropertyOf(fields[i])
    decreases |fields|
  {
    if fields == [] then map[]
    else
      var init, last := fields[..|fields| - 1], fields[|fields| - 1];
      NameSetSnoc(init, last);
      assert fields == init + [last];
      assert forall i :: 0 <= i < |init| ==> init[i] == fields[i];
      assert forall i :: 0 <= i < |init| && IsLastWithName(fields, i) ==>
        IsLastWithName(init, i) && fields[i].name != last.name;
      BuildProperties(init)[last.name := PropertyOf(last)]
  }

  lemma NameSetSnoc(init: seq<FieldDefinition>, last: FieldDefinition)
    ensures NameSet(init + [last]) == NameSet(init) + {last.name}
  {
    var fields := init + [last];
    forall n | n in NameSet(fields) ensures n in NameSet(init) + {last.name} {
      var i :| 0 <= i < |fields| && fields[i].name == n;
      if i < |init| { assert init[i] == fields[i]; }
    }
    forall n | n in NameSet(init) ensures n in NameSet(fields) {
      var i :| 0 <= i < |init| && init[i].name == n;
      assert fields[i] == init[i];
    }
    assert fields[|init|] == last;
  }

  /** The schema sent with the extraction request. */
  function BuildSchema(fields: seq<FieldDefinition>): (s: JsonSchema)
    ensures s.schemaType == "object"
    ensures s.required == Names(fields)
    ensures s.properties.Keys == NameSet(fields)
  {
    JsonSchema("object", BuildProperties(fields), Names(fields))
  }

  /** The position of the last field named `n`. */
  function LastIndexOf(fields: seq<FieldDefinition>, n: string): (i: nat)
    requires n in NameSet(fields)
    ensures i < |fields| && fields[i].name == n && IsLastWithName(fields, i)
    decreases |fields|
  {
    var init := fields[..|fields| - 1];
    if fields[|fields| - 1].name == n then |fields| - 1
    else
      assert n in NameSet(init) by {
        var k :| 0 <= k < |fields| && fields[k].name == n;
        assert init[k] == fields[k];
      }
      LastIndexOf(init, n)
  }

  /** Every key's entry is the wire form of the last field carrying that name. */
  lemma PropertiesFromLastField(fields: seq<FieldDefinition>)
    ensures forall n :: n in BuildProperties(fields) ==>
      BuildProperties(fields)[n] == PropertyOf(fields[LastIndexOf(fields, n)])
  {
    forall n | n in BuildProperties(fields)
      ensures BuildProperties(fields)[n] == PropertyOf(fields[LastIndexOf(fields, n)])
    {
      var i := LastIndexOf(fields, n);
      assert IsLastWithName(fields, i);
    }
  }

  lemma NameSetAppend(a: seq<FieldDefinition>, b: seq<FieldDefinition>)
    ensures NameSet(a + b) == NameSet(a) + NameSet(b)
  {
    var all := a + b;
    forall n | n in NameSet(all) ensures n in NameSet(a) + NameSet(b) {
      var i :| 0 <= i < |all| && all[i].name == n;
      if i >= |a| { assert b[i - |a|] == all[i]; }
    }
    forall n | n in NameSet(a) + NameSet(b) ensures n in NameSet(all) {
      if n in NameSet(a) {
        var i :| 0 <= i < |a| && a[i].name == n;
        assert all[i] == a[i];
      } else {
        var i :| 0 <= i < |b| && b[i].name == n;
        assert all[|a| + i] == b[i];
      }
    }
  }

  /**
   * Mandatory fields followed by user fields: `required` lists both name
   * lists in order, `properties` has a key for every name of either, and a
   * user field overrides a mandatory field of the same name.
   */
  lemma SchemaMerge(mandatory: seq<FieldDefinition>, user: seq<FieldDefinition>)
    ensures BuildSchema(mandatory + user).required == Names(mandatory) + Names(user)
    ensures BuildSchema(mandatory + user).properties.Keys == NameSet(mandatory) + NameSet(user)
    ensures forall i :: 0 <= i < |user| && IsLastWithName(user, i) ==>
      BuildSchema(mandatory + user).properties[user[i].name] == PropertyOf(user[i])
  {
    var all := mandatory + user;
    NamesAppend(mandatory, user);
    NameSetAppend(mandatory, user);
    forall i | 0 <= i < |user| && IsLastWithName(user, i)
      ensures IsLastWithName(all, |mandatory| + i) && all[|mandatory| + i] == user[i]
    {
      forall j | |mandatory| + i < j < |all| ensures all[j].name != all[|mandatory| + i].name {
        assert all[j] == user[j - |mandatory|];
      }
    }
  }

  /** Distinct names: as many names as fields. */
  lemma {:induction false} DistinctNameSetSize(fields: seq<FieldDefinition>)
    requires DistinctNames(fields)
    ensures |NameSet(fields)| == |fields|
    decreases |fields|
  {
    if fields != [] {
      var init, last := fields[..|fields| - 1], fields[|fields| - 1];
      assert fields == init + [last];
      assert DistinctNames(init);
      DistinctNameSetSize(init);
      NameSetSnoc(init, last);
      assert last.name !in NameSet(init) by {
        assert forall k :: 0 <= k < |init| ==> init[k].name != last.name;
      }
    }
  }

  /** With distinct names there is one property per field, holding that field's wire form. */
  lemma DistinctNamesSchema(fields: seq<FieldDefinition>)
    requires DistinctNames(fields)
    ensures |BuildSchema(fields).properties| == |fields|
    ensures forall i :: 0 <= i < |fields| ==>
      BuildSchema(fields).properties[fields[i].name] == PropertyOf(fields[i])
  {
    DistinctNameSetSize(fields);
    assert forall i :: 0 <= i < |fields| ==> IsLastWithName(fields, i);
  }

  /** Two fields with one name: the name is required twice and the second field's entry wins. */
  lemma DuplicateNameLastWins(a: FieldDefinition, b: FieldDefinition)
    requires a.name == b.name
    ensures BuildSchema([a, b]).required == [a.name, a.name]
    ensures BuildSchema([a, b]).properties == map[a.name := PropertyOf(b)]
  {
    assert [a, b][..1] == [a];
    assert [a][..0] == [];
  }

  /**
   * The mandatory waste-bill fields with the default streams: one property
   * per field, so none overwrites another, and each in its field's wire form.
   */
  lemma ConstantFieldsSchema(fields: seq<FieldDefinition>)
    requires fields == HardcodedFields + DefaultStreamFields
    ensures |BuildSchema(fields).properties| == 6
    ensures forall i :: 0 <= i < 6 ==> BuildSchema(fields).properties[fields[i].name] == PropertyOf(fields[i])
  {
    ConstantNamesDistinct();
    DistinctNamesSchema(fields);
  }

  /** `parseData.text || parseData.content || JSON.stringify(parseData)`; the serialisation is given. */
  function ParsedText(response: map<string, JsValue>, serialized: string): (t: JsValue)
    ensures Truthy(Get(response, "text")) ==> t == Get(response, "text")
    ensures !Truthy(Get(response, "text")) && Truthy(Get(response, "content")) ==> t == Get(response, "content")
    ensures !Truthy(Get(response, "text")) && !Truthy(Get(response, "content")) ==> t == Str(serialized)
  {
    Or(Get(response, "text"), Or(Get(response, "content"), Str(serialized)))
  }

  /** `extractData.data || extractData`: never falsy, since an object is truthy. */
  function ExtractedData(response: map<string, JsValue>): (d: JsValue)
    ensures Truthy(d)
    ensures Truthy(Get(response, "data")) ==> d == Get(response, "data")
    ensures !Truthy(Get(response, "data")) ==> d == Obj(response)
  {
    Or(Get(response, "data"), Obj(response))
  }
}
