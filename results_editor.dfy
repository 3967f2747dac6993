/**
 * The results editor (frontend/components/ResultsEditor.tsx): one input per
 * configured field over a map of extracted values, and the single-key edit
 * it makes when an input changes.
 */
module ResultsEditor {
  import opened JsValues
  import opened Fields

  /** `handleFieldChange`: `{...data, [fieldName]: value}`. */
  function FieldChange(data: map<string, JsValue>, fieldName: string, value: JsValue): (r: map<string, JsValue>)
    ensures fieldName in r && r[fieldName] == value
    ensures r.Keys == data.Keys + {fieldName}
    ensures forall k :: k in data && k != fieldName ==> r[k] == data[k]
  {
    data[fieldName := value]
  }

  /** The input's `value={data[field.name] || ''}`. */
  function DisplayValue(data: map<string, JsValue>, fieldName: string): (v: JsValue)
    ensures Truthy(Get(data, fieldName)) ==> v == data[fieldName]
    ensures !Truthy(Get(data, fieldName)) ==> v == Str("")
  {
    Or(Get(data, fieldName), Str(""))
  }

  /** The input's `type`: `number` for number fields, `text` for every other type. */
  function InputType(f: FieldDefinition): (t: string)
    ensures t == "number" <==> f.fieldType == "number"
    ensures t == "number" || t == "text"
  {
    if f.fieldType == "number" then "number" else "text"
  }

  /** One rendered input: its field name, hint, type and value. */
  datatype Input = Input(name: string, hint: string, inputType: string, value: JsValue)

  /** What the editor shows: the placeholder, or the inputs. */
  datatype View = Placeholder | Inputs(inputs: seq<Input>)

  function InputFor(data: map<string, JsValue>, f: FieldDefinition): Input {
    Input(f.name, f.description, InputType(f), DisplayValue(data, f.name))
  }

  /** `fields.map(field => <input …>)`. */
  function RenderInputs(data: map<string, JsValue>, fields: seq<FieldDefinition>): (inputs: seq<Input>)
    ensures |inputs| == |fields|
    ensures forall i :: 0 <= i < |fields| ==> inputs[i].name == fields[i].name && inputs[i] == InputFor(data, fields[i])
    decreases |fields|
  {
    if fields == [] then [] else [InputFor(data, fields[0])] + RenderInputs(data, fields[1..])
  }

  /** The placeholder when `Object.keys(data).length === 0`, else one input per field. */
  function Render(data: map<string, JsValue>, fields: seq<FieldDefinition>): (v: View)
    ensures v.Placeholder? <==> |data| == 0
    ensures v.Inputs? ==> |v.inputs| == |fields|
    ensures v.Inputs? ==> forall i :: 0 <= i < |fields| ==> v.inputs[i] == InputFor(data, fields[i])
  {
    if |data| == 0 then Placeholder else Inputs(RenderInputs(data, fields))
  }

  /** Two value maps that agree on the configured names render the same inputs. */
  lemma RenderIgnoresOtherKeys(d1: map<string, JsValue>, d2: map<string, JsValue>, fields: seq<FieldDefinition>)
    requires |d1| > 0 && |d2| > 0
    requires forall i :: 0 <= i < |fields| ==> Get(d1, fields[i].name) == Get(d2, fields[i].name)
    ensures Render(d1, fields) == Render(d2, fields)
  {
    var r1, r2 := RenderInputs(d1, fields), RenderInputs(d2, fields);
    assert forall i :: 0 <= i < |fields| ==> r1[i] == r2[i];
  }

  /** Text typed into an input is exactly what that input shows next. */
  lemma EditIsDisplayed(data: map<string, JsValue>, fieldName: string, text: string)
    ensures DisplayValue(FieldChange(data, fieldName, Str(text)), fieldName) == Str(text)
  {
  }

  /** An edit leaves every other input as it was. */
  lemma EditKeepsOtherInputs(data: map<string, JsValue>, fieldName: string, value: JsValue, f: FieldDefinition)
    requires f.name != fieldName
    ensures InputFor(FieldChange(data, fieldName, value), f) == InputFor(data, f)
  {
  }

  /** After any edit there is data, so the editor shows its inputs. */
  lemma EditShowsInputs(data: map<string, JsValue>, fieldName: string, value: JsValue, fields: seq<FieldDefinition>)
    ensures Render(FieldChange(data, fieldName, value), fields).Inputs?
  {
    assert fieldName in FieldChange(data, fieldName, value);
  }
}
