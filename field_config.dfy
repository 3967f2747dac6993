/**
 * The field-configuration panel (frontend/components/FieldConfig.tsx): the
 * list handlers build a fresh list, the draft field and the expanded flag
 * are the panel's own state.
 */
module FieldConfig {
  import opened Fields

  /** The empty draft the panel starts with and returns to after an add. */
  const EmptyDraft: FieldDefinition := FieldDefinition("", "", "string")

  /** `handleAddField`'s guard: both name and description are non-empty. */
  predicate CanAdd(draft: FieldDefinition) {
    draft.name != "" && draft.description != ""
  }

  /** The add button's `disabled={!newField.name || !newField.description}`. */
  predicate AddDisabled(draft: FieldDefinition) {
    draft.name == "" || draft.description == ""
  }

  /** `[...fields, newField]` when the guard passes, else the list as it was. */
  function AddField(fields: seq<FieldDefinition>, draft: FieldDefinition): (r: seq<FieldDefinition>)
    ensures CanAdd(draft) ==> |r| == |fields| + 1 && r[..|fields|] == fields && r[|fields|] == draft
    ensures !CanAdd(draft) ==> r == fields
  {
    if CanAdd(draft) then fields + [draft] else fields
  }

  /** `fields.filter((_, i) => i !== index)`. */
  function RemoveField(fields: seq<FieldDefinition>, index: int): (r: seq<FieldDefinition>)
    ensures 0 <= index < |fields| ==> r == fields[..index] + fields[index + 1..]
    ensures !(0 <= index < |fields|) ==> r == fields
    decreases |fields|
  {
    if fields == [] then []
    else (if index == 0 then [] else [fields[0]]) + RemoveField(fields[1..], index - 1)
  }

  /** Copy the list, then `newFields[index] = updatedField`. */
  function UpdateField(fields: seq<FieldDefinition>, index: int, updated: FieldDefinition): (r: seq<FieldDefinition>)
    requires 0 <= index < |fields|
    ensures |r| == |fields| && r[index] == updated
    ensures forall j :: 0 <= j < |fields| && j != index ==> r[j] == fields[j]
  {
    fields[index := updated]
  }

  /** The add button is disabled exactly when adding would leave the list as it is. */
  lemma AddDisabledIffNoChange(fields: seq<FieldDefinition>, draft: FieldDefinition)
    ensures AddDisabled(draft) <==> AddField(fields, draft) == fields
  {
    if CanAdd(draft) {
      assert |AddField(fields, draft)| != |fields|;
    }
  }

  /** Removing the field just added gives back the list before the add. */
  lemma RemoveUndoesAdd(fields: seq<FieldDefinition>, draft: FieldDefinition)
    requires CanAdd(draft)
    ensures RemoveField(AddField(fields, draft), |fields|) == fields
  {
    assert (fields + [draft])[..|fields|] == fields;
  }

  /** Removal keeps every other field: the multiset loses exactly the removed one. */
  lemma {:induction false} RemoveKeepsOthers(fields: seq<FieldDefinition>, index: int)
    requires 0 <= index < |fields|
    ensures multiset(RemoveField(fields, index)) + multiset{fields[index]} == multiset(fields)
  {
    var a, b := fields[..index], fields[index + 1..];
    assert RemoveField(fields, index) == a + b;
    SplitMultiset(a, fields[index], b);
    assert fields == a + [fields[index]] + b;
  }

  lemma SplitMultiset<T>(a: seq<T>, x: T, b: seq<T>)
    ensures multiset(a + [x] + b) == multiset(a + b) + multiset{x}
  {
  }

  /** Writing back a field's current value leaves the list as it is. */
  lemma UpdateWithSameIsIdentity(fields: seq<FieldDefinition>, index: int)
    requires 0 <= index < |fields|
    ensures UpdateField(fields, index, fields[index]) == fields
  {
  }

  /** The panel: the parent's field list, the draft and whether it is expanded. */
  class Panel {
    var fields: seq<FieldDefinition>
    var newField: FieldDefinition
    var isExpanded: bool

    constructor (initial: seq<FieldDefinition>)
      ensures fields == initial && newField == EmptyDraft && !isExpanded
    {
      fields := initial;
      newField := EmptyDraft;
      isExpanded := false;
    }

    /** `handleAddField`: append the draft and reset it, or do nothing. */
    method HandleAddField()
      modifies this
      ensures fields == AddField(old(fields), old(newField))
      ensures CanAdd(old(newField)) ==> newField == EmptyDraft
      ensures !CanAdd(old(newField)) ==> newField == old(newField)
      ensures isExpanded == old(isExpanded)
    {
      if newField.name != "" && newField.description != "" {
        fields := fields + [newField];
        newField := EmptyDraft;
      }
    }

    method HandleRemoveField(index: int)
      modifies this
      ensures fields == RemoveField(old(fields), index)
      ensures newField == old(newField) && isExpanded == old(isExpanded)
    {
      fields := RemoveField(fields, index);
    }

    method HandleUpdateField(index: int, updated: FieldDefinition)
      requires 0 <= index < |fields|
      modifies this
      ensures fields == UpdateField(old(fields), index, updated)
      ensures newField == old(newField) && isExpanded == old(isExpanded)
    {
      fields := UpdateField(fields, index, updated);
    }

    /** The draft inputs: `setNewField({...newField, name})` and its siblings. */
    method EditDraft(name: string, description: string, fieldType: string)
      modifies this
      ensures newField == FieldDefinition(name, description, fieldType)
      ensures fields == old(fields) && isExpanded == old(isExpanded)
    {
      newField := FieldDefinition(name, description, fieldType);
    }

    /** The header button: `setIsExpanded(!isExpanded)`. */
    method ToggleExpanded()
      modifies this
      ensures isExpanded == !old(isExpanded)
      ensures fields == old(fields) && newField == old(newField)
    {
      isExpanded := !isExpanded;
    }
  }
}
