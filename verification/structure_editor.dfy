/** The handlers of src/components/StructureEditor.tsx, each a new list handed to the parent's setter. */
module StructureEditor {
  import opened Wrappers
  import opened Types
  import Schema

  /** The descriptor `addField` appends: an empty name, type string, no description. */
  const BlankField := Field("", StringType, None)

  /** addField: one blank field at the end, every earlier field unchanged. */
  function AddField(structure: seq<Field>): (r: seq<Field>)
    ensures |r| == |structure| + 1
    ensures r[..|structure|] == structure
    ensures r[|structure|].name == "" && r[|structure|].dtype == StringType && r[|structure|].description.None?
  {
    structure + [BlankField]
  }

  /**
   * The type `<select>`: `updateField(index, { type: e.target.value as DataType })`.
   * The element only delivers the value of one of its options, each a type's name.
   */
  function SelectType(structure: seq<Field>, index: int, value: string): (r: seq<Field>)
    requires ParseTypeName(value).Some?
    ensures |r| == |structure|
    ensures 0 <= index < |structure| ==> r[index] == structure[index].(dtype := ParseTypeName(value).value)
    ensures forall k :: 0 <= k < |structure| && k != index ==> r[k] == structure[k]
  {
    Schema.UpdateField(structure, index, Patch(None, ParseTypeName(value), None))
  }

  /** Choosing the option written for type `t` gives the field type `t`, whatever it had. */
  lemma SelectTypeName(structure: seq<Field>, index: int, t: DataType)
    requires 0 <= index < |structure|
    ensures SelectType(structure, index, TypeName(t))[index].dtype == t
    ensures SelectType(structure, index, TypeName(t))[index].name == structure[index].name
  {
  }

  /** Removing the field just added at the end gives back the list as it was. */
  lemma RemoveUndoesAdd(structure: seq<Field>)
    ensures Schema.RemoveField(AddField(structure), |structure|) == structure
  {
    assert AddField(structure)[..|structure|] == structure;
  }

  /** Editing the name of the field just added leaves the earlier fields alone and names the new one. */
  lemma RenameAddedField(structure: seq<Field>, name: string)
    ensures var r := Schema.UpdateField(AddField(structure), |structure|, Patch(Some(name), None, None));
      r[..|structure|] == structure && r[|structure|] == Field(name, StringType, None)
  {
    var r := Schema.UpdateField(AddField(structure), |structure|, Patch(Some(name), None, None));
    assert forall k :: 0 <= k < |structure| ==> r[..|structure|][k] == structure[k];
  }
}
