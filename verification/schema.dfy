/**
 * The list edits both schema editors perform on the ordered list of field
 * descriptors: `filter` by index to remove one, `map` by index with an object
 * spread to patch one.
 */
module Schema {
  import opened Types

  /**
   * `s.filter((_, i) => i !== index)` where the elements of `s` stand at positions
   * `from`, `from + 1`, ... of the whole list.
   */
  function FilterOutIndex<T>(s: seq<T>, index: int, from: int): (r: seq<T>)
    ensures from <= index < from + |s| ==> r == s[..index - from] + s[index - from + 1..]
    ensures !(from <= index < from + |s|) ==> r == s
  {
    if s == [] then []
    else
      var rest := FilterOutIndex(s[1..], index, from + 1);
      if from == index then rest
      else
        assert from + 1 <= index < from + |s| ==> s[1..][..index - from - 1] == s[1..index - from];
        [s[0]] + rest
  }

  /** `s.map((item, i) => i === index ? f(item) : item)` with positions from `from`. */
  function MapAtIndex<T>(s: seq<T>, index: int, f: T -> T, from: int): (r: seq<T>)
    ensures |r| == |s|
    ensures forall k :: 0 <= k < |s| ==> r[k] == if from + k == index then f(s[k]) else s[k]
  {
    if s == [] then []
    else [if from == index then f(s[0]) else s[0]] + MapAtIndex(s[1..], index, f, from + 1)
  }

  /**
   * removeField: the list without the element at `index`, the others in their
   * order; an index outside the list removes nothing.
   */
  function RemoveField(structure: seq<Field>, index: int): (r: seq<Field>)
    ensures 0 <= index < |structure| ==> |r| == |structure| - 1
    ensures 0 <= index < |structure| ==> r == structure[..index] + structure[index + 1..]
    ensures !(0 <= index < |structure|) ==> r == structure
  {
    FilterOutIndex(structure, index, 0)
  }

  /**
   * updateField: the element at `index` becomes itself overridden by the present
   * keys of `patch`; every other element, and the length, stay as they were.
   */
  function UpdateField(structure: seq<Field>, index: int, patch: Patch): (r: seq<Field>)
    ensures |r| == |structure|
    ensures 0 <= index < |structure| ==> r[index] == Merge(structure[index], patch)
    ensures forall k :: 0 <= k < |structure| && k != index ==> r[k] == structure[k]
    ensures !(0 <= index < |structure|) ==> r == structure
  {
    MapAtIndex(structure, index, f => Merge(f, patch), 0)
  }

  /** Applying the same patch to the same index twice is the same as applying it once. */
  lemma UpdateFieldIdempotent(structure: seq<Field>, index: int, patch: Patch)
    ensures UpdateField(UpdateField(structure, index, patch), index, patch) == UpdateField(structure, index, patch)
  {
    var once := UpdateField(structure, index, patch);
    var twice := UpdateField(once, index, patch);
    forall k | 0 <= k < |structure| ensures twice[k] == once[k] {
      if k == index {
        MergeIdempotent(structure[k], patch);
      }
    }
  }

  /** Patching one index then removing it is the same as removing it alone. */
  lemma RemoveAfterUpdate(structure: seq<Field>, index: int, patch: Patch)
    ensures RemoveField(UpdateField(structure, index, patch), index) == RemoveField(structure, index)
  {
    var u := UpdateField(structure, index, patch);
    if 0 <= index < |structure| {
      assert u[..index] == structure[..index];
      assert u[index + 1..] == structure[index + 1..];
    }
  }
}
