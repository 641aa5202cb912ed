/**
 * The file picker (`src/components/ui/FileInput.jsx`): the value it shows when the form
 * hands it something that is not a list, the list it passes on when files are picked, and
 * the list it passes on when one file is removed.
 */
module FileInput {
  import opened Wrappers

  /** `Array.isArray(value) ? value : []`; `None` stands for any value that is not an array. */
  function SafeValue<F>(value: Option<seq<F>>): (r: seq<F>)
    ensures value.Some? ==> r == value.value
    ensures value.None? ==> r == []
  {
    if value.Some? then value.value else []
  }

  /** `Array.from(e.target.files || [])`: what `onChange` receives when files are picked. */
  function PickedFiles<F>(files: Option<seq<F>>): (r: seq<F>)
    ensures files.Some? ==> r == files.value
    ensures files.None? ==> r == []
  {
    if files.Some? then files.value else []
  }

  /** `files.filter((_, i) => i !== index)`, over the first `|files|` positions. */
  function WithoutIndex<F>(files: seq<F>, index: int): seq<F>
    decreases |files|
  {
    if files == [] then []
    else WithoutIndex(files[..|files| - 1], index) + (if |files| - 1 != index then [files[|files| - 1]] else [])
  }

  /**
   * Removing position `index` keeps every other file in order: for an index in range the
   * list loses exactly that one file, and any other index leaves it unchanged.
   */
  lemma {:induction false} WithoutIndexSpec<F>(files: seq<F>, index: int)
    ensures 0 <= index < |files| ==> WithoutIndex(files, index) == files[..index] + files[index + 1..]
    ensures !(0 <= index < |files|) ==> WithoutIndex(files, index) == files
    decreases |files|
  {
    if files != [] {
      var init := files[..|files| - 1];
      WithoutIndexSpec(init, index);
      if 0 <= index < |files| - 1 {
        assert files[index + 1..] == init[index + 1..] + [files[|files| - 1]];
        assert init[..index] == files[..index];
      } else if index == |files| - 1 {
        assert files[..index] == init;
        assert files[index + 1..] == [];
      } else {
        assert init + [files[|files| - 1]] == files;
      }
    }
  }

  /**
   * `handleRemove(index)`: the list `onChange` receives, or nothing when there is no
   * `onChange`. The index also goes to `onRemove`, which this model does not follow.
   */
  function HandleRemove<F>(value: Option<seq<F>>, index: int, hasOnChange: bool): (r: Option<seq<F>>)
    ensures r.Some? <==> hasOnChange
    ensures r.Some? && 0 <= index < |SafeValue(value)| ==>
      r.value == SafeValue(value)[..index] + SafeValue(value)[index + 1..]
    ensures r.Some? && !(0 <= index < |SafeValue(value)|) ==> r.value == SafeValue(value)
  {
    WithoutIndexSpec(SafeValue(value), index);
    if hasOnChange then Some(WithoutIndex(SafeValue(value), index)) else None
  }

  /** Removing from a list that is not an array passes on the empty list. */
  lemma RemoveFromNonArray<F>(index: int)
    ensures HandleRemove<F>(None, index, true) == Some([])
  {
  }

  /** A removal shortens an in-range list by one and keeps the files on both sides in order. */
  lemma RemoveShortens<F>(files: seq<F>, index: int)
    requires 0 <= index < |files|
    ensures |HandleRemove(Some(files), index, true).value| == |files| - 1
    ensures forall k :: 0 <= k < index ==> HandleRemove(Some(files), index, true).value[k] == files[k]
    ensures forall k :: index <= k < |files| - 1 ==> HandleRemove(Some(files), index, true).value[k] == files[k + 1]
  {
  }
}
