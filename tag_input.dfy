/**
 * The chip-style tag editor: typing text and pressing Enter turns the
 * trimmed text into a new chip; each chip's button removes it. The tag list
 * belongs to the parent (read as a prop, written through `setTags`); the
 * component itself owns only the text being typed.
 */
module TagInputs {
  import opened Text

  /** `addTag`'s new list `[...tags, value]`: `value` appended after the unchanged old tags. */
  function AddTag(tags: seq<string>, value: string): (r: seq<string>)
    ensures |r| == |tags| + 1 && r[..|tags|] == tags && r[|tags|] == value
  {
    tags + [value]
  }

  /** What `Array.prototype.splice(index, 1)` leaves: element `index` gone, or nothing gone past the end. */
  function Removed(tags: seq<string>, index: nat): seq<string> {
    if index < |tags| then tags[..index] + tags[index + 1..] else tags
  }

  /**
   * `removeTag`'s new list: copy `tags` into a fresh array, then splice out
   * position `index` by shifting the later elements down one place.
   */
  method SpliceOut(tags: seq<string>, index: nat) returns (newTags: seq<string>)
    ensures newTags == Removed(tags, index)
    ensures index < |tags| ==> |newTags| == |tags| - 1
    ensures forall j :: 0 <= j < index && j < |tags| ==> newTags[j] == tags[j]
    ensures forall j :: index <= j < |newTags| && index < |tags| ==> newTags[j] == tags[j + 1]
  {
    var copy := new string[|tags|](i requires 0 <= i < |tags| => tags[i]);
    if index >= copy.Length {
      newTags := copy[..];
      return;
    }
    var j := index;
    while j + 1 < copy.Length
      invariant index <= j < copy.Length
      invariant forall k :: 0 <= k < index ==> copy[k] == tags[k]
      invariant forall k :: index <= k < j ==> copy[k] == tags[k + 1]
      invariant forall k :: j <= k < copy.Length ==> copy[k] == tags[k]
    {
      copy[j] := copy[j + 1];
      j := j + 1;
    }
    newTags := copy[..copy.Length - 1];
    assert newTags == tags[..index] + tags[index + 1..];
  }

  /** The text a successful Enter turns into a chip: non-empty, with no surrounding whitespace. */
  lemma KeyboardTagIsTrimmed(input: string)
    requires Trim(input) != ""
    ensures !IsWhitespace(Trim(input)[0]) && !IsWhitespace(Trim(input)[|Trim(input)| - 1])
    ensures Trim(Trim(input)) == Trim(input)
  {
    TrimIdempotent(input);
  }

  class TagInput {
    /** The parent's list, as last passed in and written back through `setTags`. */
    var tags: seq<string>
    /** `inputValue`: the text being typed. */
    var inputValue: string

    constructor (tags: seq<string>)
      ensures this.tags == tags && inputValue == ""
    {
      this.tags := tags;
      inputValue := "";
    }

    /** The text field's `onChange`. */
    method OnChange(value: string)
      modifies this`inputValue
      ensures inputValue == value
    {
      inputValue := value;
    }

    /**
     * `handleKeyDown`: Enter with non-blank text appends the trimmed text and
     * clears the field; any other key, or Enter on blank text, changes nothing.
     */
    method HandleKeyDown(key: string)
      modifies this
      ensures key == "Enter" && Trim(old(inputValue)) != "" ==>
                tags == old(tags) + [Trim(old(inputValue))] && inputValue == ""
      ensures !(key == "Enter" && Trim(old(inputValue)) != "") ==>
                tags == old(tags) && inputValue == old(inputValue)
    {
      if key == "Enter" && Trim(inputValue) != "" {
        tags := AddTag(tags, Trim(inputValue));
        inputValue := "";
      }
    }

    /** `removeTag(index)` as the chip's button calls it. */
    method RemoveTag(index: nat)
      modifies this`tags
      ensures tags == Removed(old(tags), index)
    {
      tags := SpliceOut(tags, index);
    }
  }
}
