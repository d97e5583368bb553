/** The free-form tag editor (`src/components/TagInput.tsx`). The tags belong
    to the parent, which receives every new list through `onTagsChange`;
    the editor keeps only the text being typed. */
module TagInput {
  import opened Wrappers
  import opened Text

  /** `addTag`'s new list: the trimmed input appended when it is not blank
      and not yet present; `None` when the parent is not notified. */
  function AddedTags(tags: seq<string>, input: string): (r: Option<seq<string>>)
    ensures r.Some? <==> Trim(input) != "" && Trim(input) !in tags
    ensures r.Some? ==> r.value == tags + [Trim(input)]
  {
    var t := Trim(input);
    if t != "" && t !in tags then Some(tags + [t]) else None
  }

  /** `removeTag(i)`: the list without the entry at index `i`; an index
      outside the list keeps every entry. */
  function RemoveIndex(tags: seq<string>, i: int): (r: seq<string>)
    ensures 0 <= i < |tags| ==>
      |r| == |tags| - 1 &&
      (forall j :: 0 <= j < i ==> r[j] == tags[j]) &&
      (forall j :: i <= j < |r| ==> r[j] == tags[j + 1])
    ensures !(0 <= i < |tags|) ==> r == tags
  {
    if 0 <= i < |tags| then tags[..i] + tags[i + 1..] else tags
  }

  /** Removing an index keeps the entries' multiset but for that one. */
  lemma RemoveIndexMultiset(tags: seq<string>, i: int)
    requires 0 <= i < |tags|
    ensures multiset(RemoveIndex(tags, i)) + multiset{tags[i]} == multiset(tags)
  {
    assert tags == tags[..i] + [tags[i]] + tags[i + 1..];
  }

  /** A tag that was just added is the last entry: Backspace on the empty
      input takes it away again. */
  lemma AddThenBackspace(tags: seq<string>, input: string)
    requires AddedTags(tags, input).Some?
    ensures var added := AddedTags(tags, input).value;
      RemoveIndex(added, |added| - 1) == tags
  {
    var added := AddedTags(tags, input).value;
    assert added[..|added| - 1] == tags;
  }

  class Editor {
    var inputValue: string

    constructor ()
      ensures inputValue == ""
    {
      inputValue := "";
    }

    method InputChanged(value: string)
      modifies this
      ensures inputValue == value
    {
      inputValue := value;
    }

    /** `handleInputKeyDown`. Enter or a comma adds the input as a tag and
        always clears the input; Backspace on an empty input removes the
        last tag (notifying the parent even when there is none); every other
        key leaves both alone. `notify` is the list passed to
        `onTagsChange`, if it is called. */
    method KeyDown(key: string, tags: seq<string>) returns (notify: Option<seq<string>>)
      modifies this
      ensures key == "Enter" || key == "," ==>
        notify == AddedTags(tags, old(inputValue)) && inputValue == ""
      ensures !(key == "Enter" || key == ",") && key == "Backspace" && old(inputValue) == "" ==>
        notify == Some(RemoveIndex(tags, |tags| - 1)) && inputValue == old(inputValue)
      ensures !(key == "Enter" || key == ",") && !(key == "Backspace" && old(inputValue) == "") ==>
        notify == None && inputValue == old(inputValue)
    {
      if key == "Enter" || key == "," {
        notify := AddedTags(tags, inputValue);
        inputValue := "";
      } else if key == "Backspace" && inputValue == "" {
        notify := Some(RemoveIndex(tags, |tags| - 1));
      } else {
        notify := None;
      }
    }

    /** Leaving the input adds it as a tag, as Enter does. */
    method Blurred(tags: seq<string>) returns (notify: Option<seq<string>>)
      modifies this
      ensures notify == AddedTags(tags, old(inputValue)) && inputValue == ""
    {
      notify := AddedTags(tags, inputValue);
      inputValue := "";
    }

    /** A tag's remove button. */
    method RemoveClicked(tags: seq<string>, i: int) returns (notify: seq<string>)
      ensures notify == RemoveIndex(tags, i)
    {
      notify := RemoveIndex(tags, i);
    }
  }

  /** A duplicate entry never notifies the parent, and the list handed over
      never holds a tag twice when the list given did not. */
  lemma AddedTagsKeepsDistinct(tags: seq<string>, input: string)
    requires forall i, j :: 0 <= i < j < |tags| ==> tags[i] != tags[j]
    ensures AddedTags(tags, input).Some? ==>
      var r := AddedTags(tags, input).value;
      forall i, j :: 0 <= i < j < |r| ==> r[i] != r[j]
  {
  }
}
