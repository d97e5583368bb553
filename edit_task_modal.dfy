/** The task editing dialog of the tasks page (`src/components/edit-task-modal.tsx`):
    its fields, the tag editor that normalises and de-duplicates tags, the
    tag suggestions, and the record it saves. */
module EditTaskModal {
  import opened Wrappers
  import opened Text
  import opened Seqs
  import opened CivilDate
  import opened Tasks

  // ---------------------------------------------------------------------------
  // Tags.

  predicate IsTagChar(c: char)
  {
    'a' <= c <= 'z' || '0' <= c <= '9' || c == '-'
  }

  function TagChars(): char -> bool
  {
    (c: char) => IsTagChar(c)
  }

  /** `processTag`: lower-cased, with every character outside `[a-z0-9-]`
      dropped. */
  function ProcessTag(tag: string): (r: string)
    ensures forall i :: 0 <= i < |r| ==> IsTagChar(r[i])
    ensures |r| <= |tag|
    ensures (forall i :: 0 <= i < |tag| ==> IsTagChar(tag[i])) ==> r == tag
  {
    FilterTagChars(tag);
    Filter(ToLower(tag), TagChars())
  }

  lemma FilterTagChars(tag: string)
    ensures var r := Filter(ToLower(tag), TagChars());
      (forall i :: 0 <= i < |r| ==> IsTagChar(r[i])) &&
      ((forall i :: 0 <= i < |tag| ==> IsTagChar(tag[i])) ==> r == tag)
  {
    var lower := ToLower(tag);
    var r := Filter(lower, TagChars());
    FilterMembers(lower, TagChars());
    if forall i :: 0 <= i < |tag| ==> IsTagChar(tag[i]) {
      assert lower == tag;
      FilterAll(lower, TagChars());
    }
    assert forall i :: 0 <= i < |r| ==> r[i] in r;
  }

  /** Processing works character by character: a tag is processed piece by
      piece, and one character becomes its lower case when that is a tag
      character and disappears otherwise. */
  lemma ProcessTagAppend(a: string, b: string)
    ensures ProcessTag(a + b) == ProcessTag(a) + ProcessTag(b)
  {
    assert ToLower(a + b) == ToLower(a) + ToLower(b);
    FilterAppend(ToLower(a), ToLower(b), TagChars());
  }

  lemma ProcessTagChar(c: char)
    ensures ProcessTag([c]) == if IsTagChar(LowerChar(c)) then [LowerChar(c)] else []
  {
    assert ToLower([c]) == [LowerChar(c)];
    assert ToLower([c])[1..] == [];
  }

  /** A processed tag is processed again to itself. */
  lemma ProcessTagIdempotent(tag: string)
    ensures ProcessTag(ProcessTag(tag)) == ProcessTag(tag)
  {
  }

  /** `addTag`: the processed tag is appended when it is non-empty and not
      yet chosen; otherwise the tags stay as they are. */
  function AddTag(tags: seq<string>, tag: string): (r: seq<string>)
    ensures ProcessTag(tag) != "" && ProcessTag(tag) !in tags ==> r == tags + [ProcessTag(tag)]
    ensures !(ProcessTag(tag) != "" && ProcessTag(tag) !in tags) ==> r == tags
  {
    var p := ProcessTag(tag);
    if p != "" && p !in tags then tags + [p] else tags
  }

  /** Adding a tag twice adds it once. */
  lemma AddTagTwice(tags: seq<string>, tag: string)
    ensures AddTag(AddTag(tags, tag), tag) == AddTag(tags, tag)
  {
  }

  function TrimAll(parts: seq<string>): (r: seq<string>)
    ensures |r| == |parts| && forall i :: 0 <= i < |parts| ==> r[i] == Trim(parts[i])
  {
    seq(|parts|, i requires 0 <= i < |parts| => Trim(parts[i]))
  }

  function ProcessAll(parts: seq<string>): (r: seq<string>)
    ensures |r| == |parts| && forall i :: 0 <= i < |parts| ==> r[i] == ProcessTag(parts[i])
  {
    seq(|parts|, i requires 0 <= i < |parts| => ProcessTag(parts[i]))
  }

  function NonEmpty(): string -> bool
  {
    (t: string) => t != ""
  }

  function NewTo(tags: seq<string>): string -> bool
  {
    (t: string) => t != "" && t !in tags
  }

  /** The pieces of the tag input between commas, trimmed, empty ones
      dropped. */
  function InputTokens(input: string): seq<string>
  {
    Filter(TrimAll(Split(input, ',')), NonEmpty())
  }

  /** What the comma or Enter key appends: every processed token that is
      non-empty and not among the tags chosen before the key press. A token
      given twice in one input is appended twice. */
  function TokensToAdd(tags: seq<string>, input: string): seq<string>
  {
    Filter(ProcessAll(InputTokens(input)), NewTo(tags))
  }

  /** Each appended tag is normalised, new, and comes from a piece of the
      input. */
  lemma TokensToAddSound(tags: seq<string>, input: string, t: string)
    requires t in TokensToAdd(tags, input)
    ensures t != "" && t !in tags && forall i :: 0 <= i < |t| ==> IsTagChar(t[i])
    ensures exists piece :: piece in Split(input, ',') && Trim(piece) != "" && ProcessTag(Trim(piece)) == t
  {
    var pieces := Split(input, ',');
    var trimmed := TrimAll(pieces);
    var tokens := InputTokens(input);
    var processed := ProcessAll(tokens);
    FilterMembers(processed, NewTo(tags));
    var j :| 0 <= j < |processed| && processed[j] == t;
    FilterMembers(trimmed, NonEmpty());
    assert tokens[j] in tokens;
    var k :| 0 <= k < |trimmed| && trimmed[k] == tokens[j];
    assert pieces[k] in pieces && Trim(pieces[k]) == tokens[j];
  }

  /** Every piece of the input whose tag is non-empty and new is appended. */
  lemma TokensToAddComplete(tags: seq<string>, input: string, piece: string)
    requires piece in Split(input, ',') && Trim(piece) != ""
    requires ProcessTag(Trim(piece)) != "" && ProcessTag(Trim(piece)) !in tags
    ensures ProcessTag(Trim(piece)) in TokensToAdd(tags, input)
  {
    var pieces := Split(input, ',');
    var trimmed := TrimAll(pieces);
    var tokens := InputTokens(input);
    var processed := ProcessAll(tokens);
    var token, x := Trim(piece), ProcessTag(Trim(piece));
    var k :| 0 <= k < |pieces| && pieces[k] == piece;
    assert trimmed[k] == token && trimmed[k] in trimmed && NonEmpty()(token);
    FilterMembers(trimmed, NonEmpty());
    assert token in tokens;
    var j :| 0 <= j < |tokens| && tokens[j] == token;
    assert processed[j] == x && processed[j] in processed && NewTo(tags)(x);
    FilterMembers(processed, NewTo(tags));
  }

  /** An input without commas is one token: the key adds the same tag as
      `addTag` would. */
  lemma SingleTokenIsAddTag(tags: seq<string>, input: string)
    requires FreeOf(input, ',')
    ensures tags + TokensToAdd(tags, input) == AddTag(tags, Trim(input))
  {
    SplitFree(input, ',');
    assert TrimAll([input]) == [Trim(input)];
    if Trim(input) == "" {
      assert InputTokens(input) == [];
      assert ProcessAll([]) == [];
    } else {
      assert InputTokens(input) == [Trim(input)];
      assert ProcessAll([Trim(input)]) == [ProcessTag(Trim(input))];
    }
  }

  function Without(x: string): string -> bool
  {
    (t: string) => t != x
  }

  /** `removeTag`: every entry equal to the tag goes; the others stay. */
  function RemoveTag(tags: seq<string>, x: string): (r: seq<string>)
    ensures forall t :: t in r <==> t in tags && t != x
    ensures x !in tags ==> r == tags
  {
    RemoveFacts(tags, x);
    Filter(tags, Without(x))
  }

  lemma RemoveFacts(tags: seq<string>, x: string)
    ensures forall t :: t in Filter(tags, Without(x)) <==> t in tags && t != x
    ensures x !in tags ==> Filter(tags, Without(x)) == tags
  {
    FilterMembers(tags, Without(x));
    if x !in tags {
      FilterAll(tags, Without(x));
    }
  }

  /** Removing a tag that was just added with `addTag` gives the tags back. */
  lemma AddThenRemove(tags: seq<string>, tag: string)
    requires ProcessTag(tag) !in tags
    ensures RemoveTag(AddTag(tags, tag), ProcessTag(tag)) == tags
  {
    var p := ProcessTag(tag);
    if p != "" {
      FilterAppend(tags, [p], Without(p));
      FilterAll(tags, Without(p));
      assert Filter([p], Without(p)) == [];
    }
  }

  function SuggestionFor(input: string, tags: seq<string>): string -> bool
  {
    (tag: string) => Contains(ToLower(tag), ToLower(input)) && tag !in tags
  }

  /** The suggestion list: none for an empty input, otherwise the known tags
      that contain the input ignoring case and are not chosen yet. */
  function Suggestions(allTags: seq<string>, input: string, tags: seq<string>): (r: seq<string>)
    ensures input == "" ==> r == []
    ensures input != "" ==> forall t :: t in r <==>
      t in allTags && Contains(ToLower(t), ToLower(input)) && t !in tags
  {
    if input == "" then []
    else
      FilterMembers(allTags, SuggestionFor(input, tags));
      Filter(allTags, SuggestionFor(input, tags))
  }

  // ---------------------------------------------------------------------------
  // The dialog.

  /** The due date field is filled from `new Date(dueDate).toISOString()`
      cut at the `T`; no date, and a date that does not read as one (whose
      error the dialog catches), leave the field empty. */
  function DueDateField(due: Option<string>): (r: string)
    ensures due.None? || due == Some("") ==> r == ""
    ensures due.Some? && ParseIsoDay(due.value).Some? ==> r == IsoDay(ParseIsoDay(due.value).value)
    ensures r != "" ==> exists d :: Valid(d) && d.year <= 9999 && r == IsoDay(d)
  {
    if due.None? || due.value == "" then "" else DateStringDay(due.value).GetOr("")
  }

  /** What `onSave` receives. */
  datatype SavedTask = SavedTask(
    taskId: Option<string>,
    title: string,
    description: string,
    dueDate: string,
    status: Status,
    tags: seq<string>)

  /** The tags saved: the pending input is added, trimmed but not
      processed, when it is not blank and not yet chosen. */
  function FinalTags(tags: seq<string>, input: string): (r: seq<string>)
    ensures Trim(input) != "" && Trim(input) !in tags ==> r == tags + [Trim(input)]
    ensures !(Trim(input) != "" && Trim(input) !in tags) ==> r == tags
  {
    if Trim(input) != "" && Trim(input) !in tags then tags + [Trim(input)] else tags
  }

  class Modal {
    var taskId: Option<string>
    var title: string
    var description: string
    var dueDate: string
    var status: Status
    var tags: seq<string>
    var tagInput: string

    constructor ()
      ensures taskId == None && title == "" && description == "" && dueDate == "" && status == Open
      ensures tags == [] && tagInput == ""
    {
      taskId := None;
      title := "";
      description := "";
      dueDate := "";
      status := Open;
      tags := [];
      tagInput := "";
    }

    /** The effect that runs when the dialog opens: the fields are loaded
        from the task, or reset for a new one; the tag input is cleared. */
    method OpenDialog(task: Option<Task>)
      modifies this
      ensures task.Some? ==>
        taskId == Some(task.value.taskId) && title == task.value.title &&
        description == task.value.description.GetOr("") && status == task.value.status &&
        dueDate == DueDateField(task.value.dueDate) && tags == task.value.tags.GetOr([])
      ensures task.None? ==>
        taskId == None && title == "" && description == "" && status == Open && dueDate == "" && tags == []
      ensures tagInput == ""
    {
      if task.Some? {
        var t := task.value;
        taskId := Some(t.taskId);
        title := t.title;
        description := t.description.GetOr("");
        status := t.status;
        dueDate := DueDateField(t.dueDate);
        tags := t.tags.GetOr([]);
      } else {
        taskId := None;
        title := "";
        description := "";
        status := Open;
        dueDate := "";
        tags := [];
      }
      tagInput := "";
    }

    /** Typing into the tag input. */
    method SetTagInput(input: string)
      modifies this
      ensures tagInput == input && tags == old(tags)
    {
      tagInput := input;
    }

    /** `handleTagInputChange`: a comma or Enter appends the input's new
        tags and clears the input; any other key changes nothing. */
    method HandleTagKey(key: string)
      modifies this
      ensures key == "," || key == "Enter" ==>
        tags == old(tags) + TokensToAdd(old(tags), old(tagInput)) && tagInput == ""
      ensures !(key == "," || key == "Enter") ==> tags == old(tags) && tagInput == old(tagInput)
    {
      if key == "," || key == "Enter" {
        var added := TokensToAdd(tags, tagInput);
        tags := tags + added;
        tagInput := "";
      }
    }

    method RemoveTagClicked(x: string)
      modifies this
      ensures tags == RemoveTag(old(tags), x) && tagInput == old(tagInput)
    {
      tags := RemoveTag(tags, x);
    }

    /** `handleSave`: the record handed to `onSave`. The dialog's state is
        left as it is (the dialog does not close itself). */
    method Save() returns (saved: SavedTask)
      ensures saved == SavedTask(taskId, title, description, dueDate, status, FinalTags(tags, tagInput))
    {
      saved := SavedTask(taskId, title, description, dueDate, status, FinalTags(tags, tagInput));
    }
  }
}
