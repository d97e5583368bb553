/** The task search box (`src/components/SearchBar.tsx`). The fuzzy matches
    come from Fuse.js and are an input here; the model covers the query and
    dropdown state and how a match is shown. */
module SearchBar {
  import opened Wrappers
  import opened Text
  import opened Seqs
  import opened Tasks

  const Ellipsis := "..."
  const TitlePreviewLength: nat := 50
  const DescriptionPreviewLength: nat := 70
  const ResultCap: nat := 10
  const TagCap: nat := 3

  /** `truncateText`: a text longer than the maximum is cut to it and gets
      "..."; a shorter one is kept. */
  function TruncateText(text: string, maxLength: nat): (r: string)
    ensures |text| <= maxLength ==> r == text
    ensures |text| > maxLength ==> |r| == maxLength + 3 && r[..maxLength] == text[..maxLength] && r[maxLength..] == Ellipsis
  {
    if |text| > maxLength then text[..maxLength] + Ellipsis else text
  }

  /** A previewed text is never longer than the maximum plus the dots, and
      the preview always starts with as much of the text as fits. */
  lemma TruncateBounds(text: string, maxLength: nat)
    ensures |TruncateText(text, maxLength)| <= maxLength + 3
    ensures var n := if |text| < maxLength then |text| else maxLength;
      TruncateText(text, maxLength)[..n] == text[..n]
  {
  }

  datatype Badge = MitBadge | LitBadge

  /** One match as the dropdown lists it. */
  datatype Row = Row(
    taskId: string,
    title: string,
    description: Option<string>,
    tags: seq<string>,
    moreTags: Option<nat>,
    badge: Badge)

  function TaskTags(t: Task): seq<string> { t.tags.GetOr([]) }

  function RowOf(t: Task): (r: Row)
    ensures r.taskId == t.taskId && r.title == TruncateText(t.title, TitlePreviewLength)
    ensures r.description.Some? <==> t.description.Some? && t.description.value != ""
    ensures r.description.Some? ==> r.description.value == TruncateText(t.description.value, DescriptionPreviewLength)
    ensures |r.tags| <= TagCap && |r.tags| <= |TaskTags(t)| && r.tags == TaskTags(t)[..|r.tags|]
    ensures |TaskTags(t)| <= TagCap ==> r.tags == TaskTags(t) && r.moreTags == None
    ensures |TaskTags(t)| > TagCap ==> r.moreTags == Some(|TaskTags(t)| - TagCap)
    ensures r.badge == MitBadge <==> t.isMIT
  {
    var tags := TaskTags(t);
    Row(
      t.taskId,
      TruncateText(t.title, TitlePreviewLength),
      if t.description.Some? && t.description.value != "" then Some(TruncateText(t.description.value, DescriptionPreviewLength)) else None,
      Take(tags, TagCap),
      if |tags| > TagCap then Some(|tags| - TagCap) else None,
      if t.isMIT then MitBadge else LitBadge)
  }

  /** The tags shown plus the "+k more" count account for every tag. */
  lemma RowCountsTags(t: Task)
    ensures |RowOf(t).tags| + RowOf(t).moreTags.GetOr(0) == |TaskTags(t)|
  {
  }

  function RowsOf(ts: seq<Task>): (rows: seq<Row>)
    ensures |rows| == |ts| && forall i :: 0 <= i < |ts| ==> rows[i] == RowOf(ts[i])
  {
    seq(|ts|, i requires 0 <= i < |ts| => RowOf(ts[i]))
  }

  /** What is below the box: nothing, the no-match notice, or the first
      ten matches with "Showing 10 of N" when there are more. */
  datatype Dropdown = Closed | NoMatches(query: string) | Matches(rows: seq<Row>, showingOf: Option<nat>)

  function DropdownOf(isOpen: bool, query: string, results: seq<Task>): (d: Dropdown)
    ensures d != Closed <==> isOpen && Trim(query) != ""
    ensures d.NoMatches? <==> isOpen && Trim(query) != "" && results == []
    ensures d.Matches? ==>
      d.rows == RowsOf(Take(results, ResultCap)) && |d.rows| <= ResultCap &&
      (d.showingOf.Some? <==> |results| > ResultCap) &&
      (d.showingOf.Some? ==> d.showingOf.value == |results|)
  {
    if !isOpen || Trim(query) == "" then Closed
    else if |results| == 0 then NoMatches(query)
    else Matches(RowsOf(Take(results, ResultCap)), if |results| > ResultCap then Some(|results|) else None)
  }

  class SearchBox {
    var query: string
    var isOpen: bool

    constructor ()
      ensures query == "" && !isOpen
    {
      query := "";
      isOpen := false;
    }

    /** `handleInputChange`: the dropdown opens exactly for a query that is
        not blank. */
    method InputChanged(value: string)
      modifies this
      ensures query == value && (isOpen <==> Trim(value) != "")
    {
      query := value;
      isOpen := |Trim(value)| > 0;
    }

    /** Escape empties the query and closes; other keys do nothing. */
    method KeyDown(key: string)
      modifies this
      ensures key == "Escape" ==> query == "" && !isOpen
      ensures key != "Escape" ==> query == old(query) && isOpen == old(isOpen)
    {
      if key == "Escape" {
        query := "";
        isOpen := false;
      }
    }

    method ClearClicked()
      modifies this
      ensures query == "" && !isOpen
    {
      query := "";
      isOpen := false;
    }

    /** A match is clicked: the query is emptied, the dropdown closes and
        the task's id goes to `onResultClick` when the page passed one. */
    method ResultClicked(taskId: string, hasOnResultClick: bool) returns (clicked: Option<string>)
      modifies this
      ensures query == "" && !isOpen
      ensures clicked == if hasOnResultClick then Some(taskId) else None
    {
      query := "";
      isOpen := false;
      clicked := if hasOnResultClick then Some(taskId) else None;
    }

    method ClickedOutside()
      modifies this
      ensures query == old(query) && !isOpen
    {
      isOpen := false;
    }
  }

  /** After typing, the dropdown shows exactly when the query is not
      blank; after Escape, clearing or a click on a match it is closed. */
  lemma TypedDropdown(value: string, results: seq<Task>)
    ensures DropdownOf(Trim(value) != "", value, results) != Closed <==> Trim(value) != ""
    ensures DropdownOf(false, "", results) == Closed
  {
  }
}
