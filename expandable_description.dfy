/** A task description shown as a preview that can be expanded
    (`src/components/ExpandableDescription.tsx`). */
module ExpandableDescription {
  const DefaultPreviewLength: nat := 300
  const Ellipsis := "..."

  predicate EndsWith(s: string, suffix: string)
  {
    |suffix| <= |s| && s[|s| - |suffix|..] == suffix
  }

  /** What the component renders: nothing, a preview (with the More
      button when it cuts the text), or the whole text with Less. */
  datatype View = Nothing | Preview(text: string, moreButton: bool) | Full(text: string, lessButton: bool)

  /** The preview text: the first `maxPreviewLength` characters then "...",
      unless those characters already end with "..."; a short text whole. */
  function PreviewText(description: string, maxPreviewLength: nat): (r: string)
    ensures |description| <= maxPreviewLength ==> r == description
    ensures |description| > maxPreviewLength ==>
      |r| == maxPreviewLength + (if EndsWith(description[..maxPreviewLength], Ellipsis) then 0 else 3) &&
      r[..maxPreviewLength] == description[..maxPreviewLength] && EndsWith(r, Ellipsis)
  {
    if |description| > maxPreviewLength then
      var cut := description[..maxPreviewLength];
      if EndsWith(cut, Ellipsis) then cut else cut + Ellipsis
    else description
  }

  function ViewOf(description: string, maxPreviewLength: nat, expanded: bool): (v: View)
    ensures v == Nothing <==> description == ""
    ensures description != "" && !expanded ==>
      v == Preview(PreviewText(description, maxPreviewLength), |description| > maxPreviewLength)
    ensures description != "" && expanded ==> v == Full(description, true)
  {
    if description == "" then Nothing
    else if !expanded then Preview(PreviewText(description, maxPreviewLength), |description| > maxPreviewLength)
    else Full(description, true)
  }

  /** A preview without the More button is the whole text. With it, the
      preview is shorter than the text, except for a text of exactly three
      more characters ending with "...", whose preview is the text itself. */
  lemma MoreOnlyWhenCut(description: string, maxPreviewLength: nat)
    requires description != ""
    ensures var v := ViewOf(description, maxPreviewLength, false);
      (!v.moreButton ==> v.text == description) &&
      (v.moreButton && v.text == description ==>
         |description| == maxPreviewLength + 3 && EndsWith(description, Ellipsis))
  {
    var v := ViewOf(description, maxPreviewLength, false);
    if v.moreButton && v.text == description {
      var cut := description[..maxPreviewLength];
      assert !EndsWith(cut, Ellipsis);
      assert v.text == cut + Ellipsis;
    }
  }

  class Description {
    var expanded: bool

    constructor ()
      ensures !expanded
    {
      expanded := false;
    }

    method MoreClicked()
      modifies this
      ensures expanded
    {
      expanded := true;
    }

    method LessClicked()
      modifies this
      ensures !expanded
    {
      expanded := false;
    }
  }
}
