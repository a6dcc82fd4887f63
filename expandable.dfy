/**
 * The "See more" description of the cart and catalogue pages: a description
 * longer than the page's limit is shown, while collapsed, as its first
 * `maxLength` characters followed by "...", with a toggle that expands it.
 */
module Expandable {
  import opened Wrappers

  /** The text shown and, when the description is truncatable, the toggle's label. */
  datatype DescriptionView = DescriptionView(text: string, toggle: Option<string>)

  function Render(description: string, maxLength: nat, expanded: bool): (v: DescriptionView)
    ensures |description| <= maxLength ==> v == DescriptionView(description, None)
    ensures |description| > maxLength ==> v.toggle == Some(if expanded then "See less" else "See more")
    ensures |description| > maxLength && expanded ==> v.text == description
    ensures |description| > maxLength && !expanded ==>
      |v.text| == maxLength + 3 && v.text[..maxLength] == description[..maxLength] && v.text[maxLength..] == "..."
  {
    if |description| <= maxLength then DescriptionView(description, None)
    else if expanded then DescriptionView(description, Some("See less"))
    else DescriptionView(description[..maxLength] + "...", Some("See more"))
  }

  /** Expanded, the whole description is shown, truncatable or not. */
  lemma ExpandedShowsAll(description: string, maxLength: nat)
    ensures Render(description, maxLength, true).text == description
  {
  }

  /** The toggle appears exactly for descriptions longer than the limit, and the collapsed text never exceeds the limit plus the ellipsis. */
  lemma CollapsedBounded(description: string, maxLength: nat)
    ensures var v := Render(description, maxLength, false);
      (v.toggle.Some? <==> |description| > maxLength) &&
      |v.text| <= maxLength + 3 &&
      (|description| > maxLength ==> |v.text| < |description| + 3)
  {
  }
}
