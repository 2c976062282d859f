/**
 * The project cards: which card's description is expanded, the collapsed
 * preview of a long description, and the View More / View Less button.
 *
 * Strings are sequences of characters, one character per Unicode scalar value.
 * For text inside the Basic Multilingual Plane this is one character per
 * UTF-16 code unit, so lengths and slices agree with JavaScript's `length` and
 * `slice` there.
 */
module ProjectCards {

  import opened Wrappers

  /** A project as listed: cards with a repository link show their whole description. */
  datatype Project = Project(id: int, name: string, description: string, github: Option<string>)

  /**
   * Whether the card counts as linked: `project.github` is truthy, so a missing
   * link and an empty string both count as no link.
   */
  predicate HasLink(p: Project)
  {
    p.github.Some? && p.github.value != ""
  }

  /** Characters of a collapsed description that are shown. */
  const PreviewLength: nat := 140

  const Ellipsis := "..."

  function Min(a: nat, b: nat): nat
  {
    if a <= b then a else b
  }

  // ---------------------------------------------------------------------------
  // Expansion

  /** `toggleExpand(id)`: collapse the card if it is the expanded one, otherwise expand it. */
  function Toggled(expanded: Option<int>, id: int): (e: Option<int>)
    ensures e == Some(id) <==> expanded != Some(id)
    ensures e == None <==> expanded == Some(id)
  {
    if expanded == Some(id) then None else Some(id)
  }

  /**
   * Toggling the same card twice restores the previous state exactly when that
   * state had no card or this card expanded; if another card was expanded,
   * the first toggle switched to this card and the second collapses it.
   */
  lemma ToggleTwice(expanded: Option<int>, id: int)
    ensures Toggled(Toggled(expanded, id), id) == expanded <==> expanded == None || expanded == Some(id)
    ensures Toggled(Toggled(expanded, id), id) == None || Toggled(Toggled(expanded, id), id) == Some(id)
  {
  }

  /** Toggling a card other than the expanded one moves the expansion to it. */
  lemma ToggleSwitches(a: int, b: int)
    requires a != b
    ensures Toggled(Some(a), b) == Some(b)
    ensures Toggled(Toggled(None, a), b) == Some(b)
  {
  }

  // ---------------------------------------------------------------------------
  // Rendering a card's description

  /**
   * `description.slice(0, 140) + "..."`: at most the first 140 characters, then
   * an ellipsis, which is added even when nothing was cut off.
   */
  function Preview(description: string): (p: string)
    ensures |p| == Min(|description|, PreviewLength) + |Ellipsis|
    ensures p[..|p| - |Ellipsis|] == description[..Min(|description|, PreviewLength)]
    ensures p[|p| - |Ellipsis|..] == Ellipsis
    ensures |description| <= PreviewLength ==> p == description + Ellipsis
  {
    description[..Min(|description|, PreviewLength)] + Ellipsis
  }

  /**
   * The View More / View Less button exists only for descriptions longer than
   * the preview: exactly those whose preview cuts characters off.
   */
  function HasToggleButton(description: string): (b: bool)
    ensures b <==> Preview(description) != description + Ellipsis
  {
    |description| > PreviewLength
  }

  /** The button's caption. */
  function ButtonLabel(expanded: Option<int>, id: int): (caption: string)
    ensures caption == "View Less" <==> expanded == Some(id)
    ensures caption == "View More" <==> expanded != Some(id)
  {
    if expanded == Some(id) then "View Less" else "View More"
  }

  /**
   * The description text a card shows: the whole description for a card with a
   * repository link; otherwise the whole description when it is the expanded
   * card, and its preview when it is not.
   */
  function CardText(p: Project, expanded: Option<int>): (text: string)
    ensures HasLink(p) ==> text == p.description
    ensures !HasLink(p) && expanded == Some(p.id) ==> text == p.description
    ensures !HasLink(p) && expanded != Some(p.id) ==> text == Preview(p.description)
  {
    if HasLink(p) then p.description
    else if expanded == Some(p.id) then p.description
    else Preview(p.description)
  }

  /** Whether a card renders the View More / View Less button. */
  function ShowsButton(p: Project): (b: bool)
    ensures b <==> !HasLink(p) && |p.description| > PreviewLength
  {
    !HasLink(p) && HasToggleButton(p.description)
  }

  /**
   * An empty repository link is falsy, so such a card is collapsible like one
   * without a link: a long description is cut to the preview behind a button.
   */
  lemma EmptyLinkIsCollapsible(p: Project, expanded: Option<int>)
    requires p.github == Some("") && |p.description| > PreviewLength && expanded != Some(p.id)
    ensures ShowsButton(p)
    ensures CardText(p, expanded) == p.description[..PreviewLength] + Ellipsis
  {
  }

  /**
   * A collapsible card whose description fits in the preview has no button,
   * so it shows its whole description followed by an ellipsis, unless it
   * is already the expanded card.
   */
  lemma ShortCardShowsEllipsis(p: Project, expanded: Option<int>)
    requires !HasLink(p) && |p.description| <= PreviewLength && expanded != Some(p.id)
    ensures !ShowsButton(p)
    ensures CardText(p, expanded) == p.description + Ellipsis
  {
  }

  /** Collapsing never lengthens a long description's text beyond the preview. */
  lemma CollapsedIsShorter(p: Project, expanded: Option<int>)
    requires ShowsButton(p) && expanded != Some(p.id)
    ensures |CardText(p, expanded)| == PreviewLength + |Ellipsis|
    ensures |CardText(p, expanded)| < |p.description| + |Ellipsis|
  {
  }

  // ---------------------------------------------------------------------------
  // The component's state

  class Cards {
    /** The `expanded` state: the id of the one expanded card, if any. */
    var expanded: Option<int>

    constructor ()
      ensures expanded == None
    {
      expanded := None;
    }

    /** The button's click handler. */
    method Toggle(id: int)
      modifies this
      ensures expanded == Toggled(old(expanded), id)
    {
      expanded := Toggled(expanded, id);
    }
  }

  /**
   * Clicking the same card twice from the initial state collapses it again;
   * clicking another card in between moves the expansion instead.
   */
  method ToggleScenario() returns (afterTwice: Option<int>, afterSwitch: Option<int>)
    ensures afterTwice == None && afterSwitch == Some(4)
  {
    var c := new Cards();
    c.Toggle(3);
    c.Toggle(3);
    afterTwice := c.expanded;
    c.Toggle(3);
    c.Toggle(4);
    afterSwitch := c.expanded;
  }
}
