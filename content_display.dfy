/**
 * One content section on the page: its two-column layout, the icon picked
 * for each highlight card from the card's title, and the detail dialog a
 * card click opens.
 */
module ContentDisplay {
  import opened Wrappers
  import opened JsString
  import opened Content

  // ---------------------------------------------------------------------
  // Layout
  // ---------------------------------------------------------------------

  /** Sections at even positions show their text on the left. */
  predicate IsEven(index: nat)
  {
    index % 2 == 0
  }

  /** Consecutive sections put their text on opposite sides. */
  lemma SidesAlternate(index: nat)
    ensures IsEven(index) != IsEven(index + 1)
    ensures IsEven(index) == IsEven(index + 2)
  {
  }

  // ---------------------------------------------------------------------
  // Icons
  // ---------------------------------------------------------------------

  datatype Icon = LockIcon | CpuIcon | CloudIcon | GlobeIcon | ShieldIcon | TrendingIcon

  predicate SecurityKeyword(keyword: string)
  {
    Includes(keyword, "Cyber") || Includes(keyword, "Security")
  }

  predicate AiKeyword(keyword: string)
  {
    Includes(keyword, "AI")
  }

  predicate CloudKeyword(keyword: string)
  {
    Includes(keyword, "Cloud")
  }

  predicate CommunityKeyword(keyword: string)
  {
    Includes(keyword, "SDG") || Includes(keyword, "Community") || Includes(keyword, "ESG")
  }

  predicate ComplianceKeyword(keyword: string)
  {
    Includes(keyword, "Compliance") || Includes(keyword, "Regulatory")
  }

  /**
   * The icon for a highlight title: the first keyword group, in the order
   * security, AI, cloud, community, compliance, that occurs in the title
   * (case-sensitively) decides; a title with none gets the trending icon.
   */
  function GetIcon(keyword: string): (icon: Icon)
    ensures icon == LockIcon <==> SecurityKeyword(keyword)
    ensures icon == CpuIcon <==> !SecurityKeyword(keyword) && AiKeyword(keyword)
    ensures icon == CloudIcon <==> !SecurityKeyword(keyword) && !AiKeyword(keyword) && CloudKeyword(keyword)
    ensures icon == GlobeIcon <==>
      !SecurityKeyword(keyword) && !AiKeyword(keyword) && !CloudKeyword(keyword) && CommunityKeyword(keyword)
    ensures icon == ShieldIcon <==>
      !SecurityKeyword(keyword) && !AiKeyword(keyword) && !CloudKeyword(keyword) && !CommunityKeyword(keyword)
      && ComplianceKeyword(keyword)
    ensures icon == TrendingIcon <==>
      !SecurityKeyword(keyword) && !AiKeyword(keyword) && !CloudKeyword(keyword) && !CommunityKeyword(keyword)
      && !ComplianceKeyword(keyword)
  {
    if SecurityKeyword(keyword) then LockIcon
    else if AiKeyword(keyword) then CpuIcon
    else if CloudKeyword(keyword) then CloudIcon
    else if CommunityKeyword(keyword) then GlobeIcon
    else if ComplianceKeyword(keyword) then ShieldIcon
    else TrendingIcon
  }

  /** Earlier rules win: a title naming both security and AI gets the lock. */
  lemma SecurityBeatsAi(keyword: string)
    requires Includes(keyword, "Security") && Includes(keyword, "AI")
    ensures GetIcon(keyword) == LockIcon
  {
  }

  /** A needle starting with a capital letter only occurs in a text that has one. */
  lemma CapitalNeedle(haystack: string, needle: string)
    requires Includes(haystack, needle) && |needle| > 0 && IsAsciiUpper(needle[0])
    ensures exists k :: 0 <= k < |haystack| && IsAsciiUpper(haystack[k])
  {
    var i :| 0 <= i <= |haystack| - |needle| && OccursAt(haystack, needle, i);
    assert haystack[i..i + |needle|][0] == haystack[i];
  }

  /**
   * Every keyword starts with a capital letter, so a title without capitals
   * (such as "ai") always gets the trending icon.
   */
  lemma LowercaseTitleIsTrending(keyword: string)
    requires forall k :: 0 <= k < |keyword| ==> !IsAsciiUpper(keyword[k])
    ensures GetIcon(keyword) == TrendingIcon
  {
    var needles := ["Cyber", "Security", "AI", "Cloud", "SDG", "Community", "ESG", "Compliance", "Regulatory"];
    forall n | n in needles
      ensures !Includes(keyword, n)
    {
      if Includes(keyword, n) {
        CapitalNeedle(keyword, n);
      }
    }
  }

  /** The lower-case title "ai" does not trigger the AI rule. */
  lemma LowercaseAiIsTrending()
    ensures !AiKeyword("ai")
    ensures GetIcon("ai") == TrendingIcon
  {
    LowercaseTitleIsTrending("ai");
  }

  // ---------------------------------------------------------------------
  // The detail dialog
  // ---------------------------------------------------------------------

  /** What a click lands on: a highlight card, or a part of the open dialog. */
  datatype ClickTarget = HighlightCard(card: Highlight) | Backdrop | CloseIcon | CloseButton | DialogBody

  /** The open dialog's parts exist only while a highlight is selected. */
  predicate IsDialogPart(target: ClickTarget)
  {
    target.Backdrop? || target.CloseIcon? || target.CloseButton? || target.DialogBody?
  }

  /** The highlight cards a section shows (none when it has no highlights). */
  function CardsOf(data: Section): (cards: seq<Highlight>)
    ensures data.highlights.None? ==> cards == []
    ensures data.highlights.Some? ==> cards == data.highlights.value
  {
    data.highlights.GetOr([])
  }

  class ContentSection {
    const data: Section
    const index: nat
    var selectedHighlight: Option<Highlight>

    /** The dialog only ever shows one of this section's own cards. */
    ghost predicate Valid()
      reads this
    {
      selectedHighlight.Some? ==> selectedHighlight.value in CardsOf(data)
    }

    constructor (data: Section, index: nat)
      ensures Valid()
      ensures this.data == data && this.index == index && selectedHighlight == None
    {
      this.data := data;
      this.index := index;
      selectedHighlight := None;
    }

    /**
     * A click: a card opens the dialog on that card; the backdrop, the close
     * icon and the close button close it; a click inside the dialog body is
     * stopped there and changes nothing.
     */
    method Click(target: ClickTarget)
      requires Valid()
      requires target.HighlightCard? ==> target.card in CardsOf(data)
      requires IsDialogPart(target) ==> selectedHighlight.Some?
      modifies this
      ensures Valid()
      ensures target.HighlightCard? ==> selectedHighlight == Some(target.card)
      ensures target.Backdrop? || target.CloseIcon? || target.CloseButton? ==> selectedHighlight == None
      ensures target.DialogBody? ==> selectedHighlight == old(selectedHighlight)
    {
      match target {
        case HighlightCard(card) => selectedHighlight := Some(card);
        case Backdrop => selectedHighlight := None;
        case CloseIcon => selectedHighlight := None;
        case CloseButton => selectedHighlight := None;
        case DialogBody =>
      }
    }
  }
}
