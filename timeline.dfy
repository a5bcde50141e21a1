/**
 * The evolution timeline: the events are the highlights of the section
 * with id 'explanation'; each title "YYYY: Heading" is split on ':' into a
 * year label and a heading, and one event at a time is shown in detail.
 */
module Timeline {
  import opened Wrappers
  import opened JsString
  import opened Content

  /** The first section with the given id, if any. */
  function FindSection(sections: seq<Section>, id: string): (r: Option<Section>)
    ensures r.None? <==> forall k :: 0 <= k < |sections| ==> sections[k].id != id
    ensures r.Some? ==> exists k :: 0 <= k < |sections| && sections[k] == r.value
                          && r.value.id == id
                          && forall m :: 0 <= m < k ==> sections[m].id != id
  {
    if sections == [] then None
    else if sections[0].id == id then Some(sections[0])
    else
      var r := FindSection(sections[1..], id);
      assert forall k :: 1 <= k < |sections| ==> sections[k] == sections[1..][k - 1];
      r
  }

  /** The timeline events: the highlights of the "explanation" section, or none when it is missing. */
  function Events(sections: seq<Section>): (events: seq<Highlight>)
    ensures FindSection(sections, "explanation").None? ==> events == []
    ensures FindSection(sections, "explanation").Some? ==>
      events == FindSection(sections, "explanation").value.highlights.GetOr([])
  {
    match FindSection(sections, "explanation")
    case None => []
    case Some(s) => s.highlights.GetOr([])
  }

  /** The year label: the first colon-separated piece of the title. */
  function YearLabel(title: string): (year: string)
    ensures ':' !in year
    ensures |year| <= |title| && title[..|year|] == year
  {
    var parts := Split(title, ':');
    JoinSplit(title, ':');
    assert |parts[0]| <= |title| && title[..|parts[0]|] == parts[0] by {
      if |parts| > 1 {
        assert title == parts[0] + ":" + Join(parts[1..], ':');
      } else {
        assert title == parts[0];
      }
    }
    parts[0]
  }

  /** The heading: the second colon-separated piece, or the whole title when that piece is absent or empty. */
  function Heading(title: string): (heading: string)
    ensures heading == title || (heading != "" && ':' !in heading)
    ensures title != "" ==> heading != ""
  {
    var parts := Split(title, ':');
    if |parts| > 1 && parts[1] != "" then parts[1] else title
  }

  /**
   * The year label is the text before the first ':', and the whole title
   * when there is no ':'.
   */
  lemma YearLabelIsTextBeforeFirstColon(title: string)
    ensures ':' !in YearLabel(title)
    ensures |YearLabel(title)| <= |title| && title[..|YearLabel(title)|] == YearLabel(title)
    ensures ':' !in title ==> YearLabel(title) == title
    ensures ':' in title ==> |YearLabel(title)| < |title| && title[|YearLabel(title)|] == ':'
  {
    var parts := Split(title, ':');
    JoinSplit(title, ':');
    if |parts| > 1 {
      assert title == parts[0] + ":" + Join(parts[1..], ':');
      assert title[..|parts[0]|] == parts[0];
    } else {
      assert title == parts[0];
    }
  }

  /**
   * For a title "a:b..." with a free of ':', the heading is the piece b up to
   * the next ':' (a leading space kept), or the whole title when that piece
   * is empty.
   */
  lemma HeadingIsSecondPiece(a: string, b: string, rest: string)
    requires ':' !in a && ':' !in b
    requires rest == "" || rest[0] == ':'
    ensures Heading(a + ":" + b + rest) == if b == "" then a + ":" + b + rest else b
  {
    var title := a + ":" + b + rest;
    assert title == a + [':'] + (b + rest);
    SplitAtFirst(a, b + rest, ':');
    if rest == "" {
      assert b + rest == b;
      SplitNoSeparator(b, ':');
    } else {
      assert b + rest == b + [':'] + rest[1..];
      SplitAtFirst(b, rest[1..], ':');
    }
  }

  /** A title with no ':' is both its own year label and its own heading. */
  lemma NoColonTitle(title: string)
    requires ':' !in title
    ensures YearLabel(title) == title && Heading(title) == title
  {
    SplitNoSeparator(title, ':');
  }

  /** The timeline's events are the highlights of the 'explanation' section. */
  lemma SiteEvents()
    ensures Events(ContentSections) == EvolutionEvents
  {
    assert ContentSections[0].id[0] != 'e' && ContentSections[1].id[0] != 'e';
    assert ContentSections[2] == Explanation;
  }

  /** The dated events split into a year and a heading with its leading space. */
  lemma SiteFirstEventLabels()
    ensures YearLabel(EvolutionEvents[0].title) == "1994" && Heading(EvolutionEvents[0].title) == " The Beginning"
  {
    LabelsOf("1994", " The Beginning");
    assert EvolutionEvents[0].title == "1994" + ":" + " The Beginning";
  }

  lemma SiteSecondEventLabels()
    ensures YearLabel(EvolutionEvents[1].title) == "2015" && Heading(EvolutionEvents[1].title) == " Cloud Migration"
  {
    LabelsOf("2015", " Cloud Migration");
    assert EvolutionEvents[1].title == "2015" + ":" + " Cloud Migration";
  }

  lemma SiteThirdEventLabels()
    ensures YearLabel(EvolutionEvents[2].title) == "2017" && Heading(EvolutionEvents[2].title) == " Project Eno"
  {
    LabelsOf("2017", " Project Eno");
    assert EvolutionEvents[2].title == "2017" + ":" + " Project Eno";
  }

  /** "DevExchange Ecosystem" has no ':' so both labels are the whole title. */
  lemma SiteUndatedEventLabels()
    ensures YearLabel(EvolutionEvents[3].title) == "DevExchange Ecosystem"
    ensures Heading(EvolutionEvents[3].title) == "DevExchange Ecosystem"
  {
    NoColonTitle("DevExchange Ecosystem");
  }

  /** Labels of a title "year:heading" with exactly one ':'. */
  lemma LabelsOf(year: string, heading: string)
    requires ':' !in year && ':' !in heading && heading != ""
    ensures YearLabel(year + ":" + heading) == year
    ensures Heading(year + ":" + heading) == heading
  {
    HeadingIsSecondPiece(year, heading, "");
    assert year + ":" + heading + "" == year + ":" + heading;
    assert year + ":" + heading == year + [':'] + heading;
    SplitAtFirst(year, heading, ':');
  }

  /** The detail card of the active event. */
  datatype EventCard = EventCard(year: string, heading: string, description: string, link: Option<string>)

  /**
   * What the timeline renders: nothing without an 'explanation' section;
   * reading `events[activeEvent].title` past the end of the list throws.
   */
  datatype Screen = Nothing | TypeError | Detail(card: EventCard)

  /** The detail card shows the event's own description and link under its year and heading. */
  function CardOf(event: Highlight): (card: EventCard)
    ensures card.description == event.description && card.link == event.link
    ensures ':' !in card.year && |card.year| <= |event.title| && event.title[..|card.year|] == card.year
    ensures card.heading == event.title || ':' !in card.heading
  {
    EventCard(YearLabel(event.title), Heading(event.title), event.description, event.link)
  }

  function Render(sections: seq<Section>, activeEvent: nat): (screen: Screen)
    ensures screen.Nothing? <==> FindSection(sections, "explanation").None?
    ensures screen.Detail? <==> FindSection(sections, "explanation").Some? && activeEvent < |Events(sections)|
    ensures screen.Detail? ==> screen.card == CardOf(Events(sections)[activeEvent])
  {
    if FindSection(sections, "explanation").None? then Nothing
    else
      var events := Events(sections);
      if activeEvent < |events| then Detail(CardOf(events[activeEvent])) else TypeError
  }

  /** The timeline section: which event is shown in detail. */
  class TimelineSection {
    const events: seq<Highlight>
    var activeEvent: nat

    /** `activeEvent` always names an event when there is one. */
    ghost predicate Valid()
      reads this
    {
      events != [] ==> activeEvent < |events|
    }

    constructor (sections: seq<Section>)
      ensures events == Events(sections) && activeEvent == 0
      ensures Valid()
    {
      events := Events(sections);
      activeEvent := 0;
    }

    /** A click on the event drawn at position index. */
    method SelectEvent(index: nat)
      requires Valid()
      requires index < |events|
      modifies this
      ensures activeEvent == index
      ensures Valid()
    {
      activeEvent := index;
    }
  }

  /** On the site's table every reachable selection renders a detail card. */
  lemma SiteTimelineAlwaysRenders(t: TimelineSection)
    requires t.Valid() && t.events == Events(ContentSections)
    ensures Render(ContentSections, t.activeEvent).Detail?
  {
    SiteEvents();
  }
}
