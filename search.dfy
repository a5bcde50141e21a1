/**
 * The search dialog: a case-insensitive substring filter over the section
 * table, recomputed whenever the query changes.
 */
module Search {
  import opened Wrappers
  import opened JsString
  import opened Content

  /** A text field matches when its lower-cased text contains the lower-cased query. */
  predicate FieldMatches(field: string, lowerQuery: string)
  {
    Includes(ToLowerCase(field), lowerQuery)
  }

  /** A one-paragraph body is tested whole; a list matches if some paragraph does. */
  predicate ContentMatches(body: Body, lowerQuery: string)
  {
    match body
    case Text(t) => FieldMatches(t, lowerQuery)
    case Paragraphs(ps) => exists p | p in ps :: FieldMatches(p, lowerQuery)
  }

  predicate HighlightMatches(h: Highlight, lowerQuery: string)
  {
    FieldMatches(h.title, lowerQuery) || FieldMatches(h.description, lowerQuery)
  }

  /** A missing subtitle or highlight list never matches. */
  predicate SectionMatches(s: Section, lowerQuery: string)
    ensures FieldMatches(s.title, lowerQuery) ==> SectionMatches(s, lowerQuery)
    ensures lowerQuery == [] ==> SectionMatches(s, lowerQuery)
  {
    || FieldMatches(s.title, lowerQuery)
    || (s.subtitle.Some? && FieldMatches(s.subtitle.value, lowerQuery))
    || ContentMatches(s.content, lowerQuery)
    || (s.highlights.Some? && exists h | h in s.highlights.value :: HighlightMatches(h, lowerQuery))
  }

  /** The matching sections, in table order. */
  function Filter(sections: seq<Section>, lowerQuery: string): (r: seq<Section>)
    ensures |r| <= |sections|
    ensures forall s :: s in r <==> s in sections && SectionMatches(s, lowerQuery)
  {
    if sections == [] then []
    else
      var head := if SectionMatches(sections[0], lowerQuery) then [sections[0]] else [];
      assert sections == [sections[0]] + sections[1..];
      head + Filter(sections[1..], lowerQuery)
  }

  /**
   * The results for a query: none for a blank query (the only place the
   * query is trimmed), otherwise the sections matching the lower-cased,
   * untrimmed query.
   */
  function Search(query: string, sections: seq<Section>): (results: seq<Section>)
    ensures IsBlank(query) ==> results == []
    ensures !IsBlank(query) ==>
      forall s :: s in results <==> s in sections && SectionMatches(s, ToLowerCase(query))
  {
    TrimEmptyIffBlank(query);
    if Trim(query) == "" then [] else Filter(sections, ToLowerCase(query))
  }

  /** The search over the site's own section table. */
  function SearchContent(query: string): seq<Section>
  {
    Search(query, ContentSections)
  }

  /** Filtering distributes over concatenation: order is kept and nothing is added. */
  lemma {:induction false} FilterAppend(a: seq<Section>, b: seq<Section>, lowerQuery: string)
    ensures Filter(a + b, lowerQuery) == Filter(a, lowerQuery) + Filter(b, lowerQuery)
  {
    if a != [] {
      assert (a + b)[0] == a[0];
      assert (a + b)[1..] == a[1..] + b;
      FilterAppend(a[1..], b, lowerQuery);
    } else {
      assert a + b == b;
    }
  }

  /** A single section is kept exactly when it matches. */
  lemma FilterSingleton(s: Section, lowerQuery: string)
    ensures Filter([s], lowerQuery) == if SectionMatches(s, lowerQuery) then [s] else []
  {
    assert [s][1..] == [];
  }

  /** Filtering a list without duplicates yields a list without duplicates. */
  lemma {:induction false} FilterNoDuplicates(sections: seq<Section>, lowerQuery: string)
    requires NoDuplicates(sections)
    ensures NoDuplicates(Filter(sections, lowerQuery))
  {
    if sections != [] {
      var tail := sections[1..];
      assert NoDuplicates(tail) by {
        forall i, j | 0 <= i < j < |tail|
          ensures tail[i] != tail[j]
        {
          assert tail[i] == sections[i + 1] && tail[j] == sections[j + 1];
        }
      }
      FilterNoDuplicates(tail, lowerQuery);
      assert sections[0] !in tail by {
        forall k | 0 <= k < |tail| ensures tail[k] != sections[0] {
          assert tail[k] == sections[k + 1];
        }
      }
      assert sections[0] !in Filter(tail, lowerQuery);
    }
  }

  /** The site's search never lists a section twice. */
  lemma SearchContentNoDuplicates(query: string)
    ensures NoDuplicates(SearchContent(query))
  {
    ContentSectionIdsDistinct();
    if !IsBlank(query) {
      TrimEmptyIffBlank(query);
      FilterNoDuplicates(ContentSections, ToLowerCase(query));
    }
  }

  /** Queries that differ only in the case of ASCII letters give the same results. */
  lemma SearchCaseInsensitive(q1: string, q2: string, sections: seq<Section>)
    requires ToLowerCase(q1) == ToLowerCase(q2)
    ensures Search(q1, sections) == Search(q2, sections)
  {
    LowerKeepsBlank(q1, q2);
    TrimEmptyIffBlank(q1);
    TrimEmptyIffBlank(q2);
  }

  /** A field matching a longer lower-cased query matches any part of it. */
  lemma SectionMatchesWeaken(s: Section, shorter: string, longer: string)
    requires Includes(longer, shorter)
    requires SectionMatches(s, longer)
    ensures SectionMatches(s, shorter)
  {
    forall field | FieldMatches(field, longer)
      ensures FieldMatches(field, shorter)
    {
      IncludesTransitive(shorter, longer, ToLowerCase(field));
    }
  }

  /**
   * Typing more narrows the results: when q1 is not blank and occurs in q2,
   * every result for q2 is a result for q1.
   */
  lemma SearchNarrows(q1: string, q2: string, sections: seq<Section>)
    requires !IsBlank(q1)
    requires Includes(q2, q1)
    ensures forall s :: s in Search(q2, sections) ==> s in Search(q1, sections)
  {
    LowerPreservesIncludes(q2, q1);
    forall s | s in Search(q2, sections)
      ensures s in Search(q1, sections)
    {
      SectionMatchesWeaken(s, ToLowerCase(q1), ToLowerCase(q2));
    }
  }

  /** Surrounding spaces take part in the match: a section reading "x" matches "x" but not "x ". */
  lemma PaddedQueryNotTrimmed()
    ensures var s := Section("x", "x", None, TextKind, Text("x"), None, None);
      Search("x", [s]) == [s] && Search("x ", [s]) == []
  {
    var s := Section("x", "x", None, TextKind, Text("x"), None, None);
    assert OccursAt(ToLowerCase("x"), ToLowerCase("x"), 0);
    assert !IsBlank("x") by { assert !IsWhiteSpace("x"[0]); }
    assert !IsBlank("x ") by { assert !IsWhiteSpace("x "[0]); }
    NotIncludesLonger(ToLowerCase("x"), ToLowerCase("x "));
    assert !SectionMatches(s, ToLowerCase("x "));
  }

  /** What the results pane shows. */
  datatype Pane = Prompt | NoMatches(query: string) | Listing(results: seq<Section>)

  /** The prompt only for the empty query, "No matches" for an empty result list. */
  function ResultsPane(query: string, results: seq<Section>): (p: Pane)
    ensures p.Prompt? <==> query == ""
    ensures p.NoMatches? <==> query != "" && results == []
    ensures p.Listing? ==> p.results == results
  {
    if query == "" then Prompt
    else if results == [] then NoMatches(query)
    else Listing(results)
  }

  /** A non-empty, white-space-only query shows "No matches" rather than the prompt. */
  lemma BlankQueryShowsNoMatches(query: string, sections: seq<Section>)
    requires query != "" && IsBlank(query)
    ensures ResultsPane(query, Search(query, sections)) == NoMatches(query)
  {
  }
}
