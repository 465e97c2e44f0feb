/**
 * The search bar's contextual filter string: a language clause for the current locale and,
 * when the page has tags, a tag clause, joined by ` && `.
 */
module SearchFilters {
  import opened Wrappers
  import opened Strings

  /** `parts.filter((e) => e)`: drops the absent parts and the empty strings. */
  function Truthy(parts: seq<Option<string>>): (r: seq<string>)
    ensures |r| <= |parts|
    ensures forall k :: 0 <= k < |r| ==> r[k] != ""
    ensures forall s :: s != "" ==> (s in r <==> Some(s) in parts)
  {
    if |parts| == 0 then []
    else
      var rest := Truthy(parts[1..]);
      assert parts == [parts[0]] + parts[1..];
      match parts[0]
      case Some(s) => if s != "" then [s] + rest else rest
      case None => rest
  }

  /**
   * The filter keeps order and repetitions: filtering a concatenation filters each half, so the
   * kept strings are exactly the present non-empty parts, in their order.
   */
  lemma {:induction false} TruthyAppend(p: seq<Option<string>>, q: seq<Option<string>>)
    ensures Truthy(p + q) == Truthy(p) + Truthy(q)
  {
    if |p| > 0 {
      assert (p + q)[0] == p[0] && (p + q)[1..] == p[1..] + q;
      TruthyAppend(p[1..], q);
    } else {
      assert p + q == q;
    }
  }

  /** A single part is kept exactly when it is present and non-empty. */
  lemma TruthyOne(part: Option<string>)
    ensures Truthy([part]) == if part.Some? && part.value != "" then [part.value] else []
  {
    assert [part][1..] == [];
  }

  /** The language clause. */
  function LanguageFilter(locale: string): string {
    "language:=" + locale
  }

  /** The tag clause: the tags joined by commas, in brackets. */
  function TagsClause(tags: seq<string>): string {
    "docusaurus_tag:=[" + Join(tags, ",") + "]"
  }

  /** The tag clause, present only when there are tags. */
  function TagsFilter(tags: seq<string>): (r: Option<string>)
    ensures r.Some? <==> |tags| > 0
  {
    if |tags| > 0 then Some(TagsClause(tags)) else None
  }

  /** `useTypesenseContextualFilters` for the given locale and tags. */
  function ContextualFilters(locale: string, tags: seq<string>): string {
    Join(Truthy([Some(LanguageFilter(locale)), TagsFilter(tags)]), " && ")
  }

  /** The language clause, which is never empty, survives the filter in first place. */
  lemma TruthyClauses(locale: string, tags: seq<string>)
    ensures Truthy([Some(LanguageFilter(locale)), TagsFilter(tags)]) ==
      if |tags| > 0 then [LanguageFilter(locale), TagsFilter(tags).value] else [LanguageFilter(locale)]
  {
    var parts := [Some(LanguageFilter(locale)), TagsFilter(tags)];
    assert LanguageFilter(locale)[0] == 'l';
    assert parts[1..] == [TagsFilter(tags)];
    assert parts[1..][1..] == [];
    if |tags| > 0 {
      assert TagsFilter(tags).value[0] == 'd';
    }
  }

  /** Without tags the filter is exactly the language clause. */
  lemma FiltersNoTags(locale: string)
    ensures ContextualFilters(locale, []) == "language:=" + locale
  {
    TruthyClauses(locale, []);
  }

  /** With tags the filter is the language clause, ` && `, and the tags joined by commas in brackets. */
  lemma FiltersWithTags(locale: string, tags: seq<string>)
    requires |tags| > 0
    ensures ContextualFilters(locale, tags) == "language:=" + locale + " && " + TagsClause(tags)
  {
    TruthyClauses(locale, tags);
    var a := LanguageFilter(locale);
    var b := TagsFilter(tags).value;
    assert ContextualFilters(locale, tags) == Join([a, b], " && ");
    assert [a, b][1..] == [b];
    assert Join([a, b], " && ") == a + " && " + b;
  }

  /** The filter always starts with the language clause for the locale. */
  lemma FiltersStartWithLanguage(locale: string, tags: seq<string>)
    ensures StartsWith(ContextualFilters(locale, tags), "language:=" + locale)
  {
    if |tags| > 0 {
      FiltersWithTags(locale, tags);
      var r := ContextualFilters(locale, tags);
      assert r[..|"language:=" + locale|] == "language:=" + locale;
    } else {
      FiltersNoTags(locale);
      assert tags == [];
    }
  }

  /**
   * The tag clause lists the tags in input order: splitting the bracketed text at its commas
   * gives the tags back, as long as no tag itself holds a comma.
   */
  lemma FiltersTagOrder(locale: string, tags: seq<string>)
    requires |tags| > 0
    requires forall k :: 0 <= k < |tags| ==> ',' !in tags[k]
    ensures exists listed ::
      (ContextualFilters(locale, tags) == "language:=" + locale + " && " + ("docusaurus_tag:=[" + listed + "]")
       && Split(listed, ',') == tags)
  {
    FiltersWithTags(locale, tags);
    SplitJoin(tags, ',');
    var listed := Join(tags, ",");
    assert TagsClause(tags) == "docusaurus_tag:=[" + listed + "]";
  }
}
