/**
 * Frontend/src/components/ResourceSearchBar.jsx: search suggestions, the
 * search filter over the resource list, the filter updaters and the count
 * of active filters.
 *
 * The component works on a fixed list of resources and a fixed list of
 * subjects; both are parameters here, with the component's own lists as
 * constants.
 */
module SearchBar {

  import opened Wrappers
  import opened Text

  /** A resource of the component's list; `kind` is its `type`. */
  datatype Item = Item(
    id: int, title: string, kind: string, author: Option<string>, subject: Option<string>,
    format: string, price: int, year: int)

  /** One suggestion, by the group that produced it. */
  datatype Suggestion =
    | TitleSuggestion(text: string, item: Item)
    | AuthorSuggestion(text: string, item: Item)
    | SubjectSuggestion(text: string)

  const MockItems: seq<Item> := [
    Item(1, "Advanced Calculus Textbook", "book", Some("James Stewart"), None, "physical", 500, 2020),
    Item(2, "Machine Learning Notes", "notes", None, Some("Computer Science"), "digital", 100, 2023),
    Item(3, "Quantum Physics Research Paper", "research_paper", None, None, "digital", 0, 2024),
    Item(4, "MBA Thesis on Marketing", "thesis", None, None, "digital", 200, 2022),
    Item(5, "Nature Journal Issue 2024", "journal", None, None, "physical", 150, 2024),
    Item(6, "MATLAB Software License", "software", None, None, "digital", 1000, 2024)]

  const Subjects: seq<string> := [
    "Mathematics", "Physics", "Chemistry", "Biology", "Computer Science", "Engineering", "Medicine",
    "Business", "Economics", "Psychology", "Literature", "History", "Philosophy"]

  const MaxSuggestions: nat := 8

  /** `text.toLowerCase().includes(query.toLowerCase())`. */
  predicate MatchesText(text: string, query: string)
  {
    Contains(Lower(text), Lower(query))
  }

  /** `resource.author && resource.author.toLowerCase().includes(...)`. */
  predicate AuthorMatches(item: Item, query: string)
  {
    item.author.Some? && item.author.value != "" && MatchesText(item.author.value, query)
  }

  function TitleSuggestions(items: seq<Item>, query: string): seq<Suggestion>
  {
    if items == [] then []
    else
      var last := items[|items| - 1];
      TitleSuggestions(items[..|items| - 1], query)
        + (if MatchesText(last.title, query) then [TitleSuggestion(last.title, last)] else [])
  }

  function AuthorSuggestions(items: seq<Item>, query: string): seq<Suggestion>
  {
    if items == [] then []
    else
      var last := items[|items| - 1];
      AuthorSuggestions(items[..|items| - 1], query)
        + (if AuthorMatches(last, query) then [AuthorSuggestion("by " + last.author.value, last)] else [])
  }

  function SubjectSuggestions(subjects: seq<string>, query: string): seq<Suggestion>
  {
    if subjects == [] then []
    else
      var last := subjects[|subjects| - 1];
      SubjectSuggestions(subjects[..|subjects| - 1], query)
        + (if MatchesText(last, query) then [SubjectSuggestion(last)] else [])
  }

  /** `suggestions.slice(0, n)`. */
  function Take<T>(s: seq<T>, n: nat): (r: seq<T>)
    ensures |r| <= n && |r| <= |s|
    ensures r == s[..|r|]
    ensures |s| <= n ==> r == s
  {
    if |s| <= n then s else s[..n]
  }

  /** getSearchSuggestions: nothing for a blank query; titles, then authors, then subjects, at most 8. */
  function Suggestions(items: seq<Item>, subjects: seq<string>, query: string): (out: seq<Suggestion>)
    ensures |out| <= MaxSuggestions
    ensures IsBlank(query) ==> out == []
  {
    if IsBlank(query) then []
    else Take(TitleSuggestions(items, query) + AuthorSuggestions(items, query)
              + SubjectSuggestions(subjects, query), MaxSuggestions)
  }

  /** The group a suggestion belongs to, in output order. */
  function Rank(s: Suggestion): nat
  {
    match s
    case TitleSuggestion(_, _) => 0
    case AuthorSuggestion(_, _) => 1
    case SubjectSuggestion(_) => 2
  }

  /**
   * The title group is exactly one suggestion per listed resource whose
   * title contains the query, ignoring case, showing that title.
   */
  lemma {:induction false} TitleSuggestionsExact(items: seq<Item>, query: string)
    ensures forall s :: s in TitleSuggestions(items, query) ==>
      s.TitleSuggestion? && s.item in items && s.text == s.item.title && MatchesText(s.item.title, query)
    ensures forall it :: it in items && MatchesText(it.title, query) ==>
      TitleSuggestion(it.title, it) in TitleSuggestions(items, query)
  {
    if items != [] {
      TitleSuggestionsExact(items[..|items| - 1], query);
      assert items == items[..|items| - 1] + [items[|items| - 1]];
    }
  }

  /**
   * The author group is exactly one suggestion "by <author>" per listed
   * resource with an author that contains the query.
   */
  lemma {:induction false} AuthorSuggestionsExact(items: seq<Item>, query: string)
    ensures forall s :: s in AuthorSuggestions(items, query) ==>
      s.AuthorSuggestion? && s.item in items && AuthorMatches(s.item, query) && s.text == "by " + s.item.author.value
    ensures forall it :: it in items && AuthorMatches(it, query) ==>
      AuthorSuggestion("by " + it.author.value, it) in AuthorSuggestions(items, query)
  {
    if items != [] {
      AuthorSuggestionsExact(items[..|items| - 1], query);
      assert items == items[..|items| - 1] + [items[|items| - 1]];
    }
  }

  /** The subject group is exactly the listed subjects that contain the query. */
  lemma {:induction false} SubjectSuggestionsExact(subjects: seq<string>, query: string)
    ensures forall s :: s in SubjectSuggestions(subjects, query) ==>
      s.SubjectSuggestion? && s.text in subjects && MatchesText(s.text, query)
    ensures forall u :: u in subjects && MatchesText(u, query) ==> SubjectSuggestion(u) in SubjectSuggestions(subjects, query)
  {
    if subjects != [] {
      SubjectSuggestionsExact(subjects[..|subjects| - 1], query);
      assert subjects == subjects[..|subjects| - 1] + [subjects[|subjects| - 1]];
    }
  }

  /**
   * Within a group, source order is kept: the suggestions drawn from an
   * earlier part of the list all come before those from a later part.
   */
  lemma {:induction false} TitleSuggestionsSplit(xs: seq<Item>, ys: seq<Item>, query: string)
    ensures TitleSuggestions(xs + ys, query) == TitleSuggestions(xs, query) + TitleSuggestions(ys, query)
  {
    if ys != [] {
      var init := ys[..|ys| - 1];
      TitleSuggestionsSplit(xs, init, query);
      assert (xs + ys)[..|xs + ys| - 1] == xs + init;
    } else {
      assert xs + ys == xs;
    }
  }

  lemma {:induction false} AuthorSuggestionsSplit(xs: seq<Item>, ys: seq<Item>, query: string)
    ensures AuthorSuggestions(xs + ys, query) == AuthorSuggestions(xs, query) + AuthorSuggestions(ys, query)
  {
    if ys != [] {
      var init := ys[..|ys| - 1];
      AuthorSuggestionsSplit(xs, init, query);
      assert (xs + ys)[..|xs + ys| - 1] == xs + init;
    } else {
      assert xs + ys == xs;
    }
  }

  lemma {:induction false} SubjectSuggestionsSplit(xs: seq<string>, ys: seq<string>, query: string)
    ensures SubjectSuggestions(xs + ys, query) == SubjectSuggestions(xs, query) + SubjectSuggestions(ys, query)
  {
    if ys != [] {
      var init := ys[..|ys| - 1];
      SubjectSuggestionsSplit(xs, init, query);
      assert (xs + ys)[..|xs + ys| - 1] == xs + init;
    } else {
      assert xs + ys == xs;
    }
  }

  /**
   * The suggestions: none for an empty or blank query; otherwise the first
   * 8 of all matches (fewer only when there are fewer matches), grouped
   * titles first, then authors, then subjects; each one drawn from a source
   * string that contains the query, and, when no more than 8 match, every
   * match among them.
   */
  lemma SuggestionsProperties(items: seq<Item>, subjects: seq<string>, query: string)
    ensures var out := Suggestions(items, subjects, query);
      var all := TitleSuggestions(items, query) + AuthorSuggestions(items, query) + SubjectSuggestions(subjects, query);
      && (IsBlank(query) ==> out == [])
      && |out| <= MaxSuggestions
      && (!IsBlank(query) ==> |out| == if |all| < MaxSuggestions then |all| else MaxSuggestions)
      && (!IsBlank(query) ==> out == all[..|out|])
      && (!IsBlank(query) && |all| <= MaxSuggestions ==>
            && (forall it :: it in items && MatchesText(it.title, query) ==> TitleSuggestion(it.title, it) in out)
            && (forall it :: it in items && AuthorMatches(it, query) ==>
                  AuthorSuggestion("by " + it.author.value, it) in out)
            && (forall u :: u in subjects && MatchesText(u, query) ==> SubjectSuggestion(u) in out))
      && (forall i, j :: 0 <= i < j < |out| ==> Rank(out[i]) <= Rank(out[j]))
      && (forall s :: s in out && s.TitleSuggestion? ==> s.item in items && MatchesText(s.item.title, query))
      && (forall s :: s in out && s.AuthorSuggestion? ==>
            s.item in items && AuthorMatches(s.item, query) && s.text == "by " + s.item.author.value)
      && (forall s :: s in out && s.SubjectSuggestion? ==> s.text in subjects && MatchesText(s.text, query))
  {
    var t := TitleSuggestions(items, query);
    var a := AuthorSuggestions(items, query);
    var u := SubjectSuggestions(subjects, query);
    TitleSuggestionsExact(items, query);
    AuthorSuggestionsExact(items, query);
    SubjectSuggestionsExact(subjects, query);
    var all := t + a + u;
    forall i, j | 0 <= i < j < |all|
      ensures Rank(all[i]) <= Rank(all[j])
    {
      assert all[i] in t || all[i] in a || all[i] in u;
      assert all[j] in t || all[j] in a || all[j] in u;
      if i >= |t| {
        assert all[i] in a || all[i] in u;
      }
      if j < |t| + |a| {
        assert all[j] in t || all[j] in a;
      }
      if i >= |t| + |a| {
        assert all[i] in u;
        assert all[j] in u;
      } else if j < |t| {
        assert all[i] in t && all[j] in t;
      }
    }
    if !IsBlank(query) {
      var out := Take(all, MaxSuggestions);
      forall s | s in out
        ensures s in all
      {
        var k :| 0 <= k < |out| && out[k] == s;
        assert all[k] == s;
      }
    }
  }

  /** getSearchSuggestions: three passes pushing into one list, then the first 8. */
  method GetSearchSuggestions(items: seq<Item>, subjects: seq<string>, query: string)
    returns (out: seq<Suggestion>)
    ensures out == Suggestions(items, subjects, query)
  {
    if IsBlank(query) {
      return [];
    }
    var suggestions: seq<Suggestion> := [];
    var i := 0;
    while i < |items|
      invariant 0 <= i <= |items|
      invariant suggestions == TitleSuggestions(items[..i], query)
    {
      var item := items[i];
      if MatchesText(item.title, query) {
        suggestions := suggestions + [TitleSuggestion(item.title, item)];
      }
      assert items[..i + 1][..i] == items[..i];
      i := i + 1;
    }
    assert items[..|items|] == items;
    ghost var titles := suggestions;
    i := 0;
    while i < |items|
      invariant 0 <= i <= |items|
      invariant suggestions == titles + AuthorSuggestions(items[..i], query)
    {
      var item := items[i];
      if item.author.Some? && item.author.value != "" && MatchesText(item.author.value, query) {
        suggestions := suggestions + [AuthorSuggestion("by " + item.author.value, item)];
      }
      assert items[..i + 1][..i] == items[..i];
      i := i + 1;
    }
    ghost var titlesAndAuthors := suggestions;
    i := 0;
    while i < |subjects|
      invariant 0 <= i <= |subjects|
      invariant suggestions == titlesAndAuthors + SubjectSuggestions(subjects[..i], query)
    {
      var subject := subjects[i];
      if MatchesText(subject, query) {
        suggestions := suggestions + [SubjectSuggestion(subject)];
      }
      assert subjects[..i + 1][..i] == subjects[..i];
      i := i + 1;
    }
    assert subjects[..|subjects|] == subjects;
    if |suggestions| <= MaxSuggestions {
      out := suggestions;
    } else {
      out := suggestions[..MaxSuggestions];
    }
  }

  // ---------------------------------------------------------------------
  // Filters
  // ---------------------------------------------------------------------

  /** `{ min, max }`; bounds are strings from inputs, "" when unset. */
  datatype Range = Range(min: string, max: string)

  datatype Filters = Filters(
    resourceType: string, format: string, priceRange: Range, location: string,
    yearRange: Range, availability: string, academicLevel: string, subject: string)

  /** The initial filters, and what clearFilters restores. */
  const EmptyFilters: Filters := Filters("", "", Range("", ""), "", Range("", ""), "", "", "")

  /** The fields `handleFilterChange` is called with. */
  datatype FilterName = ResourceType | Format | Location | Availability | AcademicLevel | Subject

  datatype Bound = Min | Max

  function FilterValue(f: Filters, name: FilterName): string
  {
    match name
    case ResourceType => f.resourceType
    case Format => f.format
    case Location => f.location
    case Availability => f.availability
    case AcademicLevel => f.academicLevel
    case Subject => f.subject
  }

  /** handleFilterChange: only the named field changes. */
  function HandleFilterChange(f: Filters, name: FilterName, value: string): (r: Filters)
    ensures FilterValue(r, name) == value
    ensures forall other :: other != name ==> FilterValue(r, other) == FilterValue(f, other)
    ensures r.priceRange == f.priceRange && r.yearRange == f.yearRange
  {
    match name
    case ResourceType => f.(resourceType := value)
    case Format => f.(format := value)
    case Location => f.(location := value)
    case Availability => f.(availability := value)
    case AcademicLevel => f.(academicLevel := value)
    case Subject => f.(subject := value)
  }

  function WithBound(r: Range, bound: Bound, value: string): Range
  {
    if bound == Min then r.(min := value) else r.(max := value)
  }

  /** handlePriceRangeChange: only the chosen bound of the price range changes. */
  function HandlePriceRangeChange(f: Filters, bound: Bound, value: string): (r: Filters)
    ensures bound == Min ==> r.priceRange.min == value && r.priceRange.max == f.priceRange.max
    ensures bound == Max ==> r.priceRange.max == value && r.priceRange.min == f.priceRange.min
    ensures r.(priceRange := f.priceRange) == f
  {
    f.(priceRange := WithBound(f.priceRange, bound, value))
  }

  /** handleYearRangeChange: only the chosen bound of the year range changes. */
  function HandleYearRangeChange(f: Filters, bound: Bound, value: string): (r: Filters)
    ensures bound == Min ==> r.yearRange.min == value && r.yearRange.max == f.yearRange.max
    ensures bound == Max ==> r.yearRange.max == value && r.yearRange.min == f.yearRange.min
    ensures r.(yearRange := f.yearRange) == f
  {
    f.(yearRange := WithBound(f.yearRange, bound, value))
  }

  /** One point per active filter; a range counts once when either bound is set. */
  function ActiveCount(f: Filters): nat
  {
    (if f.resourceType != "" then 1 else 0)
    + (if f.format != "" then 1 else 0)
    + (if f.priceRange.min != "" || f.priceRange.max != "" then 1 else 0)
    + (if f.location != "" then 1 else 0)
    + (if f.yearRange.min != "" || f.yearRange.max != "" then 1 else 0)
    + (if f.availability != "" then 1 else 0)
    + (if f.academicLevel != "" then 1 else 0)
    + (if f.subject != "" then 1 else 0)
  }

  /** getActiveFiltersCount: a counter incremented once per active filter. */
  method GetActiveFiltersCount(f: Filters) returns (count: nat)
    ensures count == ActiveCount(f)
    ensures count <= 8
    ensures count == 0 <==> f == EmptyFilters
  {
    count := 0;
    if f.resourceType != "" { count := count + 1; }
    if f.format != "" { count := count + 1; }
    if f.priceRange.min != "" || f.priceRange.max != "" { count := count + 1; }
    if f.location != "" { count := count + 1; }
    if f.yearRange.min != "" || f.yearRange.max != "" { count := count + 1; }
    if f.availability != "" { count := count + 1; }
    if f.academicLevel != "" { count := count + 1; }
    if f.subject != "" { count := count + 1; }
  }

  /** After clearFilters no filter is active, and setting one named filter makes exactly it active. */
  lemma ClearedFiltersInactive(name: FilterName, value: string)
    ensures ActiveCount(EmptyFilters) == 0
    ensures ActiveCount(HandleFilterChange(EmptyFilters, name, value)) == if value == "" then 0 else 1
  {
  }

  // ---------------------------------------------------------------------
  // Search
  // ---------------------------------------------------------------------

  /** The query test of handleSearch: an empty query matches everything. */
  predicate MatchesQuery(item: Item, query: string)
  {
    || query == ""
    || MatchesText(item.title, query)
    || AuthorMatches(item, query)
    || (item.subject.Some? && item.subject.value != "" && MatchesText(item.subject.value, query))
  }

  predicate MatchesFilters(item: Item, f: Filters)
  {
    && (f.resourceType == "" || item.kind == f.resourceType)
    && (f.format == "" || item.format == f.format)
  }

  /** The results handleSearch counts. */
  function SearchResults(items: seq<Item>, query: string, f: Filters): (results: seq<Item>)
    ensures |results| <= |items|
    ensures forall it :: it in results ==> it in items && MatchesQuery(it, query) && MatchesFilters(it, f)
  {
    if items == [] then []
    else
      var last := items[|items| - 1];
      SearchResults(items[..|items| - 1], query, f)
        + (if MatchesQuery(last, query) && MatchesFilters(last, f) then [last] else [])
  }

  /**
   * The results are exactly the listed resources that match the query, the
   * type and the format; with an empty query and no type or format filter,
   * every resource is a result.
   */
  lemma {:induction false} SearchResultsExact(items: seq<Item>, query: string, f: Filters)
    ensures forall it :: it in SearchResults(items, query, f) <==>
      it in items && MatchesQuery(it, query) && MatchesFilters(it, f)
    ensures |SearchResults(items, query, f)| <= |items|
    ensures query == "" && f.resourceType == "" && f.format == "" ==> SearchResults(items, query, f) == items
  {
    if items != [] {
      var init := items[..|items| - 1];
      SearchResultsExact(init, query, f);
      assert items == init + [items[|items| - 1]];
    }
  }
}
