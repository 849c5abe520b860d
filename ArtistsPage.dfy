/** The browse page (`app/artists/page.tsx`): the four-field filter over the fixture,
    the criteria read from the URL, and the page state that holds them. */
module ArtistsPage {
  import opened Seqs
  import opened Text
  import opened Types
  import opened FilterSidebar

  /** `tags.some(cat => cat.toLowerCase().includes(needle.toLowerCase()))`. */
  predicate SomeTagContains(tags: seq<string>, needle: string)
  {
    exists i :: 0 <= i < |tags| && ContainsIgnoringCase(tags[i], needle)
  }

  predicate MatchesCategory(a: Artist, f: FilterState)
  {
    f.category == "" || SomeTagContains(a.category, f.category)
  }

  predicate MatchesLocation(a: Artist, f: FilterState)
  {
    f.location == "" || ContainsIgnoringCase(a.location, f.location)
  }

  /** The one field compared by plain, case-sensitive equality. */
  predicate MatchesPriceRange(a: Artist, f: FilterState)
  {
    f.priceRange == "" || a.priceRange == f.priceRange
  }

  /** The search term looks at the name, the bio and the tags, never at the location. */
  predicate MatchesSearch(a: Artist, f: FilterState)
  {
    || f.searchTerm == ""
    || ContainsIgnoringCase(a.name, f.searchTerm)
    || ContainsIgnoringCase(a.bio, f.searchTerm)
    || SomeTagContains(a.category, f.searchTerm)
  }

  /** The callback given to `artists.filter`. */
  predicate Keep(a: Artist, f: FilterState)
  {
    MatchesCategory(a, f) && MatchesLocation(a, f) && MatchesPriceRange(a, f) && MatchesSearch(a, f)
  }

  function KeepUnder(f: FilterState): Artist -> bool
  {
    a => Keep(a, f)
  }

  /** `filteredArtists`. */
  function FilteredArtists(artists: seq<Artist>, f: FilterState): (r: seq<Artist>)
    ensures IsSubsequence(r, artists)
    ensures forall a :: a in r <==> a in artists && Keep(a, f)
  {
    FilterIsSubsequence(artists, KeepUnder(f));
    forall a ensures a in Filter(artists, KeepUnder(f)) <==> a in artists && Keep(a, f) {
      FilterMembership(artists, KeepUnder(f), a);
    }
    Filter(artists, KeepUnder(f))
  }

  /** The result is an order-preserving sub-sequence: nothing is added, repeated or moved. */
  lemma FilteredIsSubsequence(artists: seq<Artist>, f: FilterState)
    ensures IsSubsequence(FilteredArtists(artists, f), artists)
    ensures multiset(FilteredArtists(artists, f)) <= multiset(artists)
  {
    FilterIsSubsequence(artists, KeepUnder(f));
    SubsequenceMultiset(FilteredArtists(artists, f), artists);
  }

  /** An artist is listed exactly when it is in the fixture and all four tests pass. */
  lemma FilteredMembership(artists: seq<Artist>, f: FilterState, a: Artist)
    ensures a in FilteredArtists(artists, f)
            <==> a in artists && MatchesCategory(a, f) && MatchesLocation(a, f)
                 && MatchesPriceRange(a, f) && MatchesSearch(a, f)
  {
    FilterMembership(artists, KeepUnder(f), a);
  }

  /** With every field empty the page lists the whole fixture, in order. */
  lemma NoCriteriaKeepsAll(artists: seq<Artist>)
    ensures FilteredArtists(artists, ClearFilters()) == artists
  {
    FilterAllPass(artists, KeepUnder(ClearFilters()));
  }

  /** Setting a field that was empty can only shrink the result. */
  lemma NarrowingShrinks(artists: seq<Artist>, f: FilterState, k: FilterKey, v: string)
    requires Get(f, k) == ""
    ensures IsSubsequence(FilteredArtists(artists, UpdateFilter(f, k, v)), FilteredArtists(artists, f))
  {
    FilterStronger(artists, KeepUnder(UpdateFilter(f, k, v)), KeepUnder(f));
  }

  /** Clearing a field can only grow the result. */
  lemma ClearingWidens(artists: seq<Artist>, f: FilterState, k: FilterKey)
    ensures IsSubsequence(FilteredArtists(artists, f), FilteredArtists(artists, UpdateFilter(f, k, "")))
  {
    FilterStronger(artists, KeepUnder(f), KeepUnder(UpdateFilter(f, k, "")));
  }

  /** Two price ranges that differ only in letter case do not match each other. */
  lemma PriceRangeIsCaseSensitive(a: Artist, v: string)
    requires v != "" && SameUpToCase(v, a.priceRange) && v != a.priceRange
    ensures !Keep(a, UpdateFilter(ClearFilters(), PriceRange, v))
  {
  }

  /** A location criterion that differs from the artist's location only in letter case
      matches it. */
  lemma LocationIgnoresCase(a: Artist, v: string)
    requires SameUpToCase(v, a.location)
    ensures Keep(a, UpdateFilter(ClearFilters(), Location, v))
  {
    ContainsIgnoringCaseSlice(a.location, v, 0, |a.location|);
    assert a.location[0..|a.location|] == a.location;
  }

  /** The category test asks whether a tag contains the filter, not the other way round:
      a filter longer than every tag of the artist excludes it. */
  lemma LongCategoryFilterExcludes(a: Artist, f: FilterState)
    requires f.category != ""
    requires forall i :: 0 <= i < |a.category| ==> |a.category[i]| < |f.category|
    ensures !Keep(a, f)
  {
    forall i | 0 <= i < |a.category| ensures !ContainsIgnoringCase(a.category[i], f.category) {
      if ContainsIgnoringCase(a.category[i], f.category) {
        ContainsLength(Lower(a.category[i]), Lower(f.category));
      }
    }
  }

  /** Any slice of the name, in any letter case, finds the artist. */
  lemma SearchFindsNameSlice(artists: seq<Artist>, a: Artist, t: string, i: int, j: int)
    requires a in artists
    requires 0 <= i <= j <= |a.name| && SameUpToCase(t, a.name[i..j])
    ensures a in FilteredArtists(artists, UpdateFilter(ClearFilters(), SearchTerm, t))
  {
    ContainsIgnoringCaseSlice(a.name, t, i, j);
    FilteredMembership(artists, UpdateFilter(ClearFilters(), SearchTerm, t), a);
  }

  /** Where the location field is empty, the artist's location plays no part. */
  lemma SearchIgnoresLocation(a: Artist, f: FilterState, loc: string)
    requires f.location == ""
    ensures Keep(a, f) == Keep(a.(location := loc), f)
  {
  }

  /** `searchParams.get(key) || ""`: a missing parameter and an empty one both give "". */
  function Param(params: map<string, string>, key: string): string
  {
    if key in params then params[key] else ""
  }

  /** The initial criteria, read from the `category`, `location`, `priceRange` and
      `search` parameters of the URL. */
  function InitialFilters(params: map<string, string>): FilterState
  {
    FilterState(Param(params, "category"), Param(params, "location"),
                Param(params, "priceRange"), Param(params, "search"))
  }

  /** The page starts with an active filter exactly when one of its four parameters is
      present and non-empty; the search term is read from `search`, not `searchTerm`. */
  lemma InitialFiltersFromParams(params: map<string, string>)
    ensures HasActiveFilters(InitialFilters(params)) <==>
              exists key :: key in params && key in ["category", "location", "priceRange", "search"]
                            && params[key] != ""
    ensures InitialFilters(map["searchTerm" := "x"]) == ClearFilters()
    ensures InitialFilters(map[]) == ClearFilters()
  {
    var f := InitialFilters(params);
    if HasActiveFilters(f) {
      var k :| Get(f, k) != "";
      match k
      case Category => assert "category" in ["category", "location", "priceRange", "search"];
      case Location => assert "location" in ["category", "location", "priceRange", "search"];
      case PriceRange => assert "priceRange" in ["category", "location", "priceRange", "search"];
      case SearchTerm => assert "search" in ["category", "location", "priceRange", "search"];
    }
    if exists key :: key in params && key in ["category", "location", "priceRange", "search"]
                     && params[key] != "" {
      var key :| key in params && key in ["category", "location", "priceRange", "search"]
                 && params[key] != "";
      if key == "category" { assert Get(f, Category) != ""; }
      else if key == "location" { assert Get(f, Location) != ""; }
      else if key == "priceRange" { assert Get(f, PriceRange) != ""; }
      else { assert Get(f, SearchTerm) != ""; }
    }
  }

  /** A worked case: of a singer in Mumbai and a DJ in Delhi, the category "Sing" keeps
      only the singer. */
  lemma SingFilterKeepsOnlyTheSinger(asha: Artist, nova: Artist)
    requires asha.category == ["Singer"] && nova.category == ["DJ"]
    ensures FilteredArtists([asha, nova], UpdateFilter(ClearFilters(), Category, "Sing")) == [asha]
  {
    var f := UpdateFilter(ClearFilters(), Category, "Sing");
    assert Lower("Singer") == "singer" && Lower("Sing") == "sing" && Lower("DJ") == "dj";
    assert Contains("singer", "sing");
    assert !Contains("dj", "sing") by {
      ContainsNeedsFirstChar("dj", "sing");
    }
    assert SomeTagContains(asha.category, "Sing") by {
      assert ContainsIgnoringCase(asha.category[0], "Sing");
    }
    assert KeepUnder(f)(asha) && !KeepUnder(f)(nova);
    assert [asha, nova][1..] == [nova] && [nova][1..] == [];
    assert Filter([nova], KeepUnder(f)) == [];
    assert Filter([asha, nova], KeepUnder(f)) == [asha] + Filter([nova], KeepUnder(f));
  }

  /** The browse page's state: the fixture (never written) and the current criteria. */
  class View {
    const artists: seq<Artist>
    var filters: FilterState

    constructor (artists: seq<Artist>, params: map<string, string>)
      ensures this.artists == artists && filters == InitialFilters(params)
    {
      this.artists := artists;
      filters := InitialFilters(params);
    }

    /** The artists the page lists. */
    function Shown(): seq<Artist>
      reads this
    {
      FilteredArtists(artists, filters)
    }

    /** "No artists found", with its "Clear all filters" button, replaces the list. */
    function ShowsEmptyState(): bool
      reads this
    {
      |Shown()| == 0
    }

    /** The small cross on an active-filter badge: `clearFilter(key)`. */
    method ClearFilter(k: FilterKey)
      modifies this
      ensures filters == UpdateFilter(old(filters), k, "")
      ensures IsSubsequence(old(Shown()), Shown())
    {
      ClearingWidens(artists, filters, k);
      filters := UpdateFilter(filters, k, "");
    }

    /** The empty state's "Clear all filters" button. */
    method ClearAll()
      modifies this
      ensures filters == ClearFilters()
      ensures Shown() == artists
    {
      filters := ClearFilters();
      NoCriteriaKeepsAll(artists);
    }

    /** `onFiltersChange={setFilters}`: the sidebar's new state replaces the criteria. */
    method ChangeFilters(f: FilterState)
      modifies this
      ensures filters == f
    {
      filters := f;
    }

    /** `handleQuoteRequest`: the artist the quote goes to, found by id. */
    method RequestQuote(id: string) returns (r: Option<Artist>)
      ensures r == FindById(artists, id)
    {
      r := FindById(artists, id);
    }
  }
}
