/** The manager dashboard (`app/dashboard/page.tsx`): a one-box search over the fixture,
    the availability tallies, the category badges of each row, and a list/profile view. */
module DashboardPage {
  import opened Seqs
  import opened Text
  import opened Types
  import ArtistsPage

  /** The row test: the term in the name, the location or a tag; the bio is not consulted. */
  predicate SearchMatches(a: Artist, term: string)
  {
    || ContainsIgnoringCase(a.name, term)
    || ContainsIgnoringCase(a.location, term)
    || ArtistsPage.SomeTagContains(a.category, term)
  }

  function MatchesTerm(term: string): Artist -> bool
  {
    a => SearchMatches(a, term)
  }

  /** `filteredArtists`; unlike the browse page there is no `!term ||` short cut. */
  function SearchResults(artists: seq<Artist>, term: string): (r: seq<Artist>)
    ensures IsSubsequence(r, artists)
    ensures forall a :: a in r <==> a in artists && SearchMatches(a, term)
  {
    FilterIsSubsequence(artists, MatchesTerm(term));
    forall a ensures a in Filter(artists, MatchesTerm(term)) <==> a in artists && SearchMatches(a, term) {
      FilterMembership(artists, MatchesTerm(term), a);
    }
    Filter(artists, MatchesTerm(term))
  }

  /** The rows are an order-preserving sub-sequence of the fixture, and an artist is a row
      exactly when the term occurs in its name, location or one of its tags. */
  lemma SearchResultsSpec(artists: seq<Artist>, term: string, a: Artist)
    ensures IsSubsequence(SearchResults(artists, term), artists)
    ensures a in SearchResults(artists, term)
            <==> a in artists && (ContainsIgnoringCase(a.name, term) || ContainsIgnoringCase(a.location, term)
                                  || ArtistsPage.SomeTagContains(a.category, term))
  {
    FilterIsSubsequence(artists, MatchesTerm(term));
    FilterMembership(artists, MatchesTerm(term), a);
  }

  /** Every string contains "", so an empty search box lists every artist. */
  lemma EmptyTermListsAll(artists: seq<Artist>)
    ensures SearchResults(artists, "") == artists
  {
    forall i | 0 <= i < |artists| ensures MatchesTerm("")(artists[i]) {
      ContainsIgnoringCaseEmpty(artists[i].name);
    }
    FilterAllPass(artists, MatchesTerm(""));
  }

  /** The bio plays no part in the dashboard search. */
  lemma BioNotSearched(a: Artist, term: string, bio: string)
    ensures SearchMatches(a, term) == SearchMatches(a.(bio := bio), term)
  {
  }

  /** On the browse page the same term would also find the artist through its bio, and on
      the dashboard through its location: the two searches look at different fields. */
  lemma SearchesDiffer(a: Artist)
    requires a.name == "Asha" && a.category == ["Singer"] && a.bio == "Mumbai" && a.location == "Delhi"
    ensures !SearchMatches(a, "Mumbai") && SearchMatches(a, "Delhi")
    ensures ArtistsPage.MatchesSearch(a, FilterState("", "", "", "Mumbai"))
    ensures !ArtistsPage.MatchesSearch(a, FilterState("", "", "", "Delhi"))
  {
    WitnessFound();
    WitnessMissing();
    forall i | 0 <= i < |a.category|
      ensures !ContainsIgnoringCase(a.category[i], "Mumbai") && !ContainsIgnoringCase(a.category[i], "Delhi")
    {
      assert a.category[i] == "Singer";
    }
  }

  /** The witness strings of `SearchesDiffer` that the case-folded test finds. */
  lemma WitnessFound()
    ensures ContainsIgnoringCase("Mumbai", "Mumbai") && ContainsIgnoringCase("Delhi", "Delhi")
  {
    assert Lower("Mumbai") == "mumbai" && Lower("Delhi") == "delhi";
    assert "mumbai" <= "mumbai" && "delhi" <= "delhi";
  }

  /** The witness strings of `SearchesDiffer` that the case-folded test does not find: the
      needle's first letter is missing from the string searched. */
  lemma WitnessMissing()
    ensures !ContainsIgnoringCase("Asha", "Mumbai") && !ContainsIgnoringCase("Asha", "Delhi")
    ensures !ContainsIgnoringCase("Singer", "Mumbai") && !ContainsIgnoringCase("Singer", "Delhi")
    ensures !ContainsIgnoringCase("Delhi", "Mumbai") && !ContainsIgnoringCase("Mumbai", "Delhi")
  {
    assert LowerChar('M') == 'm' && LowerChar('D') == 'd';
    assert Lower("Asha") == "asha" && Lower("Singer") == "singer";
    assert Lower("Mumbai") == "mumbai" && Lower("Delhi") == "delhi";
    MissingFirstCharNotFound("Asha", "Mumbai");
    MissingFirstCharNotFound("Asha", "Delhi");
    MissingFirstCharNotFound("Singer", "Mumbai");
    MissingFirstCharNotFound("Singer", "Delhi");
    MissingFirstCharNotFound("Delhi", "Mumbai");
    MissingFirstCharNotFound("Mumbai", "Delhi");
  }

  function HasAvailability(av: Availability): Artist -> bool
  {
    (a: Artist) => a.availability == av
  }

  /** `artists.filter(a => a.availability === av).length`. */
  function AvailabilityCount(artists: seq<Artist>, av: Availability): nat
  {
    |Filter(artists, HasAvailability(av))|
  }

  /** Availability takes exactly two values, so the Available and Busy tallies add up to
      the Total Artists figure. */
  lemma AvailableAndBusyCoverAll(artists: seq<Artist>)
    ensures AvailabilityCount(artists, Available) + AvailabilityCount(artists, Busy) == |artists|
  {
    FilterPartition(artists, HasAvailability(Available), HasAvailability(Busy));
  }

  /** `category.slice(0, 2)`: the tags shown as badges. */
  function VisibleBadges(tags: seq<string>): (r: seq<string>)
    ensures r <= tags
    ensures |r| == if |tags| < 2 then |tags| else 2
  {
    if |tags| <= 2 then tags else tags[..2]
  }

  /** The "+n" badge, shown only when more than two tags exist. */
  function OverflowBadge(tags: seq<string>): (r: Option<nat>)
    ensures r.Some? <==> |tags| > 2
  {
    if |tags| > 2 then Some(|tags| - 2) else None
  }

  /** The badges account for every tag exactly once: the visible ones plus the overflow
      figure give the number of tags, and nothing hidden is shown. */
  lemma BadgesAccountForAllTags(tags: seq<string>)
    ensures |VisibleBadges(tags)| + (match OverflowBadge(tags) case Some(n) => n case None => 0) == |tags|
    ensures VisibleBadges(tags) + tags[|VisibleBadges(tags)|..] == tags
  {
  }

  /** The dashboard's state: the fixture (never written), the search box and the artist
      whose profile is open, if any. */
  class View {
    const artists: seq<Artist>
    var searchTerm: string
    var selectedArtist: Option<Artist>

    constructor (artists: seq<Artist>)
      ensures this.artists == artists && searchTerm == "" && selectedArtist == None
      ensures Shown() == artists
    {
      this.artists := artists;
      searchTerm := "";
      selectedArtist := None;
      EmptyTermListsAll(artists);
    }

    /** The table's rows. */
    function Shown(): seq<Artist>
      reads this
    {
      SearchResults(artists, searchTerm)
    }

    /** `if (selectedArtist)`: the profile replaces the list. */
    function ShowsProfile(): bool
      reads this
    {
      selectedArtist.Some?
    }

    /** "No artists found matching your search." under the table. */
    function ShowsEmptyState(): bool
      reads this
    {
      |Shown()| == 0
    }

    /** The search box's onChange. */
    method SetSearchTerm(t: string)
      modifies this
      ensures searchTerm == t && selectedArtist == old(selectedArtist)
    {
      searchTerm := t;
    }

    /** `handleViewProfile`: the View button of a row. */
    method ViewProfile(a: Artist)
      modifies this
      ensures selectedArtist == Some(a) && ShowsProfile()
      ensures searchTerm == old(searchTerm)
    {
      selectedArtist := Some(a);
    }

    /** "Back to Dashboard": the list again, with the search as it was. */
    method Back()
      modifies this
      ensures selectedArtist == None && !ShowsProfile()
      ensures searchTerm == old(searchTerm) && Shown() == old(Shown())
    {
      selectedArtist := None;
    }

    /** `handleAction(action, id)`: the artist the action is for, looked up by id; the
        state is not changed. */
    method HandleAction(id: string) returns (r: Option<Artist>)
      ensures r == FindById(artists, id)
    {
      r := FindById(artists, id);
    }
  }
}
