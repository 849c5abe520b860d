/** The records and fixed option lists of `src/types/index.ts`. */
module Types {
  import opened Seqs

  datatype Option<T> = None | Some(value: T)

  /** `availability` is one of exactly two strings. */
  datatype Availability = Available | Busy

  /** One performer of the bundled, read-only fixture. */
  datatype Artist = Artist(
    id: string,
    name: string,
    category: seq<string>,
    bio: string,
    priceRange: string,
    location: string,
    languages: seq<string>,
    profileImage: string,
    rating: real,
    experience: string,
    availability: Availability)

  /** The browse criteria: four strings, where "" means "no constraint". */
  datatype FilterState = FilterState(
    category: string,
    location: string,
    priceRange: string,
    searchTerm: string)

  /** `keyof FilterState`. */
  datatype FilterKey = Category | Location | PriceRange | SearchTerm

  /** `filters[key]`. */
  function Get(f: FilterState, k: FilterKey): string
  {
    match k
    case Category => f.category
    case Location => f.location
    case PriceRange => f.priceRange
    case SearchTerm => f.searchTerm
  }

  /** `Object.values(filters)`, in the order the fields are declared. */
  function Values(f: FilterState): (vs: seq<string>)
    ensures |vs| == 4
    ensures forall k :: Get(f, k) in vs
    ensures forall i :: 0 <= i < 4 ==> exists k :: vs[i] == Get(f, k)
  {
    var vs := [f.category, f.location, f.priceRange, f.searchTerm];
    assert vs[0] == Get(f, Category) && vs[1] == Get(f, Location);
    assert vs[2] == Get(f, PriceRange) && vs[3] == Get(f, SearchTerm);
    vs
  }

  /** A picked file: only its name and size are ever read. */
  datatype FileRef = FileRef(name: string, size: nat)

  /** The registration form's data. */
  datatype ArtistFormData = ArtistFormData(
    name: string,
    bio: string,
    category: seq<string>,
    languages: seq<string>,
    feeRange: string,
    location: string,
    profileImage: Option<FileRef>)

  const CATEGORIES: seq<string> := [
    "Singer", "Dancer", "Speaker", "DJ", "Performer",
    "Choreographer", "Music Producer", "Motivational Coach", "Event Host", "Wellness Coach"]

  const LOCATIONS: seq<string> := [
    "Mumbai", "Delhi", "Bangalore", "Pune", "Jaipur",
    "Gurgaon", "Hyderabad", "Chennai", "Kolkata", "Ahmedabad"]

  const PRICE_RANGES: seq<string> := [
    "₹0 - ₹25,000", "₹25,000 - ₹50,000", "₹50,000 - ₹1,00,000",
    "₹1,00,000 - ₹2,00,000", "₹2,00,000+"]

  const LANGUAGES: seq<string> := [
    "English", "Hindi", "Marathi", "Tamil", "Telugu", "Kannada",
    "Bengali", "Gujarati", "Punjabi", "Malayalam", "Rajasthani", "Konkani"]

  lemma CategoriesDistinct()
    ensures |CATEGORIES| == 10 && NoDup(CATEGORIES)
    ensures forall i :: 0 <= i < |CATEGORIES| ==> CATEGORIES[i] != ""
  {
  }

  lemma LocationsDistinct()
    ensures |LOCATIONS| == 10 && NoDup(LOCATIONS)
    ensures forall i :: 0 <= i < |LOCATIONS| ==> LOCATIONS[i] != ""
  {
  }

  lemma PriceRangesDistinct()
    ensures |PRICE_RANGES| == 5 && NoDup(PRICE_RANGES)
    ensures forall i :: 0 <= i < |PRICE_RANGES| ==> PRICE_RANGES[i] != ""
  {
  }

  lemma LanguagesDistinct()
    ensures |LANGUAGES| == 12 && NoDup(LANGUAGES)
    ensures forall i :: 0 <= i < |LANGUAGES| ==> LANGUAGES[i] != ""
  {
  }

  /** `artists.find(a => a.id === id)`, the lookup behind the quote request on the browse
      page and every action on the dashboard: the first artist carrying `id`, if any. */
  function FindById(artists: seq<Artist>, id: string): (r: Option<Artist>)
    ensures r.None? <==> forall i :: 0 <= i < |artists| ==> artists[i].id != id
    ensures r.Some? ==> exists k :: 0 <= k < |artists| && artists[k] == r.value && artists[k].id == id
                                    && forall j :: 0 <= j < k ==> artists[j].id != id
  {
    if artists == [] then None
    else if artists[0].id == id then Some(artists[0])
    else
      var r := FindById(artists[1..], id);
      assert r.Some? ==> exists k :: 0 <= k < |artists[1..]| && artists[1..][k] == r.value
                                   && artists[1..][k].id == id
                                   && (forall j :: 0 <= j < k ==> artists[1..][j].id != id)
                                   && artists[k + 1] == r.value
                                   && (forall j :: 0 <= j < k + 1 ==> artists[j].id != id);
      r
  }
}
