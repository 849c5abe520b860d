/** The browse page's filter sidebar (`components/custom/FilterSidebar.tsx`): it never
    holds criteria of its own, it only computes the next `FilterState` from the current one
    and hands it to the page. */
module FilterSidebar {
  import opened Seqs
  import opened Types

  /** `updateFilter(key, value)`: `{...filters, [key]: value}`. */
  function UpdateFilter(f: FilterState, k: FilterKey, v: string): (r: FilterState)
    ensures Get(r, k) == v
    ensures forall k' :: k' != k ==> Get(r, k') == Get(f, k')
  {
    match k
    case Category => f.(category := v)
    case Location => f.(location := v)
    case PriceRange => f.(priceRange := v)
    case SearchTerm => f.(searchTerm := v)
  }

  /** `clearFilters()`: every field back to "". */
  function ClearFilters(): (r: FilterState)
    ensures forall k :: Get(r, k) == ""
  {
    FilterState("", "", "", "")
  }

  /** The test `value !== ""` applied to each field. */
  function IsSet(v: string): bool
  {
    v != ""
  }

  /** `hasActiveFilters`: some value of the state is not "". */
  function HasActiveFilters(f: FilterState): (b: bool)
    ensures b <==> exists k :: Get(f, k) != ""
  {
    var vs := Values(f);
    exists i :: 0 <= i < |vs| && IsSet(vs[i])
  }

  /** The badge on the mobile toggle: `Object.values(filters).filter(v => v !== "").length`. */
  function ActiveFilterCount(f: FilterState): nat
  {
    |Filter(Values(f), IsSet)|
  }

  function Indicator(b: bool): nat
  {
    if b then 1 else 0
  }

  /** The badge counts the set fields one by one. */
  lemma ActiveCountPerField(f: FilterState)
    ensures ActiveFilterCount(f) == Indicator(f.category != "") + Indicator(f.location != "")
                                    + Indicator(f.priceRange != "") + Indicator(f.searchTerm != "")
  {
    var vs := Values(f);
    assert vs == [f.category] + ([f.location] + ([f.priceRange] + [f.searchTerm]));
    CountCons(f.category, [f.location] + ([f.priceRange] + [f.searchTerm]));
    CountCons(f.location, [f.priceRange] + [f.searchTerm]);
    CountCons(f.priceRange, [f.searchTerm]);
    CountCons(f.searchTerm, []);
  }

  lemma CountCons(v: string, vs: seq<string>)
    ensures |Filter([v] + vs, IsSet)| == Indicator(IsSet(v)) + |Filter(vs, IsSet)|
  {
    assert ([v] + vs)[0] == v && ([v] + vs)[1..] == vs;
  }

  /** The count lies between 0 and 4 and is positive exactly when the active flag is set. */
  lemma ActiveCountMatchesFlag(f: FilterState)
    ensures ActiveFilterCount(f) <= 4
    ensures ActiveFilterCount(f) > 0 <==> HasActiveFilters(f)
  {
    ActiveCountPerField(f);
    if f.category != "" { assert Get(f, Category) != ""; }
    if f.location != "" { assert Get(f, Location) != ""; }
    if f.priceRange != "" { assert Get(f, PriceRange) != ""; }
    if f.searchTerm != "" { assert Get(f, SearchTerm) != ""; }
  }

  /** Clearing leaves nothing active. */
  lemma ClearedIsInactive()
    ensures !HasActiveFilters(ClearFilters()) && ActiveFilterCount(ClearFilters()) == 0
  {
    ActiveCountMatchesFlag(ClearFilters());
  }

  /** The entries a button row offers for a field; the search field has a text box instead. */
  function Row(k: FilterKey): seq<string>
  {
    match k
    case Category => CATEGORIES
    case Location => LOCATIONS
    case PriceRange => PRICE_RANGES
    case SearchTerm => []
  }

  /** The buttons of a row in display order: "All …" (the value "") first, then the list. */
  function Buttons(k: FilterKey): seq<string>
  {
    [""] + Row(k)
  }

  /** What the sidebar lets the visitor do. */
  datatype SidebarAction =
    | TypeSearch(text: string)              // the search box's onChange
    | PickAll(key: FilterKey)              // an "All Categories/Locations/Price Ranges" button
    | PickEntry(key: FilterKey, index: nat) // the index-th button of a row
    | ClearAll                             // the "Clear All" button

  /** The action is one the sidebar actually renders. */
  predicate Offered(a: SidebarAction)
  {
    match a
    case PickAll(k) => k != SearchTerm
    case PickEntry(k, i) => i < |Row(k)|
    case _ => true
  }

  /** The state the sidebar hands to `onFiltersChange` for an action. */
  function Apply(f: FilterState, a: SidebarAction): FilterState
    requires Offered(a)
  {
    match a
    case TypeSearch(t) => UpdateFilter(f, SearchTerm, t)
    case PickAll(k) => UpdateFilter(f, k, "")
    case PickEntry(k, i) => UpdateFilter(f, k, Row(k)[i])
    case ClearAll => ClearFilters()
  }

  /** A run of sidebar actions, each applied to the state the previous one produced. */
  function Run(f: FilterState, actions: seq<SidebarAction>): FilterState
    requires forall i :: 0 <= i < |actions| ==> Offered(actions[i])
    decreases |actions|
  {
    if actions == [] then f else Run(Apply(f, actions[0]), actions[1..])
  }

  /** Every list-backed field is "" or an entry of its list. */
  predicate FromLists(f: FilterState)
  {
    forall k :: k != SearchTerm ==> Get(f, k) == "" || Get(f, k) in Row(k)
  }

  /** One sidebar action keeps the list-backed fields within their lists. */
  lemma ApplyKeepsFromLists(f: FilterState, a: SidebarAction)
    requires FromLists(f) && Offered(a)
    ensures FromLists(Apply(f, a))
  {
    match a
    case TypeSearch(t) =>
    case PickAll(k) =>
    case PickEntry(k, i) =>
      assert Row(k)[i] in Row(k);
    case ClearAll =>
  }

  /** Whatever the current state holds, a button of a row writes "" or an entry of that
      row's list into the row's field. */
  lemma PickWritesFromList(f: FilterState, a: SidebarAction)
    requires Offered(a) && (a.PickAll? || a.PickEntry?)
    ensures Get(Apply(f, a), a.key) == "" || Get(Apply(f, a), a.key) in Row(a.key)
  {
    if a.PickEntry? {
      assert Row(a.key)[a.index] in Row(a.key);
    }
  }

  /** Starting from list-backed values, nothing the sidebar does produces a category,
      location or price range outside the fixed lists. */
  lemma {:induction false} RunKeepsFromLists(f: FilterState, actions: seq<SidebarAction>)
    requires FromLists(f)
    requires forall i :: 0 <= i < |actions| ==> Offered(actions[i])
    ensures FromLists(Run(f, actions))
    decreases |actions|
  {
    if actions != [] {
      ApplyKeepsFromLists(f, actions[0]);
      RunKeepsFromLists(Apply(f, actions[0]), actions[1..]);
    }
  }

  /** `variant={filters[key] === entry ? "default" : "outline"}`: exact equality. */
  function IsSelected(f: FilterState, k: FilterKey, entry: string): bool
  {
    Get(f, k) == entry
  }

  function SelectedIn(f: FilterState, k: FilterKey): string -> bool
  {
    entry => IsSelected(f, k, entry)
  }

  /** A row shows exactly one selected button when its field holds "" or a list entry,
      and none otherwise (for instance "Singers", which no button carries). */
  lemma SelectedButtons(f: FilterState, k: FilterKey)
    requires k != SearchTerm
    ensures |Filter(Buttons(k), SelectedIn(f, k))|
            == if Get(f, k) == "" || Get(f, k) in Row(k) then 1 else 0
  {
    CategoriesDistinct();
    LocationsDistinct();
    PriceRangesDistinct();
    assert "" !in Row(k);
    NoDupCons("", Row(k));
    FilterSingle(Buttons(k), SelectedIn(f, k), Get(f, k));
  }
}
