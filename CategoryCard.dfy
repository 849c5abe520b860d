/** The home page's category cards (`components/custom/CategoryCard.tsx`): a
    case-insensitive classification of the category name that picks the icon and the
    gradient, and the "Explore" link into the browse page. */
module CategoryCard {
  import opened Text
  import opened Types
  import opened FilterSidebar
  import ArtistsPage

  /** The `switch` arms shared by `getIcon` and `getGradient`. */
  datatype Family = Singers | Dancers | Speakers | DJs | Other

  /** `switch (categoryName.toLowerCase())`: singular and plural share an arm. */
  function FamilyOf(name: string): Family
  {
    var n := Lower(name);
    if n == "singer" || n == "singers" then Singers
    else if n == "dancer" || n == "dancers" then Dancers
    else if n == "speaker" || n == "speakers" then Speakers
    else if n == "dj" || n == "djs" then DJs
    else Other
  }

  datatype Icon = Mic | Users | Megaphone | Music

  /** `getIcon`. */
  function GetIcon(name: string): Icon
  {
    match FamilyOf(name)
    case Singers => Mic
    case Dancers => Users
    case Speakers => Megaphone
    case DJs => Music
    case Other => Users
  }

  const DefaultGradient: string := "from-gray-400 to-gray-600"

  /** `getGradient`. */
  function GetGradient(name: string): string
  {
    match FamilyOf(name)
    case Singers => "from-pink-400 to-purple-600"
    case Dancers => "from-blue-400 to-cyan-600"
    case Speakers => "from-green-400 to-emerald-600"
    case DJs => "from-orange-400 to-red-600"
    case Other => DefaultGradient
  }

  /** Letter case never changes the classification, hence neither the icon nor the gradient. */
  lemma ClassificationIgnoresCase(a: string, b: string)
    requires SameUpToCase(a, b)
    ensures FamilyOf(a) == FamilyOf(b) && GetIcon(a) == GetIcon(b) && GetGradient(a) == GetGradient(b)
  {
    SameUpToCaseLower(a, b);
  }

  /** The singular and the plural of each family, in any case, fall in the same arm, and an
      upper-case name is recognised too. */
  lemma SingularAndPluralAgree()
    ensures FamilyOf("singer") == FamilyOf("singers") == FamilyOf("SINGERS") == Singers
    ensures FamilyOf("dancer") == FamilyOf("dancers") == Dancers
    ensures FamilyOf("speaker") == FamilyOf("speakers") == Speakers
    ensures FamilyOf("dj") == FamilyOf("djs") == FamilyOf("DJs") == DJs
  {
    assert Lower("SINGERS") == "singers";
    assert Lower("DJs") == "djs";
    assert Lower("dancer") == "dancer" && Lower("dancers") == "dancers";
    assert Lower("speaker") == "speaker" && Lower("speakers") == "speakers";
  }

  /** Any other name falls to the default arm: the Users icon and the grey gradient. */
  lemma UnknownNamesGetTheDefault(name: string)
    requires Lower(name) !in ["singer", "singers", "dancer", "dancers", "speaker", "speakers", "dj", "djs"]
    ensures FamilyOf(name) == Other
    ensures GetIcon(name) == Users && GetGradient(name) == DefaultGradient
  {
  }

  /** The gradient tells all five arms apart: two names share a gradient exactly when they
      fall in the same arm. */
  lemma GradientSeparatesFamilies(a: string, b: string)
    ensures GetGradient(a) == GetGradient(b) <==> FamilyOf(a) == FamilyOf(b)
  {
  }

  /** The icon does not: dancers and unknown names share the Users icon, and that is the
      only collision. */
  lemma IconMergesDancersWithDefault(a: string, b: string)
    ensures GetIcon(a) == GetIcon(b) <==>
              FamilyOf(a) == FamilyOf(b)
              || (FamilyOf(a) in {Dancers, Other} && FamilyOf(b) in {Dancers, Other})
    ensures GetIcon("Dancers") == GetIcon("Jugglers")
  {
    assert FamilyOf("Dancers") == Dancers by { assert Lower("Dancers") == "dancers"; }
    assert FamilyOf("Jugglers") == Other by { assert Lower("Jugglers") == "jugglers"; }
  }

  /** The "Explore" link: `href?category=<name>`, carrying the name exactly as shown, in its
      own letter case (its percent-encoding is undone by the browse page's URL parsing). */
  function ExploreParams(category: string): map<string, string>
  {
    map["category" := category]
  }

  /** Following the link opens the browse page filtered on that category and nothing else. */
  lemma ExploreOpensCategoryFilter(category: string)
    ensures ArtistsPage.InitialFilters(ExploreParams(category)) == UpdateFilter(ClearFilters(), Category, category)
  {
  }

  /** The names the home page gives its four cards. */
  const HomeCardNames: seq<string> := ["Singers", "Dancers", "Speakers", "DJs"]

  /** The entry of the category list that is each family's tag. */
  function FamilyTag(f: Family): string
  {
    match f
    case Singers => "Singer"
    case Dancers => "Dancer"
    case Speakers => "Speaker"
    case DJs => "DJ"
    case Other => ""
  }

  /** As written, every home-page card's link excludes an artist tagged with that family's
      own category entry: the browse page asks whether the tag contains the filter, and the
      singular tag is shorter than the plural card name. */
  lemma ExploreLinkMissesItsOwnTag(i: nat, a: Artist)
    requires i < |HomeCardNames|
    requires a.category == [FamilyTag(FamilyOf(HomeCardNames[i]))]
    ensures FamilyTag(FamilyOf(HomeCardNames[i])) in CATEGORIES
    ensures !ArtistsPage.Keep(a, ArtistsPage.InitialFilters(ExploreParams(HomeCardNames[i])))
  {
    var name := HomeCardNames[i];
    assert FamilyOf(name) != Other && |FamilyTag(FamilyOf(name))| < |name| by {
      assert Lower("Singers") == "singers" && Lower("Dancers") == "dancers";
      assert Lower("Speakers") == "speakers" && Lower("DJs") == "djs";
    }
    ArtistsPage.LongCategoryFilterExcludes(a, ArtistsPage.InitialFilters(ExploreParams(name)));
  }

  /** The evidently intended link: for a known family, the family's own category entry;
      any other name as it is. */
  function IntendedExploreParams(category: string): map<string, string>
  {
    var f := FamilyOf(category);
    map["category" := if f == Other then category else FamilyTag(f)]
  }

  /** With the intended link, a card of a known family keeps every artist that carries the
      family's tag, whatever else the artist is. */
  lemma IntendedExploreKeepsItsTag(category: string, a: Artist)
    requires FamilyOf(category) != Other
    requires FamilyTag(FamilyOf(category)) in a.category
    ensures ArtistsPage.Keep(a, ArtistsPage.InitialFilters(IntendedExploreParams(category)))
  {
    var tag := FamilyTag(FamilyOf(category));
    var k :| 0 <= k < |a.category| && a.category[k] == tag;
    ContainsIgnoringCaseSlice(a.category[k], tag, 0, |tag|);
    assert a.category[k][0..|tag|] == tag;
  }
}
