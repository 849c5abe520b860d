# Artistly front-end, modelled in Dafny

Artistly is a booking site for performers. It bundles a read-only list of artists, and its
front end has four screens:

- **Browse page** (`/artists`): narrows the list by category, location, price range and a
  free-text search. The sidebar sets these criteria, and the page reads its first criteria
  from the URL.
- **Manager dashboard** (`/dashboard`): searches the same list through a single box. It shows
  the availability tallies, up to two category badges per row and a "+n" badge for the rest,
  and opens an artist's profile.
- **Registration form** (`/onboard`): a schema validates what the artist enters; submission
  is simulated.
- **Home page cards**: each card picks an icon and a gradient from its category name and links
  into the browse page.

The model keeps the logic of these screens and drops their rendering:

| Logic | Modelled as |
|---|---|
| the filter and search predicates | functions over `seq<Artist>` |
| `Array.filter` | `Seqs.Filter` |
| `String.toLowerCase` and `String.includes` | `Text.Lower` and `Text.Contains` |
| the validation schema | a checker that returns the list of field errors |
| the list/profile toggle of the dashboard | state in a `class View` |
| the filters of the browse page | state in a `class View` |
| the submission flags of the form | state in a `class View` |
| the open flag of the multi-select | state in a `class View` |

Those classes' methods change the fields that the source's state updates change. These come from three places:

- **`useState` setters:** the browse page's filters, the dashboard's search and open profile, the form's two submission flags and its image, and the multi-select's open flag.
- **react-hook-form state:** `OnboardPage.View.data` and `errors`.
- **A prop written back through `onChange`:** `MultiSelect.View.selected` is the `selected` prop. The form stores it through `setValue` (`app/onboard/page.tsx:210-211`).

Files, in dependency order:

| File | What it holds |
|---|---|
| `Seqs.dfy` | `Array.filter` and its laws |
| `Text.dfy` | case folding and substring search |
| `Types.dfy` | the records and fixed lists of `src/types/index.ts` |
| `FilterSidebar.dfy` | the sidebar |
| `ArtistsPage.dfy` | the browse page |
| `DashboardPage.dfy` | the manager dashboard |
| `MultiSelect.dfy` | the multi-select widget |
| `OnboardPage.dfy` | the registration form |
| `CategoryCard.dfy` | the home page's cards and their explore link |

Two behaviours of the code are easy to misread, and the model follows the code:

- Toggling a selected option twice does not always give back the same selection. Unless the option is already last, it moves to the end (`MultiSelect.ToggleTwicePresent`, `MultiSelect.ToggleTwiceLast`).
- The card icons do not tell the five classes apart. Dancers and unknown names share the same icon; only the gradients tell all five apart (`CategoryCard.IconMergesDancersWithDefault`).

## Model

| member | source | states |
|---|---|---|
| Seqs.Filter | artistly-app-main/src/app/artists/page.tsx:28 | `Array.filter` never lengthens the list, and every element it keeps passes the test |
| Seqs.FilterMembership | artistly-app-main/src/app/artists/page.tsx:28 | an element is kept exactly when it is in the list and passes the test |
| Seqs.FilterMultiplicity | artistly-app-main/src/components/custom/MultiSelect.tsx:31 | filtering keeps every copy of an element that passes the test and no copy of one that fails it |
| Seqs.FilterIsSubsequence | artistly-app-main/src/app/artists/page.tsx:28 | the result is an order-preserving sub-sequence of the input |
| Seqs.SubsequenceMultiset | artistly-app-main/src/app/artists/page.tsx:28 | a sub-sequence adds and repeats no element |
| Seqs.FilterAllPass | artistly-app-main/src/app/artists/page.tsx:28 | when every element passes, the result is the input itself |
| Seqs.FilterConcat | artistly-app-main/src/components/custom/MultiSelect.tsx:31-33 | filtering a concatenation is concatenating the filtered parts |
| Seqs.FilterStronger | artistly-app-main/src/app/artists/page.tsx:28-44 | a stronger test keeps a sub-sequence of what a weaker test keeps |
| Seqs.FilterPartition | artistly-app-main/src/app/dashboard/page.tsx:198-214 | a test and its negation split the input's length between them |
| Seqs.FilterNoDup | artistly-app-main/src/components/custom/MultiSelect.tsx:31 | filtering a duplicate-free list leaves it duplicate-free |
| Seqs.FilterSingle | artistly-app-main/src/components/custom/FilterSidebar.tsx:113-123 | in a duplicate-free list, a test that singles out one value keeps one element if the value is present and none if not |
| Seqs.NoDupCons | artistly-app-main/src/types/index.ts:40-87 | a list with a head is duplicate-free exactly when the head is absent from the tail and the tail is duplicate-free |
| Text.Contains | artistly-app-main/src/app/artists/page.tsx:30 | no ensures of its own: `includes`, characterised both ways by `Text.ContainsOccurs` |
| Text.ContainsIgnoringCase | artistly-app-main/src/app/artists/page.tsx:30 | no ensures of its own: `toLowerCase().includes(needle.toLowerCase())`, characterised by `Text.ContainsIgnoringCaseSlice`, `Text.MissingFirstCharNotFound` and `Text.ContainsIgnoringCaseEmpty` |
| Text.Lower | artistly-app-main/src/app/artists/page.tsx:30 | `toLowerCase` keeps the length and lowers each character on its own |
| Text.LowerIdempotent | artistly-app-main/src/app/artists/page.tsx:30 | lowering a lowered string changes nothing |
| Text.SameUpToCaseLower | artistly-app-main/src/components/custom/CategoryCard.tsx:23 | two strings differ only in case exactly when their lowered forms are equal |
| Text.LowerSlice | artistly-app-main/src/app/artists/page.tsx:30 | lowering commutes with taking a slice |
| Text.ContainsLength | artistly-app-main/src/app/artists/page.tsx:30 | `includes` can only succeed when the needle is no longer than the string searched |
| Text.ContainsNeedsFirstChar | artistly-app-main/src/app/artists/page.tsx:30 | a non-empty needle can only be found if its first character occurs in the string searched |
| Text.MissingFirstCharNotFound | artistly-app-main/src/app/dashboard/page.tsx:29-31 | the case-folded test fails when the needle's lowered first letter is absent from the lowered string searched |
| Text.ContainsOccurs | artistly-app-main/src/app/artists/page.tsx:30 | `includes` succeeds exactly when the needle occurs at some index of the string searched |
| Text.ContainsSlice | artistly-app-main/src/app/artists/page.tsx:30 | every slice of a string is contained in it |
| Text.ContainsIgnoringCaseSlice | artistly-app-main/src/app/artists/page.tsx:30-41 | a needle that matches a slice of the string up to case is found by the case-folded search |
| Text.ContainsIgnoringCaseEmpty | artistly-app-main/src/app/dashboard/page.tsx:28-32 | the empty needle is found in every string |
| Types.Values | artistly-app-main/src/app/artists/page.tsx:60 | `Object.values(filters)` holds exactly the four fields |
| Types.CategoriesDistinct | artistly-app-main/src/types/index.ts:40-51 | ten distinct, non-empty categories |
| Types.LocationsDistinct | artistly-app-main/src/types/index.ts:53-64 | ten distinct, non-empty locations |
| Types.PriceRangesDistinct | artistly-app-main/src/types/index.ts:66-72 | five distinct, non-empty price ranges |
| Types.LanguagesDistinct | artistly-app-main/src/types/index.ts:74-87 | twelve distinct, non-empty languages |
| Types.FindById | artistly-app-main/src/app/artists/page.tsx:47-51 | `artists.find` by id: nothing exactly when no artist has the id, otherwise the first artist that has it |
| FilterSidebar.UpdateFilter | artistly-app-main/src/components/custom/FilterSidebar.tsx:23-28 | the chosen field takes the new value and the other three are unchanged |
| FilterSidebar.ClearFilters | artistly-app-main/src/components/custom/FilterSidebar.tsx:30-37 | every field is empty |
| FilterSidebar.HasActiveFilters | artistly-app-main/src/components/custom/FilterSidebar.tsx:39 | true exactly when some field is not empty |
| FilterSidebar.ActiveFilterCount | artistly-app-main/src/components/custom/FilterSidebar.tsx:54 | no ensures of its own: the badge's figure, characterised by `ActiveCountPerField` and `ActiveCountMatchesFlag` |
| FilterSidebar.Apply | artistly-app-main/src/components/custom/FilterSidebar.tsx:72-174 | no ensures of its own: the state handed to `onFiltersChange` by Clear All (72), the search box (93) and the buttons (108, 118, 136, 146, 164, 174), characterised by `ApplyKeepsFromLists` and `PickWritesFromList` |
| FilterSidebar.IsSelected | artistly-app-main/src/components/custom/FilterSidebar.tsx:106-116 | no ensures of its own: a button is highlighted on exact equality, characterised by `SelectedButtons` |
| FilterSidebar.ActiveCountPerField | artistly-app-main/src/components/custom/FilterSidebar.tsx:54 | the badge counts the non-empty fields one by one |
| FilterSidebar.ActiveCountMatchesFlag | artistly-app-main/src/components/custom/FilterSidebar.tsx:39-56 | the badge shows at most 4, and a positive count exactly when the active flag is set |
| FilterSidebar.ClearedIsInactive | artistly-app-main/src/components/custom/FilterSidebar.tsx:30-39 | after "Clear All" nothing is active and the count is 0 |
| FilterSidebar.ApplyKeepsFromLists | artistly-app-main/src/components/custom/FilterSidebar.tsx:90-179 | one click or keystroke keeps category, location and price range each empty or an entry of its list |
| FilterSidebar.PickWritesFromList | artistly-app-main/src/components/custom/FilterSidebar.tsx:105-179 | from any state, a row's button writes "" or an entry of that row's list into the row's field |
| FilterSidebar.RunKeepsFromLists | artistly-app-main/src/components/custom/FilterSidebar.tsx:90-179 | any run of sidebar actions keeps those three fields within their lists |
| FilterSidebar.SelectedButtons | artistly-app-main/src/components/custom/FilterSidebar.tsx:105-179 | a button row highlights exactly one button when its field is empty or a list entry, and none otherwise |
| ArtistsPage.FilteredArtists | artistly-app-main/src/app/artists/page.tsx:27-45 | the listed artists are a sub-sequence of the fixture, and an artist is listed exactly when `Keep` holds for it |
| ArtistsPage.Keep | artistly-app-main/src/app/artists/page.tsx:43 | no ensures of its own: the conjunction of the four tests, characterised by `FilteredMembership` |
| ArtistsPage.MatchesCategory | artistly-app-main/src/app/artists/page.tsx:29-30 | no ensures of its own: no category, or some tag contains it up to case; characterised by `LongCategoryFilterExcludes`, `SingFilterKeepsOnlyTheSinger` |
| ArtistsPage.MatchesLocation | artistly-app-main/src/app/artists/page.tsx:32-33 | no ensures of its own: no location, or the location contains it up to case; characterised by `LocationIgnoresCase` |
| ArtistsPage.MatchesPriceRange | artistly-app-main/src/app/artists/page.tsx:35-36 | no ensures of its own: no price range, or exact equality; characterised by `PriceRangeIsCaseSensitive` |
| ArtistsPage.MatchesSearch | artistly-app-main/src/app/artists/page.tsx:38-41 | no ensures of its own: no term, or the name, bio or a tag contains it up to case; characterised by `SearchFindsNameSlice`, `SearchIgnoresLocation` |
| ArtistsPage.Param | artistly-app-main/src/app/artists/page.tsx:20-23 | no ensures of its own: the parameter's value, or "" when it is missing; characterised by `InitialFiltersFromParams` |
| ArtistsPage.InitialFilters | artistly-app-main/src/app/artists/page.tsx:19-24 | no ensures of its own: the first criteria, characterised by `InitialFiltersFromParams` and `CategoryCard.ExploreOpensCategoryFilter` |
| ArtistsPage.View.ShowsEmptyState | artistly-app-main/src/app/artists/page.tsx:159 | no ensures of its own: "No artists found" when nothing is listed; `View.ClearAll` ensures the whole fixture is shown after its button |
| ArtistsPage.FilteredIsSubsequence | artistly-app-main/src/app/artists/page.tsx:27-45 | the listed artists are an order-preserving sub-sequence of the fixture |
| ArtistsPage.FilteredMembership | artistly-app-main/src/app/artists/page.tsx:27-45 | an artist is listed exactly when all four tests pass |
| ArtistsPage.NoCriteriaKeepsAll | artistly-app-main/src/app/artists/page.tsx:27-45 | with every field empty, the whole fixture is listed in order |
| ArtistsPage.NarrowingShrinks | artistly-app-main/src/app/artists/page.tsx:27-45 | setting a field that was empty can only shrink the list |
| ArtistsPage.ClearingWidens | artistly-app-main/src/app/artists/page.tsx:53-58 | clearing a field can only grow the list |
| ArtistsPage.PriceRangeIsCaseSensitive | artistly-app-main/src/app/artists/page.tsx:35-36 | a price range that differs from the artist's only in letter case does not match |
| ArtistsPage.LocationIgnoresCase | artistly-app-main/src/app/artists/page.tsx:32-33 | a location that differs from the artist's only in letter case matches |
| ArtistsPage.LongCategoryFilterExcludes | artistly-app-main/src/app/artists/page.tsx:29-30 | a category filter longer than every tag of the artist excludes that artist |
| ArtistsPage.SearchFindsNameSlice | artistly-app-main/src/app/artists/page.tsx:38-39 | any slice of the name, in any letter case, finds the artist |
| ArtistsPage.SearchIgnoresLocation | artistly-app-main/src/app/artists/page.tsx:38-41 | the search term never looks at the location |
| ArtistsPage.InitialFiltersFromParams | artistly-app-main/src/app/artists/page.tsx:19-24 | the page starts filtered exactly when one of `category`, `location`, `priceRange` or `search` is present and non-empty; `searchTerm` in the URL is ignored |
| ArtistsPage.SingFilterKeepsOnlyTheSinger | artistly-app-main/src/app/artists/page.tsx:29-30 | the category "Sing" keeps a singer and drops a DJ |
| ArtistsPage.View.constructor | artistly-app-main/src/app/artists/page.tsx:15-24 | the page starts with the fixture and the criteria read from the URL |
| ArtistsPage.View.ClearFilter | artistly-app-main/src/app/artists/page.tsx:53-58 | one field becomes empty, and every artist shown before is still shown, in the same order |
| ArtistsPage.View.ClearAll | artistly-app-main/src/app/artists/page.tsx:170-171 | the empty state's button clears every field and shows the whole fixture |
| ArtistsPage.View.ChangeFilters | artistly-app-main/src/app/artists/page.tsx:78-80 | the sidebar's new state replaces the criteria |
| ArtistsPage.View.RequestQuote | artistly-app-main/src/app/artists/page.tsx:47-51 | the quote goes to the first artist with the id, or to nobody |
| DashboardPage.SearchMatches | artistly-app-main/src/app/dashboard/page.tsx:29-31 | no ensures of its own: the term in the name, location or a tag, characterised by `BioNotSearched` and `SearchesDiffer` |
| DashboardPage.SearchResults | artistly-app-main/src/app/dashboard/page.tsx:28-32 | the rows are a sub-sequence of the fixture, and an artist is a row exactly when `SearchMatches` holds for it |
| DashboardPage.AvailabilityCount | artistly-app-main/src/app/dashboard/page.tsx:198-214 | no ensures of its own: the Available and Busy figures, characterised by `AvailableAndBusyCoverAll` |
| DashboardPage.SearchResultsSpec | artistly-app-main/src/app/dashboard/page.tsx:28-32 | the rows are a sub-sequence of the fixture, and an artist is a row exactly when the term occurs in its name, location or a tag |
| DashboardPage.EmptyTermListsAll | artistly-app-main/src/app/dashboard/page.tsx:24-32 | the empty box lists every artist |
| DashboardPage.BioNotSearched | artistly-app-main/src/app/dashboard/page.tsx:28-32 | the bio plays no part in the dashboard search |
| DashboardPage.SearchesDiffer | artistly-app-main/src/app/dashboard/page.tsx:28-32 | the dashboard finds an artist by location where the browse search does not, and the browse search finds it by bio where the dashboard does not |
| DashboardPage.AvailableAndBusyCoverAll | artistly-app-main/src/app/dashboard/page.tsx:183-214 | the Available and Busy tallies add up to Total Artists |
| DashboardPage.VisibleBadges | artistly-app-main/src/app/dashboard/page.tsx:285-289 | the badges are a prefix of the tags, at most two of them |
| DashboardPage.OverflowBadge | artistly-app-main/src/app/dashboard/page.tsx:290-294 | the "+n" badge is shown exactly when there are more than two tags |
| DashboardPage.BadgesAccountForAllTags | artistly-app-main/src/app/dashboard/page.tsx:285-294 | the visible badges plus the "+n" figure account for every tag, and the hidden tags are exactly the ones after the visible ones |
| DashboardPage.View.constructor | artistly-app-main/src/app/dashboard/page.tsx:23-25 | empty search, no profile open, every artist listed |
| DashboardPage.View.ShowsProfile | artistly-app-main/src/app/dashboard/page.tsx:43 | no ensures of its own: the profile replaces the list when an artist is selected; `ViewProfile` and `Back` ensure it is set and cleared |
| DashboardPage.View.ShowsEmptyState | artistly-app-main/src/app/dashboard/page.tsx:341 | no ensures of its own: the empty-search message when no row matches; the constructor ensures every artist is listed at first |
| DashboardPage.View.SetSearchTerm | artistly-app-main/src/app/dashboard/page.tsx:248 | the box's text becomes the term; the open profile is unchanged |
| DashboardPage.View.ViewProfile | artistly-app-main/src/app/dashboard/page.tsx:39-41 | the chosen artist's profile replaces the list |
| DashboardPage.View.Back | artistly-app-main/src/app/dashboard/page.tsx:50 | back to the list, with the same search and the same rows |
| DashboardPage.View.HandleAction | artistly-app-main/src/app/dashboard/page.tsx:34-37 | the action is for the first artist with the id, or for nobody |
| MultiSelect.Remove | artistly-app-main/src/components/custom/MultiSelect.tsx:37-39 | the option is gone, every other option keeps its membership and its number of copies, and the order is kept |
| MultiSelect.Toggle | artistly-app-main/src/components/custom/MultiSelect.tsx:28-35 | the option's membership flips, the other options keep their number of copies, and an added option goes at the end |
| MultiSelect.RemoveAbsent | artistly-app-main/src/components/custom/MultiSelect.tsx:37-39 | removing an option that is not selected changes nothing |
| MultiSelect.RemoveIdempotent | artistly-app-main/src/components/custom/MultiSelect.tsx:37-39 | removing twice is removing once |
| MultiSelect.ToggleKeepsNoDup | artistly-app-main/src/components/custom/MultiSelect.tsx:28-35 | toggling keeps the selection duplicate-free |
| MultiSelect.RemoveKeepsNoDup | artistly-app-main/src/components/custom/MultiSelect.tsx:37-39 | removing keeps the selection duplicate-free |
| MultiSelect.ToggleTwiceAbsent | artistly-app-main/src/components/custom/MultiSelect.tsx:28-35 | toggling an unselected option twice restores the selection |
| MultiSelect.ToggleTwicePresent | artistly-app-main/src/components/custom/MultiSelect.tsx:28-35 | toggling a selected option twice moves it to the end |
| MultiSelect.ToggleTwiceLast | artistly-app-main/src/components/custom/MultiSelect.tsx:28-35 | an option that is already last is restored in place by toggling it twice |
| MultiSelect.ToggleIsNotAnInvolution | artistly-app-main/src/components/custom/MultiSelect.tsx:28-35 | ["English", "Hindi"] toggled at "English" twice gives ["Hindi", "English"] |
| MultiSelect.ToggleScenario | artistly-app-main/src/components/custom/MultiSelect.tsx:28-35 | removing "Hindi" by a toggle, then adding "Tamil" |
| MultiSelect.View.constructor | artistly-app-main/src/components/custom/MultiSelect.tsx:26 | the dropdown starts closed and the selection empty |
| MultiSelect.View.Checked | artistly-app-main/src/components/custom/MultiSelect.tsx:98 | no ensures of its own: `selected.includes(option)`; `HandleOptionToggle` ensures it flips and `RemoveOption` ensures it is cleared |
| MultiSelect.View.HandleOptionToggle | artistly-app-main/src/components/custom/MultiSelect.tsx:96-99 | the checkbox flips, and the selection stays duplicate-free |
| MultiSelect.View.RemoveOption | artistly-app-main/src/components/custom/MultiSelect.tsx:67-72 | the badge's cross unselects the option, and the selection stays duplicate-free |
| MultiSelect.View.ClickDisplay | artistly-app-main/src/components/custom/MultiSelect.tsx:50-51 | a click opens or closes the dropdown and leaves the selection alone |
| OnboardPage.IsValid | artistly-app-main/src/app/onboard/page.tsx:17-24 | no ensures of its own: the schema's conditions written out field by field, the reference `ValidateAcceptsExactlyValid` checks `Validate` against |
| OnboardPage.Validate | artistly-app-main/src/app/onboard/page.tsx:17-24 | no ensures of its own: the resolver's errors in field order, characterised by `ValidateAcceptsExactlyValid`, `ValidateReportsTextCauses` and `ValidateReportsListCauses` |
| OnboardPage.DefaultFormData | artistly-app-main/src/app/onboard/page.tsx:40-48 | no ensures of its own: `defaultValues`, characterised by `DefaultFormFails` |
| OnboardPage.FieldErrors | artistly-app-main/src/app/onboard/page.tsx:17-24 | each field reports at most one error, and only its own |
| OnboardPage.ReportedByItsField | artistly-app-main/src/app/onboard/page.tsx:17-24 | an error is reported exactly when its own field reports it |
| OnboardPage.ValidateAcceptsExactlyValid | artistly-app-main/src/app/onboard/page.tsx:17-24 | the resolver reports no error exactly when the data meet the schema, and at most six errors otherwise |
| OnboardPage.ValidateReportsTextCauses | artistly-app-main/src/app/onboard/page.tsx:18-19 | each `required` and `min` error of name, bio and location, exactly when its cause holds |
| OnboardPage.ValidateReportsListCauses | artistly-app-main/src/app/onboard/page.tsx:20-22 | each list, item and fee error, exactly when its cause holds |
| OnboardPage.DefaultFormFails | artistly-app-main/src/app/onboard/page.tsx:40-48 | the empty form fails with one `required` error on each of the six fields |
| OnboardPage.NoBioMaximum | artistly-app-main/src/app/onboard/page.tsx:19 | lengthening a valid bio keeps the form valid |
| OnboardPage.FeeRangeNotCheckedAgainstList | artistly-app-main/src/app/onboard/page.tsx:22 | any non-empty fee and any image keep a valid form valid |
| OnboardPage.View.constructor | artistly-app-main/src/app/onboard/page.tsx:27-49 | not submitting, not submitted, no image, the default data |
| OnboardPage.View.SubmitDisabled | artistly-app-main/src/app/onboard/page.tsx:303 | no ensures of its own: `disabled={isSubmitting}`; `Submit` ensures a disabled button does nothing |
| OnboardPage.View.ShowsSuccess | artistly-app-main/src/app/onboard/page.tsx:83 | no ensures of its own: the success card; `ApiCallSettles` and `ResetTimerFires` ensure it is shown and removed |
| OnboardPage.View.Edit | artistly-app-main/src/app/onboard/page.tsx:211-235 | the data change and nothing else does; the image is not written, so it stays the form's image |
| OnboardPage.View.Submit | artistly-app-main/src/app/onboard/page.tsx:53-54 | nothing happens while disabled or submitted; invalid data show exactly the resolver's errors; valid data start the submission |
| OnboardPage.View.ApiCallSettles | artistly-app-main/src/app/onboard/page.tsx:64-65 | submitting ends and the success card shows |
| OnboardPage.View.ResetTimerFires | artistly-app-main/src/app/onboard/page.tsx:68-72 | the success card goes and the form is empty again, with no image |
| OnboardPage.View.UploadImage | artistly-app-main/src/app/onboard/page.tsx:75-81 | only a picked file changes the image, in the page and the form alike |
| OnboardPage.SubmissionCycle | artistly-app-main/src/app/onboard/page.tsx:53-73 | a valid registration runs idle, submitting, submitted, idle, and ends with an empty form |
| CategoryCard.FamilyOf | artistly-app-main/src/components/custom/CategoryCard.tsx:23-35 | no ensures of its own: the `switch` arm of the lowered name, characterised by `SingularAndPluralAgree`, `ClassificationIgnoresCase` and `UnknownNamesGetTheDefault` |
| CategoryCard.GetIcon | artistly-app-main/src/components/custom/CategoryCard.tsx:22-39 | no ensures of its own: characterised by `IconMergesDancersWithDefault` |
| CategoryCard.GetGradient | artistly-app-main/src/components/custom/CategoryCard.tsx:41-58 | no ensures of its own: characterised by `GradientSeparatesFamilies` |
| CategoryCard.ExploreParams | artistly-app-main/src/components/custom/CategoryCard.tsx:89 | no ensures of its own: the link's query, characterised by `ExploreOpensCategoryFilter` |
| CategoryCard.ClassificationIgnoresCase | artistly-app-main/src/components/custom/CategoryCard.tsx:22-58 | letter case changes neither the icon nor the gradient |
| CategoryCard.SingularAndPluralAgree | artistly-app-main/src/components/custom/CategoryCard.tsx:22-58 | singular and plural, in any case, fall in the same arm |
| CategoryCard.UnknownNamesGetTheDefault | artistly-app-main/src/components/custom/CategoryCard.tsx:36-37 | any other name gets the Users icon and the grey gradient |
| CategoryCard.GradientSeparatesFamilies | artistly-app-main/src/components/custom/CategoryCard.tsx:41-58 | two names share a gradient exactly when they fall in the same arm |
| CategoryCard.IconMergesDancersWithDefault | artistly-app-main/src/components/custom/CategoryCard.tsx:22-39 | two names share an icon exactly when they fall in the same arm, or both are dancers or unknown |
| CategoryCard.ExploreOpensCategoryFilter | artistly-app-main/src/components/custom/CategoryCard.tsx:89 | the link opens the browse page filtered on the card's name and on nothing else |
| CategoryCard.ExploreLinkMissesItsOwnTag | artistly-app-main/src/components/custom/CategoryCard.tsx:89 | as written, each home card's link excludes an artist tagged only with that family's own category |
| CategoryCard.IntendedExploreKeepsItsTag | artistly-app-main/src/components/custom/CategoryCard.tsx:89 | with the corrected link, every artist carrying the family's tag is kept |

## Left out

- Rendering, styling, icons as images, and the grid/list `viewMode` toggle. The mobile sidebar's `isFilterOpen` flag is left out too. None of these affects which artists are listed.
- The dashboard's average rating: it is floating-point arithmetic, and it divides by zero on an empty list.
- The star ratings and experience strings: they are only displayed.
- `Text.Lower`: folds ASCII A–Z only; other characters compare unchanged, so the case-insensitive statements hold for ASCII letters only.
- Lengths are counted in characters, not UTF-16 code units. This matters only for text outside the Basic Multilingual Plane.
- `alert` and `console.log` are left out. The quote request and the dashboard actions are modelled as the artist lookup the message names.
- The two timers, the 2-second simulated API call and the 3-second reset, are modelled as separate steps (`ApiCallSettles`, `ResetTimerFires`), not as time.
- The URL: `encodeURIComponent` followed by `useSearchParams` is taken to give back the same string. The URL is modelled as a map from parameter name to value.
- The react-hook-form and yup internals are left out; for example, re-validation on change after the first submit is not modelled. The schema is modelled as the errors it reports.
- The bundled `artists.json` fixture is not part of this model. Every statement holds for any list of artists.
- The home page's `artistCount` and `description` are left out: they are only displayed.
- `ArtistCard`, `Header`, `Footer` and the layout are left out: they display data or link between pages.
- `OnboardPage.View.Edit`: the errors stay as they were between submits. After the first submit, the source re-validates the typed fields (name, bio, location) as they change.
- `OnboardPage.View.Submit`: stops at the start of the simulated call. The rest of `onSubmit` after the `await` is `ApiCallSettles` and `ResetTimerFires`.

## Findings

| source | as written | input that shows it | evidently intended | confidence | as-written member | corrected member |
|---|---|---|---|---|---|---|
| artistly-app-main/src/components/custom/CategoryCard.tsx:89 | The home cards are named "Singers", "Dancers", "Speakers" and "DJs" (`src/app/page.tsx:8-29`). Each card's explore link passes that plural name as `category`. The browse page keeps an artist when one of its tags contains the filter. The category list that the sidebar and the form offer is singular (`src/types/index.ts:40-51`); the fixture's own tags are not part of this model. | An artist whose only tag is "Singer", an entry of that list, reached through the "Singers" card: "singer" does not contain "singers", so the list leaves that artist out | the link carries the family's own category entry ("Singer", "Dancer", "Speaker", "DJ"), so every artist tagged with it is listed | not executed | CategoryCard.ExploreLinkMissesItsOwnTag | CategoryCard.IntendedExploreKeepsItsTag |
