# Artistly booking site — a Dafny model of its in-memory logic

Artistly is a Next.js site for booking performers: singers, dancers, speakers
and DJs. Visitors browse an artist directory with a filter sidebar. Artists
onboard through a three-step wizard. A manager reviews the submitted profiles
on a dashboard. This project models the parts of the site that compute
something and proves properties about them. All of them work on small
in-memory lists and records:

- **Artist listing** (`ArtistListing`, `ArtistTypes`):
  - the four-stage filter (category, location, price overlap, search);
  - the sorted list of distinct categories;
  - filter seeding from the page's query parameters;
  - the mobile filter badge.
- **Filter sidebar** (`FilterBlock`): the handlers that each replace one field of the filter state, "Clear All", and the active-filter predicate.
- **Onboarding wizard** (`Onboarding`):
  - the validation schema as a predicate;
  - the completion percentage;
  - the sections and the fields each one validates;
  - the `Wizard` class, whose methods move between sections, accept or refuse a profile image, and run the submission status (idle, success, error) for both copies of the form.
- **Manager dashboard** (`ManagerDashboard`):
  - the search filter;
  - approve and reject as a status update by id;
  - delete as a removal by id;
  - the status counters;
  - the `Dashboard` class that holds the list.
- **Application store** (`AppProvider`): favourites deduplicated by id, a most-recent-first search history capped at ten, and the user; the `AppStore` class holds all three.
- **Multi-selects** (`SimpleMultiSelect`, `MultiSelect`, `SelectOptions`): the capped and uncapped toggles, chip removal, the option lists they show, and the keyboard shortcuts.
- **Price strings** (`PriceUtils`):
  - `en-IN` digit grouping of whole rupee amounts;
  - the formatters;
  - the range parser and its round trip with the formatter;
  - the dollar conversion.
- **Data helpers** (`Data`, `CategoryData`): lookup by id, the case-insensitive category selection, free-text search, and the default category table with its title lookup.

Shared modules:

- `Text` models `toLowerCase`, `toUpperCase`, `trim`, `includes` and `startsWith` on strings.
- `Seqs` models `filter`, `find`, `slice` and removal of every occurrence on arrays.
- `Wrappers` holds `Option`.

Pure code (filters, spreads, switches) is written as functions and lemmas. The three
components whose fields change step by step are classes with `modifies`
clauses: the wizard, the dashboard and the store. Their methods state the
whole new state in terms of the functions. Values the browser or the static
datasets supply are parameters:

- the chosen file and its preview URL;
- the answer to the delete confirmation;
- the query parameters;
- the JSON datasets.

Some behaviours are easy to misread; the model pins them down:

- The schema checks only counts and non-emptiness. Values outside the option lists pass.
- The price stage of the listing always applies. Under the initial range [0, 75000], an artist whose minimum price exceeds 75000 is hidden.
- `hasActiveFilters` compares untrimmed strings. A location of spaces counts as active, yet the listing ignores it.
- A `maxSelections` of 0 is falsy in JavaScript, so it caps nothing.
- The form's own fee format `₹a - ₹b` (spaces around the dash) never parses as a range. The parser is not used by the site.
- The dashboard search does not trim its term. A term with a space hides every row whose fields hold none.

## Model

| member | source | states |
|---|---|---|
| Text.Lower | components/sections/ArtistListing.tsx:42 | `toLowerCase` maps each character to its lower-case form (ASCII letters), keeping the length and leaving no upper-case letter |
| Text.LowerIdempotent | components/sections/ArtistListing.tsx:42 | lower-casing twice is lower-casing once |
| Text.TrimStart | components/sections/ArtistListing.tsx:41 | the result is a suffix of the input; everything cut is white space, and the result does not start with white space |
| Text.TrimEnd | components/sections/ArtistListing.tsx:41 | the result is a prefix of the input; everything cut is white space, and the result does not end with white space |
| Text.Trim | components/sections/ArtistListing.tsx:41 | `trim` is a contiguous slice of the input with only white space cut on either side, and neither end of it is white space |
| Text.BlankIffAllSpace | components/sections/ArtistListing.tsx:41 | `s.trim()` is empty exactly when every character of `s` is white space |
| Text.ContainsEmpty | lib/data.ts:51-58 | every string includes the empty string |
| Text.Contains | lib/data.ts:55-58 | `includes`: no contract; `ContainsEmpty` and the search lemmas characterise it |
| Text.StartsWith | components/forms/OnboardingForm.tsx:160 | `startsWith`: no contract; used by `CheckImage` |
| Seqs.Filter | lib/data.ts:43 | `filter`: result no longer than the input, every kept element passes and is an input element, every passing element is kept; `FilterCounts` gives the multiplicities |
| Seqs.FindFirst | lib/data.ts:23 | `find`: none iff no element passes; otherwise the element at the first passing index |
| Seqs.Take | providers/AppProvider.tsx:111 | `slice(0, n)`: a prefix of the input of length `min(n, \|s\|)` |
| Seqs.DropLast | components/ui/multi-select.tsx:53 | `slice(0, -1)`: the input is the result plus its last element; empty stays empty |
| ArtistListing.FilteredIsConjunction | components/sections/ArtistListing.tsx:32-70 | the chain of four stages equals one filter by the conjunction of category, location, price and search predicates |
| ArtistListing.FilteredArtists | components/sections/ArtistListing.tsx:32-70 | the four guarded filter stages; no contract of its own, characterised by `FilteredIsConjunction`, `SurvivesIff` and `RefilterUnchanged` |
| ArtistListing.FilteredIsSubsequence | components/sections/ArtistListing.tsx:32-70 | the visible artists are a subsequence of the directory: order kept, nothing added |
| ArtistListing.SurvivesIff | components/sections/ArtistListing.tsx:36-67 | an artist is shown iff it is in the directory and all four conditions hold. Category: no categories are selected, or its category is one of them. Location: the trimmed location is blank, or the lower-cased trimmed query occurs in its city, state or location. Price: its range overlaps the filter range. Search: the trimmed query is blank, or the lower-cased trimmed query occurs in its name or bio |
| ArtistListing.MembershipIff | components/sections/ArtistListing.tsx:32-70 | an artist is shown iff it is listed and matches all four stages |
| ArtistListing.RefilterUnchanged | components/sections/ArtistListing.tsx:32-70 | filtering the result again with the same filter changes nothing |
| ArtistListing.InitialFiltersHideExpensive | components/sections/ArtistListing.tsx:18-23 | under the initial filter an artist with `priceMin > 75000` is hidden |
| ArtistListing.InitialFiltersShowAffordable | components/sections/ArtistListing.tsx:18-23 | under the initial filter every listed artist with `priceMin <= 75000 && priceMax >= 0` is shown |
| ArtistListing.PriceOverlapExample | components/sections/ArtistListing.tsx:52-59 | the price stage tests overlap, not containment: a 10000–20000 artist passes [0, 15000] and fails [0, 9000] |
| ArtistListing.CategorySelectionScenario | components/sections/ArtistListing.tsx:36-38 | selecting "Singer" keeps the singer and drops the DJ |
| ArtistListing.CategoryNames | components/sections/ArtistListing.tsx:27 | `artists.map(a => a.category)`: one entry per artist, in order |
| ArtistListing.Distinct | components/sections/ArtistListing.tsx:27 | `[...new Set(xs)]` has no duplicates and the same members as `xs` |
| ArtistListing.LexLeTotal | components/sections/ArtistListing.tsx:28 | the default string order compares any two strings |
| ArtistListing.LexLeAntisymmetric | components/sections/ArtistListing.tsx:28 | two strings each ordered before the other are equal |
| ArtistListing.LexLeTransitive | components/sections/ArtistListing.tsx:28 | the default string order is transitive |
| ArtistListing.Insert | components/sections/ArtistListing.tsx:28 | inserting into a sorted list keeps it sorted and adds exactly the element |
| ArtistListing.Sort | components/sections/ArtistListing.tsx:28 | `sort()` returns a sorted permutation of its input |
| ArtistListing.Categories | components/sections/ArtistListing.tsx:26-29 | the sidebar's categories are sorted, duplicate-free, and hold exactly the categories present in the directory |
| ArtistListing.SortedListUnique | components/sections/ArtistListing.tsx:26-29 | two sorted duplicate-free lists with the same members are equal, so the category list is determined by the set of categories |
| ArtistListing.Capitalize | components/sections/ArtistListing.tsx:84 | `charAt(0).toUpperCase() + slice(1)`: same length, the first character is the upper-cased first input character, the rest unchanged |
| ArtistListing.SeedFromParams | components/sections/ArtistListing.tsx:80-88 | a given `category` parameter becomes a one-element capitalised list. Absent or empty `location`/`search` keep the previous values. `priceRange` is never touched |
| ArtistListing.SeedIdempotent | components/sections/ArtistListing.tsx:80-88 | seeding twice from the same parameters is seeding once |
| ArtistListing.SeedCapitalizesCategory | components/sections/ArtistListing.tsx:83-85 | `?category=singers` selects exactly `["Singers"]` |
| ArtistListing.BadgeCount | components/sections/ArtistListing.tsx:109-111 | the badge number is positive exactly when the badge shows; it is the number of categories when location and search are both empty, that number plus two when both are set, and in between otherwise |
| ArtistListing.ShowsBadge | components/sections/ArtistListing.tsx:109 | whether the badge is shown; no contract, tied to the count by `BadgeCount` |
| FilterBlock.HandleCategoryChange | components/FilterBlock.tsx:21-30 | checking appends the category at the end. Unchecking removes every occurrence and keeps the rest in order, each other category as many times as before. No other field changes |
| FilterBlock.CheckUncheckRestores | components/FilterBlock.tsx:21-30 | checking then unchecking a category that was not selected restores the filter |
| FilterBlock.HandleLocationChange | components/FilterBlock.tsx:32-37 | replaces the location and nothing else |
| FilterBlock.HandlePriceRangeChange | components/FilterBlock.tsx:39-44 | replaces the price range and nothing else |
| FilterBlock.HandleSearchChange | components/FilterBlock.tsx:46-51 | replaces the search query and nothing else |
| FilterBlock.FieldHandlersCommute | components/FilterBlock.tsx:32-51 | the three single-field handlers commute pairwise |
| FilterBlock.ClearAllFilters | components/FilterBlock.tsx:53-60 | the cleared filter is no categories, empty strings and [0, 75000], and it is not active |
| FilterBlock.HasActiveFilters | components/FilterBlock.tsx:62-67 | the sidebar's activity test; no contract, characterised by `ClearAllFilters`, `InactiveFiltersHideNothing` and `BlankLocationActiveButIgnored` |
| FilterBlock.InactiveFiltersHideNothing | components/FilterBlock.tsx:62-67 | when no filter is active, every artist the initial filter shows is shown |
| FilterBlock.InactiveWidensInitial | components/FilterBlock.tsx:62-67 | an inactive filter accepts every artist the initial filter accepts |
| FilterBlock.BlankLocationActiveButIgnored | components/FilterBlock.tsx:62-67 | a location of spaces makes the filter active yet filters exactly like the empty location |
| FilterBlock.PriceOnlyFilterHasNoBadge | components/FilterBlock.tsx:62-67 | a narrowed price range is active in the sidebar but shows no mobile badge |
| Onboarding.SchemaValidIff | components/forms/OnboardingForm.tsx:22-45 | the form is valid iff 2 ≤ \|name\| ≤ 50, 50 ≤ \|bio\| ≤ 500, 1 ≤ \|categories\| ≤ 3, 1 ≤ \|languages\| ≤ 5, the fee range is non-empty and \|location\| ≥ 3 |
| Onboarding.SchemaValid | components/forms/OnboardingForm.tsx:22-45 | the yup schema as a predicate; no contract, characterised by `SchemaValidIff` |
| Onboarding.SchemaIgnoresOptionLists | components/forms/OnboardingForm.tsx:67-105 | values outside the offered categories and fee ranges still pass the schema |
| Onboarding.FilledCount | components/forms/OnboardingForm.tsx:141-146 | at most six fields are filled |
| Onboarding.IsFilled | components/forms/OnboardingForm.tsx:141-146 | a list is filled when non-empty, a string when non-blank; no contract, used by `FilledCount` |
| Onboarding.Progress | components/forms/OnboardingForm.tsx:140-148 | the percentage is one of 0, 17, 33, 50, 67, 83, 100 and is within half a point of 100·filled/6 |
| Onboarding.RoundedSixths | components/forms/OnboardingForm.tsx:147 | `Math.round(k/6*100)` for k = 0..6 |
| Onboarding.ProgressExtremes | components/forms/OnboardingForm.tsx:140-148 | 100% exactly when all six fields are filled; 0% exactly when none is |
| Onboarding.ProgressMonotone | components/forms/OnboardingForm.tsx:140-148 | more filled fields never show less progress |
| Onboarding.ThreeFieldsGiveHalf | components/forms/OnboardingForm.tsx:140-148 | name, bio and categories filled with the rest empty gives 50% |
| Onboarding.ValidFormMayShowIncomplete | components/forms/OnboardingForm.tsx:140-148 | a two-space name passes the schema but does not count as filled |
| Onboarding.SectionFields | components/forms/OnboardingForm.tsx:200-211 | a section has fields exactly when its index is 0, 1 or 2, and no field repeats |
| Onboarding.SectionsPartitionFields | components/forms/OnboardingForm.tsx:200-211 | every field belongs to exactly one of the three sections |
| Onboarding.SchemaIffAllSections | components/forms/OnboardingForm.tsx:200-211 | the schema holds iff each of the three sections validates |
| Onboarding.NextIndex | components/forms/OnboardingForm.tsx:185-192 | "Next" moves forward by exactly one iff the current section validates and is before the last; it stays in 0..2 |
| Onboarding.PrevIndex | components/forms/OnboardingForm.tsx:194-198 | "Previous" moves back one only above section 0 and stays in 0..2 |
| Onboarding.PrevUndoesNext | components/forms/OnboardingForm.tsx:185-198 | "Previous" undoes a "Next" that advanced |
| Onboarding.NextUndoesPrev | components/forms/OnboardingForm.tsx:185-198 | "Next" undoes a "Previous" when the section returned to validates |
| Onboarding.ShortBioBlocksFirstSection | components/forms/OnboardingForm.tsx:185-192 | a bio under 50 characters keeps the wizard on section 0 |
| Onboarding.CheckImage | components/forms/OnboardingForm.tsx:153-163 | a file over 5·1024·1024 bytes is refused as too large; otherwise a type not starting with `image/` is refused; otherwise it is accepted |
| Onboarding.Wizard.constructor | components/forms/OnboardingForm.tsx:108-133 | section 0, no image, not submitting, idle, empty form |
| Onboarding.Wizard.NextSection | components/forms/OnboardingForm.tsx:185-192 | the section becomes `NextIndex` of the old one; it reports whether it advanced; only the section changes |
| Onboarding.Wizard.PrevSection | components/forms/OnboardingForm.tsx:194-198 | the section becomes `PrevIndex` of the old one; only the section changes |
| Onboarding.Wizard.HandleImageUpload | components/forms/OnboardingForm.tsx:150-178 | a refused file raises the alert `CheckImage` gives and keeps the previous image and preview; an accepted file replaces both; no file changes nothing |
| Onboarding.Wizard.RemoveImage | components/forms/OnboardingForm.tsx:180-183 | clears both the image and the preview |
| Onboarding.Wizard.EditValues | components/forms/OnboardingForm.tsx:116-133 | a field edit through the form library replaces the values and touches none of the wizard's own state |
| Onboarding.Wizard.BeginSubmit | components/forms/OnboardingForm.tsx:213-215 | submission starts iff the schema holds; it then marks the form submitting with status idle; a click on the enabled submit button (`!isSubmitting && isValid`, line 541) always starts it, and the button is disabled afterwards |
| Onboarding.Wizard.SubmitEnabled | components/forms/OnboardingForm.tsx:541 | the submit button is enabled when not submitting and valid; no contract, related to submission by `BeginSubmit` |
| Onboarding.Wizard.FinishSubmit | components/forms/OnboardingForm.tsx:241-251 | completion sets success with the fixed thank-you message; a throw sets error with its message; submitting always ends |
| Onboarding.Wizard.FinishApiSubmit | components/OnboardingForm.tsx:198-224 | `success: true` sets success with the response's message; `success: false` sets error with a fixed message; a throw sets error with another; submitting always ends |
| ManagerDashboard.SearchFilter | components/sections/ManagerDashboard.tsx:39-52 | a blank term shows all submissions; the result is always a subsequence of the list; under a non-blank term each matching record appears as often as in the list and no other record appears |
| ManagerDashboard.SearchMembership | components/sections/ManagerDashboard.tsx:42-50 | under a non-blank term a row is shown iff the lower-cased untrimmed term occurs in its lower-cased name, category, city or e-mail |
| ManagerDashboard.SpacedTermHidesAll | components/sections/ManagerDashboard.tsx:40-50 | the term is not trimmed: a term with a space hides every row whose searched fields hold none |
| ManagerDashboard.SetStatus | components/sections/ManagerDashboard.tsx:99-121 | same length; every record with the id gets the status and keeps its other fields; every other record is unchanged |
| ManagerDashboard.SetStatusUnknownId | components/sections/ManagerDashboard.tsx:99-121 | an id no record carries leaves the list identical |
| ManagerDashboard.SetStatusIdempotent | components/sections/ManagerDashboard.tsx:99-121 | approving (or rejecting) twice equals once |
| ManagerDashboard.SetStatusLastWins | components/sections/ManagerDashboard.tsx:99-121 | reject then approve on one id ends approved, and the other way round |
| ManagerDashboard.SetStatusCommutes | components/sections/ManagerDashboard.tsx:99-121 | actions on different ids commute |
| ManagerDashboard.ApprovedNotPending | components/sections/ManagerDashboard.tsx:99 | after approving an id every record with it is approved |
| ManagerDashboard.SetStatusRaisesCount | components/sections/ManagerDashboard.tsx:168-173 | setting a status never lowers that status's counter |
| ManagerDashboard.RemoveId | components/sections/ManagerDashboard.tsx:147 | no record with the id remains; every other record stays, in order and as many times as before |
| ManagerDashboard.RemoveIdIdempotent | components/sections/ManagerDashboard.tsx:147 | deleting twice equals deleting once |
| ManagerDashboard.RemoveIdUnknown | components/sections/ManagerDashboard.tsx:147 | deleting an unknown id changes nothing |
| ManagerDashboard.CountsPartition | components/sections/ManagerDashboard.tsx:168-173 | pending + approved + rejected counts equal the list length |
| ManagerDashboard.ComputeStats | components/sections/ManagerDashboard.tsx:168-173 | total is the length, each counter is its status's filter count, and the three add up to the total |
| ManagerDashboard.CountStatus | components/sections/ManagerDashboard.tsx:170-172 | one status's filter count; no contract, characterised by `CountsPartition` and `SetStatusRaisesCount` |
| ManagerDashboard.Dashboard.constructor | components/sections/ManagerDashboard.tsx:20-31 | the list is `initialSubmissions` when given (even empty), else the dataset; empty search, nothing loading, no alert |
| ManagerDashboard.Dashboard.SetSearchTerm | components/sections/ManagerDashboard.tsx:288 | replaces the search term only |
| ManagerDashboard.Dashboard.Visible | components/sections/ManagerDashboard.tsx:39-52 | the rows shown: `SearchFilter` of the list and the term; no contract of its own |
| ManagerDashboard.Dashboard.HandleApprove | components/sections/ManagerDashboard.tsx:87-107 | the list becomes `SetStatus(old, id, Approved)`, the success alert names the artist, `actionLoading` ends cleared |
| ManagerDashboard.Dashboard.HandleReject | components/sections/ManagerDashboard.tsx:109-129 | the list becomes `SetStatus(old, id, Rejected)`, the success alert names the artist, `actionLoading` ends cleared |
| ManagerDashboard.Dashboard.HandleDelete | components/sections/ManagerDashboard.tsx:131-155 | a declined confirmation changes nothing; otherwise the list becomes `RemoveId(old, id)` with a success alert and `actionLoading` cleared |
| ManagerDashboard.Dashboard.RefreshSubmissions | components/sections/ManagerDashboard.tsx:70-85 | the list becomes the seed dataset, with the success alert |
| AppProvider.IsFavorite | providers/AppProvider.tsx:99-101 | true iff some favourite has the id |
| AppProvider.WithoutFavorite | providers/AppProvider.tsx:89-94 | no favourite with the id remains; the others stay in order, each as many times as before |
| AppProvider.WithFavorite | providers/AppProvider.tsx:79-84 | the artist ends up last; every earlier entry has another id; the earlier entries are the favourites with another id, in order and each as many times as before |
| AppProvider.AddedIsFavorite | providers/AppProvider.tsx:79-101 | after adding, `isFavorite(id)` holds and the artist is the only entry with its id |
| AppProvider.AddKeepsUniqueIds | providers/AppProvider.tsx:79-84 | adding keeps favourite ids unique |
| AppProvider.RemovedIsNotFavorite | providers/AppProvider.tsx:89-101 | after removing, `isFavorite(id)` is false |
| AppProvider.RemoveKeepsUniqueIds | providers/AppProvider.tsx:89-94 | removing keeps favourite ids unique |
| AppProvider.AddFavoriteIdempotent | providers/AppProvider.tsx:79-84 | adding the same artist twice equals adding once |
| AppProvider.AddThenRemove | providers/AppProvider.tsx:79-94 | removing a just-added artist equals removing it from the original list |
| AppProvider.WithQuery | providers/AppProvider.tsx:106-113 | a blank query leaves the history unchanged. Otherwise the query comes first, does not recur, every other entry comes from the old history, and there are at most 10 entries |
| AppProvider.WithQueryShape | providers/AppProvider.tsx:109-112 | the new history is the query followed by the first nine of the old entries other than it |
| AppProvider.WithQueryNoDuplicates | providers/AppProvider.tsx:109-112 | a duplicate-free history stays duplicate-free |
| AppProvider.WithQueryIdempotent | providers/AppProvider.tsx:106-113 | adding the same query twice equals adding it once |
| AppProvider.AppStore.constructor | providers/AppProvider.tsx:50-56 | no favourites, no history, a signed-out user |
| AppProvider.AppStore.AddToFavorites | providers/AppProvider.tsx:79-84 | favourites become `WithFavorite(old, artist)`, the id is a favourite, the store invariant holds, the other fields are untouched |
| AppProvider.AppStore.RemoveFromFavorites | providers/AppProvider.tsx:89-94 | favourites become `WithoutFavorite(old, id)`, the id is no favourite, the other fields are untouched |
| AppProvider.AppStore.AddToSearchHistory | providers/AppProvider.tsx:106-113 | the history becomes `WithQuery(old, query)` and stays duplicate-free and at most 10 long |
| AppProvider.AppStore.ClearSearchHistory | providers/AppProvider.tsx:118-123 | empties the history only |
| AppProvider.AppStore.SetUser | providers/AppProvider.tsx:128-133 | replaces the user only |
| SimpleMultiSelect.HandleSelect | components/ui/simple-multi-select.tsx:49-59 | a selected value is removed everywhere, the rest kept in order with their multiplicities. An unselected value is appended when uncapped or below the cap; otherwise the list is unchanged |
| SimpleMultiSelect.SelectKeepsCap | components/ui/simple-multi-select.tsx:49-59 | a non-zero cap that holds before a select holds after it |
| SimpleMultiSelect.ZeroCapIsNoCap | components/ui/simple-multi-select.tsx:55 | `maxSelections = 0` is falsy and caps nothing |
| SimpleMultiSelect.SelectTwiceRestores | components/ui/simple-multi-select.tsx:49-59 | selecting an unselected value twice, with room, restores the list |
| SimpleMultiSelect.HandleRemove | components/ui/simple-multi-select.tsx:61-64 | removes every occurrence of the value and keeps the rest in order with their multiplicities |
| SimpleMultiSelect.RemoveIsDeselect | components/ui/simple-multi-select.tsx:49-64 | removing a chip equals selecting its value again |
| SimpleMultiSelect.FilteredOptions | components/ui/simple-multi-select.tsx:66 | exactly the options whose lower-cased label contains the lower-cased term, in option order, each as many times as in the options |
| SimpleMultiSelect.EmptyTermListsAll | components/ui/simple-multi-select.tsx:66 | an empty term lists every option |
| SimpleMultiSelect.SelectedOptions | components/ui/simple-multi-select.tsx:68 | exactly the options whose value is selected, in option order |
| SimpleMultiSelect.ChipsFollowOptionOrder | components/ui/simple-multi-select.tsx:68 | chips follow option order, not selection order |
| SimpleMultiSelect.Click | components/ui/simple-multi-select.tsx:121-131 | clicking a disabled option changes nothing |
| SimpleMultiSelect.ClickIsSelect | components/ui/simple-multi-select.tsx:121-131 | the disabled guard agrees with the cap check inside `handleSelect` |
| MultiSelect.HandleUnselect | components/ui/multi-select.tsx:30-35 | removes every occurrence of the item, keeping the rest in order with their multiplicities |
| MultiSelect.HandleSelect | components/ui/multi-select.tsx:37-46 | a present item is unselected; an absent one is appended at the end, with no cap |
| MultiSelect.ToggleTwiceRestores | components/ui/multi-select.tsx:37-46 | toggling an absent item twice restores the list |
| MultiSelect.AgreesWithUncapped | components/ui/multi-select.tsx:37-46 | the toggle equals the capped component's select without a cap |
| MultiSelect.HandleKeyDown | components/ui/multi-select.tsx:48-61 | with typed input nothing changes. With an empty input, Backspace drops only the last item (nothing when empty) and Escape closes the popover without touching the selection |
| MultiSelect.BackspaceUndoesSelect | components/ui/multi-select.tsx:37-54 | Backspace on the empty input undoes appending an item |
| MultiSelect.Selectables | components/ui/multi-select.tsx:63 | exactly the unselected options, in option order, disjoint from the selection |
| MultiSelect.SelectablesComplementChips | components/ui/multi-select.tsx:63 | selectable options and selected options together account for every option once |
| PriceUtils.Decimal | lib/priceUtils.ts:9 | the digits of a whole number: non-empty, all decimal digits |
| PriceUtils.DecimalValue | lib/priceUtils.ts:43-44 | `parseInt` reads the digits of `n` back as `n` |
| PriceUtils.OneLakh | lib/priceUtils.ts:9 | 100000 is written `1,00,000` in `en-IN` |
| PriceUtils.FormatIndianPrice | lib/priceUtils.ts:8-10 | the rupee sign followed by exactly the `en-IN` rendering of the amount |
| PriceUtils.LocaleIN | lib/priceUtils.ts:9 | `toLocaleString("en-IN")` for whole numbers; no contract, characterised by `OneLakh` and `CleanLocale` |
| PriceUtils.FormatIndianPriceRange | lib/priceUtils.ts:15-17 | the dash-joined range; no contract, characterised by `RangeRoundTrip` |
| PriceUtils.FormatFormPrice | lib/priceUtils.ts:62-64 | the spaced range; no contract, characterised by `FormPriceDoesNotParse` |
| PriceUtils.FormatPriceWithFrom | lib/priceUtils.ts:22-24 | "From " followed by exactly the plain formatter's output |
| PriceUtils.FormatPriceRangeWithFrom | lib/priceUtils.ts:29-31 | "From " followed by exactly the plain range formatter's output |
| PriceUtils.ConvertDollarToRupee | lib/priceUtils.ts:55-57 | the result is a multiple of 83 whose quotient is the dollar amount |
| PriceUtils.CleanLocale | lib/priceUtils.ts:38 | deleting the commas of the `en-IN` rendering gives the plain digits |
| PriceUtils.Clean | lib/priceUtils.ts:38 | deletes every rupee sign and comma; no contract, characterised by `CleanAppend`, `CleanKeeps` and `CleanLocale` |
| PriceUtils.DigitRunEnd | lib/priceUtils.ts:39 | `\d+` from a position: digits up to the end, which is a non-digit or the end of the string |
| PriceUtils.FindMatch | lib/priceUtils.ts:39 | the leftmost start of a match, or none when no position matches |
| PriceUtils.ParsePriceRange | lib/priceUtils.ts:36-49 | null exactly when the cleaned string has no digits-dash-digits match; otherwise the two capture groups of the leftmost match, read as integers |
| PriceUtils.ParseCleaned | lib/priceUtils.ts:39-48 | the regex match on cleaned text: null iff no match, otherwise the groups of the leftmost match |
| PriceUtils.ParseShape | lib/priceUtils.ts:38-46 | after digit-free text, any `digits-digits` not followed by a digit is the leftmost match and its two groups are read back by `parseInt`, whatever text follows |
| PriceUtils.ParseDigitsDashDigits | lib/priceUtils.ts:39-46 | after digit-free text, `a-b` followed by text not starting with a digit parses as `{min: a, max: b}` |
| PriceUtils.RangeRoundTrip | lib/priceUtils.ts:15-49 | parsing `formatIndianPriceRange(a, b)` gives `{min: a, max: b}` |
| PriceUtils.EmbeddedRangeParses | lib/priceUtils.ts:36-49 | a formatted range inside other text (digit-free before it, not a digit right after it) is still read back as `{min: a, max: b}` |
| PriceUtils.PrefixedRangeRoundTrip | lib/priceUtils.ts:15-49 | the same after any digit-free prefix without a rupee sign or comma |
| PriceUtils.FromRangeRoundTrip | lib/priceUtils.ts:29-49 | parsing `formatPriceRangeWithFrom(a, b)` gives `{min: a, max: b}` |
| PriceUtils.ReversedRangeParses | lib/priceUtils.ts:41-46 | no order is enforced: "9-1" gives `{min: 9, max: 1}` |
| PriceUtils.NoDashNoRange | lib/priceUtils.ts:38-48 | a string without a dash parses to null |
| PriceUtils.OpenEndedPriceHasNoRange | lib/priceUtils.ts:38-48 | "₹1,00,000+" parses to null |
| PriceUtils.FormPriceDoesNotParse | lib/priceUtils.ts:36-64 | `formatFormPrice(a, b)` never parses, for any amounts |
| Data.GetArtistById | lib/data.ts:21-24 | null exactly when no artist has the id; otherwise the first artist with it |
| Data.LookupFindsArtist | lib/data.ts:21-24 | with unique ids, each artist is found by its own id |
| Data.GetArtistsByCategory | lib/data.ts:41-44 | exactly the artists whose category equals the argument ignoring case, in order, each as many times as in the directory |
| Data.CategoryCaseInsensitive | lib/data.ts:41-44 | the argument's casing does not matter |
| Data.SearchArtists | lib/data.ts:49-60 | exactly the artists whose lower-cased name, bio, category or location contains the lower-cased query, in order, each as many times as in the directory |
| Data.EmptyQueryReturnsAll | lib/data.ts:49-60 | the empty query returns every artist |
| Data.SearchIdempotent | lib/data.ts:49-60 | searching the result again with the same query changes nothing |
| CategoryData.GetCategoryByTitle | lib/categoryData.ts:47-49 | undefined exactly when no default title matches ignoring case; otherwise a default category with a matching title |
| CategoryData.TitlesDistinct | lib/categoryData.ts:6-35 | the four titles differ even ignoring case |
| CategoryData.LookupAnyCasing | lib/categoryData.ts:6-49 | any casing of a default title finds exactly that category |
| CategoryData.SlugFindsCategory | lib/categoryData.ts:12-49 | "singers" finds the Singers entry |
| CategoryData.UnknownTitle | lib/categoryData.ts:47-49 | a title outside the four finds nothing |
| CategoryData.FormatFromPrice | lib/categoryData.ts:40-42 | this file's `formatIndianPrice` equals the price utilities' `formatPriceWithFrom` |

## Left out

- Rendering, styling and animation. This covers every JSX tree, the pages, cards, header, hero, theme provider and loading spinner.
- Latency simulation and logging: each `setTimeout` and `await` delay and each `console` call. Every handler is a synchronous state update.
- The five-second auto-dismiss of the dashboard alert: no clock is modelled.
- Races between overlapping asynchronous handlers: the model runs one handler at a time.
- `lib/mockApi.ts`, which is not part of this model. Its outcome is the `ApiOutcome` parameter of `Onboarding.Wizard.FinishApiSubmit`.
- The store's `localStorage` load and save, and the `JSON.parse` of the saved state. These are persistence I/O, so the store starts from its initial state.
- Browser APIs:
  - the `FileReader` preview, whose data URL is a parameter, and its error alert;
  - `window.confirm`, whose answer is a parameter;
  - `URLSearchParams`, whose values are parameters;
  - resetting the file input.
- react-hook-form internals (`trigger`, validation mode, touched fields, error messages). The schema is a predicate, and a section's validation is that predicate on the section's fields.
- The static JSON datasets, and the identity functions `getArtists`/`getSubmissions` that return them. The datasets are parameters or the dashboard's `seed`.
- `loadSubmissions` on the dashboard: it is never called.
- Unicode case mapping: only ASCII letters change case. JavaScript compares and measures strings in UTF-16 code units while the model uses code points, which differ only outside the Basic Multilingual Plane.
- PriceUtils.LocaleIN: renders only whole non-negative numbers. Fractions and negative amounts go through the `en-IN` locale library and are not modelled.
- PriceUtils.ParsePriceRange: `parseInt` is exact; precision loss above 2^53 is not modelled.
- PriceUtils.ConvertDollarToRupee: only whole-dollar amounts are modelled, where `Math.round` is the identity; floating-point inputs are left out.
- The `catch` branches of approve, reject, delete and refresh: nothing in their `try` blocks can throw once latency and logging are left out.
- The UI gating that offers approve/reject only on pending rows: it lives in the table row and details modal, not in the handlers.

