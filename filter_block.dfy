/**
 * The filter sidebar: each handler builds a new filter state from the
 * current one, and `hasActiveFilters` decides whether "Clear All" is shown.
 */
module FilterBlock {
  import opened Text
  import opened Seqs
  import opened ArtistTypes
  import ArtistListing

  /** Ticking a category appends it; unticking removes every occurrence of it. */
  function HandleCategoryChange(f: FilterState, category: string, checked: bool): (r: FilterState)
    ensures r.location == f.location && r.priceRange == f.priceRange && r.searchQuery == f.searchQuery
    ensures checked ==> r.categories == f.categories + [category]
    ensures !checked ==> category !in r.categories && IsSubsequence(r.categories, f.categories)
    ensures !checked ==> forall i :: 0 <= i < |f.categories| && f.categories[i] != category
                                    ==> f.categories[i] in r.categories
    ensures !checked ==> multiset(r.categories) == multiset(f.categories)[category := 0]
  {
    f.(categories := if checked then f.categories + [category] else RemoveAll(f.categories, category))
  }

  /** Ticking then unticking a category that was not selected restores the filter state. */
  lemma CheckUncheckRestores(f: FilterState, category: string)
    requires category !in f.categories
    ensures HandleCategoryChange(HandleCategoryChange(f, category, true), category, false) == f
  {
    RemoveAfterAppend(f.categories, category);
    RemoveAbsent(f.categories, category);
  }

  function HandleLocationChange(f: FilterState, location: string): (r: FilterState)
    ensures r.location == location
    ensures r.categories == f.categories && r.priceRange == f.priceRange && r.searchQuery == f.searchQuery
  {
    f.(location := location)
  }

  function HandlePriceRangeChange(f: FilterState, priceRange: (int, int)): (r: FilterState)
    ensures r.priceRange == priceRange
    ensures r.categories == f.categories && r.location == f.location && r.searchQuery == f.searchQuery
  {
    f.(priceRange := priceRange)
  }

  function HandleSearchChange(f: FilterState, searchQuery: string): (r: FilterState)
    ensures r.searchQuery == searchQuery
    ensures r.categories == f.categories && r.location == f.location && r.priceRange == f.priceRange
  {
    f.(searchQuery := searchQuery)
  }

  /** Handlers for different fields commute: the order of two edits does not matter. */
  lemma FieldHandlersCommute(f: FilterState, location: string, priceRange: (int, int), searchQuery: string)
    ensures HandleSearchChange(HandleLocationChange(f, location), searchQuery)
         == HandleLocationChange(HandleSearchChange(f, searchQuery), location)
    ensures HandlePriceRangeChange(HandleLocationChange(f, location), priceRange)
         == HandleLocationChange(HandlePriceRangeChange(f, priceRange), location)
    ensures HandlePriceRangeChange(HandleSearchChange(f, searchQuery), priceRange)
         == HandleSearchChange(HandlePriceRangeChange(f, priceRange), searchQuery)
  {
  }

  /** `clearAllFilters`: back to the listing's initial state, which has nothing active. */
  function ClearAllFilters(): (r: FilterState)
    ensures r.categories == [] && r.location == "" && r.searchQuery == ""
    ensures r.priceRange == (0, ArtistListing.MaxPrice)
    ensures !HasActiveFilters(r)
  {
    ArtistListing.InitialFilters
  }

  /** `hasActiveFilters`: some field differs from the cleared state (strings compared untrimmed). */
  predicate HasActiveFilters(f: FilterState) {
    || |f.categories| > 0
    || f.location != ""
    || f.priceRange.0 > 0
    || f.priceRange.1 < ArtistListing.MaxPrice
    || f.searchQuery != ""
  }

  /**
   * With nothing active, the listing hides no artist that the initial filters
   * would show: the price window then contains [0, 75000].
   */
  lemma InactiveFiltersHideNothing(artists: seq<Artist>, f: FilterState, a: Artist)
    requires !HasActiveFilters(f)
    requires a in ArtistListing.FilteredArtists(artists, ArtistListing.InitialFilters)
    ensures a in ArtistListing.FilteredArtists(artists, f)
  {
    ArtistListing.MembershipIff(artists, ArtistListing.InitialFilters, a);
    InactiveWidensInitial(f, a);
    ArtistListing.MembershipIff(artists, f, a);
  }

  lemma InactiveWidensInitial(f: FilterState, a: Artist)
    requires !HasActiveFilters(f) && ArtistListing.Matches(ArtistListing.InitialFilters, a)
    ensures ArtistListing.Matches(f, a)
  {
    assert ArtistListing.PriceOk(f, a);
    assert IsBlank(f.location) && IsBlank(f.searchQuery) by {
      assert IsBlank("");
    }
    assert ArtistListing.CategoryOk(f, a);
    assert ArtistListing.LocationOk(f, a);
    assert ArtistListing.SearchOk(f, a);
  }

  /**
   * A white-space-only location makes the filters "active" (so "Clear All" is
   * offered) although the listing ignores it.
   */
  lemma BlankLocationActiveButIgnored(artists: seq<Artist>, f: FilterState)
    requires f.location != "" && AllSpace(f.location)
    ensures HasActiveFilters(f)
    ensures ArtistListing.FilteredArtists(artists, f)
         == ArtistListing.FilteredArtists(artists, HandleLocationChange(f, ""))
  {
    BlankIffAllSpace(f.location);
    assert IsBlank("");
  }

  /** A narrowed price window is active, yet the mobile badge does not count it. */
  lemma PriceOnlyFilterHasNoBadge(f: FilterState)
    requires f.categories == [] && f.location == "" && f.searchQuery == ""
    requires f.priceRange.0 > 0
    ensures HasActiveFilters(f) && !ArtistListing.ShowsBadge(f)
  {
  }
}
