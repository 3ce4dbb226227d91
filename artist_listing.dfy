/**
 * The artist directory screen: the filter engine that computes the visible
 * artists, the sorted category list offered in the sidebar, the filter state
 * seeded from the page's query parameters and the mobile filter badge.
 */
module ArtistListing {
  import opened Wrappers
  import opened Text
  import opened Seqs
  import opened ArtistTypes

  /** The top of the price slider. */
  const MaxPrice: int := 75000

  /** The state the listing starts in and that "Clear All Filters" restores. */
  const InitialFilters: FilterState := FilterState([], "", (0, MaxPrice), "")

  // ---------------------------------------------------------------------
  // The four stages of the filter
  // ---------------------------------------------------------------------

  /** The location query occurs in the artist's city, state or location. */
  predicate LocationHit(query: string, a: Artist) {
    Contains(Lower(a.city), query) || Contains(Lower(a.state), query) || Contains(Lower(a.location), query)
  }

  /** The search query occurs in the artist's name or bio. */
  predicate SearchHit(query: string, a: Artist) {
    Contains(Lower(a.name), query) || Contains(Lower(a.bio), query)
  }

  /** Category stage: no restriction when no category is selected. */
  predicate CategoryOk(f: FilterState, a: Artist) {
    |f.categories| == 0 || a.category in f.categories
  }

  /** Location stage: no restriction when the location is blank. */
  predicate LocationOk(f: FilterState, a: Artist) {
    IsBlank(f.location) || LocationHit(Trim(Lower(f.location)), a)
  }

  /** Price stage, always applied: the two closed intervals overlap. */
  predicate PriceOk(f: FilterState, a: Artist) {
    a.priceMin <= f.priceRange.1 && a.priceMax >= f.priceRange.0
  }

  /** Search stage: no restriction when the query is blank. */
  predicate SearchOk(f: FilterState, a: Artist) {
    IsBlank(f.searchQuery) || SearchHit(Trim(Lower(f.searchQuery)), a)
  }

  /** An artist is shown iff it passes all four stages. */
  predicate Matches(f: FilterState, a: Artist) {
    CategoryOk(f, a) && LocationOk(f, a) && PriceOk(f, a) && SearchOk(f, a)
  }

  /** The callback of the category stage. */
  function InCategories(f: FilterState): Artist -> bool {
    (a: Artist) => a.category in f.categories
  }

  /** The callback of the location stage. */
  function NearLocation(f: FilterState): Artist -> bool {
    (a: Artist) => LocationHit(Trim(Lower(f.location)), a)
  }

  /** The callback of the price stage. */
  function InPriceRange(f: FilterState): Artist -> bool {
    (a: Artist) => a.priceMin <= f.priceRange.1 && a.priceMax >= f.priceRange.0
  }

  /** The callback of the search stage. */
  function Searched(f: FilterState): Artist -> bool {
    (a: Artist) => SearchHit(Trim(Lower(f.searchQuery)), a)
  }

  /** `filteredArtists`: the chain of filters, each applied only when its field is set. */
  function FilteredArtists(artists: seq<Artist>, f: FilterState): seq<Artist> {
    var byCategory := if |f.categories| > 0 then Filter(artists, InCategories(f)) else artists;
    var byLocation := if !IsBlank(f.location) then Filter(byCategory, NearLocation(f)) else byCategory;
    var byPrice := Filter(byLocation, InPriceRange(f));
    if !IsBlank(f.searchQuery) then Filter(byPrice, Searched(f)) else byPrice
  }

  /** The four stage predicates, and their running conjunctions, as callbacks. */
  function CategoryTest(f: FilterState): Artist -> bool {
    (a: Artist) => CategoryOk(f, a)
  }

  function UpToLocation(f: FilterState): Artist -> bool {
    (a: Artist) => CategoryOk(f, a) && LocationOk(f, a)
  }

  function UpToPrice(f: FilterState): Artist -> bool {
    (a: Artist) => CategoryOk(f, a) && LocationOk(f, a) && PriceOk(f, a)
  }

  function MatchTest(f: FilterState): Artist -> bool {
    (a: Artist) => Matches(f, a)
  }

  lemma CategoryStage(artists: seq<Artist>, f: FilterState)
    ensures (if |f.categories| > 0 then Filter(artists, InCategories(f)) else artists)
            == Filter(artists, CategoryTest(f))
  {
    ConditionalFilter(artists, |f.categories| > 0, InCategories(f), CategoryTest(f));
  }

  lemma LocationStage(artists: seq<Artist>, f: FilterState)
    ensures (if !IsBlank(f.location) then Filter(Filter(artists, CategoryTest(f)), NearLocation(f))
             else Filter(artists, CategoryTest(f)))
            == Filter(artists, UpToLocation(f))
  {
    var l := (a: Artist) => LocationOk(f, a);
    var byCategory := Filter(artists, CategoryTest(f));
    ConditionalFilter(byCategory, !IsBlank(f.location), NearLocation(f), l);
    FilterFilter(artists, CategoryTest(f), l, UpToLocation(f));
  }

  lemma PriceStage(artists: seq<Artist>, f: FilterState)
    ensures Filter(Filter(artists, UpToLocation(f)), InPriceRange(f)) == Filter(artists, UpToPrice(f))
  {
    FilterFilter(artists, UpToLocation(f), InPriceRange(f), UpToPrice(f));
  }

  lemma SearchStage(artists: seq<Artist>, f: FilterState)
    ensures (if !IsBlank(f.searchQuery) then Filter(Filter(artists, UpToPrice(f)), Searched(f))
             else Filter(artists, UpToPrice(f)))
            == Filter(artists, MatchTest(f))
  {
    var s := (a: Artist) => SearchOk(f, a);
    var byPrice := Filter(artists, UpToPrice(f));
    ConditionalFilter(byPrice, !IsBlank(f.searchQuery), Searched(f), s);
    FilterFilter(artists, UpToPrice(f), s, MatchTest(f));
  }

  /** The chain of stages is one filter by the conjunction of the four predicates. */
  lemma FilteredIsConjunction(artists: seq<Artist>, f: FilterState)
    ensures FilteredArtists(artists, f) == Filter(artists, MatchTest(f))
  {
    CategoryStage(artists, f);
    LocationStage(artists, f);
    PriceStage(artists, f);
    SearchStage(artists, f);
  }

  /** Filtering keeps the input order and adds nothing. */
  lemma FilteredIsSubsequence(artists: seq<Artist>, f: FilterState)
    ensures IsSubsequence(FilteredArtists(artists, f), artists)
  {
    FilteredIsConjunction(artists, f);
    FilterIsSubsequence(artists, MatchTest(f));
  }

  /** Exactly the artists passing all four stages survive. */
  lemma SurvivesIff(artists: seq<Artist>, f: FilterState, a: Artist)
    ensures a in FilteredArtists(artists, f) <==>
      && a in artists
      && (|f.categories| == 0 || a.category in f.categories)
      && (IsBlank(f.location) || LocationHit(Trim(Lower(f.location)), a))
      && a.priceMin <= f.priceRange.1 && a.priceMax >= f.priceRange.0
      && (IsBlank(f.searchQuery) || SearchHit(Trim(Lower(f.searchQuery)), a))
  {
    MembershipIff(artists, f, a);
    MatchesIff(f, a);
  }

  /** The four stages spelled out. */
  lemma MatchesIff(f: FilterState, a: Artist)
    ensures Matches(f, a) <==>
      && (|f.categories| == 0 || a.category in f.categories)
      && (IsBlank(f.location) || LocationHit(Trim(Lower(f.location)), a))
      && a.priceMin <= f.priceRange.1 && a.priceMax >= f.priceRange.0
      && (IsBlank(f.searchQuery) || SearchHit(Trim(Lower(f.searchQuery)), a))
  {
  }

  lemma MembershipIff(artists: seq<Artist>, f: FilterState, a: Artist)
    ensures a in FilteredArtists(artists, f) <==> a in artists && Matches(f, a)
  {
    FilteredIsConjunction(artists, f);
    var r := Filter(artists, MatchTest(f));
    if a in r {
      var i :| 0 <= i < |r| && r[i] == a;
    }
    if a in artists && Matches(f, a) {
      var i :| 0 <= i < |artists| && artists[i] == a;
    }
  }

  /** Filtering the filtered list again with the same filter returns it unchanged. */
  lemma RefilterUnchanged(artists: seq<Artist>, f: FilterState)
    ensures FilteredArtists(FilteredArtists(artists, f), f) == FilteredArtists(artists, f)
  {
    FilteredIsConjunction(artists, f);
    FilteredIsConjunction(FilteredArtists(artists, f), f);
    FilterIdempotent(artists, MatchTest(f));
  }

  /** Under the initial filters an artist whose minimum price is above the slider's top is hidden. */
  lemma InitialFiltersHideExpensive(artists: seq<Artist>, a: Artist)
    requires a.priceMin > MaxPrice
    ensures a !in FilteredArtists(artists, InitialFilters)
  {
    SurvivesIff(artists, InitialFilters, a);
  }

  /** Under the initial filters every artist whose price window meets [0, 75000] is shown. */
  lemma InitialFiltersShowAffordable(artists: seq<Artist>, a: Artist)
    requires a in artists && a.priceMin <= MaxPrice && a.priceMax >= 0
    ensures a in FilteredArtists(artists, InitialFilters)
  {
    InitialMatches(a);
    ShownWhenMatching(artists, InitialFilters, a);
  }

  /** The initial filter restricts nothing but the price. */
  lemma InitialMatches(a: Artist)
    requires a.priceMin <= MaxPrice && a.priceMax >= 0
    ensures Matches(InitialFilters, a)
  {
    UnsetMatches(InitialFilters, a);
  }

  /** With no category, no location and no query only the price stage can hide an artist. */
  lemma UnsetMatches(f: FilterState, a: Artist)
    requires f.categories == [] && f.location == "" && f.searchQuery == ""
    ensures Matches(f, a) <==> PriceOk(f, a)
  {
    EmptyIsBlank();
  }

  lemma ShownWhenMatching(artists: seq<Artist>, f: FilterState, a: Artist)
    requires a in artists && Matches(f, a)
    ensures a in FilteredArtists(artists, f)
  {
    MembershipIff(artists, f, a);
  }

  /** The price stage is an overlap test, not containment: [10000, 20000] meets [0, 15000] but not [0, 9000]. */
  lemma PriceOverlapExample(a: Artist)
    requires a.priceMin == 10000 && a.priceMax == 20000
    ensures a in FilteredArtists([a], FilterState([], "", (0, 15000), ""))
    ensures a !in FilteredArtists([a], FilterState([], "", (0, 9000), ""))
  {
    assert IsBlank("");
    SurvivesIff([a], FilterState([], "", (0, 15000), ""), a);
    SurvivesIff([a], FilterState([], "", (0, 9000), ""), a);
  }

  /** A category selection keeps only artists of a listed category, whatever else they match. */
  lemma CategorySelectionScenario(singer: Artist, dj: Artist)
    requires singer.id == 1 && singer.category == "Singer" && singer.priceMin == 5000 && singer.priceMax == 15000
    requires dj.id == 2 && dj.category == "DJ" && dj.priceMin == 20000 && dj.priceMax == 40000
    ensures FilteredArtists([singer, dj], FilterState(["Singer"], "", (0, MaxPrice), "")) == [singer]
  {
    var f := FilterState(["Singer"], "", (0, MaxPrice), "");
    assert Matches(f, singer) by {
      assert IsBlank("");
    }
    assert !Matches(f, dj) by {
      assert dj.category[0] != "Singer"[0];
      assert dj.category !in f.categories;
    }
    FilteredIsConjunction([singer, dj], f);
    var m := MatchTest(f);
    assert Filter([dj], m) == [] by {
      assert [dj][1..] == [];
    }
    assert [singer, dj][1..] == [dj];
    assert Filter([singer, dj], m) == [singer] + Filter([dj], m);
  }

  // ---------------------------------------------------------------------
  // The category list: distinct categories, sorted
  // ---------------------------------------------------------------------

  /** `artists.map((artist) => artist.category)`. */
  function CategoryNames(artists: seq<Artist>): (r: seq<string>)
    ensures |r| == |artists|
    ensures forall i :: 0 <= i < |artists| ==> r[i] == artists[i].category
  {
    seq(|artists|, i requires 0 <= i < |artists| => artists[i].category)
  }

  /** `[...new Set(s)]`: the first occurrence of every value, in order. */
  function Distinct(s: seq<string>): (r: seq<string>)
    ensures NoDuplicates(r)
    ensures forall x :: x in r <==> x in s
  {
    if s == [] then []
    else
      var init := Distinct(s[..|s| - 1]);
      assert s == s[..|s| - 1] + [s[|s| - 1]];
      if s[|s| - 1] in init then init else init + [s[|s| - 1]]
  }

  /** The default `sort()` order on strings: lexicographic by character code. */
  predicate LexLe(a: string, b: string) {
    if a == [] then true
    else if b == [] then false
    else if a[0] != b[0] then a[0] < b[0]
    else LexLe(a[1..], b[1..])
  }

  lemma {:induction false} LexLeReflexive(a: string)
    ensures LexLe(a, a)
  {
    if a != [] {
      LexLeReflexive(a[1..]);
    }
  }

  lemma {:induction false} LexLeTotal(a: string, b: string)
    ensures LexLe(a, b) || LexLe(b, a)
  {
    if a != [] && b != [] && a[0] == b[0] {
      LexLeTotal(a[1..], b[1..]);
    }
  }

  lemma {:induction false} LexLeAntisymmetric(a: string, b: string)
    requires LexLe(a, b) && LexLe(b, a)
    ensures a == b
  {
    assert a != [] ==> a[0] in b;
    assert b != [] ==> b[0] in a;
    if a != [] && b != [] {
      LexLeAntisymmetric(a[1..], b[1..]);
      assert a == [a[0]] + a[1..] && b == [b[0]] + b[1..];
    }
  }

  lemma {:induction false} LexLeTransitive(a: string, b: string, c: string)
    requires LexLe(a, b) && LexLe(b, c)
    ensures LexLe(a, c)
  {
    if a != [] && b != [] && c != [] && a[0] == b[0] && b[0] == c[0] {
      LexLeTransitive(a[1..], b[1..], c[1..]);
    }
  }

  predicate Sorted(s: seq<string>) {
    forall i, j :: 0 <= i < j < |s| ==> LexLe(s[i], s[j])
  }

  /** Insert `x` into a sorted list in front of the first element it does not exceed. */
  function Insert(x: string, s: seq<string>): (r: seq<string>)
    requires Sorted(s)
    ensures Sorted(r)
    ensures multiset(r) == multiset(s) + multiset{x}
  {
    if s == [] then [x]
    else if LexLe(x, s[0]) then
      assert forall j :: 0 <= j < |s| ==> LexLe(x, s[j]) by {
        forall j | 0 <= j < |s| ensures LexLe(x, s[j]) {
          if j > 0 { LexLeTransitive(x, s[0], s[j]); }
        }
      }
      [x] + s
    else
      LexLeTotal(x, s[0]);
      var t := Insert(x, s[1..]);
      assert s == [s[0]] + s[1..];
      assert forall y :: y in multiset(t) ==> LexLe(s[0], y);
      assert forall j :: 0 <= j < |t| ==> LexLe(s[0], t[j]) by {
        forall j | 0 <= j < |t| ensures LexLe(s[0], t[j]) {
          assert t[j] in multiset(t);
        }
      }
      [s[0]] + t
  }

  /** `s.sort()`: a sorted permutation of `s`, built by insertion. */
  function Sort(s: seq<string>): (r: seq<string>)
    ensures Sorted(r)
    ensures multiset(r) == multiset(s)
  {
    if s == [] then []
    else
      assert s == [s[0]] + s[1..];
      Insert(s[0], Sort(s[1..]))
  }

  /** A permutation of a duplicate-free list is duplicate-free. */
  lemma {:induction false} PermutationNoDuplicates(a: seq<string>, b: seq<string>)
    requires multiset(a) == multiset(b) && NoDuplicates(a)
    ensures NoDuplicates(b)
  {
    forall i, j | 0 <= i < j < |b| ensures b[i] != b[j] {
      if b[i] == b[j] {
        assert b == b[..j] + [b[j]] + b[j + 1..];
        assert b[i] in b[..j];
        assert multiset(b)[b[i]] >= 2 by {
          assert multiset(b) == multiset(b[..j]) + multiset{b[j]} + multiset(b[j + 1..]);
        }
        DuplicateFreeCount(a, b[i]);
        assert false;
      }
    }
  }

  /** In a duplicate-free list every value occurs at most once. */
  lemma {:induction false} DuplicateFreeCount(a: seq<string>, x: string)
    requires NoDuplicates(a)
    ensures multiset(a)[x] <= 1
  {
    if a != [] {
      DuplicateFreeCount(a[1..], x);
      assert a == [a[0]] + a[1..];
      if a[0] == x {
        assert x !in a[1..];
      }
    }
  }

  /**
   * `categories`: every category of the directory exactly once, sorted.
   */
  function Categories(artists: seq<Artist>): (r: seq<string>)
    ensures Sorted(r) && NoDuplicates(r)
    ensures forall i :: 0 <= i < |artists| ==> artists[i].category in r
    ensures forall c :: c in r ==> exists i :: 0 <= i < |artists| && artists[i].category == c
  {
    var names := CategoryNames(artists);
    var d := Distinct(names);
    var r := Sort(d);
    PermutationNoDuplicates(d, r);
    assert forall c :: c in r <==> c in d by {
      forall c ensures c in r <==> c in d {
        assert c in r <==> c in multiset(r);
      }
    }
    assert forall c :: c in names ==> exists i :: 0 <= i < |artists| && artists[i].category == c;
    r
  }

  /** Two sorted duplicate-free lists holding the same strings are equal: the category list does not depend on how it is sorted. */
  lemma {:induction false} SortedListUnique(a: seq<string>, b: seq<string>)
    requires Sorted(a) && NoDuplicates(a) && Sorted(b) && NoDuplicates(b)
    requires forall x :: x in a <==> x in b
    ensures a == b
  {
    assert a != [] ==> a[0] in b;
    assert b != [] ==> b[0] in a;
    if a != [] && b != [] {
      assert a[0] in b && b[0] in a;
      var i :| 0 <= i < |b| && b[i] == a[0];
      var j :| 0 <= j < |a| && a[j] == b[0];
      assert LexLe(b[0], a[0]) by { if i > 0 { assert LexLe(b[0], b[i]); } else { LexLeReflexive(a[0]); } }
      assert LexLe(a[0], b[0]) by { if j > 0 { assert LexLe(a[0], a[j]); } else { LexLeReflexive(b[0]); } }
      LexLeAntisymmetric(a[0], b[0]);
      forall x ensures x in a[1..] <==> x in b[1..] {
        if x in a[1..] {
          assert x != a[0];
          assert x in b;
        }
        if x in b[1..] {
          assert x != b[0];
          assert x in a;
        }
      }
      SortedListUnique(a[1..], b[1..]);
      assert a == [a[0]] + a[1..] && b == [b[0]] + b[1..];
    }
  }

  // ---------------------------------------------------------------------
  // Seeding from query parameters and the mobile badge
  // ---------------------------------------------------------------------

  /** A query parameter counts when it is present and non-empty. */
  predicate Given(param: Option<string>) {
    param.Some? && param.value != ""
  }

  /** `s.charAt(0).toUpperCase() + s.slice(1)`. */
  function Capitalize(s: string): (r: string)
    ensures |r| == |s|
    ensures r != [] ==> !IsLower(r[0])
    ensures r != [] ==> r[1..] == s[1..]
    ensures s != [] ==> r[0] == UpperChar(s[0])
  {
    if s == [] then [] else [UpperChar(s[0])] + s[1..]
  }

  /**
   * The filter state after reading the `category`, `location` and `search`
   * query parameters on mount; the price range is never touched.
   */
  function SeedFromParams(prev: FilterState, category: Option<string>, location: Option<string>,
                          search: Option<string>): (r: FilterState)
    ensures r.priceRange == prev.priceRange
    ensures Given(category) ==> r.categories == [Capitalize(category.value)]
    ensures !Given(category) ==> r.categories == prev.categories
    ensures r.location == if Given(location) then location.value else prev.location
    ensures r.searchQuery == if Given(search) then search.value else prev.searchQuery
  {
    if Given(category) || Given(location) || Given(search) then
      prev.(
        categories := if Given(category) then [Capitalize(category.value)] else prev.categories,
        location := if Given(location) then location.value else prev.location,
        searchQuery := if Given(search) then search.value else prev.searchQuery)
    else prev
  }

  /** Reading the same parameters a second time changes nothing. */
  lemma SeedIdempotent(prev: FilterState, category: Option<string>, location: Option<string>,
                       search: Option<string>)
    ensures var once := SeedFromParams(prev, category, location, search);
            SeedFromParams(once, category, location, search) == once
  {
  }

  /** The lower-case `category=singers` of a link is seeded as `Singers`. */
  lemma SeedCapitalizesCategory()
    ensures SeedFromParams(InitialFilters, Some("singers"), None, None).categories == ["Singers"]
  {
    assert Given(Some("singers"));
    assert Capitalize("singers") == "Singers";
  }

  /** Whether the mobile "Filters" button shows a count badge. */
  predicate ShowsBadge(f: FilterState) {
    |f.categories| > 0 || f.location != "" || f.searchQuery != ""
  }

  /** The number on the badge: one per selected category, plus one each for location and search. */
  function BadgeCount(f: FilterState): (n: nat)
    ensures n > 0 <==> ShowsBadge(f)
    ensures |f.categories| <= n <= |f.categories| + 2
    ensures n == |f.categories| <==> f.location == "" && f.searchQuery == ""
    ensures n == |f.categories| + 2 <==> f.location != "" && f.searchQuery != ""
  {
    |f.categories| + (if f.location != "" then 1 else 0) + (if f.searchQuery != "" then 1 else 0)
  }
}
