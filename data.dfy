/**
 * The data-access helpers over the static artist directory: lookup by id,
 * case-insensitive category selection and free-text search. The directory
 * itself is a parameter.
 */
module Data {
  import opened Wrappers
  import opened Text
  import opened Seqs
  import opened ArtistTypes

  /** The `find` callback `artist => artist.id === id`. */
  function HasId(id: int): Artist -> bool {
    (a: Artist) => a.id == id
  }

  /** `getArtistById`: the first artist with the id, or none. */
  function GetArtistById(artists: seq<Artist>, id: int): (r: Option<Artist>)
    ensures r.None? <==> forall i :: 0 <= i < |artists| ==> artists[i].id != id
    ensures r.Some? ==> exists i :: 0 <= i < |artists| && artists[i] == r.value && r.value.id == id
                                    && forall j :: 0 <= j < i ==> artists[j].id != id
  {
    var r := FindFirst(artists, HasId(id));
    assert r.None? <==> forall i :: 0 <= i < |artists| ==> !HasId(id)(artists[i]);
    r
  }

  /** With unique ids, the artist at any index is what its id finds. */
  lemma LookupFindsArtist(artists: seq<Artist>, k: int)
    requires 0 <= k < |artists|
    requires forall i, j :: 0 <= i < |artists| && 0 <= j < |artists| && artists[i].id == artists[j].id ==> i == j
    ensures GetArtistById(artists, artists[k].id) == Some(artists[k])
  {
    FindFirstAt(artists, HasId(artists[k].id), k);
  }

  /** The filter callback of `getArtistsByCategory`. */
  function SameCategory(category: string): Artist -> bool {
    (a: Artist) => Lower(a.category) == Lower(category)
  }

  /** `getArtistsByCategory`: the artists whose category equals the argument ignoring case. */
  function GetArtistsByCategory(artists: seq<Artist>, category: string): (r: seq<Artist>)
    ensures IsSubsequence(r, artists)
    ensures forall i :: 0 <= i < |r| ==> Lower(r[i].category) == Lower(category)
    ensures forall i :: 0 <= i < |artists| && Lower(artists[i].category) == Lower(category) ==> artists[i] in r
    ensures forall a :: multiset(r)[a] == if Lower(a.category) == Lower(category) then multiset(artists)[a] else 0
  {
    FilterIsSubsequence(artists, SameCategory(category));
    FilterCounts(artists, SameCategory(category));
    Filter(artists, SameCategory(category))
  }

  /** The argument's casing does not matter. */
  lemma CategoryCaseInsensitive(artists: seq<Artist>, category: string)
    ensures GetArtistsByCategory(artists, category) == GetArtistsByCategory(artists, Lower(category))
  {
    LowerIdempotent(category);
    FilterCongruent(artists, SameCategory(category), SameCategory(Lower(category)));
  }

  /** The lower-cased query occurs in the lower-cased name, bio, category or location. */
  predicate QueryHit(query: string, a: Artist) {
    var t := Lower(query);
    Contains(Lower(a.name), t) || Contains(Lower(a.bio), t)
      || Contains(Lower(a.category), t) || Contains(Lower(a.location), t)
  }

  /** The filter callback of `searchArtists`. */
  function Searching(query: string): Artist -> bool {
    (a: Artist) => QueryHit(query, a)
  }

  /** `searchArtists`: the artists the query hits, in directory order; the query is not trimmed. */
  function SearchArtists(artists: seq<Artist>, query: string): (r: seq<Artist>)
    ensures IsSubsequence(r, artists)
    ensures forall i :: 0 <= i < |r| ==> QueryHit(query, r[i])
    ensures forall i :: 0 <= i < |artists| && QueryHit(query, artists[i]) ==> artists[i] in r
    ensures forall a :: multiset(r)[a] == if QueryHit(query, a) then multiset(artists)[a] else 0
  {
    FilterIsSubsequence(artists, Searching(query));
    FilterCounts(artists, Searching(query));
    Filter(artists, Searching(query))
  }

  /** The empty query returns the whole directory. */
  lemma EmptyQueryReturnsAll(artists: seq<Artist>)
    ensures SearchArtists(artists, "") == artists
  {
    forall a | a in artists ensures Searching("")(a) {
      ContainsEmpty(Lower(a.name));
    }
    FilterKeepsAll(artists, Searching(""));
  }

  /** Searching again with the same query changes nothing. */
  lemma SearchIdempotent(artists: seq<Artist>, query: string)
    ensures SearchArtists(SearchArtists(artists, query), query) == SearchArtists(artists, query)
  {
    FilterIdempotent(artists, Searching(query));
  }
}
