/**
 * The application-wide preferences store: favourite artists (deduplicated by
 * id, most recently added last), a most-recent-first search history of at
 * most ten entries, and the signed-in user.
 */
module AppProvider {
  import opened Wrappers
  import opened Text
  import opened Seqs
  import opened ArtistTypes

  datatype User = User(isAuthenticated: bool, name: Option<string>, email: Option<string>)

  /** The user the store starts with: not signed in, no name or e-mail. */
  const Guest: User := User(false, None, None)

  /** The history keeps at most this many queries. */
  const HistoryLimit: nat := 10

  // ---------------------------------------------------------------------
  // Favourites
  // ---------------------------------------------------------------------

  /** The filter callback `a => a.id !== id`. */
  function OtherArtist(id: int): Artist -> bool {
    (a: Artist) => a.id != id
  }

  /** No two favourites share an id. */
  predicate UniqueIds(favorites: seq<Artist>) {
    forall i, j :: 0 <= i < |favorites| && 0 <= j < |favorites| && favorites[i].id == favorites[j].id ==> i == j
  }

  /** `favorites.some(a => a.id === id)`. */
  function IsFavorite(favorites: seq<Artist>, id: int): (b: bool)
    ensures b <==> exists i :: 0 <= i < |favorites| && favorites[i].id == id
  {
    if favorites == [] then false
    else if favorites[0].id == id then true
    else
      var rest := IsFavorite(favorites[1..], id);
      assert rest ==> exists i :: 0 <= i < |favorites[1..]| && favorites[1..][i].id == id;
      rest
  }

  /** `favorites.filter(a => a.id !== id)`. */
  function WithoutFavorite(favorites: seq<Artist>, id: int): (r: seq<Artist>)
    ensures forall i :: 0 <= i < |r| ==> r[i].id != id && r[i] in favorites
    ensures forall i :: 0 <= i < |favorites| && favorites[i].id != id ==> favorites[i] in r
    ensures IsSubsequence(r, favorites)
    ensures forall a :: multiset(r)[a] == if a.id != id then multiset(favorites)[a] else 0
  {
    FilterIsSubsequence(favorites, OtherArtist(id));
    FilterCounts(favorites, OtherArtist(id));
    Filter(favorites, OtherArtist(id))
  }

  /** `[...favorites.filter(a => a.id !== artist.id), artist]`. */
  function WithFavorite(favorites: seq<Artist>, artist: Artist): (r: seq<Artist>)
    ensures |r| > 0 && r[|r| - 1] == artist
    ensures forall i :: 0 <= i < |r| - 1 ==> r[i].id != artist.id && r[i] in favorites
    ensures forall i :: 0 <= i < |favorites| && favorites[i].id != artist.id ==> favorites[i] in r
    ensures IsSubsequence(r[..|r| - 1], favorites)
    ensures forall a :: multiset(r[..|r| - 1])[a] == if a.id != artist.id then multiset(favorites)[a] else 0
  {
    var kept := WithoutFavorite(favorites, artist.id);
    assert (kept + [artist])[..|kept|] == kept;
    kept + [artist]
  }

  /** After adding, the artist is a favourite, and the only one with its id. */
  lemma AddedIsFavorite(favorites: seq<Artist>, artist: Artist)
    ensures IsFavorite(WithFavorite(favorites, artist), artist.id)
    ensures var r := WithFavorite(favorites, artist);
            forall i :: 0 <= i < |r| && r[i].id == artist.id ==> i == |r| - 1
  {
    var r := WithFavorite(favorites, artist);
    assert r[|r| - 1].id == artist.id;
  }

  /** Adding keeps ids unique. */
  lemma AddKeepsUniqueIds(favorites: seq<Artist>, artist: Artist)
    requires UniqueIds(favorites)
    ensures UniqueIds(WithFavorite(favorites, artist))
  {
    var w := WithoutFavorite(favorites, artist.id);
    var r := WithFavorite(favorites, artist);
    assert NoDuplicates(favorites);
    FilterNoDuplicates(favorites, OtherArtist(artist.id));
    forall i, j | 0 <= i < |r| && 0 <= j < |r| && r[i].id == r[j].id ensures i == j {
      if i < |w| && j < |w| {
        var a :| 0 <= a < |favorites| && favorites[a] == w[i];
        var b :| 0 <= b < |favorites| && favorites[b] == w[j];
        assert w[i] == w[j];
      }
    }
  }

  /** After removing, no favourite carries the id; the others stay in order. */
  lemma RemovedIsNotFavorite(favorites: seq<Artist>, id: int)
    ensures !IsFavorite(WithoutFavorite(favorites, id), id)
  {
  }

  /** Removing keeps ids unique. */
  lemma RemoveKeepsUniqueIds(favorites: seq<Artist>, id: int)
    requires UniqueIds(favorites)
    ensures UniqueIds(WithoutFavorite(favorites, id))
  {
    var w := WithoutFavorite(favorites, id);
    assert NoDuplicates(favorites);
    FilterNoDuplicates(favorites, OtherArtist(id));
    forall i, j | 0 <= i < |w| && 0 <= j < |w| && w[i].id == w[j].id ensures i == j {
      var a :| 0 <= a < |favorites| && favorites[a] == w[i];
      var b :| 0 <= b < |favorites| && favorites[b] == w[j];
      assert w[i] == w[j];
    }
  }

  /** Adding an artist again changes nothing. */
  lemma AddFavoriteIdempotent(favorites: seq<Artist>, artist: Artist)
    ensures WithFavorite(WithFavorite(favorites, artist), artist) == WithFavorite(favorites, artist)
  {
    var p := OtherArtist(artist.id);
    var kept := Filter(favorites, p);
    assert WithFavorite(favorites, artist) == kept + [artist];
    FilterAppend(kept, [artist], p);
    FilterIdempotent(favorites, p);
    assert Filter([artist], p) == [];
    assert WithoutFavorite(kept + [artist], artist.id) == kept;
  }

  /** Removing what was just added leaves the other favourites as removal alone would. */
  lemma AddThenRemove(favorites: seq<Artist>, artist: Artist)
    ensures WithoutFavorite(WithFavorite(favorites, artist), artist.id) == WithoutFavorite(favorites, artist.id)
  {
    var p := OtherArtist(artist.id);
    var kept := Filter(favorites, p);
    assert WithFavorite(favorites, artist) == kept + [artist];
    FilterAppend(kept, [artist], p);
    FilterIdempotent(favorites, p);
    assert Filter([artist], p) == [];
    assert WithoutFavorite(kept + [artist], artist.id) == kept;
  }

  // ---------------------------------------------------------------------
  // Search history
  // ---------------------------------------------------------------------

  /**
   * `addToSearchHistory`'s update: a blank query is ignored; otherwise the
   * query moves to the front, its earlier copies are dropped, and the list is
   * cut to ten entries.
   */
  function WithQuery(history: seq<string>, query: string): (r: seq<string>)
    ensures IsBlank(query) ==> r == history
    ensures !IsBlank(query) ==> |r| > 0 && r[0] == query && |r| <= HistoryLimit
    ensures !IsBlank(query) ==> query !in r[1..]
    ensures !IsBlank(query) ==> forall i :: 1 <= i < |r| ==> r[i] in history
  {
    if IsBlank(query) then history
    else
      var rest := RemoveAll(history, query);
      var r := Take([query] + rest, HistoryLimit);
      assert r[1..] <= rest;
      r
  }

  /** The history after a non-blank query: the query, then the rest as before, up to the limit. */
  lemma WithQueryShape(history: seq<string>, query: string)
    requires !IsBlank(query)
    ensures WithQuery(history, query) == [query] + Take(RemoveAll(history, query), HistoryLimit - 1)
  {
  }

  /** A history without duplicates stays without duplicates. */
  lemma WithQueryNoDuplicates(history: seq<string>, query: string)
    requires NoDuplicates(history)
    ensures NoDuplicates(WithQuery(history, query))
  {
    if !IsBlank(query) {
      var rest := RemoveAll(history, query);
      RemoveAllNoDuplicates(history, query);
      WithQueryShape(history, query);
      var r := WithQuery(history, query);
      forall i, j | 0 <= i < j < |r| ensures r[i] != r[j] {
        assert r[j] == rest[j - 1];
        if i > 0 {
          assert r[i] == rest[i - 1];
        } else {
          assert r[i] == query;
        }
      }
    }
  }

  /** Searching the same query twice in a row is the same as once. */
  lemma WithQueryIdempotent(history: seq<string>, query: string)
    ensures WithQuery(WithQuery(history, query), query) == WithQuery(history, query)
  {
    if !IsBlank(query) {
      var r := WithQuery(history, query);
      var rest := Take(RemoveAll(history, query), HistoryLimit - 1);
      WithQueryShape(history, query);
      WithQueryShape(r, query);
      assert query !in rest;
      RemoveAfterPrepend(rest, query);
      RemoveAbsent(rest, query);
    }
  }

  /** Removing `x` from `[x] + s` is removing it from `s`. */
  lemma RemoveAfterPrepend(s: seq<string>, x: string)
    ensures RemoveAll([x] + s, x) == RemoveAll(s, x)
  {
    FilterAppend([x], s, y => y != x);
    assert ([x] + s)[1..] == s;
  }

  // ---------------------------------------------------------------------
  // The store
  // ---------------------------------------------------------------------

  /** The provider's state; each action replaces one of its three parts. */
  class AppStore {
    var favorites: seq<Artist>
    var searchHistory: seq<string>
    var user: User

    /** What every action keeps: unique favourite ids, a short duplicate-free history. */
    ghost predicate Valid()
      reads this
    {
      UniqueIds(favorites) && NoDuplicates(searchHistory) && |searchHistory| <= HistoryLimit
    }

    constructor ()
      ensures Valid()
      ensures favorites == [] && searchHistory == [] && user == Guest
    {
      favorites := [];
      searchHistory := [];
      user := Guest;
    }

    /** `isFavorite`. */
    function IsFavoriteId(id: int): bool
      reads this
    {
      IsFavorite(favorites, id)
    }

    /** `addToFavorites`. */
    method AddToFavorites(artist: Artist)
      requires Valid()
      modifies this`favorites
      ensures Valid()
      ensures favorites == WithFavorite(old(favorites), artist)
      ensures IsFavoriteId(artist.id)
    {
      AddKeepsUniqueIds(favorites, artist);
      AddedIsFavorite(favorites, artist);
      favorites := WithFavorite(favorites, artist);
    }

    /** `removeFromFavorites`. */
    method RemoveFromFavorites(id: int)
      requires Valid()
      modifies this`favorites
      ensures Valid()
      ensures favorites == WithoutFavorite(old(favorites), id)
      ensures !IsFavoriteId(id)
    {
      RemoveKeepsUniqueIds(favorites, id);
      favorites := WithoutFavorite(favorites, id);
    }

    /** `addToSearchHistory`. */
    method AddToSearchHistory(query: string)
      requires Valid()
      modifies this`searchHistory
      ensures Valid()
      ensures searchHistory == WithQuery(old(searchHistory), query)
    {
      if IsBlank(query) {
        return;
      }
      WithQueryNoDuplicates(searchHistory, query);
      searchHistory := WithQuery(searchHistory, query);
    }

    /** `clearSearchHistory`. */
    method ClearSearchHistory()
      requires Valid()
      modifies this`searchHistory
      ensures Valid()
      ensures searchHistory == []
    {
      searchHistory := [];
    }

    /** `setUser`: replaces the user only. */
    method SetUser(u: User)
      requires Valid()
      modifies this`user
      ensures Valid()
      ensures user == u
    {
      user := u;
    }
  }
}
