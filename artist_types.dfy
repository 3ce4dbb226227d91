/** The records of the artist directory and the listing's filter state. */
module ArtistTypes {

  /** One artist of the directory; read-only for the whole application. */
  datatype Artist = Artist(
    id: int,
    name: string,
    category: string,
    location: string,
    city: string,
    state: string,
    priceMin: int,
    priceMax: int,
    rating: real,
    reviews: int,
    image: string,
    languages: seq<string>,
    bio: string,
    verified: bool)

  /** What the user has chosen in the filter sidebar; `priceRange` is `[min, max]`. */
  datatype FilterState = FilterState(
    categories: seq<string>,
    location: string,
    priceRange: (int, int),
    searchQuery: string)
}
