/**
 * The app's domain model, under its camel-case names. `Movie` is a `BaseMedia`
 * whose tag is fixed to 'movie'; `TVShow` is `BaseMedia` without `releaseDate`,
 * with `firstAirDate` instead and its tag fixed to 'tv'. Detail types embed the
 * summary type they extend.
 */
module MovieEntity {
  import opened Wrappers
  import TmdbDto

  /** `'movie' | 'tv'`. */
  datatype MediaType = MovieMedia | TvMedia {
    /** The literal the source writes for this tag. */
    function Tag(): (t: string)
      ensures t == "movie" || t == "tv"
    {
      if MovieMedia? then "movie" else "tv"
    }
  }

  datatype BaseMedia = BaseMedia(
    id: int,
    mediaType: MediaType,
    title: string,
    originalTitle: string,
    overview: string,
    posterPath: Option<string>,
    backdropPath: Option<string>,
    releaseDate: string,
    voteAverage: TmdbDto.Float,
    voteCount: int,
    popularity: TmdbDto.Float,
    genreIds: seq<int>)

  /** `interface Movie extends BaseMedia { mediaType: 'movie' }`. */
  type Movie = m: BaseMedia | m.mediaType == MovieMedia
    witness BaseMedia(0, MovieMedia, "", "", "", None, None, "", 0.0, 0, 0.0, [])

  datatype MovieDetail = MovieDetail(
    movie: Movie,
    runtime: Option<int>,
    budget: int,
    revenue: int,
    status: string,
    tagline: Option<string>,
    homepage: Option<string>,
    genres: seq<Genre>,
    director: Option<string>,
    cast: seq<CastMember>)

  /** `Omit<BaseMedia, 'releaseDate'>` with `mediaType: 'tv'` and `firstAirDate`. */
  datatype TVShow = TVShow(
    id: int,
    title: string,
    originalTitle: string,
    overview: string,
    posterPath: Option<string>,
    backdropPath: Option<string>,
    firstAirDate: string,
    voteAverage: TmdbDto.Float,
    voteCount: int,
    popularity: TmdbDto.Float,
    genreIds: seq<int>)
  {
    const mediaType: MediaType := TvMedia
  }

  datatype TVShowDetail = TVShowDetail(
    show: TVShow,
    numberOfSeasons: int,
    numberOfEpisodes: int,
    episodeRuntime: seq<int>,
    status: string,
    tagline: Option<string>,
    homepage: Option<string>,
    genres: seq<Genre>,
    creators: seq<string>,
    cast: seq<CastMember>)

  datatype Genre = Genre(id: int, name: string)

  datatype CastMember = CastMember(
    id: int, name: string, character: string, profilePath: Option<string>, order: int)

  /** The free-text query is required, the page is not. */
  datatype MediaSearchParams = MediaSearchParams(query: string, page: Option<int>)

  /** The three sort keys a discover request may name. */
  datatype SortBy = PopularityDesc | VoteAverageDesc | ReleaseDateDesc {
    function Token(): (t: string)
      ensures t in {"popularity.desc", "vote_average.desc", "release_date.desc"}
    {
      match this
      case PopularityDesc => "popularity.desc"
      case VoteAverageDesc => "vote_average.desc"
      case ReleaseDateDesc => "release_date.desc"
    }
  }

  /** Every discover filter is optional. */
  datatype DiscoverParams = DiscoverParams(
    page: Option<int>, year: Option<int>, genreId: Option<int>, sortBy: Option<SortBy>)
}
