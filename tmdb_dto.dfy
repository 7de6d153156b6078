/**
 * The upstream movie-database API's response shapes, field for field and under
 * their wire names. `T | null` and `field?: T` are both `Option<T>`; an interface
 * that extends another embeds it as its first field, so a detail DTO carries every
 * field of its summary DTO by construction.
 */
module TmdbDto {
  import opened Wrappers

  /** A JavaScript number the model carries but never computes with (ratings, popularity). */
  type Float = real

  datatype MovieDTO = MovieDTO(
    id: int,
    title: string,
    original_title: string,
    overview: string,
    poster_path: Option<string>,
    backdrop_path: Option<string>,
    release_date: string,
    vote_average: Float,
    vote_count: int,
    popularity: Float,
    genre_ids: seq<int>,
    adult: bool,
    original_language: string,
    video: bool)

  /** `MovieDetailDTO extends MovieDTO`; `credits` is present only when asked for. */
  datatype MovieDetailDTO = MovieDetailDTO(
    summary: MovieDTO,
    runtime: Option<int>,
    budget: int,
    revenue: int,
    status: string,
    tagline: Option<string>,
    homepage: Option<string>,
    genres: seq<GenreDTO>,
    production_companies: seq<ProductionCompanyDTO>,
    production_countries: seq<CountryDTO>,
    spoken_languages: seq<LanguageDTO>,
    credits: Option<CreditsDTO>)

  datatype TVShowDTO = TVShowDTO(
    id: int,
    name: string,
    original_name: string,
    overview: string,
    poster_path: Option<string>,
    backdrop_path: Option<string>,
    first_air_date: string,
    vote_average: Float,
    vote_count: int,
    popularity: Float,
    genre_ids: seq<int>,
    origin_country: seq<string>,
    original_language: string)

  /** `TVShowDetailDTO extends TVShowDTO`. */
  datatype TVShowDetailDTO = TVShowDetailDTO(
    summary: TVShowDTO,
    number_of_seasons: int,
    number_of_episodes: int,
    episode_run_time: seq<int>,
    status: string,
    tagline: Option<string>,
    homepage: Option<string>,
    genres: seq<GenreDTO>,
    created_by: seq<CreatorDTO>,
    networks: seq<NetworkDTO>,
    production_companies: seq<ProductionCompanyDTO>,
    seasons: seq<SeasonDTO>,
    credits: Option<CreditsDTO>)

  datatype GenreDTO = GenreDTO(id: int, name: string)

  datatype ProductionCompanyDTO = ProductionCompanyDTO(
    id: int, logo_path: Option<string>, name: string, origin_country: string)

  datatype CountryDTO = CountryDTO(iso_3166_1: string, name: string)

  datatype LanguageDTO = LanguageDTO(iso_639_1: string, name: string, english_name: string)

  datatype CreatorDTO = CreatorDTO(
    id: int, credit_id: string, name: string, gender: int, profile_path: Option<string>)

  datatype NetworkDTO = NetworkDTO(
    id: int, logo_path: Option<string>, name: string, origin_country: string)

  datatype SeasonDTO = SeasonDTO(
    air_date: Option<string>,
    episode_count: int,
    id: int,
    name: string,
    overview: string,
    poster_path: Option<string>,
    season_number: int)

  /** The embedded credits: the cast list and the crew list, both in upstream order. */
  datatype CreditsDTO = CreditsDTO(cast: seq<CastDTO>, crew: seq<CrewDTO>)

  datatype CastDTO = CastDTO(
    id: int,
    cast_id: int,
    credit_id: string,
    character: string,
    name: string,
    profile_path: Option<string>,
    order: int)

  datatype CrewDTO = CrewDTO(
    id: int,
    credit_id: string,
    department: string,
    job: string,
    name: string,
    profile_path: Option<string>)

  /** One page of a list endpoint: the results in upstream order and the page count. */
  datatype PaginatedResponseDTO<T> = PaginatedResponseDTO(
    page: int, results: seq<T>, total_pages: int, total_results: int)

  /**
   * One entry of a multi-search page. The source types `media_type` as
   * `'movie' | 'tv'`, but the upstream also sends other kinds (people), so the
   * model keeps it as the raw string.
   */
  datatype SearchResultDTO = SearchResultDTO(
    id: int,
    media_type: string,
    title: Option<string>,
    name: Option<string>,
    original_title: Option<string>,
    original_name: Option<string>,
    overview: string,
    poster_path: Option<string>,
    backdrop_path: Option<string>,
    release_date: Option<string>,
    first_air_date: Option<string>,
    vote_average: Float,
    vote_count: int,
    popularity: Float,
    genre_ids: seq<int>)
}
