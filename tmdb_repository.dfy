/**
 * The repository (`TMDBRepository`, and `MovieRepository`, which has the same
 * text and implements `IMovieRepository`). Each operation sends one GET request
 * and shapes the awaited response; the request is modelled by what it asks for
 * (`RequestOf`) and the response is an input (`Perform`).
 */
module TmdbRepository {
  import opened Wrappers
  import opened JsNumber
  import opened TmdbDto
  import opened MovieEntity
  import opened MovieMapper
  import opened TmdbConfig
  import Sequences

  /** One call of a repository operation with its arguments, as the caller passes them. */
  datatype Call =
    | GetPopularMovies(page: Option<int>)
    | GetTopRatedMovies(page: Option<int>)
    | GetNowPlayingMovies(page: Option<int>)
    | DiscoverMovies(discover: DiscoverParams)
    | GetMovieDetail(movieId: int)
    | GetPopularTVShows(page: Option<int>)
    | GetTopRatedTVShows(page: Option<int>)
    | GetOnTheAirTVShows(page: Option<int>)
    | DiscoverTVShows(discover: DiscoverParams)
    | GetTVShowDetail(tvId: int)
    | SearchMulti(search: MediaSearchParams)
    | SearchMovies(search: MediaSearchParams)
    | SearchTVShows(search: MediaSearchParams)
  {
    /** The operations with a `page: number = 1` parameter. */
    predicate IsList() {
      GetPopularMovies? || GetTopRatedMovies? || GetNowPlayingMovies?
      || GetPopularTVShows? || GetTopRatedTVShows? || GetOnTheAirTVShows?
    }

    predicate IsDiscover() {
      DiscoverMovies? || DiscoverTVShows?
    }

    predicate IsDetail() {
      GetMovieDetail? || GetTVShowDetail?
    }

    predicate IsSearch() {
      SearchMulti? || SearchMovies? || SearchTVShows?
    }
  }

  /** A GET request before the interceptor adds the credentials: path and query parameters. */
  datatype Request = Request(path: string, params: Params)

  const DEFAULT_PAGE := 1
  const DEFAULT_SORT := PopularityDesc

  /** `page: number = 1`: only a missing page is replaced (0 is sent as 0). */
  function DefaultPage(page: Option<int>): (p: int)
    ensures page.None? ==> p == 1
    ensures page.Some? ==> p == page.value
  {
    page.GetOr(DEFAULT_PAGE)
  }

  /** `params.page || 1`: a missing page and page 0 both become 1; the result is never 0. */
  function PageOrFirst(page: Option<int>): (p: int)
    ensures p != 0
    ensures page.None? || page == Some(0) ==> p == 1
    ensures page.Some? && page.value != 0 ==> p == page.value
  {
    if page.None? || page.value == 0 then DEFAULT_PAGE else page.value
  }

  function OptionalNumber(o: Option<int>): ParamValue {
    match o
    case Some(n) => NumParam(n)
    case None => Undefined
  }

  function PageParams(page: int): Params {
    map["page" := NumParam(page)]
  }

  /** The discover query; the year goes under a key that depends on the media type. */
  function DiscoverQuery(params: DiscoverParams, yearKey: string): Params {
    map[
      "page" := NumParam(PageOrFirst(params.page)),
      yearKey := OptionalNumber(params.year),
      "with_genres" := OptionalNumber(params.genreId),
      "sort_by" := StrParam(params.sortBy.GetOr(DEFAULT_SORT).Token())]
  }

  function SearchQuery(params: MediaSearchParams): Params {
    map["query" := StrParam(params.query), "page" := NumParam(PageOrFirst(params.page))]
  }

  /** Details embed the credits in the same response instead of a second request. */
  const CREDITS_QUERY: Params := map["append_to_response" := StrParam("credits")]

  /** The one request each operation sends. */
  function RequestOf(c: Call): (r: Request)
    ensures c.IsList() ==> r.params == PageParams(DefaultPage(c.page))
    ensures c.IsDetail() ==> r.params == CREDITS_QUERY
    ensures c.IsSearch() ==> r.params == SearchQuery(c.search)
    ensures c.DiscoverMovies? ==> r.params == DiscoverQuery(c.discover, "primary_release_year")
    ensures c.DiscoverTVShows? ==> r.params == DiscoverQuery(c.discover, "first_air_date_year")
  {
    match c
    case GetPopularMovies(page) => Request("/movie/popular", PageParams(DefaultPage(page)))
    case GetTopRatedMovies(page) => Request("/movie/top_rated", PageParams(DefaultPage(page)))
    case GetNowPlayingMovies(page) => Request("/movie/now_playing", PageParams(DefaultPage(page)))
    case DiscoverMovies(params) => Request("/discover/movie", DiscoverQuery(params, "primary_release_year"))
    case GetMovieDetail(movieId) => Request("/movie/" + IntToString(movieId), CREDITS_QUERY)
    case GetPopularTVShows(page) => Request("/tv/popular", PageParams(DefaultPage(page)))
    case GetTopRatedTVShows(page) => Request("/tv/top_rated", PageParams(DefaultPage(page)))
    case GetOnTheAirTVShows(page) => Request("/tv/on_the_air", PageParams(DefaultPage(page)))
    case DiscoverTVShows(params) => Request("/discover/tv", DiscoverQuery(params, "first_air_date_year"))
    case GetTVShowDetail(tvId) => Request("/tv/" + IntToString(tvId), CREDITS_QUERY)
    case SearchMulti(params) => Request("/search/multi", SearchQuery(params))
    case SearchMovies(params) => Request("/search/movie", SearchQuery(params))
    case SearchTVShows(params) => Request("/search/tv", SearchQuery(params))
  }

  /** The page number an operation puts in its request, if it sends one. */
  function PageSent(c: Call): Option<int> {
    var params := RequestOf(c).params;
    if "page" in params && params["page"].NumParam? then Some(params["page"].n) else None
  }

  /**
   * List operations send the caller's page and 1 when it is missing; discover
   * and search operations also send 1 for page 0; details send no page.
   */
  lemma PageDefaults(c: Call)
    ensures c.IsList() ==> PageSent(c) == Some(if c.page.None? then 1 else c.page.value)
    ensures c.IsDiscover() ==>
      PageSent(c) == Some(if c.discover.page.None? || c.discover.page == Some(0) then 1 else c.discover.page.value)
    ensures c.IsSearch() ==>
      PageSent(c) == Some(if c.search.page.None? || c.search.page == Some(0) then 1 else c.search.page.value)
    ensures c.IsDetail() ==> PageSent(c).None?
  {
    var params := RequestOf(c).params;
    if c.IsDiscover() {
      var yearKey := if c.DiscoverMovies? then "primary_release_year" else "first_air_date_year";
      assert params == DiscoverQuery(c.discover, yearKey);
      assert params["page"] == NumParam(PageOrFirst(c.discover.page));
    }
  }

  /**
   * Discover sends the sort key or 'popularity.desc', the genre filter, and the
   * year under `primary_release_year` for movies and `first_air_date_year` for TV.
   */
  lemma DiscoverParamsSent(params: DiscoverParams)
    ensures RequestOf(DiscoverMovies(params)).path == "/discover/movie"
    ensures RequestOf(DiscoverTVShows(params)).path == "/discover/tv"
    ensures var q := RequestOf(DiscoverMovies(params)).params;
      q.Keys == {"page", "primary_release_year", "with_genres", "sort_by"}
      && q["primary_release_year"] == OptionalNumber(params.year)
      && q["with_genres"] == OptionalNumber(params.genreId)
      && q["sort_by"] == StrParam(if params.sortBy.None? then "popularity.desc" else params.sortBy.value.Token())
    ensures var q := RequestOf(DiscoverTVShows(params)).params;
      q.Keys == {"page", "first_air_date_year", "with_genres", "sort_by"}
      && q["first_air_date_year"] == OptionalNumber(params.year)
      && q["with_genres"] == OptionalNumber(params.genreId)
      && q["sort_by"] == StrParam(if params.sortBy.None? then "popularity.desc" else params.sortBy.value.Token())
  {
  }

  /** The search operations forward the query text unchanged. */
  lemma SearchForwardsQuery(c: Call)
    requires c.IsSearch()
    ensures var q := RequestOf(c).params;
      q.Keys == {"query", "page"} && q["query"] == StrParam(c.search.query)
  {
  }

  /** A detail request names exactly one title: distinct ids give distinct requests, and movies never meet TV shows. */
  lemma DetailRequestsIdentifyTitle(a: int, b: int)
    ensures RequestOf(GetMovieDetail(a)) == RequestOf(GetMovieDetail(b)) <==> a == b
    ensures RequestOf(GetTVShowDetail(a)) == RequestOf(GetTVShowDetail(b)) <==> a == b
    ensures RequestOf(GetMovieDetail(a)).path != RequestOf(GetTVShowDetail(b)).path
  {
    var movieA, movieB := RequestOf(GetMovieDetail(a)).path, RequestOf(GetMovieDetail(b)).path;
    var tvA, tvB := RequestOf(GetTVShowDetail(a)).path, RequestOf(GetTVShowDetail(b)).path;
    if movieA == movieB {
      assert IntToString(a) == movieA[|"/movie/"|..] == movieB[|"/movie/"|..] == IntToString(b);
      IntToStringInjective(a, b);
    }
    if tvA == tvB {
      assert IntToString(a) == tvA[|"/tv/"|..] == tvB[|"/tv/"|..] == IntToString(b);
      IntToStringInjective(a, b);
    }
    assert movieA[1] == 'm' && tvB[1] == 't';
  }

  // ----- responses -----

  /** The awaited response body; its kind is the type argument written at the `get` call. */
  datatype Body =
    | MoviePage(moviePage: PaginatedResponseDTO<MovieDTO>)
    | TVPage(tvPage: PaginatedResponseDTO<TVShowDTO>)
    | MovieDetailBody(movieDetail: MovieDetailDTO)
    | TVDetailBody(tvDetail: TVShowDetailDTO)
    | SearchPage(searchPage: PaginatedResponseDTO<SearchResultDTO>)

  /** The body type each operation declares for its response. */
  predicate Declares(c: Call, b: Body) {
    match c
    case GetPopularMovies(_) => b.MoviePage?
    case GetTopRatedMovies(_) => b.MoviePage?
    case GetNowPlayingMovies(_) => b.MoviePage?
    case DiscoverMovies(_) => b.MoviePage?
    case SearchMovies(_) => b.MoviePage?
    case GetMovieDetail(_) => b.MovieDetailBody?
    case GetPopularTVShows(_) => b.TVPage?
    case GetTopRatedTVShows(_) => b.TVPage?
    case GetOnTheAirTVShows(_) => b.TVPage?
    case DiscoverTVShows(_) => b.TVPage?
    case SearchTVShows(_) => b.TVPage?
    case GetTVShowDetail(_) => b.TVDetailBody?
    case SearchMulti(_) => b.SearchPage?
  }

  /** What an operation resolves to. */
  datatype Outcome =
    | Movies(movies: seq<Movie>, totalPages: int)
    | Shows(shows: seq<TVShow>, totalPages: int)
    | MovieDetailResult(movieDetail: MovieDetail)
    | TVShowDetailResult(tvShowDetail: TVShowDetail)
    | SearchResults(results: seq<BaseMedia>, totalPages: int)

  /** The multi-search filter: keep only movie and TV entries (drops people). */
  function IsMovieOrTv(dto: SearchResultDTO): (keep: bool)
    ensures keep <==> dto.media_type == MovieMedia.Tag() || dto.media_type == TvMedia.Tag()
  {
    dto.media_type == "movie" || dto.media_type == "tv"
  }

  /**
   * Shapes the response of a call: pages become `{items, totalPages}` through the
   * list mappers, details go through the detail mappers, multi-search filters
   * before mapping. A rejected request rejects the operation with the message
   * the response interceptor gave it; a received body never makes it fail.
   */
  function Perform(c: Call, reply: Result<Body, AxiosError>): (r: Result<Outcome, string>)
    requires reply.Ok? ==> Declares(c, reply.value)
    ensures reply.Err? ==> r == Err(ErrorMessage(reply.error))
    ensures reply.Ok? <==> r.Ok?
    ensures reply.Ok? && reply.value.MoviePage? ==>
      r.value == Movies(MovieListToDomain(reply.value.moviePage.results), reply.value.moviePage.total_pages)
    ensures reply.Ok? && reply.value.TVPage? ==>
      r.value == Shows(TvListToDomain(reply.value.tvPage.results), reply.value.tvPage.total_pages)
    ensures reply.Ok? && reply.value.MovieDetailBody? ==>
      r.value == MovieDetailResult(MovieDetailToDomain(reply.value.movieDetail))
    ensures reply.Ok? && reply.value.TVDetailBody? ==>
      r.value == TVShowDetailResult(TvDetailToDomain(reply.value.tvDetail))
    ensures reply.Ok? && reply.value.SearchPage? ==>
      r.value == SearchResults(
        SearchListToDomain(Sequences.Filter(IsMovieOrTv, reply.value.searchPage.results)),
        reply.value.searchPage.total_pages)
  {
    match reply
    case Err(e) => Err(ErrorMessage(e))
    case Ok(body) =>
      match body
      case MoviePage(page) => Ok(Movies(MovieListToDomain(page.results), page.total_pages))
      case TVPage(page) => Ok(Shows(TvListToDomain(page.results), page.total_pages))
      case MovieDetailBody(dto) => Ok(MovieDetailResult(MovieDetailToDomain(dto)))
      case TVDetailBody(dto) => Ok(TVShowDetailResult(TvDetailToDomain(dto)))
      case SearchPage(page) =>
        var kept := Sequences.Filter(IsMovieOrTv, page.results);
        Ok(SearchResults(SearchListToDomain(kept), page.total_pages))
  }

  /** The result shape `IMovieRepository` promises for each operation. */
  predicate Implements(c: Call, o: Outcome) {
    match c
    case GetPopularMovies(_) => o.Movies?
    case GetTopRatedMovies(_) => o.Movies?
    case GetNowPlayingMovies(_) => o.Movies?
    case DiscoverMovies(_) => o.Movies?
    case SearchMovies(_) => o.Movies?
    case GetMovieDetail(_) => o.MovieDetailResult?
    case GetPopularTVShows(_) => o.Shows?
    case GetTopRatedTVShows(_) => o.Shows?
    case GetOnTheAirTVShows(_) => o.Shows?
    case DiscoverTVShows(_) => o.Shows?
    case SearchTVShows(_) => o.Shows?
    case GetTVShowDetail(_) => o.TVShowDetailResult?
    case SearchMulti(_) => o.SearchResults?
  }

  /** Every operation resolves to the shape the interface declares for it. */
  lemma PerformImplementsInterface(c: Call, body: Body)
    requires Declares(c, body)
    ensures Perform(c, Ok(body)).Ok? && Implements(c, Perform(c, Ok(body)).value)
  {
  }

  /**
   * Multi-search returns no more entries than the page held, each one the mapping
   * of a movie or TV entry of the page, tagged as that entry was.
   */
  lemma SearchMultiKeepsMoviesAndTv(params: MediaSearchParams, page: PaginatedResponseDTO<SearchResultDTO>)
    ensures var o := Perform(SearchMulti(params), Ok(SearchPage(page))).value;
      && |o.results| <= |page.results|
      && o.totalPages == page.total_pages
      && forall i :: 0 <= i < |o.results| ==>
        o.results[i].mediaType.Tag() in {"movie", "tv"}
        && (exists dto :: dto in page.results && IsMovieOrTv(dto)
              && o.results[i] == SearchResultToDomain(dto) && o.results[i].mediaType.Tag() == dto.media_type)
  {
    var kept := Sequences.Filter(IsMovieOrTv, page.results);
    var o := Perform(SearchMulti(params), Ok(SearchPage(page))).value;
    forall i | 0 <= i < |o.results|
      ensures (exists dto :: dto in page.results && IsMovieOrTv(dto)
                 && o.results[i] == SearchResultToDomain(dto) && o.results[i].mediaType.Tag() == dto.media_type)
    {
      SearchResultKeepsTag(kept[i]);
    }
  }

  /** The mapped multi-search results of two pages laid end to end are those of each page, in order. */
  lemma SearchMultiPreservesOrder(a: seq<SearchResultDTO>, b: seq<SearchResultDTO>)
    ensures SearchListToDomain(Sequences.Filter(IsMovieOrTv, a + b))
      == SearchListToDomain(Sequences.Filter(IsMovieOrTv, a)) + SearchListToDomain(Sequences.Filter(IsMovieOrTv, b))
  {
    Sequences.FilterAppend(IsMovieOrTv, a, b);
  }

  /** A page holding only movie and TV entries passes the filter untouched. */
  lemma SearchMultiKeepsCleanPage(params: MediaSearchParams, page: PaginatedResponseDTO<SearchResultDTO>)
    requires forall i :: 0 <= i < |page.results| ==> IsMovieOrTv(page.results[i])
    ensures Perform(SearchMulti(params), Ok(SearchPage(page))).value.results == SearchListToDomain(page.results)
  {
    Sequences.FilterKeepsAll(IsMovieOrTv, page.results);
  }
}
