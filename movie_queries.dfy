/**
 * The query hooks: the cache keys (`MOVIE_QUERY_KEYS`) and, per hook, the options
 * handed to the query library: key, loader, `enabled` gate, `staleTime` and `gcTime`.
 * The library that caches by these keys is not part of this model.
 */
module MovieQueries {
  import opened Wrappers
  import opened MovieEntity
  import opened TmdbRepository

  /** One element of a key tuple: a string, a number, or `undefined`. */
  datatype KeyPart = KeyText(text: string) | KeyNumber(n: int) | KeyUndefined

  /** A member of `MOVIE_QUERY_KEYS` applied to its arguments. */
  datatype QueryKey =
    | PopularMoviesKey(page: int)
    | TopRatedMoviesKey(page: int)
    | NowPlayingMoviesKey(page: int)
    | DiscoverMoviesKey(year: Option<int>, optPage: Option<int>)
    | MovieDetailKey(id: int)
    | PopularTVShowsKey(page: int)
    | TopRatedTVShowsKey(page: int)
    | OnTheAirTVShowsKey(page: int)
    | DiscoverTVShowsKey(year: Option<int>, optPage: Option<int>)
    | TVShowDetailKey(id: int)
    | SearchMultiKey(query: string, page: int)

  function OptionalPart(o: Option<int>): KeyPart {
    match o
    case Some(n) => KeyNumber(n)
    case None => KeyUndefined
  }

  /** The tuple a key function returns: resource, operation, then the arguments in order. */
  function Tuple(k: QueryKey): (r: seq<KeyPart>)
    ensures |r| >= 3 && r[0].KeyText? && r[1].KeyText?
  {
    match k
    case PopularMoviesKey(page) => [KeyText("movies"), KeyText("popular"), KeyNumber(page)]
    case TopRatedMoviesKey(page) => [KeyText("movies"), KeyText("topRated"), KeyNumber(page)]
    case NowPlayingMoviesKey(page) => [KeyText("movies"), KeyText("nowPlaying"), KeyNumber(page)]
    case DiscoverMoviesKey(year, page) => [KeyText("movies"), KeyText("discover"), OptionalPart(year), OptionalPart(page)]
    case MovieDetailKey(id) => [KeyText("movies"), KeyText("detail"), KeyNumber(id)]
    case PopularTVShowsKey(page) => [KeyText("tv"), KeyText("popular"), KeyNumber(page)]
    case TopRatedTVShowsKey(page) => [KeyText("tv"), KeyText("topRated"), KeyNumber(page)]
    case OnTheAirTVShowsKey(page) => [KeyText("tv"), KeyText("onTheAir"), KeyNumber(page)]
    case DiscoverTVShowsKey(year, page) => [KeyText("tv"), KeyText("discover"), OptionalPart(year), OptionalPart(page)]
    case TVShowDetailKey(id) => [KeyText("tv"), KeyText("detail"), KeyNumber(id)]
    case SearchMultiKey(query, page) => [KeyText("search"), KeyText("multi"), KeyText(query), KeyNumber(page)]
  }

  predicate IsMovieKey(k: QueryKey) {
    k.PopularMoviesKey? || k.TopRatedMoviesKey? || k.NowPlayingMoviesKey? || k.DiscoverMoviesKey? || k.MovieDetailKey?
  }

  predicate IsTvKey(k: QueryKey) {
    k.PopularTVShowsKey? || k.TopRatedTVShowsKey? || k.OnTheAirTVShowsKey? || k.DiscoverTVShowsKey? || k.TVShowDetailKey?
  }

  /** The first element names the resource: movie, TV and search keys never collide. */
  lemma KeyResource(k: QueryKey)
    ensures Tuple(k)[0] == KeyText("movies") <==> IsMovieKey(k)
    ensures Tuple(k)[0] == KeyText("tv") <==> IsTvKey(k)
    ensures Tuple(k)[0] == KeyText("search") <==> k.SearchMultiKey?
  {
  }

  /** Equal keys come from the same key function with the same arguments, and only from them. */
  lemma KeyInjective(a: QueryKey, b: QueryKey)
    ensures Tuple(a) == Tuple(b) <==> a == b
  {
    if Tuple(a) == Tuple(b) {
      var ta, tb := Tuple(a), Tuple(b);
      assert ta[0] == tb[0] && ta[1] == tb[1] && |ta| == |tb|;
      assert ta[2] == tb[2];
      KeyResource(a);
      KeyResource(b);
      if |ta| == 4 {
        assert ta[3] == tb[3];
      }
    }
  }

  // ----- hooks -----

  /** One call of a query hook, with its arguments as the component passes them. */
  datatype Hook =
    | UsePopularMovies(page: Option<int>)
    | UseTopRatedMovies(page: Option<int>)
    | UseNowPlayingMovies(page: Option<int>)
    | UseDiscoverMovies(year: Option<int>, page: Option<int>)
    | UseMovieDetail(movieId: int)
    | UsePopularTVShows(page: Option<int>)
    | UseTopRatedTVShows(page: Option<int>)
    | UseOnTheAirTVShows(page: Option<int>)
    | UseDiscoverTVShows(year: Option<int>, page: Option<int>)
    | UseTVShowDetail(tvId: int)
    | UseSearchMulti(query: string, page: Option<int>)
  {
    predicate IsDetail() {
      UseMovieDetail? || UseTVShowDetail?
    }

    predicate IsPaged() {
      !IsDetail()
    }

    predicate IsDiscover() {
      UseDiscoverMovies? || UseDiscoverTVShows?
    }

    predicate IsMovieHook() {
      UsePopularMovies? || UseTopRatedMovies? || UseNowPlayingMovies? || UseDiscoverMovies? || UseMovieDetail?
    }

    predicate IsTvHook() {
      UsePopularTVShows? || UseTopRatedTVShows? || UseOnTheAirTVShows? || UseDiscoverTVShows? || UseTVShowDetail?
    }
  }

  /** The options a hook passes to `useQuery`; a missing `enabled` means true. */
  datatype QueryOptions = QueryOptions(
    queryKey: seq<KeyPart>, queryFn: Call, enabled: bool, staleTime: int, gcTime: int)

  const MINUTE := 60 * 1000
  const LIST_STALE_TIME := 5 * MINUTE
  const LIST_GC_TIME := 10 * MINUTE
  const DETAIL_STALE_TIME := 10 * MINUTE
  const DETAIL_GC_TIME := 30 * MINUTE
  const SEARCH_STALE_TIME := 2 * MINUTE
  const SEARCH_GC_TIME := 5 * MINUTE

  /** `enabled: query.length > 0`: the search runs for any query but the empty one. */
  function SearchEnabled(query: string): (enabled: bool)
    ensures enabled <==> query != ""
  {
    |query| > 0
  }

  /**
   * The key a hook uses: movie hooks get movie keys and TV hooks TV keys; a paged
   * key ends with the page, 1 when the hook was given none; discover keys hold
   * exactly the year and the page, the search key the exact query.
   */
  function KeyOf(h: Hook): (k: QueryKey)
    ensures IsMovieKey(k) <==> h.IsMovieHook()
    ensures IsTvKey(k) <==> h.IsTvHook()
    ensures h.IsDetail() <==> k.MovieDetailKey? || k.TVShowDetailKey?
    ensures h.IsPaged() ==> Tuple(k)[|Tuple(k)| - 1] == KeyNumber(h.page.GetOr(1))
    ensures h.IsDiscover() ==> |Tuple(k)| == 4 && Tuple(k)[2] == OptionalPart(h.year)
    ensures h.UseSearchMulti? ==> Tuple(k)[2] == KeyText(h.query)
  {
    match h
    case UsePopularMovies(page) => PopularMoviesKey(page.GetOr(1))
    case UseTopRatedMovies(page) => TopRatedMoviesKey(page.GetOr(1))
    case UseNowPlayingMovies(page) => NowPlayingMoviesKey(page.GetOr(1))
    case UseDiscoverMovies(year, page) => DiscoverMoviesKey(year, Some(page.GetOr(1)))
    case UseMovieDetail(id) => MovieDetailKey(id)
    case UsePopularTVShows(page) => PopularTVShowsKey(page.GetOr(1))
    case UseTopRatedTVShows(page) => TopRatedTVShowsKey(page.GetOr(1))
    case UseOnTheAirTVShows(page) => OnTheAirTVShowsKey(page.GetOr(1))
    case UseDiscoverTVShows(year, page) => DiscoverTVShowsKey(year, Some(page.GetOr(1)))
    case UseTVShowDetail(id) => TVShowDetailKey(id)
    case UseSearchMulti(query, page) => SearchMultiKey(query, page.GetOr(1))
  }

  /** The page argument a repository call is given, if it takes one. */
  function PageArg(c: Call): Option<int> {
    if c.IsList() then c.page
    else if c.IsDiscover() then c.discover.page
    else if c.IsSearch() then c.search.page
    else None
  }

  /**
   * The repository call a hook's `queryFn` makes: a detail hook loads a detail, a
   * paged hook passes its page (1 when it was given none), the discover loaders
   * pass only `{year, page}`, and the search loader passes the query unchanged.
   */
  function LoaderOf(h: Hook): (c: Call)
    ensures h.IsDetail() <==> c.IsDetail()
    ensures h.IsPaged() ==> PageArg(c) == Some(h.page.GetOr(1))
    ensures h.IsDiscover() <==> c.IsDiscover()
    ensures c.IsDiscover() ==> c.discover.year == h.year && c.discover.genreId.None? && c.discover.sortBy.None?
    ensures h.UseSearchMulti? <==> c.SearchMulti?
    ensures c.SearchMulti? ==> c.search.query == h.query
  {
    match h
    case UsePopularMovies(page) => GetPopularMovies(Some(page.GetOr(1)))
    case UseTopRatedMovies(page) => GetTopRatedMovies(Some(page.GetOr(1)))
    case UseNowPlayingMovies(page) => GetNowPlayingMovies(Some(page.GetOr(1)))
    case UseDiscoverMovies(year, page) => DiscoverMovies(DiscoverParams(Some(page.GetOr(1)), year, None, None))
    case UseMovieDetail(id) => GetMovieDetail(id)
    case UsePopularTVShows(page) => GetPopularTVShows(Some(page.GetOr(1)))
    case UseTopRatedTVShows(page) => GetTopRatedTVShows(Some(page.GetOr(1)))
    case UseOnTheAirTVShows(page) => GetOnTheAirTVShows(Some(page.GetOr(1)))
    case UseDiscoverTVShows(year, page) => DiscoverTVShows(DiscoverParams(Some(page.GetOr(1)), year, None, None))
    case UseTVShowDetail(id) => GetTVShowDetail(id)
    case UseSearchMulti(query, page) => SearchMulti(MediaSearchParams(query, Some(page.GetOr(1))))
  }

  /**
   * The options of a hook. Lists keep data fresh 5 minutes and retain it 10,
   * details 10 and 30, search 2 and 5; only search is gated, on a non-empty query.
   */
  function Options(h: Hook): (r: QueryOptions)
    ensures r.staleTime < r.gcTime
    ensures r.enabled <==> !h.UseSearchMulti? || |h.query| > 0
    ensures h.IsDetail() ==> r.staleTime == 10 * 60 * 1000 && r.gcTime == 30 * 60 * 1000
    ensures h.UseSearchMulti? ==> r.staleTime == 2 * 60 * 1000 && r.gcTime == 5 * 60 * 1000
    ensures !h.IsDetail() && !h.UseSearchMulti? ==> r.staleTime == 5 * 60 * 1000 && r.gcTime == 10 * 60 * 1000
    ensures r.queryKey == Tuple(KeyOf(h)) && r.queryFn == LoaderOf(h)
  {
    var key, loader := Tuple(KeyOf(h)), LoaderOf(h);
    if h.IsDetail() then QueryOptions(key, loader, true, DETAIL_STALE_TIME, DETAIL_GC_TIME)
    else if h.UseSearchMulti? then QueryOptions(key, loader, SearchEnabled(h.query), SEARCH_STALE_TIME, SEARCH_GC_TIME)
    else QueryOptions(key, loader, true, LIST_STALE_TIME, LIST_GC_TIME)
  }

  /** Search has the shortest freshness window and details the longest. */
  lemma FreshnessOrder(search: Hook, list: Hook, detail: Hook)
    requires search.UseSearchMulti? && list.IsPaged() && !list.UseSearchMulti? && detail.IsDetail()
    ensures Options(search).staleTime < Options(list).staleTime < Options(detail).staleTime
    ensures Options(search).gcTime < Options(list).gcTime < Options(detail).gcTime
  {
  }

  /**
   * A cache key stands for one query: two hooks with equal keys have the same
   * loader, gate and policy, so they send the same request.
   */
  lemma SameKeySameQuery(a: Hook, b: Hook)
    requires Options(a).queryKey == Options(b).queryKey
    ensures Options(a) == Options(b)
    ensures RequestOf(Options(a).queryFn) == RequestOf(Options(b).queryFn)
  {
    KeyInjective(KeyOf(a), KeyOf(b));
  }

  /** A hook called without a page behaves as one called with page 1. */
  lemma HooksDefaultToFirstPage(h: Hook)
    requires h.IsPaged() && h.page.None?
    ensures Options(h) == Options(h.(page := Some(1)))
  {
  }

  /**
   * The key keeps a page of 0 apart from page 1, but the discover and search
   * requests send 1 for both: two cache entries for one request.
   */
  lemma PageZeroSharesRequest(year: Option<int>, query: string)
    ensures Options(UseDiscoverMovies(year, Some(0))).queryKey != Options(UseDiscoverMovies(year, Some(1))).queryKey
    ensures RequestOf(LoaderOf(UseDiscoverMovies(year, Some(0)))) == RequestOf(LoaderOf(UseDiscoverMovies(year, Some(1))))
    ensures Options(UseSearchMulti(query, Some(0))).queryKey != Options(UseSearchMulti(query, Some(1))).queryKey
    ensures RequestOf(LoaderOf(UseSearchMulti(query, Some(0)))) == RequestOf(LoaderOf(UseSearchMulti(query, Some(1))))
  {
    KeyInjective(KeyOf(UseDiscoverMovies(year, Some(0))), KeyOf(UseDiscoverMovies(year, Some(1))));
    KeyInjective(KeyOf(UseSearchMulti(query, Some(0))), KeyOf(UseSearchMulti(query, Some(1))));
  }
}
