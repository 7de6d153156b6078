# Movie catalogue data layer, modelled in Dafny

This project models the data layer of a React/TypeScript movie and TV catalogue that
reads from The Movie Database (TMDB) API. It covers seven parts of that layer:

- **DTOs and domain entities.** These are the API's snake-case response shapes and the
  app's camel-case entities. An interface that `extends` another embeds it, so a detail
  DTO carries every field of its summary.
- **`MovieMapper`**. These are the pure conversions from DTOs to entities, listed below.
  - The `mediaType` tag.
  - The `''` defaults of multi-search entries.
  - The director. This is the first crew entry whose job is exactly "Director"; it is
    null when that name is empty.
  - The cast. This is the first ten credits in upstream order.
  - The element-wise list mappers.
- **The repositories** (`TMDBRepository` and `MovieRepository`, which have the same text).
  - Each operation sends one GET request, modelled as the path and query parameters it
    asks for.
  - It then shapes the awaited response, which is an input here. Lists become
    `{items, totalPages}`, details go through the detail mappers, and multi-search first
    keeps only `movie` and `tv` entries.
  - A failed request becomes the message that the response interceptor throws.
- **The query hooks.** These are the cache-key tuples, the loader each hook calls, the
  `enabled` gate of the search hook, and the `staleTime`/`gcTime` policy.
- **The client configuration.**
  - The request interceptor, a class whose method rewrites `config.params` in place.
  - The mapping from HTTP status to error message.
  - The image-URL builders.
- **The formatters.** These are `formatDuration`, with JavaScript's truncating `%` and
  the `${n}` printing of integers, and `getMediaReleaseDate`.
- **`useDebounce`.** This is a millisecond-step state machine (`Step`/`Run`) and a class
  `Debouncer` whose methods are its events.
  - A render whose `value` or `delay` changed cancels the pending timer and starts a new one.
  - A tick fires a due timer.
  - Teardown clears the timer.

Modules follow the source files:

| module | source file |
|---|---|
| `TmdbDto` | `TMDBMovieDTO.ts` |
| `MovieEntity` | `Movie.ts` |
| `MovieMapper` | `movieMapper.ts` |
| `TmdbRepository` | `tmdb.repository.ts` and `movie.repository.ts` |
| `MovieQueries` | `movieQueries.ts` |
| `TmdbConfig` | `tmdbConfig.ts` |
| `Formatters` | `formatters.ts` |
| `UseDebounce` | `useDebounce.ts` |

Three modules are helpers:

- `Wrappers` holds `Option` and `Result`.
- `JsNumber` prints integers as template literals do in JavaScript's safe integer range,
  reads that text back, and holds JavaScript's `%`.
- `Sequences` holds `Array.prototype.map` and `filter`.

Some modelling choices:

- **Null and absent values.** A nullable (`T | null`) or optional (`field?: T`) value is
  an `Option`.
- **Floating-point fields.** These are `real` and are only copied.
- **Multi-search `media_type`.** This is kept as the raw string. The upstream also sends
  people, and the repository's filter exists to drop them.
- **Environment variables.** The API key and the image base URL are parameters.
- **The HTTP response.** It is an input: either a body of the declared type or an axios
  error.
- **Field names.** Domain field names follow the source. The two exceptions are
  `MovieDetail.movie` and `TVShowDetail.show`, which hold the embedded summary.

Four facts of the code that are easy to get wrong:

- A TV show has `firstAirDate` and no `releaseDate`.
- A multi-search TV entry puts its `first_air_date` in `releaseDate`.
- No mapping or validation error exists. Missing fields default instead.
- The cast is not sorted by `order`.

## Model

| member | source | states |
|---|---|---|
| `MovieEntity.MediaType.Tag` | src/modules/movies/models/entity/Movie.ts:3 | the tag is 'movie' or 'tv', nothing else |
| `MovieEntity.SortBy.Token` | src/modules/movies/models/entity/Movie.ts:82 | the sort key is one of 'popularity.desc', 'vote_average.desc', 'release_date.desc' |
| `MovieMapper.OrEmpty` | src/modules/movies/services/mappers/movieMapper.ts:99 | `o \|\| ''` on an optional string gives the value when present and `''` when absent |
| `MovieMapper.MovieToDomain` | src/modules/movies/services/mappers/movieMapper.ts:13-28 | the result is a `Movie` (tag 'movie'); id, title, overview, paths, vote fields, popularity and genre ids are copied; `original_title`→`originalTitle`, `release_date`→`releaseDate` |
| `MovieMapper.MovieToDomainForgets` | src/modules/movies/services/mappers/movieMapper.ts:13-28 | two DTOs map to the same movie iff they differ at most in `adult`, `original_language` and `video` |
| `MovieMapper.FindDirector` | src/modules/movies/services/mappers/movieMapper.ts:31 | `crew.find(job === 'Director')`: none iff no entry has that job, otherwise the first such entry |
| `MovieMapper.DirectorOf` | src/modules/movies/services/mappers/movieMapper.ts:31 | null without credits or without a director; otherwise the first director's name, null when that name is empty; never `''` |
| `MovieMapper.CastOf` | src/modules/movies/services/mappers/movieMapper.ts:32-38 | `[]` without credits; otherwise min(10, \|cast\|) entries, entry i being upstream entry i cut to id/name/character/profilePath/order |
| `MovieMapper.GenresOf` | src/modules/movies/services/mappers/movieMapper.ts:48 | same length and order as `genres`, each an id/name copy |
| `MovieMapper.MovieDetailToDomain` | src/modules/movies/services/mappers/movieMapper.ts:30-52 | the summary part equals `movieToDomain(dto)`; runtime, budget, revenue, status, tagline, homepage copied; genres, director and cast as above |
| `MovieMapper.TvToDomain` | src/modules/movies/services/mappers/movieMapper.ts:54-69 | tag 'tv'; `name`→`title`, `original_name`→`originalTitle`, `first_air_date`→`firstAirDate`; the rest copied |
| `MovieMapper.TvToDomainForgets` | src/modules/movies/services/mappers/movieMapper.ts:54-69 | two DTOs map to the same show iff they differ at most in `origin_country` and `original_language` |
| `MovieMapper.CreatorsOf` | src/modules/movies/services/mappers/movieMapper.ts:72 | same length and order as `created_by`, each element that entry's name |
| `MovieMapper.TvDetailToDomain` | src/modules/movies/services/mappers/movieMapper.ts:71-93 | the summary part equals `tvToDomain(dto)`; seasons, episodes, runtimes, status, tagline, homepage copied; genres, creators and cast as above |
| `MovieMapper.SearchResultToDomain` | src/modules/movies/services/mappers/movieMapper.ts:95-127 | branches on `media_type === 'movie'` only: that case takes title/original_title/release_date, every other tag is read as TV with name/original_name/first_air_date; absent fields become `''`; total |
| `MovieMapper.SearchMovieAgreesWithMovieMapper` | src/modules/movies/services/mappers/movieMapper.ts:96-109 | a movie entry maps to what `movieToDomain` gives for the same fields |
| `MovieMapper.SearchTvAgreesWithTvMapper` | src/modules/movies/services/mappers/movieMapper.ts:110-126 | a TV entry maps to what `tvToDomain` gives, its first air date in `releaseDate` |
| `MovieMapper.SearchResultKeepsTag` | src/modules/movies/services/mappers/movieMapper.ts:95-127 | for a 'movie' or 'tv' entry the mapped tag is the entry's own |
| `MovieMapper.MovieListToDomain` | src/modules/movies/services/mappers/movieMapper.ts:129-131 | same length and order; element i is `movieToDomain` of input i |
| `MovieMapper.TvListToDomain` | src/modules/movies/services/mappers/movieMapper.ts:133-135 | same length and order; element i is `tvToDomain` of input i |
| `MovieMapper.SearchListToDomain` | src/modules/movies/services/mappers/movieMapper.ts:137-139 | same length and order; element i is `searchResultToDomain` of input i |
| `Sequences.Map` | src/modules/movies/services/mappers/movieMapper.ts:129-139 | `Array.prototype.map`: same length, element i is f of input i |
| `Sequences.Filter` | src/modules/movies/services/tmdb.repository.ts:189-191 | keeps exactly the elements that satisfy the predicate, no more of them than the input had |
| `Sequences.FilterAppend` | src/modules/movies/services/tmdb.repository.ts:189-191 | filtering two lists laid end to end is filtering each, in order |
| `TmdbRepository.DefaultPage` | src/modules/movies/services/tmdb.repository.ts:28 | `page: number = 1`: a missing page becomes 1, any given page (0 included) is kept |
| `TmdbRepository.PageOrFirst` | src/modules/movies/services/tmdb.repository.ts:73 | `params.page \|\| 1`: a missing page and page 0 become 1, any other page is kept; never 0 |
| `TmdbRepository.IsMovieOrTv` | src/modules/movies/services/tmdb.repository.ts:190 | keeps an entry iff its `media_type` is the tag of one of the two domain media types |
| `TmdbRepository.RequestOf` | src/modules/movies/services/tmdb.repository.ts:28-231 | list operations send `{page}` with page defaulting to 1; discover sends page (`\|\| 1`), year, genre and sort; details send `append_to_response=credits`; searches send `{query, page}` |
| `TmdbRepository.PageDefaults` | src/modules/movies/services/movie.repository.ts:23-54 | list operations send the caller's page or 1 when it is missing; discover and search also send 1 for page 0; details send no page |
| `TmdbRepository.DiscoverParamsSent` | src/modules/movies/services/movie.repository.ts:56-70 | discover sends exactly page, year, genre and sort; sort defaults to 'popularity.desc'; the year goes under `primary_release_year` for movies and `first_air_date_year` for TV |
| `TmdbRepository.SearchForwardsQuery` | src/modules/movies/services/movie.repository.ts:159-185 | the search operations send exactly the query, unchanged, and a page |
| `TmdbRepository.DetailRequestsIdentifyTitle` | src/modules/movies/services/movie.repository.ts:72-80 | distinct ids give distinct detail requests; a movie request never equals a TV request |
| `TmdbRepository.Perform` | src/modules/movies/services/tmdb.repository.ts:28-231 | a failed request rejects with the interceptor's message; a body never fails; pages become `{items mapped by the list mapper, totalPages = total_pages}`; details go through the detail mapper; multi-search maps only its movie and TV entries |
| `TmdbRepository.PerformImplementsInterface` | src/modules/movies/services/movie.repository.ts:22 | every operation resolves to the shape `IMovieRepository` declares for it |
| `TmdbRepository.SearchMultiKeepsMoviesAndTv` | src/modules/movies/services/movie.repository.ts:141-157 | multi-search returns no more entries than the page, each the mapping of a movie or TV entry of the page with that entry's tag, and the page's `total_pages` |
| `TmdbRepository.SearchMultiPreservesOrder` | src/modules/movies/services/movie.repository.ts:149-154 | the filter-then-map keeps upstream order: two pages end to end give their results end to end |
| `TmdbRepository.SearchMultiKeepsCleanPage` | src/modules/movies/services/movie.repository.ts:149-151 | a page with only movie and TV entries is mapped whole |
| `MovieQueries.Tuple` | src/modules/movies/queries/movieQueries.ts:6-20 | every key is a tuple starting with a resource and an operation name |
| `MovieQueries.KeyResource` | src/modules/movies/queries/movieQueries.ts:7-19 | the first element is 'movies', 'tv' or 'search' exactly for movie, TV and search keys |
| `MovieQueries.KeyInjective` | src/modules/movies/queries/movieQueries.ts:6-20 | two keys are equal iff they come from the same key function with the same arguments |
| `MovieQueries.SearchEnabled` | src/modules/movies/queries/movieQueries.ts:156 | the search runs iff the query is not the empty string |
| `MovieQueries.KeyOf` | src/modules/movies/queries/movieQueries.ts:29 | movie hooks get movie keys and TV hooks TV keys; a paged key ends with the page, 1 when none was given; discover keys hold exactly year and page; the search key holds the exact query |
| `MovieQueries.LoaderOf` | src/modules/movies/queries/movieQueries.ts:30 | detail hooks load details; paged hooks pass their page, 1 when none was given; discover loaders pass only year and page; the search loader passes the query unchanged |
| `MovieQueries.Options` | src/modules/movies/queries/movieQueries.ts:27-160 | staleTime < gcTime for every hook: lists 5/10 min, details 10/30 min, search 2/5 min; only search is gated, enabled iff the query is non-empty; key and loader of the hook |
| `MovieQueries.FreshnessOrder` | src/modules/movies/queries/movieQueries.ts:31-32 | search has the shortest freshness and retention, details the longest |
| `MovieQueries.SameKeySameQuery` | src/modules/movies/queries/movieQueries.ts:63-70 | hooks with equal keys have equal options and send the same request (discover keys hold exactly what the discover loaders send) |
| `MovieQueries.HooksDefaultToFirstPage` | src/modules/movies/queries/movieQueries.ts:27 | a paged hook called without a page behaves as one called with page 1 |
| `MovieQueries.PageZeroSharesRequest` | src/modules/movies/queries/movieQueries.ts:152-156 | page 0 and page 1 get different keys but the same discover or search request |
| `TmdbConfig.WithCredentials` | src/core/config/tmdbConfig.ts:26-30 | every caller parameter except `api_key` and `language` is kept; those two are always set, the language to 'es-ES' |
| `TmdbConfig.WithCredentialsIdempotent` | src/core/config/tmdbConfig.ts:26-30 | intercepting twice sends what intercepting once sends |
| `TmdbConfig.RequestConfig.constructor` | src/core/config/tmdbConfig.ts:26-27 | a request with no parameters starts from the empty map |
| `TmdbConfig.RequestConfig.Intercept` | src/core/config/tmdbConfig.ts:23-36 | overwrites the config's parameters with the merged ones, keeps the URL |
| `TmdbConfig.ErrorMessage` | src/core/config/tmdbConfig.ts:44-70 | 401, 404 and 429 each have their own message; any other status the upstream message; a request without a response the network message; anything else the unexpected-error message (each an iff) |
| `TmdbConfig.ImageBaseUrl` | src/core/config/tmdbConfig.ts:6 | the configured base URL, or the TMDB image host when it is unset or empty |
| `TmdbConfig.ImageSize.Token` | src/core/config/tmdbConfig.ts:75 | the size is one of 'w185', 'w342', 'w500', 'w780', 'original' |
| `TmdbConfig.GetImageUrl` | src/core/config/tmdbConfig.ts:75-78 | the placeholder for a null or empty path, otherwise base + '/' + size token (default 'w500') + path |
| `TmdbConfig.GetPosterUrl` | src/core/config/tmdbConfig.ts:80 | size 'w342' |
| `TmdbConfig.GetBackdropUrl` | src/core/config/tmdbConfig.ts:81 | size 'w780' |
| `TmdbConfig.GetProfileUrl` | src/core/config/tmdbConfig.ts:82 | size 'w185' |
| `TmdbConfig.ImageUrlDeterminesSizeAndPath` | src/core/config/tmdbConfig.ts:75-77 | for one base, an image URL determines its size and path; for any base a real path never yields the placeholder |
| `TmdbConfig.ImageUrlIsNotPlaceholder` | src/core/config/tmdbConfig.ts:76-77 | for any base URL, size and non-empty path the built URL differs from `/placeholder-movie.png` |
| `JsNumber.IntToString` | src/modules/movies/services/tmdb.repository.ts:90 | `${n}` of an integer: non-empty, all digits for n ≥ 0, a minus sign then digits for n < 0 |
| `JsNumber.IntToStringInjective` | src/modules/movies/services/tmdb.repository.ts:90 | distinct integers print differently in a template literal |
| `JsNumber.JsRemainder` | src/shared/utils/formatters.ts:6 | JavaScript's `%` for a positive divisor: the sign of the dividend, magnitude below the divisor, and the truncating-division identity |
| `Formatters.FormatDuration` | src/shared/utils/formatters.ts:3-8 | undefined iff the runtime is missing or 0; for a positive runtime "⌊r/60⌋h (r mod 60)m" |
| `Formatters.DurationParts` | src/shared/utils/formatters.ts:5-7 | for every non-zero runtime the text is `${Math.floor(r/60)}h ${r % 60}m`; for r > 0 hours·60 + minutes = r with 0 ≤ minutes < 60; for r < 0 the minutes lie in (-60, 0] and the parts add up to r at multiples of 60 and to r - 60 otherwise (-5 prints "-1h -5m") |
| `Formatters.FormatDurationInjective` | src/shared/utils/formatters.ts:7 | two positive runtimes print the same text iff they are equal |
| `Formatters.GetMediaReleaseDate` | src/shared/utils/formatters.ts:10-20 | `releaseDate` of a movie detail, `firstAirDate` of a TV detail |
| `Formatters.ReleaseDateOfMappedDetail` | src/shared/utils/formatters.ts:10-20 | through the mappers the date shown is the upstream `release_date` or `first_air_date` |
| `UseDebounce.EffectiveDelay` | src/core/hooks/useDebounce.ts:21 | `delay = 500`: a missing delay is 500, a given one is kept |
| `UseDebounce.Wait` | src/core/hooks/useDebounce.ts:26-28 | `setTimeout` reads the delay as a signed 32-bit `long`: inside that range a delay of 0 or more is waited as given and a negative one not at all; any delay waits less than 2^31 ms, and a non-zero wait is congruent to the delay modulo 2^32 |
| `UseDebounce.WaitWrapsLargeDelay` | src/core/hooks/useDebounce.ts:26-28 | a delay of 2^31 ms fires on the next tick, and 2^32 + 300 ms waits 300 ms |
| `UseDebounce.Mount` | src/core/hooks/useDebounce.ts:21-22 | the debounced value and the effect's recorded input both start as the initial input, and the hook is mounted |
| `UseDebounce.Step` | src/core/hooks/useDebounce.ts:24-34 | only a tick with a timer due by the new time changes the debounced value, to the value it carries; a changed value or delay schedules a fresh timer; teardown leaves nothing pending |
| `UseDebounce.StepValid` | src/core/hooks/useDebounce.ts:24-34 | every event keeps the invariant: a pending timer carries the latest input and is due within one delay; with none pending the output has caught up |
| `UseDebounce.QuietPeriodPropagates` | src/core/hooks/useDebounce.ts:26-28 | after `delay` quiet milliseconds the debounced value is the latest input |
| `UseDebounce.TicksBeforeDeadline` | src/core/hooks/useDebounce.ts:26-28 | before the deadline time passes and nothing else changes |
| `UseDebounce.BurstHoldsBack` | src/core/hooks/useDebounce.ts:26-34 | in a burst of changes with gaps shorter than the delay the output never changes, and the one timer left pending carries the last input and is due one delay after the last render |
| `UseDebounce.TeardownSilences` | src/core/hooks/useDebounce.ts:31-33 | after teardown no event changes the debounced value |
| `UseDebounce.DebouncedWasSupplied` | src/core/hooks/useDebounce.ts:22-27 | the debounced value is always the initial value or a later input |
| `UseDebounce.SearchBoxExample` | src/core/hooks/useDebounce.ts:11-19 | "a", "ab", "abc" typed 50 ms apart with a 300 ms delay: the output stays "" through the burst and up to 299 ms after the last key, and is "abc" exactly 300 ms after it |
| `UseDebounce.Debouncer.constructor` | src/core/hooks/useDebounce.ts:21-28 | the first render: the state is `Mount(initial, delay)` |
| `UseDebounce.Debouncer.Render` | src/core/hooks/useDebounce.ts:24-36 | a re-render is `Step` with a render event; it returns the debounced value, which it does not change |
| `UseDebounce.Debouncer.Tick` | src/core/hooks/useDebounce.ts:26-28 | one millisecond is `Step` with a tick; the output changes only by a pending timer firing, to the latest input |
| `UseDebounce.Debouncer.Teardown` | src/core/hooks/useDebounce.ts:31-33 | unmounting clears the pending timer and keeps the output |

Both repository files declare the same operations with the same bodies. `movie.repository.ts`
adds `implements IMovieRepository`. One model, `TmdbRepository`, stands for both. Rows for
its definitions cite `tmdb.repository.ts`, and rows for its lemmas cite the matching lines
of `movie.repository.ts`.

## Left out

- **The caching engine.** Freshness, retention, deduplication and refetching are done by
  `@tanstack/react-query`, which is not part of this model. Only the keys, the loaders,
  the gate and the policy numbers are modelled.
- **The transport.** This covers axios instance creation, the base URL, the timeout, the
  headers and the registration of the interceptors. The response interceptor's success
  path passes the response through, and the error path of the request interceptor
  rejects with the same error. Neither of these is modelled beyond `ErrorMessage`.
- **`console.error` logging.** This includes the warning about a missing API key.
- **Environment variables.** `VITE_TMDB_API_KEY` and `VITE_TMDB_IMAGE_BASE_URL` are
  parameters. The base URL of the API only reaches the transport.
- **Floating-point values.** `vote_average` and `popularity` are carried as `real` and
  never computed on.
- **Integer-valued numbers.** Every TypeScript `number` other than `vote_average` and
  `popularity` is an unbounded mathematical integer. This covers ids, vote counts, pages,
  years, genre ids, budget, revenue, runtime and delay. The model is faithful only for
  integers in JavaScript's safe range, |n| ≤ 2^53 − 1. Above that range, JavaScript
  numbers lose precision and distinct integers can coincide. The debounce delay is
  additionally reduced to a signed 32-bit integer by `setTimeout`; `UseDebounce.Wait`
  models that conversion.
- `JsNumber.IntToString`: prints plain decimal for every integer. JavaScript switches to
  exponent form ("1e+21") from 1e21 on, which lies outside the safe range the model
  assumes. For such numbers `JsNumber.IntToStringInjective` and
  `TmdbRepository.DetailRequestsIdentifyTitle` are therefore not promised.
- `Formatters.FormatDuration`: does not model fractional runtimes or `NaN`. Runtimes are
  integers here. `!runtime` is modelled as "missing or 0".
- **Dates and locales.** Dates are opaque strings. Year extraction, `toLocaleDateString`
  and vote-count formatting are left out.
- **Presentation.** React components, pages, controllers, stories and the `container.ts`
  singleton are left out. So are the display caps inside components.
- **The legacy DTO file.** `src/modules/movies/models/dto/MovieDTO.ts` is superseded by
  `TMDBMovieDTO.ts` and is not part of this model.
- **Unused DTO fields.** Fields that the mappers never read are declared but not reasoned
  about. Examples are production companies, networks and seasons.
- `Formatters.GetMediaReleaseDate`: the source's final `return undefined` cannot be
  reached by a typed `MovieDetail | TVShowDetail`. The model therefore always returns a
  date.
- **Object identity.** React compares effect dependencies with `Object.is`. The model
  uses Dafny equality on the value type.
- **Timer granularity.** The clock advances in whole milliseconds, and a timer fires on
  the first tick at or after its deadline. Browser timer clamping and drift are not
  modelled.
- **Unmodelled responses.** A response body of a shape other than the declared type is
  not modelled. The source trusts the type argument of its `get` call, and so does
  `Perform`.
