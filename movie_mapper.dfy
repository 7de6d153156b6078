/**
 * `MovieMapper`: pure conversions from the API's DTOs to the domain model.
 * Nothing here can fail; absent optional fields fall back to `''`, `null` or `[]`.
 */
module MovieMapper {
  import opened Wrappers
  import opened TmdbDto
  import opened MovieEntity
  import Sequences

  /** How many cast members a detail keeps (`slice(0, 10)`). */
  const CAST_LIMIT: nat := 10

  const DIRECTOR_JOB := "Director"

  /** `o || ''` for an optional string (an empty string is replaced by itself). */
  function OrEmpty(o: Option<string>): (s: string)
    ensures o.Some? ==> s == o.value
    ensures o.None? ==> s == ""
  {
    o.GetOr("")
  }

  function MovieToDomain(dto: MovieDTO): (r: Movie)
    ensures r.mediaType == MovieMedia
    ensures r.id == dto.id && r.title == dto.title && r.originalTitle == dto.original_title
    ensures r.overview == dto.overview
    ensures r.posterPath == dto.poster_path && r.backdropPath == dto.backdrop_path
    ensures r.releaseDate == dto.release_date
    ensures r.voteAverage == dto.vote_average && r.voteCount == dto.vote_count
    ensures r.popularity == dto.popularity && r.genreIds == dto.genre_ids
  {
    BaseMedia(
      dto.id, MovieMedia, dto.title, dto.original_title, dto.overview,
      dto.poster_path, dto.backdrop_path, dto.release_date,
      dto.vote_average, dto.vote_count, dto.popularity, dto.genre_ids)
  }

  /** The mapping forgets exactly `adult`, `original_language` and `video`. */
  lemma MovieToDomainForgets(a: MovieDTO, b: MovieDTO)
    ensures MovieToDomain(a) == MovieToDomain(b)
        <==> a.(adult := b.adult, original_language := b.original_language, video := b.video) == b
  {
    if MovieToDomain(a) == MovieToDomain(b) {
      assert MovieToDomain(a).genreIds == MovieToDomain(b).genreIds;
    }
  }

  /** `crew[i]` is the first crew entry whose job is exactly "Director". */
  ghost predicate FirstDirectorAt(crew: seq<CrewDTO>, i: int) {
    0 <= i < |crew| && crew[i].job == DIRECTOR_JOB
    && forall j :: 0 <= j < i ==> crew[j].job != DIRECTOR_JOB
  }

  /** `crew.find(member => member.job === 'Director')`. */
  function FindDirector(crew: seq<CrewDTO>): (r: Option<CrewDTO>)
    ensures r.None? <==> forall i :: 0 <= i < |crew| ==> crew[i].job != DIRECTOR_JOB
    ensures forall i :: FirstDirectorAt(crew, i) ==> r == Some(crew[i])
  {
    if crew == [] then None
    else if crew[0].job == DIRECTOR_JOB then Some(crew[0])
    else
      var r := FindDirector(crew[1..]);
      assert forall i :: 1 <= i < |crew| && FirstDirectorAt(crew, i) ==> FirstDirectorAt(crew[1..], i - 1);
      r
  }

  /**
   * `dto.credits?.crew.find(...)?.name || null`: the first director's name; null
   * without credits, without a director, or when that name is empty.
   */
  function DirectorOf(credits: Option<CreditsDTO>): (r: Option<string>)
    ensures credits.None? ==> r == None
    ensures credits.Some? && (forall i :: 0 <= i < |credits.value.crew| ==> credits.value.crew[i].job != DIRECTOR_JOB)
      ==> r == None
    ensures credits.Some? ==> forall i :: FirstDirectorAt(credits.value.crew, i) ==>
      r == (if credits.value.crew[i].name == "" then None else Some(credits.value.crew[i].name))
    ensures r.Some? ==> r.value != ""
  {
    match credits
    case None => None
    case Some(c) =>
      match FindDirector(c.crew)
      case None => None
      case Some(member) => if member.name == "" then None else Some(member.name)
  }

  function CastMemberOf(member: CastDTO): CastMember {
    CastMember(member.id, member.name, member.character, member.profile_path, member.order)
  }

  /**
   * `dto.credits?.cast.slice(0, 10).map(...) || []`: the first ten cast entries in
   * upstream order (not re-sorted by `order`), each cut down to five fields.
   */
  function CastOf(credits: Option<CreditsDTO>): (r: seq<CastMember>)
    ensures credits.None? ==> r == []
    ensures credits.Some? ==> |r| == if |credits.value.cast| < CAST_LIMIT then |credits.value.cast| else CAST_LIMIT
    ensures credits.Some? ==> forall i :: 0 <= i < |r| ==>
      var m := credits.value.cast[i];
      r[i] == CastMember(m.id, m.name, m.character, m.profile_path, m.order)
  {
    match credits
    case None => []
    case Some(c) =>
      var kept := if |c.cast| < CAST_LIMIT then c.cast else c.cast[..CAST_LIMIT];
      Sequences.Map(CastMemberOf, kept)
  }

  /** `genres.map(g => ({id: g.id, name: g.name}))`. */
  function GenresOf(genres: seq<GenreDTO>): (r: seq<Genre>)
    ensures |r| == |genres|
    ensures forall i :: 0 <= i < |r| ==> r[i].id == genres[i].id && r[i].name == genres[i].name
  {
    Sequences.Map((g: GenreDTO) => Genre(g.id, g.name), genres)
  }

  function MovieDetailToDomain(dto: MovieDetailDTO): (r: MovieDetail)
    ensures r.movie == MovieToDomain(dto.summary)
    ensures r.runtime == dto.runtime && r.budget == dto.budget && r.revenue == dto.revenue
    ensures r.status == dto.status && r.tagline == dto.tagline && r.homepage == dto.homepage
    ensures r.genres == GenresOf(dto.genres)
    ensures r.director == DirectorOf(dto.credits)
    ensures r.cast == CastOf(dto.credits)
  {
    MovieDetail(
      MovieToDomain(dto.summary), dto.runtime, dto.budget, dto.revenue, dto.status,
      dto.tagline, dto.homepage, GenresOf(dto.genres), DirectorOf(dto.credits), CastOf(dto.credits))
  }

  function TvToDomain(dto: TVShowDTO): (r: TVShow)
    ensures r.mediaType == TvMedia
    ensures r.id == dto.id && r.title == dto.name && r.originalTitle == dto.original_name
    ensures r.overview == dto.overview
    ensures r.posterPath == dto.poster_path && r.backdropPath == dto.backdrop_path
    ensures r.firstAirDate == dto.first_air_date
    ensures r.voteAverage == dto.vote_average && r.voteCount == dto.vote_count
    ensures r.popularity == dto.popularity && r.genreIds == dto.genre_ids
  {
    TVShow(
      dto.id, dto.name, dto.original_name, dto.overview, dto.poster_path, dto.backdrop_path,
      dto.first_air_date, dto.vote_average, dto.vote_count, dto.popularity, dto.genre_ids)
  }

  /** The mapping forgets exactly `origin_country` and `original_language`. */
  lemma TvToDomainForgets(a: TVShowDTO, b: TVShowDTO)
    ensures TvToDomain(a) == TvToDomain(b)
        <==> a.(origin_country := b.origin_country, original_language := b.original_language) == b
  {
    if TvToDomain(a) == TvToDomain(b) {
      assert TvToDomain(a).genreIds == TvToDomain(b).genreIds;
    }
  }

  /** `created_by.map(c => c.name)`. */
  function CreatorsOf(createdBy: seq<CreatorDTO>): (r: seq<string>)
    ensures |r| == |createdBy|
    ensures forall i :: 0 <= i < |r| ==> r[i] == createdBy[i].name
  {
    Sequences.Map((c: CreatorDTO) => c.name, createdBy)
  }

  function TvDetailToDomain(dto: TVShowDetailDTO): (r: TVShowDetail)
    ensures r.show == TvToDomain(dto.summary)
    ensures r.numberOfSeasons == dto.number_of_seasons && r.numberOfEpisodes == dto.number_of_episodes
    ensures r.episodeRuntime == dto.episode_run_time
    ensures r.status == dto.status && r.tagline == dto.tagline && r.homepage == dto.homepage
    ensures r.genres == GenresOf(dto.genres)
    ensures r.creators == CreatorsOf(dto.created_by)
    ensures r.cast == CastOf(dto.credits)
  {
    TVShowDetail(
      TvToDomain(dto.summary), dto.number_of_seasons, dto.number_of_episodes, dto.episode_run_time,
      dto.status, dto.tagline, dto.homepage, GenresOf(dto.genres), CreatorsOf(dto.created_by),
      CastOf(dto.credits))
  }

  /**
   * Branches on `media_type === 'movie'` alone: that case reads title,
   * original_title and release_date; every other tag is read as a TV show
   * (name, original_name, first_air_date). Absent fields become `''`.
   */
  function SearchResultToDomain(dto: SearchResultDTO): (r: BaseMedia)
    ensures r.mediaType == (if dto.media_type == "movie" then MovieMedia else TvMedia)
    ensures r.id == dto.id && r.overview == dto.overview
    ensures r.posterPath == dto.poster_path && r.backdropPath == dto.backdrop_path
    ensures r.voteAverage == dto.vote_average && r.voteCount == dto.vote_count
    ensures r.popularity == dto.popularity && r.genreIds == dto.genre_ids
    ensures dto.media_type == "movie" ==>
      r.title == OrEmpty(dto.title) && r.originalTitle == OrEmpty(dto.original_title)
      && r.releaseDate == OrEmpty(dto.release_date)
    ensures dto.media_type != "movie" ==>
      r.title == OrEmpty(dto.name) && r.originalTitle == OrEmpty(dto.original_name)
      && r.releaseDate == OrEmpty(dto.first_air_date)
  {
    if dto.media_type == "movie" then
      BaseMedia(
        dto.id, MovieMedia, OrEmpty(dto.title), OrEmpty(dto.original_title), dto.overview,
        dto.poster_path, dto.backdrop_path, OrEmpty(dto.release_date),
        dto.vote_average, dto.vote_count, dto.popularity, dto.genre_ids)
    else
      BaseMedia(
        dto.id, TvMedia, OrEmpty(dto.name), OrEmpty(dto.original_name), dto.overview,
        dto.poster_path, dto.backdrop_path, OrEmpty(dto.first_air_date),
        dto.vote_average, dto.vote_count, dto.popularity, dto.genre_ids)
  }

  /** The movie summary a complete movie search entry describes. */
  function SearchEntryAsMovie(dto: SearchResultDTO, adult: bool, language: string, video: bool): MovieDTO
    requires dto.title.Some? && dto.original_title.Some? && dto.release_date.Some?
  {
    MovieDTO(
      dto.id, dto.title.value, dto.original_title.value, dto.overview, dto.poster_path,
      dto.backdrop_path, dto.release_date.value, dto.vote_average, dto.vote_count,
      dto.popularity, dto.genre_ids, adult, language, video)
  }

  /** The TV summary a complete TV search entry describes. */
  function SearchEntryAsTv(dto: SearchResultDTO, countries: seq<string>, language: string): TVShowDTO
    requires dto.name.Some? && dto.original_name.Some? && dto.first_air_date.Some?
  {
    TVShowDTO(
      dto.id, dto.name.value, dto.original_name.value, dto.overview, dto.poster_path,
      dto.backdrop_path, dto.first_air_date.value, dto.vote_average, dto.vote_count,
      dto.popularity, dto.genre_ids, countries, language)
  }

  /** A TV show seen as `BaseMedia`, its first air date in the release-date slot. */
  function TvAsBaseMedia(t: TVShow): BaseMedia {
    BaseMedia(
      t.id, TvMedia, t.title, t.originalTitle, t.overview, t.posterPath, t.backdropPath,
      t.firstAirDate, t.voteAverage, t.voteCount, t.popularity, t.genreIds)
  }

  /** A complete movie search entry maps to what the movie mapper makes of the same movie. */
  lemma SearchMovieAgreesWithMovieMapper(dto: SearchResultDTO, adult: bool, language: string, video: bool)
    requires dto.media_type == "movie"
    requires dto.title.Some? && dto.original_title.Some? && dto.release_date.Some?
    ensures SearchResultToDomain(dto) == MovieToDomain(SearchEntryAsMovie(dto, adult, language, video))
  {
  }

  /** A complete TV search entry maps to what the TV mapper makes of the same show. */
  lemma SearchTvAgreesWithTvMapper(dto: SearchResultDTO, countries: seq<string>, language: string)
    requires dto.media_type == "tv"
    requires dto.name.Some? && dto.original_name.Some? && dto.first_air_date.Some?
    ensures SearchResultToDomain(dto) == TvAsBaseMedia(TvToDomain(SearchEntryAsTv(dto, countries, language)))
  {
  }

  /** For the two tags the source expects, the mapped tag is the raw one. */
  lemma SearchResultKeepsTag(dto: SearchResultDTO)
    requires dto.media_type == "movie" || dto.media_type == "tv"
    ensures SearchResultToDomain(dto).mediaType.Tag() == dto.media_type
  {
  }

  function MovieListToDomain(dtos: seq<MovieDTO>): (r: seq<Movie>)
    ensures |r| == |dtos|
    ensures forall i :: 0 <= i < |r| ==> r[i] == MovieToDomain(dtos[i])
  {
    Sequences.Map(MovieToDomain, dtos)
  }

  function TvListToDomain(dtos: seq<TVShowDTO>): (r: seq<TVShow>)
    ensures |r| == |dtos|
    ensures forall i :: 0 <= i < |r| ==> r[i] == TvToDomain(dtos[i])
  {
    Sequences.Map(TvToDomain, dtos)
  }

  function SearchListToDomain(dtos: seq<SearchResultDTO>): (r: seq<BaseMedia>)
    ensures |r| == |dtos|
    ensures forall i :: 0 <= i < |r| ==> r[i] == SearchResultToDomain(dtos[i])
  {
    Sequences.Map(SearchResultToDomain, dtos)
  }
}
