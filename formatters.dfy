/** Display helpers: a runtime as "Xh Ym" and the release date of either kind of detail. */
module Formatters {
  import opened Wrappers
  import opened JsNumber
  import opened TmdbDto
  import opened MovieEntity
  import opened MovieMapper

  /**
   * `formatDuration(runtime)`: undefined for a missing or zero runtime, otherwise
   * `${Math.floor(runtime / 60)}h ${runtime % 60}m` with JavaScript's `%`.
   */
  function FormatDuration(runtime: Option<int>): (r: Option<string>)
    ensures r.None? <==> runtime.None? || runtime.value == 0
    ensures runtime.Some? && runtime.value > 0 ==>
      r == Some(NatToString(runtime.value / 60) + "h " + NatToString(runtime.value % 60) + "m")
  {
    match runtime
    case None => None
    case Some(minutes) =>
      if minutes == 0 then None
      else Some(IntToString(minutes / 60) + "h " + IntToString(JsRemainder(minutes, 60)) + "m")
  }

  /**
   * The two numbers printed for a non-zero runtime: `Math.floor(runtime / 60)`
   * and JavaScript's `runtime % 60`. For a positive runtime they are whole hours
   * and leftover minutes that add back up to it. For a negative one the minutes
   * keep the runtime's sign while the hours round down, so unless the runtime is
   * a multiple of 60 the parts add up to an hour less: -5 prints "-1h -5m".
   */
  lemma DurationParts(runtime: int)
    requires runtime != 0
    ensures var hours, minutes := runtime / 60, JsRemainder(runtime, 60);
      && FormatDuration(Some(runtime)) == Some(IntToString(hours) + "h " + IntToString(minutes) + "m")
      && (runtime > 0 ==> hours >= 0 && hours * 60 + minutes == runtime && 0 <= minutes < 60)
      && (runtime < 0 ==>
            (hours < 0 && -60 < minutes <= 0
             && hours * 60 + minutes == (if runtime % 60 == 0 then runtime else runtime - 60)))
  {
    var hours, minutes := runtime / 60, JsRemainder(runtime, 60);
    assert runtime == 60 * JsTruncDiv(runtime, 60) + minutes;
    assert runtime == 60 * hours + runtime % 60;
  }

  /** Two positive runtimes print the same text only if they are equal. */
  lemma FormatDurationInjective(a: int, b: int)
    requires a > 0 && b > 0
    ensures FormatDuration(Some(a)) == FormatDuration(Some(b)) <==> a == b
  {
    if FormatDuration(Some(a)) == FormatDuration(Some(b)) {
      var ha, ma := NatToString(a / 60), NatToString(a % 60);
      var hb, mb := NatToString(b / 60), NatToString(b % 60);
      assert ha + ['h'] + ([' '] + ma + "m") == ha + "h " + ma + "m";
      assert hb + ['h'] + ([' '] + mb + "m") == hb + "h " + mb + "m";
      SplitAtNonDigit(ha, [' '] + ma + "m", hb, [' '] + mb + "m", 'h');
      assert ma == ([' '] + ma + "m")[1..|ma| + 1];
      assert mb == ([' '] + mb + "m")[1..|mb| + 1];
      ParseNatToString(a / 60);
      ParseNatToString(b / 60);
      ParseNatToString(a % 60);
      ParseNatToString(b % 60);
    }
  }

  /** `MovieDetail | TVShowDetail`. */
  datatype MediaDetail = MovieDetailCase(movieDetail: MovieDetail) | TVShowDetailCase(tvShowDetail: TVShowDetail)

  /** `getMediaReleaseDate`: `releaseDate` of a movie, `firstAirDate` of a TV show. */
  function GetMediaReleaseDate(data: MediaDetail): (r: Option<string>)
    ensures r.Some?
    ensures data.MovieDetailCase? ==> r.value == data.movieDetail.movie.releaseDate
    ensures data.TVShowDetailCase? ==> r.value == data.tvShowDetail.show.firstAirDate
  {
    match data
    case MovieDetailCase(d) => Some(d.movie.releaseDate)
    case TVShowDetailCase(d) => Some(d.show.firstAirDate)
  }

  /** Through the mappers, the release date shown is the upstream `release_date` or `first_air_date`. */
  lemma ReleaseDateOfMappedDetail(movie: MovieDetailDTO, show: TVShowDetailDTO)
    ensures GetMediaReleaseDate(MovieDetailCase(MovieDetailToDomain(movie))) == Some(movie.summary.release_date)
    ensures GetMediaReleaseDate(TVShowDetailCase(TvDetailToDomain(show))) == Some(show.summary.first_air_date)
  {
  }
}
