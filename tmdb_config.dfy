/**
 * The HTTP client's configuration that is not transport: the query parameters
 * every request gets, the translation of a failed request into a message, and
 * the image-URL builders. Environment variables are parameters here.
 */
module TmdbConfig {
  import opened Wrappers

  // ----- request parameters -----

  /** A query-parameter value as the request objects hold it; `Undefined` for a missing optional. */
  datatype ParamValue = NumParam(n: int) | StrParam(s: string) | Undefined

  type Params = map<string, ParamValue>

  const API_KEY_PARAM := "api_key"
  const LANGUAGE_PARAM := "language"
  const LANGUAGE := "es-ES"

  /** The value the interceptor sends as `api_key`: the environment's key, or `undefined` if it is not set. */
  function ApiKeyValue(apiKey: Option<string>): ParamValue {
    match apiKey
    case Some(k) => StrParam(k)
    case None => Undefined
  }

  /**
   * `{...config.params, api_key: KEY, language: 'es-ES'}`: every caller parameter
   * survives except `api_key` and `language`, which are always set.
   */
  function WithCredentials(params: Params, apiKey: Option<string>): (r: Params)
    ensures r.Keys == params.Keys + {API_KEY_PARAM, LANGUAGE_PARAM}
    ensures r[API_KEY_PARAM] == ApiKeyValue(apiKey)
    ensures r[LANGUAGE_PARAM] == StrParam(LANGUAGE)
    ensures forall k :: k in params && k != API_KEY_PARAM && k != LANGUAGE_PARAM ==> r[k] == params[k]
  {
    params[API_KEY_PARAM := ApiKeyValue(apiKey)][LANGUAGE_PARAM := StrParam(LANGUAGE)]
  }

  /** Running the interceptor twice sends what running it once sends. */
  lemma WithCredentialsIdempotent(params: Params, apiKey: Option<string>)
    ensures WithCredentials(WithCredentials(params, apiKey), apiKey) == WithCredentials(params, apiKey)
  {
    var once := WithCredentials(params, apiKey);
    var twice := WithCredentials(once, apiKey);
    assert twice.Keys == once.Keys;
    assert forall k :: k in twice ==> twice[k] == once[k];
  }

  /** The part of an outgoing request that the request interceptor rewrites in place. */
  class RequestConfig {
    var url: string
    var params: Params

    /** `config.params` left unset by the caller is an empty object once spread. */
    constructor (url: string, params: Option<Params>)
      ensures this.url == url && this.params == params.GetOr(map[])
    {
      this.url := url;
      this.params := params.GetOr(map[]);
    }

    /** The request interceptor: overwrites `config.params` and hands the same config on. */
    method Intercept(apiKey: Option<string>)
      modifies this
      ensures params == WithCredentials(old(params), apiKey)
      ensures url == old(url)
    {
      params := WithCredentials(params, apiKey);
    }
  }

  // ----- error classification -----

  /** What an axios error carries that the response interceptor looks at. */
  datatype AxiosError = AxiosError(responseStatus: Option<int>, requestSent: bool, message: string)

  const INVALID_KEY_MESSAGE := "API Key inválida. Verifica tu configuración."
  const NOT_FOUND_MESSAGE := "Recurso no encontrado."
  const RATE_LIMITED_MESSAGE := "Demasiadas solicitudes. Intenta de nuevo más tarde."
  const UPSTREAM_MESSAGE := "Error al conectar con TMDB. Intenta de nuevo."
  const NETWORK_MESSAGE := "Error de conexión. Verifica tu internet."
  const UNEXPECTED_MESSAGE := "Error inesperado. Intenta de nuevo."

  /**
   * The message of the error the response interceptor throws: one per status
   * 401, 404 and 429, one for any other status, one when a request went out but
   * no response came back, one for everything else.
   */
  function ErrorMessage(e: AxiosError): (r: string)
    ensures r == INVALID_KEY_MESSAGE <==> e.responseStatus == Some(401)
    ensures r == NOT_FOUND_MESSAGE <==> e.responseStatus == Some(404)
    ensures r == RATE_LIMITED_MESSAGE <==> e.responseStatus == Some(429)
    ensures r == UPSTREAM_MESSAGE <==> e.responseStatus.Some? && e.responseStatus.value !in {401, 404, 429}
    ensures r == NETWORK_MESSAGE <==> e.responseStatus.None? && e.requestSent
    ensures r == UNEXPECTED_MESSAGE <==> e.responseStatus.None? && !e.requestSent
  {
    match e.responseStatus
    case Some(status) =>
      if status == 401 then INVALID_KEY_MESSAGE
      else if status == 404 then NOT_FOUND_MESSAGE
      else if status == 429 then RATE_LIMITED_MESSAGE
      else UPSTREAM_MESSAGE
    case None =>
      if e.requestSent then NETWORK_MESSAGE else UNEXPECTED_MESSAGE
  }

  // ----- image URLs -----

  const DEFAULT_IMAGE_BASE_URL := "https://image.tmdb.org/t/p"
  const PLACEHOLDER_IMAGE := "/placeholder-movie.png"

  /** `VITE_TMDB_IMAGE_BASE_URL || 'https://image.tmdb.org/t/p'`. */
  function ImageBaseUrl(env: Option<string>): (r: string)
    ensures env.Some? && env.value != "" ==> r == env.value
    ensures env.None? || env.value == "" ==> r == DEFAULT_IMAGE_BASE_URL
  {
    if env.Some? && env.value != "" then env.value else DEFAULT_IMAGE_BASE_URL
  }

  /** The image sizes the URL builder accepts. */
  datatype ImageSize = W185 | W342 | W500 | W780 | Original {
    function Token(): (t: string)
      ensures t in {"w185", "w342", "w500", "w780", "original"}
    {
      match this
      case W185 => "w185"
      case W342 => "w342"
      case W500 => "w500"
      case W780 => "w780"
      case Original => "original"
    }
  }

  const DEFAULT_IMAGE_SIZE := W500

  /**
   * `getImageUrl(path, size = 'w500')`: the placeholder for a null or empty path,
   * otherwise the base URL, a slash, the size token and the path.
   */
  function GetImageUrl(base: string, path: Option<string>, size: Option<ImageSize>): (r: string)
    ensures path.None? || path.value == "" ==> r == PLACEHOLDER_IMAGE
    ensures path.Some? && path.value != "" ==>
      r == base + "/" + size.GetOr(DEFAULT_IMAGE_SIZE).Token() + path.value
  {
    if path.None? || path.value == "" then PLACEHOLDER_IMAGE
    else base + "/" + size.GetOr(DEFAULT_IMAGE_SIZE).Token() + path.value
  }

  function GetPosterUrl(base: string, path: Option<string>): (r: string)
    ensures path.None? || path.value == "" ==> r == PLACEHOLDER_IMAGE
    ensures path.Some? && path.value != "" ==> r == base + "/w342" + path.value
  {
    GetImageUrl(base, path, Some(W342))
  }

  function GetBackdropUrl(base: string, path: Option<string>): (r: string)
    ensures path.None? || path.value == "" ==> r == PLACEHOLDER_IMAGE
    ensures path.Some? && path.value != "" ==> r == base + "/w780" + path.value
  {
    GetImageUrl(base, path, Some(W780))
  }

  function GetProfileUrl(base: string, path: Option<string>): (r: string)
    ensures path.None? || path.value == "" ==> r == PLACEHOLDER_IMAGE
    ensures path.Some? && path.value != "" ==> r == base + "/w185" + path.value
  {
    GetImageUrl(base, path, Some(W185))
  }

  lemma TokensDiffer(a: ImageSize, b: ImageSize, p: string, q: string)
    requires a != b
    ensures a.Token() + p != b.Token() + q
  {
    var s, t := a.Token() + p, b.Token() + q;
    assert s[0] == a.Token()[0] && s[1] == a.Token()[1];
    assert t[0] == b.Token()[0] && t[1] == b.Token()[1];
  }

  /**
   * For one base URL, an image URL determines the size and the path it was
   * built from, and no real path yields the placeholder, whatever the base.
   */
  lemma ImageUrlDeterminesSizeAndPath(base: string, p: string, q: string, a: ImageSize, b: ImageSize)
    requires p != "" && q != ""
    ensures GetImageUrl(base, Some(p), Some(a)) == GetImageUrl(base, Some(q), Some(b)) <==> a == b && p == q
    ensures GetImageUrl(base, Some(p), Some(a)) != PLACEHOLDER_IMAGE
  {
    var u, v := GetImageUrl(base, Some(p), Some(a)), GetImageUrl(base, Some(q), Some(b));
    var prefix := base + "/";
    assert u == prefix + (a.Token() + p);
    assert v == prefix + (b.Token() + q);
    if u == v {
      assert a.Token() + p == u[|prefix|..] == v[|prefix|..] == b.Token() + q;
      if a != b {
        TokensDiffer(a, b, p, q);
      }
      assert p == (a.Token() + p)[|a.Token()|..];
      assert q == (b.Token() + q)[|b.Token()|..];
    }
    ImageUrlIsNotPlaceholder(base, p, a);
  }

  /** The placeholder has no slash after its first character; an image URL has one right after the base. */
  lemma ImageUrlIsNotPlaceholder(base: string, p: string, a: ImageSize)
    requires p != ""
    ensures GetImageUrl(base, Some(p), Some(a)) != PLACEHOLDER_IMAGE
  {
    var u := base + "/" + (a.Token() + p);
    assert GetImageUrl(base, Some(p), Some(a)) == u;
    var placeholder := PLACEHOLDER_IMAGE;
    assert forall i :: 0 < i < |placeholder| ==> placeholder[i] != '/';
    if |base| == 0 {
      assert u[1] == a.Token()[0];
      assert u[1] != placeholder[1];
    } else if |base| < |placeholder| {
      assert u[|base|] == '/';
    } else {
      assert |u| > |placeholder|;
    }
  }
}
