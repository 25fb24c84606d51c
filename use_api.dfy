/**
 * The shared request helper behind every data hook: it shapes the fetch
 * (URL, headers, body), turns the response into `{data}` or `{error}`, and
 * keeps a loading flag and the last error string as hook state.
 *
 * The token read, `fetch` and `res.json()` are not modelled: the stored token
 * is a parameter, and what the network and the body parser did is an
 * `Exchange` value.
 */
module UseApi {
  import opened Wrappers
  import opened Json

  const DefaultBaseUrl := "http://3.109.1.187/api"
  const ContentType := "Content-Type"
  const JsonMime := "application/json"
  const Authorization := "Authorization"
  const BearerPrefix := "Bearer "
  /** Endpoints whose path contains this never carry the bearer token. */
  const AuthMarker := "auth"
  const ApiErrorText := "API error"
  const NetworkErrorText := "Network error"

  /** The API root: the configured variable when it is set and non-empty, else the default. */
  function BaseUrl(env: Option<string>): (url: string)
    ensures env.Some? && env.value != "" ==> url == env.value
    ensures !(env.Some? && env.value != "") ==> url == DefaultBaseUrl
    ensures url != ""
  {
    if env.Some? && env.value != "" then env.value else DefaultBaseUrl
  }

  /** `s.includes(sub)`; `IncludesIffOccurs` gives the full characterisation. */
  function Includes(s: string, sub: string): (r: bool)
    ensures r ==> |sub| <= |s|
    ensures |sub| <= |s| && s[..|sub|] == sub ==> r
    decreases |s|
  {
    if |sub| > |s| then false
    else s[..|sub|] == sub || (s != [] && Includes(s[1..], sub))
  }

  ghost predicate OccursAt(s: string, sub: string, i: int) {
    0 <= i && i + |sub| <= |s| && s[i..i + |sub|] == sub
  }

  /** `Includes` holds exactly when `sub` occurs somewhere in `s`. */
  lemma {:induction false} IncludesIffOccurs(s: string, sub: string)
    ensures Includes(s, sub) <==> exists i :: OccursAt(s, sub, i)
    decreases |s|
  {
    if |sub| > |s| {
      assert forall i :: !OccursAt(s, sub, i);
    } else if s[..|sub|] == sub {
      assert OccursAt(s, sub, 0);
    } else {
      assert !OccursAt(s, sub, 0);
      if s != [] {
        IncludesIffOccurs(s[1..], sub);
        forall j | OccursAt(s[1..], sub, j) ensures OccursAt(s, sub, j + 1) {
          assert s[1..][j..j + |sub|] == s[j + 1..j + 1 + |sub|];
        }
        forall i | OccursAt(s, sub, i) ensures OccursAt(s[1..], sub, i - 1) {
          assert s[1..][i - 1..i - 1 + |sub|] == s[i..i + |sub|];
        }
      }
    }
  }

  /** Whether a request carries the bearer token: a non-empty token and an endpoint not mentioning `auth`. */
  predicate SendsBearer(token: Option<string>, endpoint: string)
    ensures SendsBearer(token, endpoint) <==>
              token.Some? && token.value != "" && !exists i :: OccursAt(endpoint, AuthMarker, i)
  {
    IncludesIffOccurs(endpoint, AuthMarker);
    token.Some? && token.value != "" && !Includes(endpoint, AuthMarker)
  }

  /**
   * The header object built before the fetch: JSON content type, overridden
   * by the caller's headers, plus the bearer token when it applies.
   */
  function Headers(callerHeaders: Option<map<string, string>>, token: Option<string>, endpoint: string)
    : (h: map<string, string>)
    ensures ContentType in h
    ensures (callerHeaders.None? || ContentType !in callerHeaders.value) ==> h[ContentType] == JsonMime
    ensures forall k :: callerHeaders.Some? && k in callerHeaders.value && k != Authorization ==>
              k in h && h[k] == callerHeaders.value[k]
    ensures forall k :: k in h ==> k == ContentType || k == Authorization || (callerHeaders.Some? && k in callerHeaders.value)
    ensures SendsBearer(token, endpoint) ==> Authorization in h && h[Authorization] == BearerPrefix + token.value
    ensures !SendsBearer(token, endpoint) ==>
              (Authorization in h <==> callerHeaders.Some? && Authorization in callerHeaders.value)
    ensures !SendsBearer(token, endpoint) && callerHeaders.Some? && Authorization in callerHeaders.value ==>
              h[Authorization] == callerHeaders.value[Authorization]
  {
    var base := map[ContentType := JsonMime] + callerHeaders.GetOr(map[]);
    if SendsBearer(token, endpoint) then base[Authorization := BearerPrefix + token.value] else base
  }

  /** The fields of the caller's `options` that the fetch call sees. */
  datatype RequestOptions = RequestOptions(verb: Option<string>, headers: Option<map<string, string>>, body: Option<string>)

  const NoOptions := RequestOptions(None, None, None)

  /** A request body: the JSON text of a value, or a caller-supplied raw body. */
  datatype Body = JsonBody(payload: Json) | RawBody(text: string)

  /** What is handed to `fetch`. */
  datatype FetchCall = FetchCall(url: string, verb: string, headers: map<string, string>, body: Option<Body>)

  /**
   * The fetch call of `request`. The caller's options are spread last, so
   * each field they supply replaces the one built here.
   */
  function Call(baseUrl: string, endpoint: string, verb: string, data: Option<Json>,
                options: RequestOptions, token: Option<string>): (c: FetchCall)
    ensures c.url == baseUrl + endpoint
    ensures c.verb == options.verb.GetOr(verb)
    ensures c.headers == options.headers.GetOr(Headers(None, token, endpoint))
    ensures options.body.Some? ==> c.body == Some(RawBody(options.body.value))
    ensures options.body.None? ==> (c.body.Some? <==> data.Some? && Truthy(data.value))
    ensures options.body.None? && c.body.Some? ==> c.body.value == JsonBody(data.value)
  {
    var built := FetchCall(
      baseUrl + endpoint, verb, Headers(options.headers, token, endpoint),
      if data.Some? && Truthy(data.value) then Some(JsonBody(data.value)) else None);
    FetchCall(
      built.url,
      options.verb.GetOr(built.verb),
      options.headers.GetOr(built.headers),
      if options.body.Some? then Some(RawBody(options.body.value)) else built.body)
  }

  /** With no options, the fetch carries the JSON content type and, when it applies, the bearer token. */
  lemma PlainCallHeaders(baseUrl: string, endpoint: string, verb: string, data: Option<Json>, token: Option<string>)
    ensures var c := Call(baseUrl, endpoint, verb, data, NoOptions, token);
            && c.verb == verb
            && c.headers[ContentType] == JsonMime
            && (Authorization in c.headers <==> SendsBearer(token, endpoint))
            && (SendsBearer(token, endpoint) ==> c.headers[Authorization] == BearerPrefix + token.value)
  {
  }

  /**
   * Caller headers replace the built header object outright: the content
   * type and the bearer token are lost unless the caller repeats them.
   */
  lemma CallerHeadersReplaceBuilt(baseUrl: string, endpoint: string, verb: string, data: Option<Json>,
                                  options: RequestOptions, token: Option<string>)
    requires options.headers.Some? && Authorization !in options.headers.value
    ensures Authorization !in Call(baseUrl, endpoint, verb, data, options, token).headers
  {
  }

  /** Auth endpoints never carry the token, whatever is stored. */
  lemma AuthEndpointsCarryNoToken(endpoint: string, token: Option<string>, i: nat)
    requires OccursAt(endpoint, AuthMarker, i)
    ensures !SendsBearer(token, endpoint)
  {
    IncludesIffOccurs(endpoint, AuthMarker);
  }

  /** What happened on the wire: a parsed response, or a rejection with its `message`. */
  datatype Exchange = Responded(ok: bool, json: Json) | Failed(message: Option<string>)

  /** The value `request` resolves to: `{data}` or `{error}`. */
  datatype ApiResult = ApiResult(data: Option<Json>, error: Option<Json>)

  /** `json.message || 'API error'`. */
  function ResponseError(json: Json): (e: Json)
    ensures Truthy(e)
    ensures Lookup(json, "message").Some? && Truthy(Lookup(json, "message").value) ==> e == json.fields["message"]
    ensures !(Lookup(json, "message").Some? && Truthy(Lookup(json, "message").value)) ==> e == JStr(ApiErrorText)
  {
    OrElse(Lookup(json, "message"), JStr(ApiErrorText))
  }

  /** `e.message || 'Network error'`. */
  function ThrownError(message: Option<string>): (e: Json)
    ensures Truthy(e) && e.JStr?
    ensures message.Some? && message.value != "" ==> e == JStr(message.value)
    ensures !(message.Some? && message.value != "") ==> e == JStr(NetworkErrorText)
  {
    if message.Some? && message.value != "" then JStr(message.value) else JStr(NetworkErrorText)
  }

  /** The result of `request`: exactly one of data or a truthy error. */
  function ResultOf(x: Exchange): (r: ApiResult)
    ensures r.data.Some? <==> r.error.None?
    ensures r.data.Some? <==> x.Responded? && x.ok
    ensures r.data.Some? ==> r.data.value == x.json
    ensures r.error.Some? ==> Truthy(r.error.value)
    ensures x.Responded? && !x.ok ==> r.error == Some(ResponseError(x.json))
    ensures x.Failed? ==> r.error == Some(ThrownError(x.message))
  {
    match x
    case Responded(ok, json) => if ok then ApiResult(Some(json), None) else ApiResult(None, Some(ResponseError(json)))
    case Failed(message) => ApiResult(None, Some(ThrownError(message)))
  }

  /** The state of one `useApi` instance. */
  class Api {
    var loading: bool
    var error: Option<Json>
    /** Every value passed to `setLoading`, oldest first. */
    ghost var loadingWrites: seq<bool>
    /** Every value passed to `setError`, oldest first. */
    ghost var errorWrites: seq<Option<Json>>

    constructor ()
      ensures !loading && error.None? && loadingWrites == [] && errorWrites == []
    {
      loading, error := false, None;
      loadingWrites, errorWrites := [], [];
    }

    method SetLoading(value: bool)
      modifies this
      ensures loading == value && loadingWrites == old(loadingWrites) + [value]
      ensures error == old(error) && errorWrites == old(errorWrites)
    {
      loading := value;
      loadingWrites := loadingWrites + [value];
    }

    method SetError(value: Option<Json>)
      modifies this
      ensures error == value && errorWrites == old(errorWrites) + [value]
      ensures loading == old(loading) && loadingWrites == old(loadingWrites)
    {
      error := value;
      errorWrites := errorWrites + [value];
    }

    /**
     * `request`. Raises the loading flag and clears the error, issues `call`,
     * records the error string of a failure, and always ends with the
     * loading flag down.
     */
    method Request(baseUrl: string, endpoint: string, verb: string, data: Option<Json>,
                   options: RequestOptions, token: Option<string>, exchange: Exchange)
      returns (call: FetchCall, result: ApiResult)
      modifies this
      ensures call == Call(baseUrl, endpoint, verb, data, options, token)
      ensures result == ResultOf(exchange)
      ensures !loading && error == result.error
      ensures loadingWrites == old(loadingWrites) + [true, false]
      ensures errorWrites == old(errorWrites) + [None] + (if result.error.Some? then [result.error] else [])
    {
      SetLoading(true);
      SetError(None);
      call := Call(baseUrl, endpoint, verb, data, options, token);
      match exchange {
        case Responded(ok, json) =>
          if !ok {
            var message := ResponseError(json);
            SetError(Some(message));
            result := ApiResult(None, Some(message));
          } else {
            result := ApiResult(Some(json), None);
          }
        case Failed(m) =>
          var message := ThrownError(m);
          SetError(Some(message));
          result := ApiResult(None, Some(message));
      }
      SetLoading(false);
    }
  }
}
