/** BaseApiService: the query string of `get` and the request config each HTTP
    verb hands to ApiInterceptor.Request. */
module BaseApi {
  import opened Web
  import opened Interceptors

  /** A parameter value as `Object.entries(params)` yields it; `Value(text)` holds `String(value)`. */
  datatype ParamValue = Undefined | Null | Value(text: string)

  type Params = seq<(string, ParamValue)>

  /** What one entry contributes to the URLSearchParams. */
  function Kept(entry: (string, ParamValue)): seq<(string, string)> {
    if entry.1.Value? then [(entry.0, entry.1.text)] else []
  }

  /** The pairs buildQueryString appends, in the order of the entries. */
  function KeptParams(params: Params): (r: seq<(string, string)>)
    ensures |r| <= |params|
  {
    if params == [] then [] else KeptParams(params[..|params| - 1]) + Kept(params[|params| - 1])
  }

  function Pair(p: (string, string)): string {
    p.0 + "=" + p.1
  }

  /** `URLSearchParams.toString()`: the pairs as `key=value`, joined by `&`. */
  function Serialize(pairs: seq<(string, string)>): (r: string)
    ensures r == "" <==> pairs == []
  {
    if pairs == [] then ""
    else if |pairs| == 1 then Pair(pairs[0])
    else Serialize(pairs[..|pairs| - 1]) + "&" + Pair(pairs[|pairs| - 1])
  }

  /** buildQueryString: one pass over the entries, appending those that are
      neither undefined nor null. */
  method BuildQueryString(params: Params) returns (query: string)
    ensures query == Serialize(KeptParams(params))
  {
    var searchParams: seq<(string, string)> := [];
    for i := 0 to |params|
      invariant searchParams == KeptParams(params[..i])
    {
      assert params[..i + 1][..i] == params[..i];
      var (key, value) := params[i];
      if value != Undefined && value != Null {
        searchParams := searchParams + [(key, value.text)];
      }
    }
    assert params[..|params|] == params;
    query := Serialize(searchParams);
  }

  /** The query string `get` computes: none without params. */
  function QueryString(params: Option<Params>): string {
    if params.Some? then Serialize(KeptParams(params.value)) else ""
  }

  /** The fields of a caller's config (`Omit<RequestConfig, 'url' | 'method'>`)
      that the verbs pass on; None is a field the caller left out. */
  datatype CallerConfig = CallerConfig(headers: Option<map<string, string>>, retry: Option<nat>, skipAuth: Option<bool>)

  /** `{url, method, body, ...config}` as `request` reads it: the caller's fields
      come last and win, and `request` defaults retry to 0 and skipAuth to false. */
  function WithCaller(url: string, verb: string, body: Option<Json>, config: Option<CallerConfig>): (r: RequestConfig)
    ensures r.url == url && r.verb == verb && r.body == body
  {
    var c := config.GetOr(CallerConfig(None, None, None));
    RequestConfig(url, verb, c.headers.GetOr(map[]), body, c.retry.GetOr(0), c.skipAuth.GetOr(false))
  }

  /** `data ? JSON.stringify(data) : undefined` */
  function BodyFor(data: Option<Json>): (body: Option<Json>)
    ensures body.Some? <==> data.Some? && Truthy(data.value)
    ensures body.Some? ==> body == data
  {
    if data.Some? && Truthy(data.value) then data else None
  }

  /** get: the query string, if any, after a `?`; no body. */
  function Get(url: string, params: Option<Params>, config: Option<CallerConfig>): (r: RequestConfig)
    ensures r.verb == "GET" && r.body.None?
    ensures r.url == url || r.url == url + "?" + QueryString(params)
  {
    var query := QueryString(params);
    WithCaller(if query != "" then url + "?" + query else url, "GET", None, config)
  }

  function Post(url: string, data: Option<Json>, config: Option<CallerConfig>): (r: RequestConfig)
    ensures r.url == url && r.verb == "POST" && r.body == BodyFor(data)
  {
    WithCaller(url, "POST", BodyFor(data), config)
  }

  function Put(url: string, data: Option<Json>, config: Option<CallerConfig>): (r: RequestConfig)
    ensures r.url == url && r.verb == "PUT" && r.body == BodyFor(data)
  {
    WithCaller(url, "PUT", BodyFor(data), config)
  }

  function Patch(url: string, data: Option<Json>, config: Option<CallerConfig>): (r: RequestConfig)
    ensures r.url == url && r.verb == "PATCH" && r.body == BodyFor(data)
  {
    WithCaller(url, "PATCH", BodyFor(data), config)
  }

  function Delete(url: string, config: Option<CallerConfig>): (r: RequestConfig)
    ensures r.url == url && r.verb == "DELETE" && r.body.None?
  {
    WithCaller(url, "DELETE", None, config)
  }

  // ---------------------------------------------------------------------------
  // Properties

  /** A pair is appended exactly when some entry has that key and a value that is
      neither undefined nor null, stringified to that text. */
  lemma {:induction false} KeptParamsMembership(params: Params, key: string, text: string)
    ensures (key, text) in KeptParams(params) <==>
            exists i :: 0 <= i < |params| && params[i] == (key, Value(text))
  {
    if params != [] {
      var init := params[..|params| - 1];
      KeptParamsMembership(init, key, text);
      if (exists i :: 0 <= i < |init| && init[i] == (key, Value(text))) {
        var i :| 0 <= i < |init| && init[i] == (key, Value(text));
        assert params[i] == init[i];
      }
      if (exists i :: 0 <= i < |params| && params[i] == (key, Value(text))) {
        var i :| 0 <= i < |params| && params[i] == (key, Value(text));
        if i < |init| {
          assert init[i] == params[i];
        }
      }
    }
  }

  /** The kept pairs keep the order of the entries: filtering distributes over concatenation. */
  lemma {:induction false} KeptParamsAppend(a: Params, b: Params)
    ensures KeptParams(a + b) == KeptParams(a) + KeptParams(b)
    decreases |b|
  {
    if b != [] {
      var b' := b[..|b| - 1];
      KeptParamsAppend(a, b');
      assert (a + b)[..|a + b| - 1] == a + b';
    } else {
      assert a + b == a;
    }
  }

  /** Nothing is kept exactly when every value is undefined or null. */
  lemma {:induction false} NothingKeptIffAllAbsent(params: Params)
    ensures KeptParams(params) == [] <==> forall i :: 0 <= i < |params| ==> !params[i].1.Value?
  {
    if params != [] {
      var init := params[..|params| - 1];
      NothingKeptIffAllAbsent(init);
      if KeptParams(params) == [] {
        forall i | 0 <= i < |params|
          ensures !params[i].1.Value?
        {
          if i < |init| {
            assert params[i] == init[i];
          }
        }
      }
    }
  }

  /** `get` leaves the URL alone exactly when there are no params or all of them are
      undefined or null; otherwise it appends `?` and the query string. */
  lemma GetUrl(url: string, params: Option<Params>, config: Option<CallerConfig>)
    ensures Get(url, params, config).verb == "GET" && Get(url, params, config).body == None
    ensures Get(url, params, config).url == url <==>
            params.None? || forall i :: 0 <= i < |params.value| ==> !params.value[i].1.Value?
    ensures Get(url, params, config).url != url ==>
            Get(url, params, config).url == url + "?" + QueryString(params)
  {
    if params.Some? {
      NothingKeptIffAllAbsent(params.value);
      var query := QueryString(params);
      if query != "" {
        assert |url + "?" + query| > |url|;
      }
    }
  }

  /** post, put and patch send a body exactly when data is truthy; delete never does. */
  lemma BodyOnlyWhenTruthy(url: string, data: Option<Json>, config: Option<CallerConfig>)
    ensures Post(url, data, config).body.Some? <==> data.Some? && Truthy(data.value)
    ensures Put(url, data, config).body == Post(url, data, config).body
    ensures Patch(url, data, config).body == Post(url, data, config).body
    ensures Post(url, data, config).body.Some? ==> Post(url, data, config).body == data
    ensures Delete(url, config).body.None?
  {
  }

  /** The caller's skipAuth, retry and headers take precedence over the defaults,
      whichever verb is used. */
  lemma CallerConfigWins(url: string, verb: string, body: Option<Json>, config: CallerConfig)
    ensures var r := WithCaller(url, verb, body, Some(config));
            && (config.skipAuth.Some? ==> r.skipAuth == config.skipAuth.value)
            && (config.retry.Some? ==> r.retry == config.retry.value)
            && (config.headers.Some? ==> r.headers == config.headers.value)
    ensures var r := WithCaller(url, verb, body, None);
            !r.skipAuth && r.retry == 0 && r.headers == map[]
  {
  }

  /** A call made with `{ skipAuth: true }` (as sendOtp and verifyOtp do) carries no
      Authorization header, whatever token is stored. */
  lemma SkipAuthPostSendsNoToken(url: string, data: Option<Json>, token: Option<string>)
    ensures "Authorization" !in Headers(Post(url, data, Some(CallerConfig(None, None, Some(true)))), token)
  {
  }
}
