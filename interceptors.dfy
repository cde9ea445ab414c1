/** The request pipeline (ApiInterceptor): URL composition, headers and bearer
    auth, one fetch per attempt, classification of every failure into one
    ApiError, a bounded linear-backoff retry, and credential clearing on 401.

    `Run` is the reference definition of one call of `request`, with the
    attempts it makes, the waits before each retry and its effect on storage;
    `ApiInterceptor.Request` performs the same steps on a Browser and is proved
    to agree with it. The lemmas at the end state the retry policy. */
module Interceptors {
  import opened Web
  import opened ApiTypes

  /** src/config/api.ts */
  const TIMEOUT: nat := 30000
  const RETRY_ATTEMPTS: nat := 3
  const RETRY_DELAY: nat := 1000

  const JSON_TYPE := "application/json"

  /** A RequestConfig with the destructuring defaults of `request` applied
      (`retry = 0`, `skipAuth = false`, no headers). */
  datatype RequestConfig = RequestConfig(url: string, verb: string, headers: map<string, string>,
                                         body: Option<Json>, retry: nat, skipAuth: bool)

  /** Absolute URLs (anything starting with "http") are used as they are;
      everything else is appended to the base URL. */
  function FullUrl(baseURL: string, url: string): (r: string)
    ensures StartsWith(url, "http") ==> r == url
    ensures !StartsWith(url, "http") ==> StartsWith(r, baseURL) && r[|baseURL|..] == url
  {
    if StartsWith(url, "http") then url else baseURL + url
  }

  /** A stored token is attached only when auth is not skipped and the token is truthy. */
  predicate AttachesToken(skipAuth: bool, token: Option<string>) {
    !skipAuth && token.Some? && token.value != ""
  }

  /** The headers object `request` builds: the JSON content type, overridden by the
      caller's headers, then the bearer token when one is attached. */
  function Headers(config: RequestConfig, token: Option<string>): (h: map<string, string>)
    ensures "Content-Type" in h
    ensures "Content-Type" !in config.headers ==> h["Content-Type"] == JSON_TYPE
    ensures forall k :: k in config.headers && k != "Authorization" ==> k in h && h[k] == config.headers[k]
    ensures h.Keys <= config.headers.Keys + {"Content-Type", "Authorization"}
    ensures "Authorization" in h <==> AttachesToken(config.skipAuth, token) || "Authorization" in config.headers
    ensures AttachesToken(config.skipAuth, token) ==> h["Authorization"] == "Bearer " + token.value
    ensures !AttachesToken(config.skipAuth, token) && "Authorization" in config.headers ==>
              h["Authorization"] == config.headers["Authorization"]
  {
    var h := map["Content-Type" := JSON_TYPE] + config.headers;
    if AttachesToken(config.skipAuth, token) then h["Authorization" := "Bearer " + token.value] else h
  }

  /** The fetch that one attempt of `config` issues, given the stored token. */
  function RequestFor(baseURL: string, config: RequestConfig, token: Option<string>): FetchRequest {
    FetchRequest(FullUrl(baseURL, config.url), config.verb, Headers(config, token), config.body)
  }

  /** What `request`'s catch block can receive. */
  datatype Thrown =
    | AbortError
    | TypeError(message: string)
    | Raised(error: ApiError)
    | OtherError(message: string)

  /** How one attempt ends before the retry decision. */
  datatype Attempt = Resolved(response: ApiResponse) | Threw(error: Thrown)

  /** The message a JavaScript engine gives when `errorData.message` is read on null. */
  const NULL_MESSAGE_READ := "Cannot read " + "properties " + "of null " + "(reading " + "'message')"

  /** `errorData` of handleErrorResponse: the JSON body, the text wrapped as
      `{message}`, or `{message: statusText}` when the JSON does not parse. */
  function ErrorData(response: Response): (data: Json)
    ensures data == JNull <==> response.DeclaresJson() && response.json == Ok(JNull)
    ensures response.DeclaresJson() && response.json.Ok? ==> data == response.json.value
    ensures !response.DeclaresJson() ==> Prop(data, "message") == Some(JStr(response.text))
    ensures response.DeclaresJson() && response.json.Err? ==> Prop(data, "message") == Some(JStr(response.statusText))
    ensures !response.DeclaresJson() || response.json.Err? ==> Prop(data, "code").None? && Prop(data, "details").None?
  {
    if response.DeclaresJson() then
      match response.json
      case Ok(j) => j
      case Err(_) => JObj(map["message" := JStr(response.statusText)])
    else
      JObj(map["message" := JStr(response.text)])
  }

  /** The message an error response falls back on: `HTTP <status>: <statusText>`. */
  function StatusLine(response: Response): string {
    "HTTP " + IntToString(response.status) + ": " + response.statusText
  }

  /** What handleErrorResponse throws for a non-ok response. */
  function ErrorResponse(response: Response): (t: Thrown)
    ensures ErrorData(response) == JNull ==> t == TypeError(NULL_MESSAGE_READ)
    ensures ErrorData(response) != JNull ==> t.Raised? && t.error.status == response.status
    ensures t.Raised? ==> (t.error.code == Prop(ErrorData(response), "code")
                           && t.error.details == Prop(ErrorData(response), "details"))
    ensures t.Raised? ==>
              var message := Prop(ErrorData(response), "message");
              t.error.message == if message.Some? && Truthy(message.value) then message.value
                                 else JStr(StatusLine(response))
    ensures t.Raised? ==> Truthy(t.error.message)
  {
    var data := ErrorData(response);
    if data == JNull then
      TypeError(NULL_MESSAGE_READ)
    else
      var message := Prop(data, "message");
      Raised(ApiError(
        if message.Some? && Truthy(message.value) then message.value else JStr(StatusLine(response)),
        response.status, Prop(data, "code"), Prop(data, "details")))
  }

  /** The body of an ok response: JSON when declared, otherwise the raw text. */
  function SuccessBody(response: Response): (r: Result<Data, string>)
    ensures r.Ok? <==> !response.DeclaresJson() || response.json.Ok?
    ensures response.DeclaresJson() && response.json.Ok? ==> r == Ok(JsonData(response.json.value))
    ensures response.DeclaresJson() && response.json.Err? ==> r == Err(response.json.error)
    ensures !response.DeclaresJson() ==> r == Ok(TextData(response.text))
  {
    if response.DeclaresJson() then
      match response.json
      case Ok(j) => Ok(JsonData(j))
      case Err(m) => Err(m)
    else
      Ok(TextData(response.text))
  }

  /** The attempt that a fetch outcome makes. */
  function Classify(outcome: Outcome): (a: Attempt)
    ensures a.Resolved? <==> outcome.Responded? && outcome.response.Ok() && SuccessBody(outcome.response).Ok?
    ensures a.Resolved? ==> a.response.success && 200 <= a.response.status <= 299
    ensures outcome.Responded? && a.Resolved? ==>
              a.response == ApiResponse(SuccessBody(outcome.response).value, true, outcome.response.status)
    ensures outcome.Responded? && !outcome.response.Ok() ==> a == Threw(ErrorResponse(outcome.response))
    ensures outcome.Responded? && outcome.response.Ok() && SuccessBody(outcome.response).Err? ==>
              a == Threw(OtherError(SuccessBody(outcome.response).error))
    ensures outcome.Aborted? ==> a == Threw(AbortError)
    ensures outcome.FetchTypeError? ==> a == Threw(TypeError(outcome.message))
    ensures outcome.OtherFailure? ==> a == Threw(OtherError(outcome.message))
  {
    match outcome
    case Responded(response) =>
      if !response.Ok() then Threw(ErrorResponse(response))
      else (match SuccessBody(response)
            case Ok(data) => Resolved(ApiResponse(data, true, response.status))
            case Err(m) => Threw(OtherError(m)))
    case Aborted => Threw(AbortError)
    case FetchTypeError(m) => Threw(TypeError(m))
    case OtherFailure(m) => Threw(OtherError(m))
  }

  /** A 401 response triggers handleUnauthorized. */
  predicate Unauthorized(outcome: Outcome) {
    outcome.Responded? && outcome.response.status == 401
  }

  const UNKNOWN_DEFAULT := "An unexpected error occurred"

  const NETWORK_MESSAGE := "Network error. Please check your connection."

  /** The catch-all ApiError: the original message when truthy, else the default. */
  function UnknownError(message: Json): (e: ApiError)
    ensures e.status == 500 && e.code == Some(JStr("UNKNOWN_ERROR")) && e.details.None?
    ensures Truthy(message) ==> e.message == message
    ensures !Truthy(message) ==> e.message == JStr(UNKNOWN_DEFAULT)
  {
    ApiError(if Truthy(message) then message else JStr(UNKNOWN_DEFAULT), 500, Some(JStr("UNKNOWN_ERROR")), None)
  }

  /** handleError: the normalisation of whatever was thrown into one ApiError. */
  function HandleError(t: Thrown): (e: ApiError)
    ensures t.AbortError? ==> e == ApiError(JStr("Request timeout"), 408, Some(JStr("TIMEOUT")), None)
    ensures t.TypeError? && Includes(t.message, "fetch") ==>
              e == ApiError(JStr(NETWORK_MESSAGE), 0, Some(JStr("NETWORK_ERROR")), None)
    ensures t.TypeError? && !Includes(t.message, "fetch") ==> e == UnknownError(JStr(t.message))
    ensures t.Raised? && t.error.status != 0 ==> e == t.error
    ensures t.Raised? && t.error.status == 0 ==> e == UnknownError(t.error.message)
    ensures t.OtherError? ==> e == UnknownError(JStr(t.message))
    ensures e.status == 0 <==> t.TypeError? && Includes(t.message, "fetch")
    ensures (t.Raised? ==> Truthy(t.error.message)) ==> Truthy(e.message)
  {
    match t
    case AbortError =>
      ApiError(JStr("Request timeout"), 408, Some(JStr("TIMEOUT")), None)
    case TypeError(m) =>
      if Includes(m, "fetch") then
        ApiError(JStr(NETWORK_MESSAGE), 0, Some(JStr("NETWORK_ERROR")), None)
      else UnknownError(JStr(m))
    case Raised(err) =>
      if err.status != 0 then err else UnknownError(err.message)
    case OtherError(m) =>
      UnknownError(JStr(m))
  }

  /** shouldRetry: timeouts, fetch TypeErrors and 5xx errors. */
  predicate ShouldRetry(t: Thrown)
    ensures ShouldRetry(t) <==>
              || t.AbortError?
              || (!t.Raised? && HandleError(t).status == 0)
              || (t.Raised? && 500 <= t.error.status < 600)
  {
    match t
    case AbortError => true
    case TypeError(m) => Includes(m, "fetch")
    case Raised(err) => 500 <= err.status < 600
    case OtherError(_) => false
  }

  /** What one call of `request` does: its result, the storage it leaves, the
      unauthorized events it raises, the waits it makes and the fetches it issues. */
  datatype Trace = Trace(result: Result<ApiResponse, ApiError>, storage: map<string, string>,
                         unauthorizedEvents: nat, waits: seq<nat>, fetches: seq<FetchRequest>)

  function RetriesLeft(config: RequestConfig): nat {
    if config.retry < RETRY_ATTEMPTS then RETRY_ATTEMPTS - config.retry else 0
  }

  /** `request(config)` against `storage`, with `sent` fetches made before it. */
  function Run(baseURL: string, config: RequestConfig, storage: map<string, string>,
               network: nat -> Outcome, sent: nat): (t: Trace)
    ensures t.fetches != [] && t.fetches[0] == RequestFor(baseURL, config, Lookup(storage, "token"))
    ensures |t.waits| == |t.fetches| - 1
    decreases RetriesLeft(config)
  {
    var request := RequestFor(baseURL, config, Lookup(storage, "token"));
    var outcome := network(sent);
    var storage' := if Unauthorized(outcome) then storage - {"token", "user"} else storage;
    var events := if Unauthorized(outcome) then 1 else 0;
    match Classify(outcome)
    case Resolved(response) =>
      Trace(Ok(response), storage', events, [], [request])
    case Threw(error) =>
      if config.retry < RETRY_ATTEMPTS && ShouldRetry(error) then
        var rest := Run(baseURL, config.(retry := config.retry + 1), storage', network, sent + 1);
        Trace(rest.result, rest.storage, events + rest.unauthorizedEvents,
              [RETRY_DELAY * (config.retry + 1)] + rest.waits, [request] + rest.fetches)
      else
        Trace(Err(HandleError(error)), storage', events, [], [request])
  }

  class ApiInterceptor {
    const baseURL: string
    const timeout: nat
    const browser: Browser

    constructor (baseURL: string, browser: Browser)
      ensures this.baseURL == baseURL && this.browser == browser && timeout == TIMEOUT
    {
      this.baseURL := baseURL;
      this.browser := browser;
      timeout := TIMEOUT;
    }

    /** What `Request(config)` does when started in the current browser state. */
    ghost function Spec(config: RequestConfig): Trace
      reads browser
    {
      Run(baseURL, config, browser.storage, browser.network, |browser.fetches|)
    }

    method GetAuthToken() returns (token: Option<string>)
      ensures token == Lookup(browser.storage, "token")
    {
      token := browser.GetItem("token");
    }

    method HandleUnauthorized()
      modifies browser
      ensures browser.storage == old(browser.storage) - {"token", "user"}
      ensures browser.unauthorizedEvents == old(browser.unauthorizedEvents) + 1
      ensures browser.waits == old(browser.waits) && browser.fetches == old(browser.fetches)
    {
      browser.RemoveItem("token");
      browser.RemoveItem("user");
      browser.DispatchUnauthorized();
    }

    /** handleErrorResponse: reads the error body, runs the per-status handler
        (only 401 changes state; 403 and 500 only log) and yields what it throws. */
    method HandleErrorResponse(response: Response) returns (thrown: Thrown)
      modifies browser
      ensures thrown == ErrorResponse(response)
      ensures browser.storage == if response.status == 401 then old(browser.storage) - {"token", "user"}
                                 else old(browser.storage)
      ensures browser.unauthorizedEvents == old(browser.unauthorizedEvents) + if response.status == 401 then 1 else 0
      ensures browser.waits == old(browser.waits) && browser.fetches == old(browser.fetches)
    {
      if response.status == 401 {
        HandleUnauthorized();
      }
      thrown := ErrorResponse(response);
    }

    /** The try block of `request` up to its catch: compose the URL and the
        headers, fetch, and read the response or the error response. */
    method Send(config: RequestConfig) returns (attempt: Attempt)
      modifies browser
      ensures var outcome := browser.network(|old(browser.fetches)|);
              && attempt == Classify(outcome)
              && browser.fetches == old(browser.fetches) + [RequestFor(baseURL, config, Lookup(old(browser.storage), "token"))]
              && browser.storage == (if Unauthorized(outcome) then old(browser.storage) - {"token", "user"}
                                     else old(browser.storage))
              && browser.unauthorizedEvents == old(browser.unauthorizedEvents) + (if Unauthorized(outcome) then 1 else 0)
              && browser.waits == old(browser.waits)
    {
      ghost var token0 := Lookup(browser.storage, "token");
      var fullUrl := if StartsWith(config.url, "http") then config.url else baseURL + config.url;
      var headers := map["Content-Type" := JSON_TYPE] + config.headers;
      if !config.skipAuth {
        var token := GetAuthToken();
        if token.Some? && token.value != "" {
          headers := headers["Authorization" := "Bearer " + token.value];
        }
      }
      assert headers == Headers(config, token0);
      var outcome := browser.Fetch(FetchRequest(fullUrl, config.verb, headers, config.body));
      match outcome {
        case Responded(response) =>
          if !response.Ok() {
            var thrown := HandleErrorResponse(response);
            attempt := Threw(thrown);
          } else {
            var body := SuccessBody(response);
            attempt := if body.Ok? then Resolved(ApiResponse(body.value, true, response.status))
                       else Threw(OtherError(body.error));
          }
        case Aborted => attempt := Threw(AbortError);
        case FetchTypeError(m) => attempt := Threw(TypeError(m));
        case OtherFailure(m) => attempt := Threw(OtherError(m));
      }
    }

    /** request: one attempt, then either its result, or a wait and a retry with
        the counter raised by one, or the normalised error. */
    method Request(config: RequestConfig) returns (r: Result<ApiResponse, ApiError>)
      modifies browser
      decreases RetriesLeft(config)
      ensures r == old(Spec(config)).result
      ensures browser.storage == old(Spec(config)).storage
      ensures browser.unauthorizedEvents == old(browser.unauthorizedEvents) + old(Spec(config)).unauthorizedEvents
      ensures browser.waits == old(browser.waits) + old(Spec(config)).waits
      ensures browser.fetches == old(browser.fetches) + old(Spec(config)).fetches
    {
      ghost var storage0, sent0 := browser.storage, |browser.fetches|;
      ghost var waits0, fetches0 := browser.waits, browser.fetches;
      var attempt := Send(config);
      if attempt.Resolved? {
        RunStop(baseURL, config, storage0, browser.network, sent0);
        r := Ok(attempt.response);
        return;
      }
      if config.retry < RETRY_ATTEMPTS && ShouldRetry(attempt.error) {
        var next := config.(retry := config.retry + 1);
        var wait := RETRY_DELAY * (config.retry + 1);
        ghost var request := RequestFor(baseURL, config, Lookup(storage0, "token"));
        ghost var rest := Run(baseURL, next, storage0, browser.network, sent0 + 1);
        RetriedIsNotUnauthorized(config, browser.network(sent0));
        RunRetry(baseURL, config, storage0, browser.network, sent0);
        browser.Delay(wait);
        assert Spec(next) == rest;
        r := Request(next);
        AppendAssociative(waits0, [wait], rest.waits);
        AppendAssociative(fetches0, [request], rest.fetches);
        return;
      }
      RunStop(baseURL, config, storage0, browser.network, sent0);
      r := Err(HandleError(attempt.error));
    }
  }

  lemma AppendAssociative<T>(a: seq<T>, b: seq<T>, c: seq<T>)
    ensures (a + b) + c == a + (b + c)
  {
  }

  // ---------------------------------------------------------------------------
  // Properties of the pipeline

  /** With skipAuth, the headers do not depend on what is stored, and the only
      Authorization header is one the caller supplied. */
  lemma SkipAuthIgnoresToken(config: RequestConfig, token1: Option<string>, token2: Option<string>)
    requires config.skipAuth
    ensures Headers(config, token1) == Headers(config, token2)
    ensures "Authorization" in Headers(config, token1) <==> "Authorization" in config.headers
  {
  }

  /** With a base URL that is itself absolute, composing the URL twice changes nothing. */
  lemma {:induction false} FullUrlIdempotent(baseURL: string, url: string)
    requires StartsWith(baseURL, "http")
    ensures FullUrl(baseURL, FullUrl(baseURL, url)) == FullUrl(baseURL, url)
  {
    if !StartsWith(url, "http") {
      assert (baseURL + url)[..4] == baseURL[..4];
    }
  }

  /** A relative URL keeps its path after the base URL. */
  lemma RelativeUrlExtendsBase(baseURL: string, url: string)
    requires !StartsWith(url, "http")
    ensures StartsWith(FullUrl(baseURL, url), baseURL)
    ensures FullUrl(baseURL, url)[|baseURL|..] == url
  {
  }

  /** The TypeError of reading `message` on a null body does not mention fetch. */
  lemma NullReadIsNotAFetchError()
    ensures !Includes(NULL_MESSAGE_READ, "fetch")
  {
    assert 'h' !in "Cannot read " && 'h' !in "properties " && 'h' !in "of null ";
    assert 'h' !in "(reading " && 'h' !in "'message')";
    if Includes(NULL_MESSAGE_READ, "fetch") {
      IncludedCharsOccur(NULL_MESSAGE_READ, "fetch", 4);
      assert false;
    }
  }

  /** Where an error response's message comes from when its body has none: a body
      that is not JSON gives its text, one whose JSON does not parse gives the
      status text, and an empty one of either falls back on `HTTP <status>: <statusText>`. */
  lemma ErrorMessageSources(response: Response)
    ensures !response.DeclaresJson() ==>
              ErrorResponse(response) == Raised(ApiError(
                if response.text != "" then JStr(response.text) else JStr(StatusLine(response)),
                response.status, None, None))
    ensures response.DeclaresJson() && response.json.Err? ==>
              ErrorResponse(response) == Raised(ApiError(
                if response.statusText != "" then JStr(response.statusText) else JStr(StatusLine(response)),
                response.status, None, None))
  {
  }

  /** A non-5xx error response is never retried, whatever its body. */
  lemma ErrorResponseRetryableOnlyIf5xx(response: Response)
    ensures ShouldRetry(ErrorResponse(response)) ==> 500 <= response.status < 600
  {
    NullReadIsNotAFetchError();
  }

  /** An error response whose JSON body is `null` throws the TypeError of reading
      `message` on null instead of an ApiError: it is not retried, even for a 5xx,
      and surfaces as an UNKNOWN_ERROR with status 500 and that TypeError's message. */
  lemma NullErrorBodyIsUnknownError(response: Response)
    requires !response.Ok() && response.DeclaresJson() && response.json == Ok(JNull)
    ensures ErrorResponse(response) == TypeError(NULL_MESSAGE_READ)
    ensures !ShouldRetry(ErrorResponse(response))
    ensures HandleError(ErrorResponse(response)) ==
            ApiError(JStr(NULL_MESSAGE_READ), 500, Some(JStr("UNKNOWN_ERROR")), None)
  {
    NullReadIsNotAFetchError();
  }

  /** A 4xx response is never retried. */
  lemma ClientErrorNotRetryable(response: Response)
    requires 400 <= response.status < 500
    ensures Classify(Responded(response)).Threw?
    ensures !ShouldRetry(Classify(Responded(response)).error)
  {
    ErrorResponseRetryableOnlyIf5xx(response);
  }

  /** Every error the pipeline would retry surfaces, once retries run out, as a
      timeout (408), a network error (0) or a server error (5xx). */
  lemma RetryableErrorsSurfaceAsTransportOrServer(t: Thrown)
    requires ShouldRetry(t)
    ensures var e := HandleError(t); e.status == 408 || e.status == 0 || 500 <= e.status < 600
  {
  }

  /** Whether the attempt that ends in `outcome` is followed by a retry. */
  predicate Retries(config: RequestConfig, outcome: Outcome) {
    Classify(outcome).Threw? && config.retry < RETRY_ATTEMPTS && ShouldRetry(Classify(outcome).error)
  }

  /** A retried attempt never saw a 401, so it left storage alone. */
  lemma RetriedIsNotUnauthorized(config: RequestConfig, outcome: Outcome)
    requires Retries(config, outcome)
    ensures !Unauthorized(outcome)
  {
    if outcome.Responded? {
      ErrorResponseRetryableOnlyIf5xx(outcome.response);
    }
  }

  /** Run, when the first attempt is retried: the rest of the call is a call with
      the counter raised by one, after one wait and one fetch. */
  lemma RunRetry(baseURL: string, config: RequestConfig, storage: map<string, string>,
                 network: nat -> Outcome, sent: nat)
    requires Retries(config, network(sent))
    ensures var t := Run(baseURL, config, storage, network, sent);
            var rest := Run(baseURL, config.(retry := config.retry + 1), storage, network, sent + 1);
            && t.result == rest.result && t.storage == rest.storage
            && t.unauthorizedEvents == rest.unauthorizedEvents
            && t.waits == [RETRY_DELAY * (config.retry + 1)] + rest.waits
            && t.fetches == [RequestFor(baseURL, config, Lookup(storage, "token"))] + rest.fetches
            && (rest.fetches != [] ==> LastOutcome(t, network, sent) == LastOutcome(rest, network, sent + 1))
  {
    RetriedIsNotUnauthorized(config, network(sent));
    var t := Run(baseURL, config, storage, network, sent);
    var rest := Run(baseURL, config.(retry := config.retry + 1), storage, network, sent + 1);
    assert t == Trace(rest.result, rest.storage, 0 + rest.unauthorizedEvents,
                      [RETRY_DELAY * (config.retry + 1)] + rest.waits,
                      [RequestFor(baseURL, config, Lookup(storage, "token"))] + rest.fetches);
    assert |t.fetches| == 1 + |rest.fetches|;
  }

  /** Run, when the first attempt is not retried: it is the terminal one. */
  lemma RunStop(baseURL: string, config: RequestConfig, storage: map<string, string>,
                network: nat -> Outcome, sent: nat)
    requires !Retries(config, network(sent))
    ensures var t := Run(baseURL, config, storage, network, sent);
            var outcome := network(sent);
            var a := Classify(outcome);
            && t.result == (if a.Resolved? then Ok(a.response) else Err(HandleError(a.error)))
            && t.storage == (if Unauthorized(outcome) then storage - {"token", "user"} else storage)
            && t.unauthorizedEvents == (if Unauthorized(outcome) then 1 else 0)
            && t.waits == [] && t.fetches == [RequestFor(baseURL, config, Lookup(storage, "token"))]
  {
  }

  /** The number of fetches: at least one, and at most one more than the retries
      left, so RETRY_ATTEMPTS + 1 for a fresh request; one wait between each two. */
  lemma {:induction false} AttemptsBounded(baseURL: string, config: RequestConfig, storage: map<string, string>,
                                           network: nat -> Outcome, sent: nat)
    ensures var t := Run(baseURL, config, storage, network, sent);
            1 <= |t.fetches| <= RetriesLeft(config) + 1 && |t.waits| == |t.fetches| - 1
    decreases RetriesLeft(config)
  {
    if Retries(config, network(sent)) {
      RunRetry(baseURL, config, storage, network, sent);
      AttemptsBounded(baseURL, config.(retry := config.retry + 1), storage, network, sent + 1);
    } else {
      RunStop(baseURL, config, storage, network, sent);
    }
  }

  /** A first attempt that gets a 4xx response is the only one: no wait, and the
      request fails. */
  lemma ClientErrorSingleAttempt(baseURL: string, config: RequestConfig, storage: map<string, string>,
                                 network: nat -> Outcome, sent: nat)
    requires network(sent).Responded? && 400 <= network(sent).response.status < 500
    ensures var t := Run(baseURL, config, storage, network, sent);
            |t.fetches| == 1 && t.waits == [] && t.result.Err?
  {
    ClientErrorNotRetryable(network(sent).response);
    RunStop(baseURL, config, storage, network, sent);
  }

  /** The waits of a call whose counter starts at `retry`: the n-th is RETRY_DELAY * (retry + n). */
  predicate LinearWaits(waits: seq<nat>, retry: nat) {
    forall i :: 0 <= i < |waits| ==> waits[i] == RETRY_DELAY * (retry + i + 1)
  }

  /** The wait before the n-th retry of this call is RETRY_DELAY * (config.retry + n). */
  lemma {:induction false} LinearBackoff(baseURL: string, config: RequestConfig, storage: map<string, string>,
                                         network: nat -> Outcome, sent: nat)
    ensures LinearWaits(Run(baseURL, config, storage, network, sent).waits, config.retry)
    decreases RetriesLeft(config)
  {
    if Retries(config, network(sent)) {
      var next := config.(retry := config.retry + 1);
      RunRetry(baseURL, config, storage, network, sent);
      LinearBackoff(baseURL, next, storage, network, sent + 1);
      var waits := Run(baseURL, config, storage, network, sent).waits;
      var rest := Run(baseURL, next, storage, network, sent + 1).waits;
      forall i | 0 <= i < |waits|
        ensures waits[i] == RETRY_DELAY * (config.retry + i + 1)
      {
        if i > 0 {
          assert waits[i] == rest[i - 1];
          assert next.retry + (i - 1) + 1 == config.retry + i + 1;
        }
      }
    } else {
      RunStop(baseURL, config, storage, network, sent);
    }
  }

  /** Every retry re-issues exactly the request of the first attempt. */
  lemma {:induction false} RetriesRepeatTheRequest(baseURL: string, config: RequestConfig, storage: map<string, string>,
                                                   network: nat -> Outcome, sent: nat)
    ensures var t := Run(baseURL, config, storage, network, sent);
            forall i :: 0 <= i < |t.fetches| ==>
              t.fetches[i] == RequestFor(baseURL, config, Lookup(storage, "token"))
    decreases RetriesLeft(config)
  {
    var request := RequestFor(baseURL, config, Lookup(storage, "token"));
    if Retries(config, network(sent)) {
      var next := config.(retry := config.retry + 1);
      RunRetry(baseURL, config, storage, network, sent);
      RetriesRepeatTheRequest(baseURL, next, storage, network, sent + 1);
      assert RequestFor(baseURL, next, Lookup(storage, "token")) == request;
      var fetches := Run(baseURL, config, storage, network, sent).fetches;
      var rest := Run(baseURL, next, storage, network, sent + 1).fetches;
      forall i | 0 <= i < |fetches|
        ensures fetches[i] == request
      {
        if i > 0 {
          assert fetches[i] == rest[i - 1];
        }
      }
    } else {
      RunStop(baseURL, config, storage, network, sent);
    }
  }

  /** The last fetch made by a call. */
  function LastOutcome(t: Trace, network: nat -> Outcome, sent: nat): Outcome
    requires t.fetches != []
  {
    network(sent + |t.fetches| - 1)
  }

  /** Every attempt but the last threw an error that the policy retries. */
  lemma {:induction false} OnlyRetryableFailuresRetried(baseURL: string, config: RequestConfig,
                                                        storage: map<string, string>,
                                                        network: nat -> Outcome, sent: nat)
    ensures var t := Run(baseURL, config, storage, network, sent);
            forall j :: sent <= j < sent + |t.fetches| - 1 ==>
              Classify(network(j)).Threw? && ShouldRetry(Classify(network(j)).error)
    decreases RetriesLeft(config)
  {
    if Retries(config, network(sent)) {
      RunRetry(baseURL, config, storage, network, sent);
      OnlyRetryableFailuresRetried(baseURL, config.(retry := config.retry + 1), storage, network, sent + 1);
    } else {
      RunStop(baseURL, config, storage, network, sent);
    }
  }

  /** Exactly one terminal outcome: the last attempt alone decides the result,
      which is its response or its normalised error, and it was not retried only
      because its error is not retryable or the retries had run out. */
  lemma {:induction false} LastAttemptDecides(baseURL: string, config: RequestConfig, storage: map<string, string>,
                                              network: nat -> Outcome, sent: nat)
    ensures var t := Run(baseURL, config, storage, network, sent);
            && t.fetches != []
            && var last := Classify(LastOutcome(t, network, sent));
               && t.result == (if last.Resolved? then Ok(last.response) else Err(HandleError(last.error)))
               && (last.Threw? && ShouldRetry(last.error) ==> config.retry + |t.fetches| - 1 >= RETRY_ATTEMPTS)
    decreases RetriesLeft(config)
  {
    if Retries(config, network(sent)) {
      var next := config.(retry := config.retry + 1);
      RunRetry(baseURL, config, storage, network, sent);
      LastAttemptDecides(baseURL, next, storage, network, sent + 1);
    } else {
      RunStop(baseURL, config, storage, network, sent);
    }
  }

  /** Credentials are cleared, and one unauthorized event raised, exactly when the
      terminal response is a 401; otherwise (403 and 500 included) storage is unchanged. */
  lemma {:induction false} UnauthorizedClearsCredentials(baseURL: string, config: RequestConfig,
                                                         storage: map<string, string>,
                                                         network: nat -> Outcome, sent: nat)
    ensures var t := Run(baseURL, config, storage, network, sent);
            && t.fetches != []
            && var cleared := Unauthorized(LastOutcome(t, network, sent));
               && t.storage == (if cleared then storage - {"token", "user"} else storage)
               && t.unauthorizedEvents == (if cleared then 1 else 0)
    decreases RetriesLeft(config)
  {
    if Retries(config, network(sent)) {
      var next := config.(retry := config.retry + 1);
      RunRetry(baseURL, config, storage, network, sent);
      UnauthorizedClearsCredentials(baseURL, next, storage, network, sent + 1);
    } else {
      RunStop(baseURL, config, storage, network, sent);
    }
  }
}
