# Stock-basket web client: request pipeline, session and screen logic in Dafny

This project models the client-side logic of a React web app for investing in
stock baskets. It covers the following parts:

- **Request pipeline.** `ApiInterceptor.request` composes the URL (absolute or
  relative to the base URL). It builds the headers: JSON content type by
  default, the caller's headers, and a bearer token unless `skipAuth` is set.
  It issues one fetch per attempt and retries timeouts, fetch TypeErrors and 5xx
  errors with a linear backoff, at most `RETRY_ATTEMPTS` times. It normalises
  every failure into one `ApiError` shape. A 401 clears the stored credentials
  and raises an `auth:unauthorized` event.
- **Verb helpers.** `BaseApiService` builds the query string of `get` and the
  request config of `get`, `post`, `put`, `patch` and `delete`.
- **`useApi`.** A hook whose state record `{data, loading, error}` is
  overwritten when a call starts, when it settles, and on reset.
- **`AuthProvider` and `useAuth`.** The signed-in user, restored from storage on
  mount, set by `login` and cleared by `logout`. Storage keys are `user` and
  `token`.
- **Login page.** A two-step OTP wizard with digit-only input sanitisers and
  length checks that block requests.
- **Dashboard.** The risk filters, lookup of a basket by id, the portfolio total
  and overall change, and the two token-guarded list fetches.

The browser is a `Web.Browser` object:

- `localStorage` is a string map;
- the `auth:unauthorized` broadcast is a counter;
- `setTimeout` waits are recorded as a sequence of delays;
- every fetch issued is recorded;
- the network is a fixed function from the attempt number to its outcome (a
  response, an abort, a fetch TypeError or another failure).

A response carries both readings of its body: the text, and the result of
`json()` (a value or a parse error). `JSON.stringify` and `JSON.parse` of a user
are parameters of the auth provider. Screens take the answer of the API call they
make as a parameter, already decoded into the shapes of `src/types/api.ts`.

`Interceptors.Run` is the reference definition of one call of `request`. It
returns the result, the storage left behind, the events raised, the waits and the
fetches. `Interceptors.ApiInterceptor.Request` performs the same steps on a
`Browser` and is proved to agree with `Run`. The retry policy is then proved about
`Run`.

The model follows the code on three points where its behaviour is easy to
misread:

- `RETRY_ATTEMPTS = 3` counts retries beyond the first attempt, so a call makes
  up to four fetches.
- A 5xx error response is retried: the error `handleErrorResponse` throws is
  caught by `request`'s own catch block. It is not a terminal outcome.
- An error response whose JSON body is `null` makes `handleErrorResponse` throw
  the TypeError of reading `message` on null. The result is an UNKNOWN_ERROR with
  status 500, and it is not retried.

## Model

| member | source | states |
|---|---|---|
| Interceptors.Headers | src/services/api/interceptors.ts:34-45 | Content-Type defaults to application/json and caller headers override it; every caller header except Authorization is kept; Authorization is present iff a truthy token is attached (auth not skipped) or the caller set it; an attached token gives "Bearer " + token, and without one the caller's Authorization is kept as given |
| Interceptors.ErrorResponse | src/services/api/interceptors.ts:94-128 | a null error body throws the TypeError of reading message on null; any other body gives an ApiError with the response status, the body's code and details, and the body's message when truthy, else "HTTP <status>: <statusText>" (StatusLine) |
| Interceptors.Classify | src/services/api/interceptors.ts:51-79 | an attempt resolves iff the response is ok and its body reads, and then returns {data: the body, success: true, status: the response status}; a non-ok response throws what handleErrorResponse throws; an unreadable ok body, an abort, a fetch TypeError and any other failure throw the matching error |
| Interceptors.HandleError | src/services/api/interceptors.ts:131-157 | AbortError becomes {Request timeout, 408, TIMEOUT}; a TypeError mentioning "fetch" becomes {Network error..., 0, NETWORK_ERROR}; an error with a non-zero status passes through unchanged; everything else becomes UNKNOWN_ERROR with status 500 and its own message or the default; status 0 iff a fetch TypeError |
| Interceptors.ApiInterceptor.constructor | src/services/api/interceptors.ts:15-18 | the base URL and the 30000 ms timeout are set |
| Interceptors.ApiInterceptor.GetAuthToken | src/services/api/interceptors.ts:172-174 | returns the stored 'token' |
| Interceptors.ApiInterceptor.HandleUnauthorized | src/services/api/interceptors.ts:176-183 | removes 'token' and 'user' and raises exactly one unauthorized event; nothing else changes |
| Interceptors.ApiInterceptor.HandleErrorResponse | src/services/api/interceptors.ts:94-129 | throws ErrorResponse(response); clears credentials and raises one event iff the status is 401, while 403 and 500 change no state |
| Interceptors.ApiInterceptor.Send | src/services/api/interceptors.ts:28-79 | issues exactly one fetch, RequestFor the config: the composed URL and headers with the token read at the start; the attempt is the classification of its outcome; storage changes only on a 401 |
| Interceptors.ApiInterceptor.Request | src/services/api/interceptors.ts:27-92 | result, storage, events, waits and fetches are exactly those of Run for the state the call starts in |
| Interceptors.FullUrl | src/services/api/interceptors.ts:31 | a URL starting with "http" is used unchanged; any other is the base URL followed by the URL |
| Interceptors.ErrorData | src/services/api/interceptors.ts:95-106 | the parsed JSON body when JSON is declared and parses (null only for a null body); otherwise an object whose message is the text, or the status text when parsing fails, with no code or details |
| Interceptors.SuccessBody | src/services/api/interceptors.ts:66-73 | the parsed JSON when JSON is declared, the text otherwise; a parse failure iff JSON is declared and does not parse |
| Interceptors.UnknownError | src/services/api/interceptors.ts:152-156 | status 500 and code UNKNOWN_ERROR, with the original message when truthy, else "An unexpected error occurred" |
| Interceptors.ShouldRetry | src/services/api/interceptors.ts:159-166 | retried iff a timeout, a TypeError that handleError reports as a network error (status 0), or a thrown error with a 5xx status |
| Interceptors.Run | src/services/api/interceptors.ts:27-92 | the reference definition of one call; its first fetch is the request composed from the config and the stored token, and there is one wait fewer than fetches |
| Interceptors.ErrorMessageSources | src/services/api/interceptors.ts:97-126 | a non-JSON error body gives its text as the message, an unparsable JSON body the status text, and an empty one "HTTP <status>: <statusText>"; neither has a code or details |
| Web.Browser.Delay | src/services/api/interceptors.ts:168-170 | a wait of the given length is recorded and nothing else changes |
| Interceptors.SkipAuthIgnoresToken | src/services/api/interceptors.ts:40-45 | with skipAuth the headers are the same whatever is stored, and Authorization is present only if the caller supplied it |
| Interceptors.FullUrlIdempotent | src/services/api/interceptors.ts:31 | with an absolute base URL, composing an already composed URL changes nothing |
| Interceptors.RelativeUrlExtendsBase | src/services/api/interceptors.ts:31 | a URL not starting with "http" becomes the base URL followed by that URL |
| Interceptors.NullReadIsNotAFetchError | src/services/api/interceptors.ts:163 | the TypeError from reading message on a null body does not mention "fetch" |
| Interceptors.ErrorResponseRetryableOnlyIf5xx | src/services/api/interceptors.ts:159-166 | what an error response throws is retryable only if its status is 5xx |
| Interceptors.NullErrorBodyIsUnknownError | src/services/api/interceptors.ts:99-126 | an error response with a null JSON body throws a TypeError that is not retried and is normalised to UNKNOWN_ERROR/500 |
| Interceptors.ClientErrorNotRetryable | src/services/api/interceptors.ts:159-166 | a 4xx response fails the attempt and is not retryable |
| Interceptors.RetryableErrorsSurfaceAsTransportOrServer | src/services/api/interceptors.ts:131-166 | a retryable error surfaces as status 408, 0 or 5xx |
| Interceptors.RetriedIsNotUnauthorized | src/services/api/interceptors.ts:109-112 | an attempt that is retried never saw a 401 |
| Interceptors.RunRetry | src/services/api/interceptors.ts:85-87 | a retried attempt contributes one wait of RETRY_DELAY * (retry + 1) and one fetch; the rest is the call with retry + 1 |
| Interceptors.RunStop | src/services/api/interceptors.ts:81-91 | an attempt that is not retried ends the call: its response or its normalised error, with no further wait or fetch |
| Interceptors.AttemptsBounded | src/services/api/interceptors.ts:85-87 | a call terminates after at least one and at most max(RETRY_ATTEMPTS - retry, 0) + 1 fetches, with one wait between consecutive fetches |
| Interceptors.ClientErrorSingleAttempt | src/services/api/interceptors.ts:85 | a 4xx first response means exactly one fetch, no wait, and a failed call |
| Interceptors.LinearBackoff | src/services/api/interceptors.ts:86 | the n-th wait is RETRY_DELAY * (retry + n) |
| Interceptors.RetriesRepeatTheRequest | src/services/api/interceptors.ts:87 | every retry re-issues the same request as the first attempt |
| Interceptors.OnlyRetryableFailuresRetried | src/services/api/interceptors.ts:85 | every attempt but the last threw an error that shouldRetry accepts |
| Interceptors.LastAttemptDecides | src/services/api/interceptors.ts:81-91 | exactly one terminal outcome: the last attempt's response or its normalised error; if that error was retryable, the retries had run out |
| Interceptors.UnauthorizedClearsCredentials | src/services/api/interceptors.ts:109-112 | credentials are cleared, with one event, iff the terminal response is a 401; otherwise storage is unchanged and no event is raised |
| BaseApi.BuildQueryString | src/services/api/base.ts:77-87 | the query string is the serialisation of the entries that are neither undefined nor null, in order |
| BaseApi.WithCaller | src/services/api/base.ts:20-24 | the verb's URL, method and body reach the request config |
| BaseApi.KeptParams | src/services/api/base.ts:80-84 | never more pairs than entries; its membership and order are characterised by the lemmas below |
| BaseApi.BodyFor | src/services/api/base.ts:35 | a body iff data is truthy, and then the data itself |
| BaseApi.Get | src/services/api/base.ts:12-25 | method GET, no body, and the URL alone or followed by "?" and the query string (QueryString: none without params) |
| BaseApi.Post | src/services/api/base.ts:27-38 | the URL as given, method POST, and the body of BodyFor |
| BaseApi.Put | src/services/api/base.ts:40-51 | the URL as given, method PUT, and the body of BodyFor |
| BaseApi.Patch | src/services/api/base.ts:53-64 | the URL as given, method PATCH, and the body of BodyFor |
| BaseApi.Delete | src/services/api/base.ts:66-75 | the URL as given, method DELETE, and no body |
| BaseApi.KeptParamsMembership | src/services/api/base.ts:80-84 | a (key, value) pair is appended iff some entry has that key and a defined, non-null value with that text |
| BaseApi.KeptParamsAppend | src/services/api/base.ts:80-84 | the kept pairs preserve the entries' order |
| BaseApi.NothingKeptIffAllAbsent | src/services/api/base.ts:80-84 | nothing is appended iff every value is undefined or null |
| BaseApi.Serialize | src/services/api/base.ts:86 | the serialised query is empty iff there are no pairs |
| BaseApi.GetUrl | src/services/api/base.ts:17-18 | get leaves the URL unchanged iff there are no params or all are undefined or null, and otherwise appends "?" and the query; method GET, no body |
| BaseApi.BodyOnlyWhenTruthy | src/services/api/base.ts:35 | post, put and patch send a body iff data is truthy; delete never does |
| BaseApi.CallerConfigWins | src/services/api/base.ts:32-37 | the caller's skipAuth, retry and headers win; without a config retry is 0, skipAuth false and there are no headers |
| BaseApi.SkipAuthPostSendsNoToken | src/services/api/base.ts:27-37 | a post with skipAuth carries no Authorization header whatever is stored |
| UseApi.UseApiHook.constructor | src/hooks/useApi.ts:16-20 | the initial state is {null, false, null} |
| UseApi.UseApiHook.Begin | src/hooks/useApi.ts:23 | starting sets loading and clears the error, keeping data |
| UseApi.UseApiHook.Settle | src/hooks/useApi.ts:26-40 | success gives {data, false, null} and returns data; failure gives {null, false, error} and returns null |
| UseApi.UseApiHook.Execute | src/hooks/useApi.ts:22-42 | the state after execute and its return value for both branches; loading ends false and data and error are never both set |
| UseApi.UseApiHook.Reset | src/hooks/useApi.ts:44-50 | the state returns to {null, false, null} |
| AuthContext.AuthProvider.constructor | src/context/AuthContext.tsx:12-13 | no user, loading |
| AuthContext.RestoredUser | src/context/AuthContext.tsx:17-28 | without a non-empty stored user, or when parsing throws, the user is unchanged; otherwise it is what the stored user parses to |
| AuthContext.StorageAfterLogin | src/context/AuthContext.tsx:33-41 | 'user' holds the stringified user; 'token' holds a truthy given token, else its old value; every other key is unchanged |
| AuthContext.AuthProvider.Value | src/context/AuthContext.tsx:50-56 | isAuthenticated iff there is a user |
| AuthContext.AuthProvider.Mount | src/context/AuthContext.tsx:15-31 | the user becomes the parsed stored user when a non-empty one parses, is otherwise unchanged, and loading ends false |
| AuthContext.AuthProvider.Login | src/context/AuthContext.tsx:33-41 | sets the user and stores it under 'user'; stores 'token' only for a truthy token |
| AuthContext.AuthProvider.Logout | src/context/AuthContext.tsx:44-48 | no user, and 'user' and 'token' removed; nothing else in storage changes |
| AuthContext.UseAuth | src/context/AuthContext.tsx:61-66 | an error iff there is no provider, the context value otherwise |
| AuthContext.LoginThenMountRestoresUser | src/context/AuthContext.tsx:15-41 | a user stored by login is the one the next mount restores, when parsing inverts stringifying |
| AuthContext.LoginWithoutTokenKeepsToken | src/context/AuthContext.tsx:38-40 | login without a token leaves the stored token as it was |
| AuthContext.LogoutThenMountFindsNoUser | src/context/AuthContext.tsx:44-48 | after logout no token is stored and the next mount restores no user |
| Login.Digits | src/pages/Login/Login.tsx:119 | the result holds only digits and is no longer than the input |
| Login.Sanitize | src/pages/Login/Login.tsx:166 | only digits, at most the limit, the first digits of the input: all of them when there are at most limit, exactly limit otherwise |
| Login.DigitsAppend | src/pages/Login/Login.tsx:119 | stripping non-digits distributes over concatenation, so digits keep their order |
| Login.DigitsOfDigits | src/pages/Login/Login.tsx:119 | a digit string is unchanged by stripping |
| Login.DigitsMembership | src/pages/Login/Login.tsx:119 | a character survives iff it is a digit of the input |
| Login.SanitizeIdempotent | src/pages/Login/Login.tsx:166 | sanitising twice is sanitising once |
| Login.SanitizeKeepsValidInput | src/pages/Login/Login.tsx:166 | a value of at most limit digits passes unchanged |
| Login.LoginPage.constructor | src/pages/Login/Login.tsx:8-13 | step 1, empty fields, not loading, no error |
| Login.LoginPage.ChangeMobile | src/pages/Login/Login.tsx:119 | the mobile field holds the sanitised input, so at most 10 digits |
| Login.LoginPage.ChangeOtp | src/pages/Login/Login.tsx:166 | the OTP field holds the sanitised input, so at most 6 digits |
| Login.LoginPage.SendOtp | src/pages/Login/Login.tsx:22-47 | a request iff the mobile has 10 digits, else the validation error; step 2 and the returned OTP only on "success"; the error's message when truthy or 'Failed to send OTP' (MessageOr) on failure; loading ends false |
| Login.LoginPage.VerifyOtp | src/pages/Login/Login.tsx:50-87 | a request iff the OTP has 6 digits, else the validation error; on "success" 'token' holds the access token and the user with the entered mobile is signed in (OtpUser: id "1", name "User", no email); a failure shows MessageOr of the error and 'Failed to verify OTP'; otherwise user and storage unchanged; loading ends false; the provider's loading flag is untouched |
| Login.LoginPage.ChangeMobileNumber | src/pages/Login/Login.tsx:195-200 | step 1 with otp, receivedOtp and error emptied; mobile kept |
| Dashboard.OverallChange | src/pages/Dashboard/Dashboard.tsx:187-195 | 0 without baskets; no number (NaN or infinite in the source) exactly when there are baskets whose total is 0; otherwise the fold WeightedChange of change times value share |
| Dashboard.ListOutcome | src/pages/Dashboard/Dashboard.tsx:104-129 | no token gives "No authentication token found"; a list is loaded iff there is a token, a 2xx answer, a body with status "success" and data, and the list is that data |
| Dashboard.ShownError | src/pages/Dashboard/Dashboard.tsx:131 | the thrown message if non-empty, else the fallback, so never empty |
| Dashboard.DashboardPage.constructor | src/pages/Dashboard/Dashboard.tsx:37-40 | empty lists, loading, no error |
| Dashboard.DashboardPage.Load | src/pages/Dashboard/Dashboard.tsx:105-129 | a GET with the bearer token (ListRequest) is sent iff a truthy token is stored; the outcome is ListOutcome |
| Dashboard.DashboardPage.FetchBaskets | src/pages/Dashboard/Dashboard.tsx:100-136 | no request without a token; baskets replaced only on success; otherwise the shown error; loading ends false |
| Dashboard.DashboardPage.FetchInvestment | src/pages/Dashboard/Dashboard.tsx:57-94 | no request without a token; investments replaced only on success; otherwise the shown error; loading ends false |
| Dashboard.Filter | src/pages/Dashboard/Dashboard.tsx:142-150 | never longer than the input, and every element kept is from the input and passes the test |
| Dashboard.BasketById | src/pages/Dashboard/Dashboard.tsx:96-98 | a basket found is one of the list and has the id |
| Dashboard.FilteredBaskets | src/pages/Dashboard/Dashboard.tsx:148-151 | 'All' returns the list; otherwise every basket kept is from the list and has the risk |
| Dashboard.FilteredInvestments | src/pages/Dashboard/Dashboard.tsx:139-146 | 'All' returns the list; otherwise every investment kept is from the list and its basket is found with the risk |
| Dashboard.FilterMembership | src/pages/Dashboard/Dashboard.tsx:150 | an element survives filtering iff it was present and passes the test |
| Dashboard.FilterAppend | src/pages/Dashboard/Dashboard.tsx:150 | filtering distributes over concatenation, so it keeps order |
| Dashboard.FilterCount | src/pages/Dashboard/Dashboard.tsx:150 | every copy of a passing element is kept and none of a failing one |
| Dashboard.BasketByIdFirstMatch | src/pages/Dashboard/Dashboard.tsx:96-98 | none iff no basket has the id; otherwise the first basket with it |
| Dashboard.FilteredBasketsCharacterised | src/pages/Dashboard/Dashboard.tsx:148-151 | 'All' returns the list unchanged; a risk keeps exactly the baskets of that risk, with multiplicity, in order |
| Dashboard.InvestmentFilterMembership | src/pages/Dashboard/Dashboard.tsx:139-146 | 'All' returns the list unchanged; a risk keeps an investment iff its basket is found and has that risk, so unknown baskets are dropped |
| Dashboard.TotalValueAppend | src/pages/Dashboard/Dashboard.tsx:183-185 | the total of a concatenation is the sum of the totals |
| Dashboard.TotalValueCons | src/pages/Dashboard/Dashboard.tsx:183-185 | the total is the first value plus the total of the rest |
| Dashboard.TotalValueByRisk | src/pages/Dashboard/Dashboard.tsx:183-185 | the total is the sum of the totals of the Low, Medium and High filters |
| Dashboard.TotalValue | src/pages/Dashboard/Dashboard.tsx:183-185 | baskets of non-negative value give a non-negative total |
| Dashboard.WeightedChangeIsRatio | src/pages/Dashboard/Dashboard.tsx:190-193 | the weighted fold equals the sum of change times value over the total |
| Dashboard.UniformProduct | src/pages/Dashboard/Dashboard.tsx:190-193 | with one change for all baskets, the change-times-value sum is that change times the total |
| Dashboard.UniformChangeIsOverallChange | src/pages/Dashboard/Dashboard.tsx:187-195 | when every basket moved by the same percentage (and the total is not 0), that is the overall change |

## Left out

- Timing: the 30-second AbortController timeout and `setTimeout` are not modelled. A timeout is the network's `Aborted` outcome, and a wait is a recorded delay.
- `handleForbidden` and `handleServerError` only log, so they change no state and are not modelled. The same holds for all `console` output.
- `window.dispatchEvent` is a counter of unauthorized events. Navigation (`navigate(from)`, `window.location`) is not modelled.
- `ApiInterceptor.getInstance` is not modelled. The singleton is an `ApiInterceptor` object that the caller shares.
- JSON encoding and decoding, `response.json()` and `response.text()` are not modelled. They are values carried by the response, or parameters (the user's stringify and parse).
- `URLSearchParams` percent-encoding is not modelled; keys and values are joined as they are.
- The order `Object.entries` gives integer-like keys is not modelled: parameters are an ordered list of entries.
- `String(value)` of a parameter is the text the entry already carries.
- A caller config field other than headers, retry and skipAuth is not modelled. Of these, only a caller `body` would override the verb's; a caller `signal` never reaches `fetch`, because `request` replaces it with its own abort controller's signal.
- Header names are compared case-sensitively. So is the `includes('application/json')` test on the content type.
- BaseApi.WithCaller: the retry counter is a `nat`, so a negative or fractional caller `retry` is not modelled.
- The TypeError messages for reading a property of null or undefined (`Cannot read properties of null (reading 'message')` and the like) are V8's wording; other engines word them differently. The retry decision does not depend on it, since none of them mentions "fetch".
- Number values are mathematical reals, so floating-point rounding, NaN and infinities are not modelled. The NaN of a zero total in `getOverallChange` becomes `None`. Formatting (`toFixed`, `Intl.NumberFormat`) is not modelled.
- Concurrency is not modelled. This includes the two dashboard fetches started together on mount, which share `loading` and `error`, and a request in flight while a 401 clears the token. Each operation is modelled as running to completion.
- Login.LoginPage.SendOtp: only the state after the call settles is stated, not the `loading = true` state in between. The same holds for Login.LoginPage.VerifyOtp, Dashboard.DashboardPage.FetchBaskets and Dashboard.DashboardPage.FetchInvestment.
- Login.LoginPage.VerifyOtp: an access token that is `undefined` is not modelled. The page would store the string "undefined"; tokens are strings here.
- A screen takes the settled answer of its API call as a parameter. It is not connected to `ApiInterceptor.Request`.
- The endpoint wrappers (`authApi`, `dashboardApi` and the rest) are not modelled. They only choose a path and the skipAuth flag.
- JSX rendering, routing, the Layout, Subscribe and Mandate pages, and build configuration are not modelled.
