/** The browser platform the application runs on, reduced to what the core
    uses: JSON values with JavaScript truthiness, the few String methods the
    code calls, the fetch request/response shapes, and one object standing for
    localStorage, the window event bus, setTimeout-based delays and fetch. */
module Web {

  datatype Option<+T> = None | Some(value: T) {
    function GetOr(default: T): T {
      match this
      case Some(v) => v
      case None => default
    }
  }

  datatype Result<+T, +E> = Ok(value: T) | Err(error: E)

  /** A parsed JSON document. Numbers are kept exact; floating point is not modelled. */
  datatype Json =
    | JNull
    | JBool(b: bool)
    | JNum(n: real)
    | JStr(s: string)
    | JArr(items: seq<Json>)
    | JObj(fields: map<string, Json>)

  /** JavaScript truthiness of a JSON value: null, false, 0 and "" are falsy;
      every array and object, even an empty one, is truthy. */
  predicate Truthy(j: Json) {
    match j
    case JNull => false
    case JBool(b) => b
    case JNum(n) => n != 0.0
    case JStr(s) => s != ""
    case JArr(_) => true
    case JObj(_) => true
  }

  /** Property read `j.key` on a non-null JSON value: None is `undefined`. */
  function Prop(j: Json, key: string): (r: Option<Json>)
    ensures r.Some? <==> j.JObj? && key in j.fields
    ensures r.Some? ==> r.value == j.fields[key]
  {
    match j
    case JObj(fields) => if key in fields then Some(fields[key]) else None
    case _ => None
  }

  /** `s.startsWith(prefix)` */
  predicate StartsWith(s: string, prefix: string) {
    |prefix| <= |s| && s[..|prefix|] == prefix
  }

  /** `s.includes(part)` */
  predicate Includes(s: string, part: string)
    decreases |s|
  {
    StartsWith(s, part) || (s != [] && Includes(s[1..], part))
  }

  /** Every character of a string that `s` includes occurs in `s`. */
  lemma {:induction false} IncludedCharsOccur(s: string, part: string, k: nat)
    requires Includes(s, part) && k < |part|
    ensures part[k] in s
    decreases |s|
  {
    if StartsWith(s, part) {
      assert s[k] == part[k];
    } else {
      IncludedCharsOccur(s[1..], part, k);
      assert part[k] in s[1..];
    }
  }

  predicate IsDigit(c: char) {
    '0' <= c <= '9'
  }

  predicate AllDigits(s: string) {
    forall i :: 0 <= i < |s| ==> IsDigit(s[i])
  }

  function DigitChar(d: nat): (c: char)
    requires d < 10
    ensures IsDigit(c)
  {
    ['0', '1', '2', '3', '4', '5', '6', '7', '8', '9'][d]
  }

  /** Decimal rendering of a natural number, as `String(n)` gives it. */
  function NatToString(n: nat): (s: string)
    ensures s != [] && AllDigits(s)
    decreases n
  {
    if n < 10 then [DigitChar(n)] else NatToString(n / 10) + [DigitChar(n % 10)]
  }

  /** `String(i)` for an integer. */
  function IntToString(i: int): (s: string)
    ensures s != []
  {
    if i < 0 then "-" + NatToString(-i) else NatToString(i)
  }

  /** `localStorage.getItem(key)`: None is `null`. */
  function Lookup(storage: map<string, string>, key: string): Option<string> {
    if key in storage then Some(storage[key]) else None
  }

  /** What `fetch` is called with. The body is the document that JSON.stringify serialises. */
  datatype FetchRequest = FetchRequest(url: string, verb: string, headers: map<string, string>, body: Option<Json>)

  /** A fetch Response. `text` is what `response.text()` resolves to and `json` what
      `response.json()` resolves to, or the message of the SyntaxError it rejects with. */
  datatype Response = Response(status: int, statusText: string, contentType: Option<string>,
                               text: string, json: Result<Json, string>)
  {
    /** `response.ok` */
    predicate Ok() {
      200 <= status <= 299
    }

    /** `response.headers.get('content-type')?.includes('application/json')` */
    predicate DeclaresJson() {
      contentType.Some? && Includes(contentType.value, "application/json")
    }
  }

  /** How one call of `fetch` settles: a response, an AbortError (the timeout fired),
      a TypeError (network failure; its message depends on the browser), or any other error. */
  datatype Outcome =
    | Responded(response: Response)
    | Aborted
    | FetchTypeError(message: string)
    | OtherFailure(message: string)

  /** The browser state the core touches. The network is a fixed function from the
      number of fetches made so far to the outcome of the next one. */
  class Browser {
    var storage: map<string, string>
    var unauthorizedEvents: nat
    var waits: seq<nat>
    var fetches: seq<FetchRequest>
    const network: nat -> Outcome

    constructor (storage: map<string, string>, network: nat -> Outcome)
      ensures this.storage == storage && this.network == network
      ensures unauthorizedEvents == 0 && waits == [] && fetches == []
    {
      this.storage := storage;
      this.network := network;
      unauthorizedEvents := 0;
      waits := [];
      fetches := [];
    }

    method GetItem(key: string) returns (v: Option<string>)
      ensures v == Lookup(storage, key)
    {
      v := if key in storage then Some(storage[key]) else None;
    }

    method SetItem(key: string, value: string)
      modifies this`storage
      ensures storage == old(storage)[key := value]
    {
      storage := storage[key := value];
    }

    method RemoveItem(key: string)
      modifies this`storage
      ensures storage == old(storage) - {key}
    {
      storage := storage - {key};
    }

    /** `window.dispatchEvent(new CustomEvent('auth:unauthorized'))` */
    method DispatchUnauthorized()
      modifies this`unauthorizedEvents
      ensures unauthorizedEvents == old(unauthorizedEvents) + 1
    {
      unauthorizedEvents := unauthorizedEvents + 1;
    }

    /** A `setTimeout`-based wait, recorded instead of elapsed. */
    method Delay(ms: nat)
      modifies this`waits
      ensures waits == old(waits) + [ms]
    {
      waits := waits + [ms];
    }

    method Fetch(request: FetchRequest) returns (outcome: Outcome)
      modifies this`fetches
      ensures fetches == old(fetches) + [request]
      ensures outcome == network(|old(fetches)|)
    {
      outcome := network(|fetches|);
      fetches := fetches + [request];
    }
  }
}
