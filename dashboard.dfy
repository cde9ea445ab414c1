/** The dashboard's list logic: the risk filters over baskets and investments, the
    lookup of a basket by id, the portfolio total and overall change, and the two
    token-guarded fetches that fill the lists. */
module Dashboard {
  import opened Web
  import opened ApiTypes

  /** The filter buttons: 'All' or one risk level. */
  datatype RiskFilter = All | Only(risk: Risk)

  /** `Array.prototype.filter`. */
  function Filter<T>(s: seq<T>, keep: T -> bool): (r: seq<T>)
    ensures |r| <= |s|
    ensures forall i :: 0 <= i < |r| ==> r[i] in s && keep(r[i])
  {
    if s == [] then [] else (if keep(s[0]) then [s[0]] else []) + Filter(s[1..], keep)
  }

  /** getBasketById: `baskets.find(b => b.id === id)`. */
  function BasketById(baskets: seq<Basket>, id: string): (r: Option<Basket>)
    ensures r.Some? ==> r.value in baskets && r.value.id == id
  {
    if baskets == [] then None
    else if baskets[0].id == id then Some(baskets[0])
    else BasketById(baskets[1..], id)
  }

  /** getFilteredBaskets. */
  function FilteredBaskets(baskets: seq<Basket>, filter: RiskFilter): (r: seq<Basket>)
    ensures filter.All? ==> r == baskets
    ensures forall i :: 0 <= i < |r| ==> r[i] in baskets && (filter.Only? ==> r[i].risk == filter.risk)
  {
    if filter.All? then baskets else Filter(baskets, (b: Basket) => b.risk == filter.risk)
  }

  /** The investment filter's test: the investment's basket is found and has the risk. */
  predicate InvestmentHasRisk(baskets: seq<Basket>, risk: Risk, inv: Investment) {
    var b := BasketById(baskets, inv.basketId);
    b.Some? && b.value.risk == risk
  }

  /** getFilteredInvestments. */
  function FilteredInvestments(investments: seq<Investment>, baskets: seq<Basket>, filter: RiskFilter): (r: seq<Investment>)
    ensures filter.All? ==> r == investments
    ensures forall i :: 0 <= i < |r| ==>
              r[i] in investments && (filter.Only? ==> InvestmentHasRisk(baskets, filter.risk, r[i]))
  {
    if filter.All? then investments
    else Filter(investments, (inv: Investment) => InvestmentHasRisk(baskets, filter.risk, inv))
  }

  /** Every basket is worth zero or more. */
  predicate NonNegativeValues(baskets: seq<Basket>) {
    forall i :: 0 <= i < |baskets| ==> baskets[i].currentValue >= 0.0
  }

  /** getTotalPortfolioValue: `reduce((total, b) => total + b.currentValue, 0)`, a left fold. */
  function TotalValue(baskets: seq<Basket>): (total: real)
    ensures NonNegativeValues(baskets) ==> total >= 0.0
  {
    if baskets == [] then 0.0 else TotalValue(baskets[..|baskets| - 1]) + baskets[|baskets| - 1].currentValue
  }

  /** The weighted change's fold: each basket adds its change times its share of `total`. */
  function WeightedChange(baskets: seq<Basket>, total: real): real
    requires total != 0.0
  {
    if baskets == [] then 0.0
    else WeightedChange(baskets[..|baskets| - 1], total)
         + baskets[|baskets| - 1].oneDayChangePct * (baskets[|baskets| - 1].currentValue / total)
  }

  /** getOverallChange: 0 without baskets; None where the division by a zero total
      would make the result NaN or infinite. */
  function OverallChange(baskets: seq<Basket>): (r: Option<real>)
    ensures baskets == [] ==> r == Some(0.0)
    ensures r.None? <==> baskets != [] && TotalValue(baskets) == 0.0
  {
    if baskets == [] then Some(0.0)
    else if TotalValue(baskets) == 0.0 then None
    else Some(WeightedChange(baskets, TotalValue(baskets)))
  }

  // ---------------------------------------------------------------------------
  // The fetches

  /** A list endpoint's JSON body (`{status, data}`); `data` is None when missing or null. */
  datatype ListBody<T> = ListBody(status: string, data: Option<seq<T>>)

  /** How `fetch` settles: it rejects with an error's message, or gives a response
      whose `json()` is a body, `null` (Ok(None)) or a parse error's message. */
  datatype ListAnswer<T> =
    | Rejected(message: string)
    | Answered(status: int, statusText: string, body: Result<Option<ListBody<T>>, string>)

  const NO_TOKEN := "No authentication token found"
  const INVALID_FORMAT := "Invalid response format"
  const NULL_STATUS_READ := "Cannot read properties of null (reading 'status')"
  const BASKETS_FAILED := "Failed to fetch baskets"
  const INVESTMENT_FAILED := "Failed to fetch investment"

  /** The GET both fetches send, with the stored token as a bearer token. */
  function ListRequest(url: string, token: string): FetchRequest {
    FetchRequest(url, "GET", map["Content-Type" := "application/json", "Authorization" := "Bearer " + token], None)
  }

  /** The list a fetch stores, or the message of what the try block throws. */
  function ListOutcome<T>(token: Option<string>, answer: ListAnswer<T>): (r: Result<seq<T>, string>)
    ensures (token.None? || token.value == "") ==> r == Err(NO_TOKEN)
    ensures r.Ok? <==>
              && token.Some? && token.value != ""
              && answer.Answered? && 200 <= answer.status <= 299
              && answer.body.Ok? && answer.body.value.Some?
              && answer.body.value.value.status == "success" && answer.body.value.value.data.Some?
    ensures r.Ok? ==> r.value == answer.body.value.value.data.value
  {
    if token.None? || token.value == "" then Err(NO_TOKEN)
    else match answer
      case Rejected(message) => Err(message)
      case Answered(status, statusText, body) =>
        if !(200 <= status <= 299) then Err("HTTP " + IntToString(status) + ": " + statusText)
        else match body
          case Err(message) => Err(message)
          case Ok(None) => Err(NULL_STATUS_READ)
          case Ok(Some(b)) =>
            if b.status == "success" && b.data.Some? then Ok(b.data.value) else Err(INVALID_FORMAT)
  }

  /** `err.message || fallback` */
  function ShownError(message: string, fallback: string): (r: string)
    ensures message != "" ==> r == message
    ensures message == "" ==> r == fallback
    ensures fallback != "" ==> r != ""
  {
    if message != "" then message else fallback
  }

  class DashboardPage {
    var baskets: seq<Basket>
    var investments: seq<Investment>
    var loading: bool
    var error: string
    const browser: Browser

    constructor (browser: Browser)
      ensures this.browser == browser
      ensures baskets == [] && investments == [] && loading && error == ""
    {
      this.browser := browser;
      baskets, investments := [], [];
      loading, error := true, "";
    }

    /** The shared try block of both fetches: read the token, give up without a
        request when it is missing or empty, else send the GET and check the answer. */
    method Load<T>(url: string, answer: ListAnswer<T>) returns (request: Option<FetchRequest>, outcome: Result<seq<T>, string>)
      ensures var token := Lookup(browser.storage, "token");
              && (request.Some? <==> token.Some? && token.value != "")
              && (request.Some? ==> request.value == ListRequest(url, token.value))
              && outcome == ListOutcome(token, answer)
    {
      var token := browser.GetItem("token");
      if token.None? || token.value == "" {
        return None, Err(NO_TOKEN);
      }
      request := Some(ListRequest(url, token.value));
      outcome := ListOutcome(token, answer);
    }

    /** fetchBaskets: the baskets are replaced only by a successful answer; any
        failure shows a non-empty error; loading ends false. */
    method FetchBaskets(answer: ListAnswer<Basket>) returns (request: Option<FetchRequest>)
      modifies this`baskets, this`loading, this`error
      ensures var token := Lookup(browser.storage, "token");
              var outcome := ListOutcome(token, answer);
              && (request.Some? <==> token.Some? && token.value != "")
              && (request.Some? ==> request.value == ListRequest("/api/baskets", token.value))
              && baskets == (if outcome.Ok? then outcome.value else old(baskets))
              && error == (if outcome.Ok? then "" else ShownError(outcome.error, BASKETS_FAILED))
      ensures !loading
    {
      loading := true;
      error := "";
      var outcome;
      request, outcome := Load("/api/baskets", answer);
      if outcome.Ok? {
        baskets := outcome.value;
      } else {
        error := ShownError(outcome.error, BASKETS_FAILED);
      }
      loading := false;
    }

    /** fetchInvestment: as fetchBaskets, for the investments list. */
    method FetchInvestment(answer: ListAnswer<Investment>) returns (request: Option<FetchRequest>)
      modifies this`investments, this`loading, this`error
      ensures var token := Lookup(browser.storage, "token");
              var outcome := ListOutcome(token, answer);
              && (request.Some? <==> token.Some? && token.value != "")
              && (request.Some? ==> request.value == ListRequest("/api/investments", token.value))
              && investments == (if outcome.Ok? then outcome.value else old(investments))
              && error == (if outcome.Ok? then "" else ShownError(outcome.error, INVESTMENT_FAILED))
      ensures !loading
    {
      loading := true;
      error := "";
      var outcome;
      request, outcome := Load("/api/investments", answer);
      if outcome.Ok? {
        investments := outcome.value;
      } else {
        error := ShownError(outcome.error, INVESTMENT_FAILED);
      }
      loading := false;
    }
  }

  // ---------------------------------------------------------------------------
  // Properties of the list logic

  /** An element survives the filter exactly when it was there and passes the test. */
  lemma {:induction false} FilterMembership<T>(s: seq<T>, keep: T -> bool, x: T)
    ensures x in Filter(s, keep) <==> x in s && keep(x)
  {
    if s != [] {
      FilterMembership(s[1..], keep, x);
      assert s == [s[0]] + s[1..];
    }
  }

  /** Filtering keeps the original order: it distributes over concatenation. */
  lemma {:induction false} FilterAppend<T>(a: seq<T>, b: seq<T>, keep: T -> bool)
    ensures Filter(a + b, keep) == Filter(a, keep) + Filter(b, keep)
  {
    if a == [] {
      assert a + b == b;
    } else {
      var head := if keep(a[0]) then [a[0]] else [];
      FilterAppend(a[1..], b, keep);
      assert (a + b)[0] == a[0] && (a + b)[1..] == a[1..] + b;
      calc {
        Filter(a + b, keep);
        head + Filter(a[1..] + b, keep);
        head + (Filter(a[1..], keep) + Filter(b, keep));
        (head + Filter(a[1..], keep)) + Filter(b, keep);
      }
    }
  }

  /** Filtering keeps every copy of an element that passes and none that fails. */
  lemma {:induction false} FilterCount<T>(s: seq<T>, keep: T -> bool, x: T)
    ensures multiset(Filter(s, keep))[x] == if keep(x) then multiset(s)[x] else 0
  {
    if s != [] {
      FilterCount(s[1..], keep, x);
      assert s == [s[0]] + s[1..];
    }
  }

  /** getBasketById finds a basket exactly when one has the id, and then it is the
      first such basket. */
  lemma {:induction false} BasketByIdFirstMatch(baskets: seq<Basket>, id: string)
    ensures BasketById(baskets, id).None? <==> forall i :: 0 <= i < |baskets| ==> baskets[i].id != id
    ensures forall i :: 0 <= i < |baskets| && baskets[i].id == id && (forall j :: 0 <= j < i ==> baskets[j].id != id)
                        ==> BasketById(baskets, id) == Some(baskets[i])
  {
    if baskets != [] {
      var tail := baskets[1..];
      BasketByIdFirstMatch(tail, id);
      forall i | 0 <= i < |baskets| && baskets[i].id == id && (forall j :: 0 <= j < i ==> baskets[j].id != id)
        ensures BasketById(baskets, id) == Some(baskets[i])
      {
        if i > 0 {
          assert baskets[0].id != id;
          assert tail[i - 1] == baskets[i];
          forall j | 0 <= j < i - 1
            ensures tail[j].id != id
          {
            assert tail[j] == baskets[j + 1];
          }
        }
      }
      if BasketById(baskets, id).None? {
        forall i | 0 <= i < |baskets|
          ensures baskets[i].id != id
        {
          if i > 0 {
            assert baskets[i] == tail[i - 1];
          }
        }
      }
    }
  }

  /** The basket filter: 'All' changes nothing; a risk keeps exactly the baskets of
      that risk, each as often as it occurs, in their original order. */
  lemma FilteredBasketsCharacterised(baskets: seq<Basket>, filter: RiskFilter, more: seq<Basket>)
    ensures filter.All? ==> FilteredBaskets(baskets, filter) == baskets
    ensures filter.Only? ==>
              forall b :: multiset(FilteredBaskets(baskets, filter))[b] == if b.risk == filter.risk then multiset(baskets)[b] else 0
    ensures FilteredBaskets(baskets + more, filter) == FilteredBaskets(baskets, filter) + FilteredBaskets(more, filter)
  {
    if filter.Only? {
      var keep := (b: Basket) => b.risk == filter.risk;
      forall b {
        FilterCount(baskets, keep, b);
      }
      FilterAppend(baskets, more, keep);
    }
  }

  /** The investment filter: 'All' changes nothing; a risk keeps an investment exactly
      when a basket with its id exists and the first such basket has that risk, so
      investments in unknown baskets are dropped. */
  lemma InvestmentFilterMembership(investments: seq<Investment>, baskets: seq<Basket>, filter: RiskFilter, inv: Investment)
    ensures filter.All? ==> FilteredInvestments(investments, baskets, filter) == investments
    ensures filter.Only? ==>
              (inv in FilteredInvestments(investments, baskets, filter) <==>
                 inv in investments && BasketById(baskets, inv.basketId).Some?
                 && BasketById(baskets, inv.basketId).value.risk == filter.risk)
    ensures filter.Only? && (forall i :: 0 <= i < |baskets| ==> baskets[i].id != inv.basketId) ==>
              inv !in FilteredInvestments(investments, baskets, filter)
  {
    if filter.Only? {
      FilterMembership(investments, (i: Investment) => InvestmentHasRisk(baskets, filter.risk, i), inv);
      BasketByIdFirstMatch(baskets, inv.basketId);
    }
  }

  /** The total of a concatenation is the sum of the totals. */
  lemma {:induction false} TotalValueAppend(a: seq<Basket>, b: seq<Basket>)
    ensures TotalValue(a + b) == TotalValue(a) + TotalValue(b)
    decreases |b|
  {
    if b == [] {
      assert a + b == a;
    } else {
      var init := b[..|b| - 1];
      TotalValueAppend(a, init);
      assert (a + b)[..|a + b| - 1] == a + init;
    }
  }

  /** The total, computed head first, is the first basket's value plus the rest's total. */
  lemma TotalValueCons(baskets: seq<Basket>)
    requires baskets != []
    ensures TotalValue(baskets) == baskets[0].currentValue + TotalValue(baskets[1..])
  {
    TotalValueAppend([baskets[0]], baskets[1..]);
    assert [baskets[0]] + baskets[1..] == baskets;
  }

  /** The portfolio total splits into the totals of the three risk filters. */
  lemma {:induction false} TotalValueByRisk(baskets: seq<Basket>)
    ensures TotalValue(baskets) ==
            TotalValue(FilteredBaskets(baskets, Only(Low)))
            + TotalValue(FilteredBaskets(baskets, Only(Medium)))
            + TotalValue(FilteredBaskets(baskets, Only(High)))
  {
    if baskets != [] {
      TotalValueByRisk(baskets[1..]);
      TotalValueCons(baskets);
      FilteredTotalCons(baskets, Low);
      FilteredTotalCons(baskets, Medium);
      FilteredTotalCons(baskets, High);
    }
  }

  /** The total of one risk filter, taken head first. */
  lemma FilteredTotalCons(baskets: seq<Basket>, r: Risk)
    requires baskets != []
    ensures TotalValue(FilteredBaskets(baskets, Only(r)))
            == (if baskets[0].risk == r then baskets[0].currentValue else 0.0) + TotalValue(FilteredBaskets(baskets[1..], Only(r)))
  {
    var b := baskets[0];
    var keep := (x: Basket) => x.risk == r;
    var head := if keep(b) then [b] else [];
    assert Filter(baskets, keep) == head + Filter(baskets[1..], keep);
    TotalValueAppend(head, Filter(baskets[1..], keep));
    if keep(b) {
      assert TotalValue([b]) == b.currentValue by {
        assert [b][..0] == [];
      }
    }
  }

  /** The change-times-value sum the weighted change divides by the total. */
  function ChangeTimesValue(baskets: seq<Basket>): real {
    if baskets == [] then 0.0
    else ChangeTimesValue(baskets[..|baskets| - 1]) + baskets[|baskets| - 1].oneDayChangePct * baskets[|baskets| - 1].currentValue
  }

  /** The weighted fold is the change-times-value sum over the total. */
  lemma {:induction false} WeightedChangeIsRatio(baskets: seq<Basket>, total: real)
    requires total != 0.0
    ensures WeightedChange(baskets, total) == ChangeTimesValue(baskets) / total
  {
    if baskets != [] {
      var init := baskets[..|baskets| - 1];
      var last := baskets[|baskets| - 1];
      WeightedChangeIsRatio(init, total);
      assert last.oneDayChangePct * (last.currentValue / total) == (last.oneDayChangePct * last.currentValue) / total;
    }
  }

  /** When every basket moved by the same percentage, the overall change is that
      percentage (provided the total is not zero). */
  lemma UniformChangeIsOverallChange(baskets: seq<Basket>, pct: real)
    requires baskets != [] && TotalValue(baskets) != 0.0
    requires forall i :: 0 <= i < |baskets| ==> baskets[i].oneDayChangePct == pct
    ensures OverallChange(baskets) == Some(pct)
  {
    UniformProduct(baskets, pct);
    OverallChangeOfMultiple(baskets, pct);
  }

  /** A change-times-value sum that is `pct` times a non-zero total gives an overall change of `pct`. */
  lemma OverallChangeOfMultiple(baskets: seq<Basket>, pct: real)
    requires baskets != [] && TotalValue(baskets) != 0.0
    requires ChangeTimesValue(baskets) == pct * TotalValue(baskets)
    ensures OverallChange(baskets) == Some(pct)
  {
    WeightedChangeOfMultiple(baskets, pct, TotalValue(baskets));
  }

  lemma WeightedChangeOfMultiple(baskets: seq<Basket>, pct: real, total: real)
    requires total != 0.0 && ChangeTimesValue(baskets) == pct * total
    ensures WeightedChange(baskets, total) == pct
  {
    WeightedChangeIsRatio(baskets, total);
  }

  lemma {:induction false} UniformProduct(baskets: seq<Basket>, pct: real)
    requires forall i :: 0 <= i < |baskets| ==> baskets[i].oneDayChangePct == pct
    ensures ChangeTimesValue(baskets) == pct * TotalValue(baskets)
  {
    if baskets != [] {
      UniformProduct(baskets[..|baskets| - 1], pct);
    }
  }
}
