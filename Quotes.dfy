/** Quote extraction from a `quoteResponse` payload, and the service's error wrapping. */
module Quotes {
  import opened Wrappers
  import Json
  import opened FinanceErrors

  /** The bot-facing quote. */
  datatype PriceQuote = PriceQuote(
    symbol: string,
    name: string,
    price: Option<real>,
    currency: Option<string>,
    change: Option<real>,
    percentChange: Option<real>,
    preMarketPrice: Option<real>,
    afterHoursPrice: Option<real>)

  /** `quoteResponse.result`, when it is an array, and its first element. */
  function FirstQuote(data: Json.Value): (r: Option<Json.Value>)
    ensures r.Some? <==> exists items :: Json.Get(data, "quoteResponse").Bind(q => Json.Get(q, "result")) == Some(Json.JArr(items)) && items != []
  {
    match Json.Get(data, "quoteResponse").Bind(q => Json.Get(q, "result")).Bind(Json.AsArray)
    case None => None
    case Some(items) => if items == [] then None else Some(items[0])
  }

  function ReadNumber(item: Json.Value, key: string): (r: Option<real>)
    ensures r.Some? <==> Json.Get(item, key).Some? && (Json.Get(item, key).value.JInt? || Json.Get(item, key).value.JNum?)
  {
    Json.Get(item, key).Bind(Json.AsF64)
  }

  /**
   * `extract_simple_quote`: None without a first result or without a string
   * `symbol`; the other fields fall back to defaults but never fail the quote.
   */
  function ExtractSimpleQuote(data: Json.Value): (r: Option<PriceQuote>)
    ensures r.Some? <==> FirstQuote(data).Some? && Json.AsStr(Json.Get(FirstQuote(data).value, "symbol").GetOr(Json.JNull)).Some?
    ensures r.Some? ==> var item := FirstQuote(data).value;
      && Json.Get(item, "symbol") == Some(Json.JStr(r.value.symbol))
      && (Json.Get(item, "longName").Some? ==>
            r.value.name == (if item.fields["longName"].JStr? then item.fields["longName"].s else ""))
      && (Json.Get(item, "longName").None? && Json.Get(item, "shortName").Some? && item.fields["shortName"].JStr? ==>
            r.value.name == item.fields["shortName"].s)
      && (Json.Get(item, "longName").None? && Json.AsStr(Json.Get(item, "shortName").GetOr(Json.JNull)).None? ==> r.value.name == "")
      && (Json.Get(item, "currency").Some? ==> r.value.currency == Json.AsStr(item.fields["currency"]))
      && (Json.Get(item, "currency").None? ==> r.value.currency == Json.Get(item, "financialCurrency").Bind(Json.AsStr))
      && r.value.price == ReadNumber(item, "regularMarketPrice")
      && r.value.change == ReadNumber(item, "regularMarketChange")
      && r.value.percentChange == ReadNumber(item, "regularMarketChangePercent")
      && r.value.preMarketPrice == ReadNumber(item, "preMarketPrice")
      && r.value.afterHoursPrice == ReadNumber(item, "postMarketPrice")
  {
    match FirstQuote(data)
    case None => None
    case Some(item) =>
      match Json.Get(item, "symbol").Bind(Json.AsStr)
      case None => None
      case Some(symbol) =>
        Some(PriceQuote(
          symbol,
          Json.GetFirst(item, "longName", "shortName").Bind(Json.AsStr).GetOr(""),
          ReadNumber(item, "regularMarketPrice"),
          Json.GetFirst(item, "currency", "financialCurrency").Bind(Json.AsStr),
          ReadNumber(item, "regularMarketChange"),
          ReadNumber(item, "regularMarketChangePercent"),
          ReadNumber(item, "preMarketPrice"),
          ReadNumber(item, "postMarketPrice")))
  }

  /** `map_error`: the client's error, unchanged, under `Yahoo`. */
  function MapError(err: YahooError): (r: FinanceServiceError)
    ensures r.Yahoo? && r.cause == err
  {
    Yahoo(err)
  }

  // A provider payload that carries a given quote, used to state the round trip.

  /** A value that is present, or JSON null. */
  function OrNull(v: Option<Json.Value>): Json.Value {
    if v.Some? then v.value else Json.JNull
  }

  function Num(x: Option<real>): Option<Json.Value> {
    if x.Some? then Some(Json.JNum(x.value)) else None
  }

  /** The quote as a provider item: every field under its primary key, null where absent. */
  function QuoteObject(q: PriceQuote): Json.Value {
    Json.JObj(map[
      "symbol" := Json.JStr(q.symbol),
      "longName" := Json.JStr(q.name),
      "currency" := OrNull(if q.currency.Some? then Some(Json.JStr(q.currency.value)) else None),
      "regularMarketPrice" := OrNull(Num(q.price)),
      "regularMarketChange" := OrNull(Num(q.change)),
      "regularMarketChangePercent" := OrNull(Num(q.percentChange)),
      "preMarketPrice" := OrNull(Num(q.preMarketPrice)),
      "postMarketPrice" := OrNull(Num(q.afterHoursPrice))])
  }

  lemma QuoteObjectText(q: PriceQuote)
    ensures Json.Get(QuoteObject(q), "symbol") == Some(Json.JStr(q.symbol))
    ensures Json.Get(QuoteObject(q), "longName") == Some(Json.JStr(q.name))
  {
  }

  lemma QuoteObjectCurrency(q: PriceQuote)
    ensures Json.GetFirst(QuoteObject(q), "currency", "financialCurrency").Bind(Json.AsStr) == q.currency
  {
  }

  lemma QuoteObjectPrice(q: PriceQuote)
    ensures ReadNumber(QuoteObject(q), "regularMarketPrice") == q.price
  {
  }

  lemma QuoteObjectChange(q: PriceQuote)
    ensures ReadNumber(QuoteObject(q), "regularMarketChange") == q.change
    ensures ReadNumber(QuoteObject(q), "regularMarketChangePercent") == q.percentChange
  {
  }

  lemma QuoteObjectSessions(q: PriceQuote)
    ensures ReadNumber(QuoteObject(q), "preMarketPrice") == q.preMarketPrice
    ensures ReadNumber(QuoteObject(q), "postMarketPrice") == q.afterHoursPrice
  {
  }

  /** An item that holds every field of `q` under the keys the extractor reads first. */
  predicate Carries(item: Json.Value, q: PriceQuote) {
    && Json.Get(item, "symbol") == Some(Json.JStr(q.symbol))
    && Json.Get(item, "longName") == Some(Json.JStr(q.name))
    && Json.GetFirst(item, "currency", "financialCurrency").Bind(Json.AsStr) == q.currency
    && ReadNumber(item, "regularMarketPrice") == q.price
    && ReadNumber(item, "regularMarketChange") == q.change
    && ReadNumber(item, "regularMarketChangePercent") == q.percentChange
    && ReadNumber(item, "preMarketPrice") == q.preMarketPrice
    && ReadNumber(item, "postMarketPrice") == q.afterHoursPrice
  }

  lemma QuoteObjectCarries(q: PriceQuote)
    ensures Carries(QuoteObject(q), q)
  {
    QuoteObjectText(q);
    QuoteObjectCurrency(q);
    QuoteObjectPrice(q);
    QuoteObjectChange(q);
    QuoteObjectSessions(q);
  }

  function Response(items: seq<Json.Value>): Json.Value {
    Json.JObj(map["quoteResponse" := Json.JObj(map["result" := Json.JArr(items)])])
  }

  /** A response whose first result carries a quote yields exactly that quote. */
  lemma ExtractCarried(item: Json.Value, q: PriceQuote, rest: seq<Json.Value>)
    requires Carries(item, q)
    ensures ExtractSimpleQuote(Response([item] + rest)) == Some(q)
  {
    assert FirstQuote(Response([item] + rest)) == Some(item);
    assert Json.Get(item, "symbol").Bind(Json.AsStr) == Some(q.symbol);
    assert Json.GetFirst(item, "longName", "shortName").Bind(Json.AsStr).GetOr("") == q.name;
  }

  /** Every quote survives being sent as the first result of a response: nothing is lost or defaulted. */
  lemma ExtractRoundTrip(q: PriceQuote, rest: seq<Json.Value>)
    ensures ExtractSimpleQuote(Response([QuoteObject(q)] + rest)) == Some(q)
  {
    QuoteObjectCarries(q);
    ExtractCarried(QuoteObject(q), q, rest);
  }
}
