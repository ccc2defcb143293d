/**
 * The quote service (electron/quotes.ts): which symbols one quote request asks
 * for, and how a fetched quote is validated and given its exchange rates into
 * the target currency. The request itself is a network call; its answer is a
 * parameter here.
 */
module Quotes {
  import opened Wrappers

  /** The fields of a fetched quote the service asks for; a field the answer lacks is `None`. */
  datatype Quote = Quote(
    regularMarketPrice: Option<real>,
    regularMarketPreviousClose: Option<real>,
    currency: Option<string>,
    exchange: Option<string>)

  datatype QuoteError =
    | QuoteNotFound
    | MissingQuoteFields(fields: seq<string>)
    | RateQuoteNotFound
    | RateQuoteMissingPrice
    | RateQuoteMissingPreviousClose

  /** What `getQuote` returns: the quote and its currency's rates, today's and the previous day's. */
  datatype QuoteResult = QuoteResult(quote: Quote, exchangeRate: real, previousExchangeRate: real)

  const QUOTE_FIELDS: seq<string> := ["regularMarketPrice", "regularMarketPreviousClose", "currency", "exchange"]

  const DEFAULT_CURRENCY: string := "AUD"

  function HasField(q: Quote, field: string): bool {
    match field
    case "regularMarketPrice" => q.regularMarketPrice.Some?
    case "regularMarketPreviousClose" => q.regularMarketPreviousClose.Some?
    case "currency" => q.currency.Some?
    case "exchange" => q.exchange.Some?
    case _ => false
  }

  /** The required fields `q` lacks, in the order they are listed. */
  function MissingFields(q: Quote, fields: seq<string>): (missing: seq<string>)
    ensures forall f :: f in missing <==> f in fields && !HasField(q, f)
    ensures missing == [] <==> forall f :: f in fields ==> HasField(q, f)
  {
    if fields == [] then []
    else (if HasField(q, fields[0]) then [] else [fields[0]]) + MissingFields(q, fields[1..])
  }

  /** The symbol of the exchange-rate quote from `currency` into `target`, such as `USDAUD=X`. */
  function RateSymbol(currency: string, target: string): string {
    currency + target + "=X"
  }

  /** Every symbol a request for these securities and currencies asks for. */
  ghost function RequestedSymbols(securitySymbols: seq<string>, currencyCodes: seq<string>, target: string): set<string> {
    (set s | s in securitySymbols) + (set c | c in currencyCodes && c != target :: RateSymbol(c, target))
  }

  /** A quote that carries all four fields. */
  predicate Complete(q: Quote) {
    q.regularMarketPrice.Some? && q.regularMarketPreviousClose.Some? && q.currency.Some? && q.exchange.Some?
  }

  /** The quotes fetched last and the currency rates are converted into. */
  class QuoteService {
    var quotes: map<string, Quote>
    var targetCurrency: string

    constructor ()
      ensures targetCurrency == DEFAULT_CURRENCY && quotes == map[]
    {
      quotes := map[];
      targetCurrency := DEFAULT_CURRENCY;
    }

    function GetTargetCurrency(): string
      reads this
    {
      targetCurrency
    }

    method SetTargetCurrency(currency: string)
      modifies this
      ensures GetTargetCurrency() == currency
      ensures quotes == old(quotes)
    {
      targetCurrency := currency;
    }

    /**
     * `requestQuoteData`: the security symbols plus one rate symbol per currency
     * other than the target. `response` is what the quote request returned:
     * `None` when it failed, and then the stored quotes are left alone.
     */
    method RequestQuoteData(securitySymbols: seq<string>, currencyCodes: seq<string>,
                            response: Option<map<string, Quote>>)
      returns (requested: set<string>, r: Outcome<string>)
      modifies this
      ensures requested == RequestedSymbols(securitySymbols, currencyCodes, targetCurrency)
      ensures targetCurrency == old(targetCurrency)
      ensures response.None? ==> r.Fail? && quotes == old(quotes)
      ensures response.Some? ==> r == Pass && quotes == response.value
    {
      requested := set s | s in securitySymbols;
      var i := 0;
      while i < |currencyCodes|
        invariant i <= |currencyCodes|
        invariant requested == RequestedSymbols(securitySymbols, currencyCodes[..i], targetCurrency)
      {
        var currency := currencyCodes[i];
        if currency != targetCurrency {
          requested := requested + {RateSymbol(currency, targetCurrency)};
        }
        assert currencyCodes[..i + 1] == currencyCodes[..i] + [currency];
        i := i + 1;
      }
      assert currencyCodes[..i] == currencyCodes;
      if response.None? {
        return requested, Fail("quote request failed");
      }
      quotes := response.value;
      r := Pass;
    }

    /** `getQuote` on the stored quotes and target currency. */
    function GetQuote(symbol: string): (r: Result<QuoteResult, QuoteError>)
      reads this
      ensures r == QuoteOf(quotes, targetCurrency, symbol)
      ensures r.Ok? ==> symbol in quotes && r.value.quote == quotes[symbol]
    {
      QuoteOf(quotes, targetCurrency, symbol)
    }
  }

  /**
   * `getQuote`: the quote of `symbol` with all four fields, and the rates of
   * its currency into `target`: 1 and 1 when it is the target currency,
   * otherwise the price and previous close of the rate quote, which must exist
   * and carry both.
   */
  function QuoteOf(quotes: map<string, Quote>, target: string, symbol: string): (r: Result<QuoteResult, QuoteError>)
    ensures r.Ok? ==> symbol in quotes && r.value.quote == quotes[symbol] && Complete(r.value.quote)
    ensures r.Ok? && r.value.quote.currency == Some(target) ==>
      r.value.exchangeRate == 1.0 && r.value.previousExchangeRate == 1.0
  {
    if symbol !in quotes then Err(QuoteNotFound)
    else
      var quote := quotes[symbol];
      var missing := MissingFields(quote, QUOTE_FIELDS);
      if |missing| > 0 then Err(MissingQuoteFields(missing))
      else
        assert forall f :: f in QUOTE_FIELDS ==> HasField(quote, f);
        assert HasField(quote, QUOTE_FIELDS[0]) && HasField(quote, QUOTE_FIELDS[1]);
        assert HasField(quote, QUOTE_FIELDS[2]) && HasField(quote, QUOTE_FIELDS[3]);
        var currency := quote.currency.value;
        if target == currency then Ok(QuoteResult(quote, 1.0, 1.0))
        else
          var rateSymbol := RateSymbol(currency, target);
          if rateSymbol !in quotes then Err(RateQuoteNotFound)
          else
            var rateQuote := quotes[rateSymbol];
            if rateQuote.regularMarketPrice.None? then Err(RateQuoteMissingPrice)
            else if rateQuote.regularMarketPreviousClose.None? then Err(RateQuoteMissingPreviousClose)
            else Ok(QuoteResult(quote, rateQuote.regularMarketPrice.value,
                                rateQuote.regularMarketPreviousClose.value))
  }

  /** `getQuote` succeeds exactly when the quote is complete and, in a foreign currency, its rate quote carries both prices. */
  lemma GetQuoteOk(quotes: map<string, Quote>, target: string, symbol: string)
    ensures QuoteOf(quotes, target, symbol).Ok? <==>
      && symbol in quotes && Complete(quotes[symbol])
      && var currency := quotes[symbol].currency.value;
         (currency != target ==>
            var rateSymbol := RateSymbol(currency, target);
            rateSymbol in quotes
            && quotes[rateSymbol].regularMarketPrice.Some?
            && quotes[rateSymbol].regularMarketPreviousClose.Some?)
  {
    if symbol in quotes {
      var quote := quotes[symbol];
      var missing := MissingFields(quote, QUOTE_FIELDS);
      if !Complete(quote) {
        var absent := if quote.regularMarketPrice.None? then QUOTE_FIELDS[0]
                      else if quote.regularMarketPreviousClose.None? then QUOTE_FIELDS[1]
                      else if quote.currency.None? then QUOTE_FIELDS[2]
                      else QUOTE_FIELDS[3];
        assert absent in missing;
      } else {
        assert forall f :: f in QUOTE_FIELDS ==> HasField(quote, f);
      }
    }
  }

  /** In a foreign currency the rates are the rate quote's price and previous close. */
  lemma GetQuoteForeignRates(quotes: map<string, Quote>, target: string, symbol: string)
    requires QuoteOf(quotes, target, symbol).Ok?
    requires quotes[symbol].currency != Some(target)
    ensures var rateQuote := quotes[RateSymbol(quotes[symbol].currency.value, target)];
      && QuoteOf(quotes, target, symbol).value.exchangeRate == rateQuote.regularMarketPrice.value
      && QuoteOf(quotes, target, symbol).value.previousExchangeRate == rateQuote.regularMarketPreviousClose.value
  {
  }

  /** What a security's lots are valued with: the quote's last price and previous close, and the rates. */
  datatype Prices = Prices(lastPrice: real, previousPrice: real, rate: real, previousRate: real)

  /**
   * The prices a security's lots are valued with: `None` when its quote
   * cannot be used, otherwise the quote's last price and previous close with
   * the two rates `getQuote` returns alongside it.
   */
  function PricesOf(quotes: map<string, Quote>, target: string, symbol: string): (p: Option<Prices>)
    ensures p.Some? <==> QuoteOf(quotes, target, symbol).Ok?
    ensures p.Some? ==>
      && Some(p.value.lastPrice) == quotes[symbol].regularMarketPrice
      && Some(p.value.previousPrice) == quotes[symbol].regularMarketPreviousClose
    ensures p.Some? && quotes[symbol].currency == Some(target) ==> p.value.rate == 1.0 && p.value.previousRate == 1.0
    ensures p.Some? && quotes[symbol].currency != Some(target) ==>
      var rateQuote := quotes[RateSymbol(quotes[symbol].currency.value, target)];
      && Some(p.value.rate) == rateQuote.regularMarketPrice
      && Some(p.value.previousRate) == rateQuote.regularMarketPreviousClose
  {
    match QuoteOf(quotes, target, symbol)
    case Err(_) => None
    case Ok(q) => Some(Prices(q.quote.regularMarketPrice.value, q.quote.regularMarketPreviousClose.value,
                              q.exchangeRate, q.previousExchangeRate))
  }

  // ------------------------------------------------------------------------
  // The rates as the report builders destructure them
  // ------------------------------------------------------------------------

  /** A JavaScript number in the reports' sums: a real, or `NaN`, which is what arithmetic on `undefined` gives. */
  datatype Number = Num(value: real) | NaN

  function Mul(a: Number, b: Number): (c: Number)
    ensures c.Num? <==> a.Num? && b.Num?
    ensures c.Num? ==> c.value == a.value * b.value
  {
    if a.Num? && b.Num? then Num(a.value * b.value) else NaN
  }

  function Add(a: Number, b: Number): (c: Number)
    ensures c.Num? <==> a.Num? && b.Num?
    ensures c.Num? ==> c.value == a.value + b.value
  {
    if a.Num? && b.Num? then Num(a.value + b.value) else NaN
  }

  /** The property `name` of what `getQuote` returns: only its two rates are numbers, any other name reads `undefined`. */
  function RateField(q: QuoteResult, name: string): (n: Number)
    ensures n.Num? <==> name == "exchangeRate" || name == "previousExchangeRate"
    ensures name == "exchangeRate" ==> n == Num(q.exchangeRate)
    ensures name == "previousExchangeRate" ==> n == Num(q.previousExchangeRate)
  {
    if name == "exchangeRate" then Num(q.exchangeRate)
    else if name == "previousExchangeRate" then Num(q.previousExchangeRate)
    else NaN
  }

  /**
   * The combined market value as the report builders compute it: every
   * security's market value times the `rate` destructured from its
   * `getQuote` answer, added up from 0.
   */
  function CombinedAsWritten(valued: seq<(real, QuoteResult)>): Number {
    if valued == [] then Num(0.0)
    else
      var n := |valued| - 1;
      Add(CombinedAsWritten(valued[..n]), Mul(Num(valued[n].0), RateField(valued[n].1, "rate")))
  }

  /** The destructured names are not in `getQuote`'s answer, so both rates read `undefined`. */
  lemma RatesReadUndefined(q: QuoteResult)
    ensures RateField(q, "rate") == NaN && RateField(q, "previousRate") == NaN
  {
  }

  /** As written, one priced security makes the combined value `NaN`, whatever the prices and rates. */
  lemma CombinedAsWrittenIsNaN(valued: seq<(real, QuoteResult)>)
    requires valued != []
    ensures CombinedAsWritten(valued) == NaN
  {
    RatesReadUndefined(valued[|valued| - 1].1);
  }

  /** The prices the model values lots with read the rates under the names `getQuote` gives them. */
  lemma PricesReadQuoteRates(quotes: map<string, Quote>, target: string, symbol: string)
    requires PricesOf(quotes, target, symbol).Some?
    ensures var q := QuoteOf(quotes, target, symbol).value;
      && Num(PricesOf(quotes, target, symbol).value.rate) == RateField(q, "exchangeRate")
      && Num(PricesOf(quotes, target, symbol).value.previousRate) == RateField(q, "previousExchangeRate")
  {
  }
}
