/**
 * The US source: which codes it serves, how a code becomes a Yahoo symbol,
 * the guard and fallback of its daily download, and the 60-second cache in
 * front of its real-time quote.
 */
module UsStockFetcher {
  import opened Wrappers
  import opened Text
  import opened MarketTypes
  import opened Fetching
  import opened YahooSource

  /** The source as the managers see it: `USStockFetcher`, priority 10. */
  const Descriptor: Fetcher := Fetcher("USStockFetcher", 10, true)

  /** `_supports_market`: the code classifies as one of the three US exchanges. */
  predicate SupportsMarket(stockCode: string) {
    IsUS(FromStockCode(stockCode))
  }

  /** `_get_yahoo_symbol`: the upper-cased, trimmed code up to its first dot. */
  function YahooSymbol(stockCode: string): (r: string)
    ensures '.' !in r && IsUpperCase(r)
    ensures |r| <= |Canonical(stockCode)| && r == Canonical(stockCode)[..|r|]
    ensures '.' !in Canonical(stockCode) ==> r == Canonical(stockCode)
  {
    Base(stockCode)
  }

  /** Taking the symbol twice changes nothing, unless white space preceded the dot. */
  lemma YahooSymbolIdempotent(stockCode: string)
    requires NoOuterSpace(YahooSymbol(stockCode))
    ensures YahooSymbol(YahooSymbol(stockCode)) == YahooSymbol(stockCode)
  {
    BaseOfBare(YahooSymbol(stockCode));
  }

  /** White space before the dot survives the first pass and is trimmed by the second. */
  lemma YahooSymbolNotIdempotentOnSpace()
    ensures YahooSymbol("AB .NYSE") == "AB " && YahooSymbol("AB ") == "AB"
  {
    CanonicalOfCanonicalForm("AB .NYSE");
    assert "AB .NYSE" == "AB " + ".NYSE";
    BeforeFirstOfHead("AB ", ".NYSE", '.');
    BaseOfTrailingSpace();
  }

  /** A supported code without a dot is a ticker of one to five letters and is its own symbol. */
  lemma SupportedBareCode(stockCode: string)
    requires SupportsMarket(stockCode) && '.' !in Canonical(stockCode)
    ensures YahooSymbol(stockCode) == Canonical(stockCode)
    ensures IsAllLetters(YahooSymbol(stockCode)) && |YahooSymbol(stockCode)| <= 5
  {
    UsRoutingBare(stockCode);
  }

  /** A supported dotted code names its US exchange after its last dot; the symbol drops everything from the first dot. */
  lemma SupportedDottedCode(stockCode: string)
    requires SupportsMarket(stockCode) && '.' in Canonical(stockCode)
    ensures UsExchangeOfSuffix(AfterLast(Canonical(stockCode), '.')) == Some(FromStockCode(stockCode))
    ensures |YahooSymbol(stockCode)| < |Canonical(stockCode)|
  {
    UsRoutingDotted(stockCode);
  }

  /** A ticker of upper-case letters is its own symbol. */
  lemma TickerSymbol(ticker: string)
    requires IsUpperLetters(ticker)
    ensures YahooSymbol(ticker) == ticker
  {
    assert '.' !in ticker && IsUpperCase(ticker) && NoOuterSpace(ticker) by {
      forall i | 0 <= i < |ticker| ensures ticker[i] != '.' && !IsLower(ticker[i]) && !IsSpace(ticker[i]) {
        assert IsUpperLetter(ticker[i]);
      }
    }
    BaseOfBare(ticker);
  }

  /**
   * A ticker followed by an exchange suffix has the ticker as its symbol, so
   * the code with and without the suffix share one quote cache entry.
   */
  lemma SuffixedTickerSymbol(ticker: string, suffix: string)
    requires IsUpperLetters(ticker) && IsExchangeSuffix(suffix)
    ensures YahooSymbol(ticker + suffix) == ticker
  {
    TickerSymbol(ticker);
    BaseOfSuffixed(ticker, suffix);
  }

  function UnsupportedMessage(stockCode: string): string {
    "USStockFetcher不支持" + stockCode + "的市场"
  }

  class USStockFetcher<Q> {
    const alphaVantageKey: Option<string>
    var priceCache: Cache<Q>

    constructor(alphaVantageKey: Option<string>)
      ensures this.alphaVantageKey == alphaVantageKey && priceCache == map[]
    {
      this.alphaVantageKey := alphaVantageKey;
      priceCache := map[];
    }

    /**
     * `_fetch_raw_data`: an unsupported code fails before any download; a
     * supported one is downloaded for its Yahoo symbol with the Alpha Vantage
     * fallback, `alphaApi` being the Alpha Vantage request's own outcome.
     */
    function FetchRawData<D>(stockCode: string, yahoo: CallOutcome<D>, alphaApi: CallOutcome<D>): (r: RawFetch<D>)
      ensures !SupportsMarket(stockCode) <==> r.calls == []
      ensures !SupportsMarket(stockCode) ==> r.outcome == Raised(UnsupportedMessage(stockCode))
      ensures SupportsMarket(stockCode) ==>
        r == DownloadCorrected(YahooSymbol(stockCode), yahoo, AlphaDaily(alphaVantageKey, YahooSymbol(stockCode), alphaApi))
    {
      if !SupportsMarket(stockCode) then RawFetch(Raised(UnsupportedMessage(stockCode)), [])
      else
        var symbol := YahooSymbol(stockCode);
        DownloadCorrected(symbol, yahoo, AlphaDaily(alphaVantageKey, symbol, alphaApi))
    }

    /**
     * `_fetch_raw_data` as written, `alphaApi(n)` being the outcome of the n-th
     * Alpha Vantage request: after an empty Yahoo answer a failing Alpha Vantage
     * call is made a second time by the `except` branch.
     */
    function FetchRawDataAsWritten<D>(stockCode: string, yahoo: CallOutcome<D>, alphaApi: nat -> CallOutcome<D>): (r: RawFetch<D>)
      ensures !SupportsMarket(stockCode) <==> r.calls == []
      ensures !SupportsMarket(stockCode) ==> r.outcome == Raised(UnsupportedMessage(stockCode))
      ensures SupportsMarket(stockCode) ==>
        r == DownloadAsWritten(YahooSymbol(stockCode), yahoo, AlphaRequests(alphaVantageKey, YahooSymbol(stockCode), alphaApi))
    {
      if !SupportsMarket(stockCode) then RawFetch(Raised(UnsupportedMessage(stockCode)), [])
      else
        var symbol := YahooSymbol(stockCode);
        DownloadAsWritten(symbol, yahoo, AlphaRequests(alphaVantageKey, symbol, alphaApi))
    }

    /**
     * Without an Alpha Vantage key and with an empty Yahoo answer, the code as
     * written asks Alpha Vantage twice and reports the key error under both
     * names, where the corrected download asks once and reports it alone.
     */
    lemma FetchRawDataRepeatsAlpha<D>(stockCode: string, alphaApi: nat -> CallOutcome<D>)
      requires alphaVantageKey == None && SupportsMarket(stockCode)
      ensures FetchRawDataAsWritten(stockCode, Empty, alphaApi).calls == [Yahoo, AlphaVantage, AlphaVantage]
      ensures FetchRawDataAsWritten(stockCode, Empty, alphaApi).outcome
           == Raised(BothFailedMessage(YahooSymbol(stockCode), NoKeyMessage, NoKeyMessage))
      ensures FetchRawData(stockCode, Empty, alphaApi(0)) == RawFetch(Raised(NoKeyMessage), [Yahoo, AlphaVantage])
    {
      DownloadAsWrittenRepeatsAlpha(YahooSymbol(stockCode), alphaApi);
    }

    /** `get_realtime_quote`, returning also whether the upstream was asked. */
    method GetRealtimeQuote(stockCode: string, now: real, yahoo: string -> CallOutcome<Q>)
      returns (r: Option<Quote<Q>>, fetched: bool)
      modifies this
      ensures (r, priceCache, fetched)
        == CacheStep(old(priceCache), SupportsMarket(stockCode), CacheKey(YahooSymbol(stockCode)), stockCode, now, yahoo(YahooSymbol(stockCode)))
    {
      if !SupportsMarket(stockCode) {
        return None, false;
      }
      var symbol := YahooSymbol(stockCode);
      var key := CacheKey(symbol);
      if key in priceCache {
        var cached := priceCache[key];
        if now - cached.timestamp < CacheTimeout {
          return Some(cached.quote), false;
        }
      }
      match yahoo(symbol) {
        case Data(d) =>
          var quote := Quote(stockCode, d);
          priceCache := priceCache[key := CacheEntry(quote, now)];
          return Some(quote), true;
        case _ =>
          return None, true;
      }
    }
  }
}
