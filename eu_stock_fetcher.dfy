/**
 * The European source: its exchange table, which codes it serves, how a code
 * becomes a Yahoo symbol with the exchange's suffix, the guard and fallback of
 * its daily download, the Alpha-Vantage-then-Yahoo real-time quote behind the
 * 60-second cache, and its index table.
 */
module EuStockFetcher {
  import opened Wrappers
  import opened Text
  import opened MarketTypes
  import opened Fetching
  import opened YahooSource

  /** The source as the managers see it: `EUStockFetcher`, priority 11. */
  const Descriptor: Fetcher := Fetcher("EUStockFetcher", 11, true)

  /** An `exchange_mappings` entry; the default entry has no Yahoo suffix. */
  datatype ExchangeInfo = ExchangeInfo(
    yahooSuffix: Option<string>, name: string, currency: string, country: string, regulator: string)

  /** `exchange_mappings`: an entry for each of the five European markets. */
  function ExchangeMapping(m: Market): (r: Option<ExchangeInfo>)
    ensures r.Some? <==> IsEU(m)
  {
    match m
    case UkLse => Some(ExchangeInfo(Some(".L"), "London Stock Exchange", "GBP", "United Kingdom", "FCA"))
    case GerXetra => Some(ExchangeInfo(Some(".DE"), "Deutsche Börse Xetra", "EUR", "Germany", "BaFin"))
    case FraEuronext => Some(ExchangeInfo(Some(".PA"), "Euronext Paris", "EUR", "France", "AMF"))
    case SwxSix => Some(ExchangeInfo(Some(".SW"), "SIX Swiss Exchange", "CHF", "Switzerland", "FINMA"))
    case Euronext => Some(ExchangeInfo(Some(".AS"), "Euronext Amsterdam", "EUR", "Netherlands", "AFM"))
    case _ => None
  }

  /** The table agrees with the market enumeration on currency and on the normalisation suffix. */
  lemma ExchangeMappingAgrees(m: Market)
    requires IsEU(m)
    ensures ExchangeMapping(m).value.currency == Currency(m)
    ensures ExchangeMapping(m).value.yahooSuffix == Some(EuSuffix(m))
  {
  }

  /** `_supports_market`: the code's market is a key of the exchange table. */
  predicate SupportsMarket(stockCode: string) {
    ExchangeMapping(FromStockCode(stockCode)).Some?
  }

  const DefaultExchange: ExchangeInfo := ExchangeInfo(None, "Unknown", "EUR", "Unknown", "Unknown")

  /** `_get_exchange_info`: the table entry of the code's market, or the Unknown/EUR default. */
  function ExchangeInfoOf(stockCode: string): (r: ExchangeInfo)
    ensures SupportsMarket(stockCode) ==> r.currency == Currency(FromStockCode(stockCode))
    ensures SupportsMarket(stockCode) ==> r.yahooSuffix == Some(EuSuffix(FromStockCode(stockCode)))
    ensures !SupportsMarket(stockCode) ==> r == DefaultExchange
  {
    var m := FromStockCode(stockCode);
    if ExchangeMapping(m).Some? then
      ExchangeMappingAgrees(m);
      ExchangeMapping(m).value
    else DefaultExchange
  }

  // ---------------------------------------------------------------- Yahoo symbol

  /** `code` already ends in one of the table's Yahoo suffixes (checked in table order). */
  predicate EndsWithYahooSuffix(code: string) {
    EndsWith(code, ".L") || EndsWith(code, ".DE") || EndsWith(code, ".PA") || EndsWith(code, ".SW") || EndsWith(code, ".AS")
  }

  /** `re.sub(r'\.[A-Z]+$', '', code)`: a final dot followed by upper-case letters only is removed. */
  function DropLetterSuffix(code: string): (r: string)
    ensures |r| <= |code| && r == code[..|r|]
    ensures r != code <==> '.' in code && IsUpperLetters(AfterLast(code, '.'))
  {
    var t := AfterLast(code, '.');
    if '.' in code && IsUpperLetters(t) then code[..|code| - |t| - 1] else code
  }

  /**
   * `_get_yahoo_symbol`: a code already carrying a table suffix is kept; a
   * European code otherwise gets its final `.LETTERS` replaced by its market's
   * suffix; any other code is kept. Codes are upper-cased and trimmed first.
   */
  function YahooSymbol(stockCode: string): string {
    var code := Canonical(stockCode);
    if EndsWithYahooSuffix(code) then code
    else
      var m := FromStockCode(stockCode);
      if ExchangeMapping(m).Some? then DropLetterSuffix(code) + ExchangeMapping(m).value.yahooSuffix.value
      else code
  }

  /** The table suffixes are read on the last dot segment. */
  lemma YahooSuffixBySegment(c: string)
    ensures EndsWithYahooSuffix(c) <==> '.' in c && AfterLast(c, '.') in ["L", "DE", "PA", "SW", "AS"]
  {
    var t := AfterLast(c, '.');
    var dotted := '.' in c;
    assert EndsWith(c, ".L") <==> dotted && t == "L" by {
      EndsWithSegment(c, '.', "L");
      assert ['.'] + "L" == ".L";
    }
    assert EndsWith(c, ".DE") <==> dotted && t == "DE" by {
      EndsWithSegment(c, '.', "DE");
      assert ['.'] + "DE" == ".DE";
    }
    assert EndsWith(c, ".PA") <==> dotted && t == "PA" by {
      EndsWithSegment(c, '.', "PA");
      assert ['.'] + "PA" == ".PA";
    }
    assert EndsWith(c, ".SW") <==> dotted && t == "SW" by {
      EndsWithSegment(c, '.', "SW");
      assert ['.'] + "SW" == ".SW";
    }
    assert EndsWith(c, ".AS") <==> dotted && t == "AS" by {
      EndsWithSegment(c, '.', "AS");
      assert ['.'] + "AS" == ".AS";
    }
  }

  /** A market's suffix is a dot and its dot-free segment. */
  lemma EuSuffixSegment(m: Market)
    requires IsEU(m)
    ensures EuSuffix(m) == ['.'] + EuSuffix(m)[1..] && '.' !in EuSuffix(m)[1..]
    ensures EuSegment(EuSuffix(m)[1..]) == Some(m)
    ensures EuSuffix(m)[1..] in ["L", "DE", "PA", "SW", "AS"]
  {
  }

  /** A code ending in a market's Yahoo suffix is classified as that market. */
  lemma ClassifyYahooSuffixed(c: string, m: Market)
    requires IsEU(m) && EndsWith(c, EuSuffix(m))
    ensures Classify(c) == m
  {
    var seg := EuSuffix(m)[1..];
    EuSuffixSegment(m);
    EndsWithSegment(c, '.', seg);
    ClassifyBySegment(c);
  }

  /** The market whose Yahoo segment `t` is. */
  function MarketOfYahooSegment(t: string): (m: Market)
    requires t in ["L", "DE", "PA", "SW", "AS"]
    ensures IsEU(m) && EuSuffix(m) == ['.'] + t
  {
    if t == "L" then UkLse else if t == "DE" then GerXetra
    else if t == "PA" then FraEuronext else if t == "SW" then SwxSix else Euronext
  }

  /** A code that carries a table suffix is served, and carries its own market's suffix. */
  lemma YahooSuffixedIsSupported(stockCode: string)
    requires EndsWithYahooSuffix(Canonical(stockCode))
    ensures SupportsMarket(stockCode)
    ensures EndsWith(Canonical(stockCode), EuSuffix(FromStockCode(stockCode)))
  {
    var c := Canonical(stockCode);
    YahooSuffixBySegment(c);
    var m := MarketOfYahooSegment(AfterLast(c, '.'));
    EndsWithSegment(c, '.', AfterLast(c, '.'));
    ClassifyYahooSuffixed(c, m);
  }

  /** The symbol of a served code ends in its market's suffix, and only served codes have a market suffix. */
  lemma SupportedIffMarketSuffix(stockCode: string)
    ensures SupportsMarket(stockCode) <==>
      IsEU(FromStockCode(stockCode)) && EndsWith(YahooSymbol(stockCode), EuSuffix(FromStockCode(stockCode)))
  {
    var c := Canonical(stockCode);
    var m := FromStockCode(stockCode);
    if EndsWithYahooSuffix(c) {
      YahooSuffixedIsSupported(stockCode);
    } else if IsEU(m) {
      var r := DropLetterSuffix(c) + EuSuffix(m);
      assert r[|r| - |EuSuffix(m)|..] == EuSuffix(m);
    }
  }

  /** A rewritten symbol is in canonical form: upper case and no outer white space. */
  lemma RewrittenIsCanonical(c: string, sfx: string)
    requires NoOuterSpace(c) && IsUpperCase(c)
    requires IsExchangeSuffix(sfx)
    ensures Canonical(DropLetterSuffix(c) + sfx) == DropLetterSuffix(c) + sfx
  {
    var b := DropLetterSuffix(c);
    var r := b + sfx;
    assert IsUpperCase(b) by {
      forall i | 0 <= i < |b| ensures !IsLower(b[i]) { assert b[i] == c[i]; }
    }
    SuffixedIsUpperCase(b, sfx);
    assert NoOuterSpace(r) by {
      assert r[|r| - 1] == sfx[1..][|sfx| - 2];
      assert |b| > 0 ==> r[0] == c[0];
      assert |b| == 0 ==> r[0] == '.';
    }
    CanonicalOfCanonicalForm(r);
  }

  /** A canonical code carrying a table suffix is its own symbol. */
  lemma SuffixedSymbolIsFixed(r: string)
    requires Canonical(r) == r && EndsWithYahooSuffix(r)
    ensures YahooSymbol(r) == r
  {
  }

  /** The rewritten symbol of a European code is canonical and carries a table suffix. */
  lemma RewrittenIsSuffixed(c: string, m: Market)
    requires NoOuterSpace(c) && IsUpperCase(c) && IsEU(m)
    ensures Canonical(DropLetterSuffix(c) + EuSuffix(m)) == DropLetterSuffix(c) + EuSuffix(m)
    ensures EndsWithYahooSuffix(DropLetterSuffix(c) + EuSuffix(m))
  {
    var sfx := EuSuffix(m);
    var r := DropLetterSuffix(c) + sfx;
    SuffixesAreExchangeSuffixes(m);
    RewrittenIsCanonical(c, sfx);
    EuSuffixSegment(m);
    assert EndsWith(r, sfx) by { assert r[|r| - |sfx|..] == sfx; }
    EndsWithSegment(r, '.', sfx[1..]);
    YahooSuffixBySegment(r);
  }

  /** `_get_yahoo_symbol` is idempotent. */
  lemma YahooSymbolIdempotent(stockCode: string)
    ensures YahooSymbol(YahooSymbol(stockCode)) == YahooSymbol(stockCode)
  {
    var c := Canonical(stockCode);
    var m := FromStockCode(stockCode);
    if EndsWithYahooSuffix(c) {
      CanonicalOfCanonicalForm(c);
      SuffixedSymbolIsFixed(c);
    } else if IsEU(m) {
      var r := DropLetterSuffix(c) + EuSuffix(m);
      assert YahooSymbol(stockCode) == r;
      RewrittenIsSuffixed(c, m);
      SuffixedSymbolIsFixed(r);
    } else {
      CanonicalOfCanonicalForm(c);
      CanonicalIdempotent(stockCode);
    }
  }

  // ---------------------------------------------------------------- worked symbols

  /** A code `head.seg` with an upper-case segment outside the table: not yet suffixed, and the segment is what the rewrite drops. */
  lemma RewriteOfSegment(head: string, seg: string)
    requires '.' !in head && IsUpperLetters(seg) && '.' !in seg
    requires seg !in ["L", "DE", "PA", "SW", "AS"]
    ensures var c := head + ['.'] + seg;
      !EndsWithYahooSuffix(c) && DropLetterSuffix(c) == head && Classify(c) == ClassifyOfSegment(seg)
  {
    var c := head + ['.'] + seg;
    AfterLastOfTail(head, '.', seg);
    YahooSuffixBySegment(c);
    ClassifyBySegment(c);
    assert c[..|c| - |seg| - 1] == head;
  }

  /** How a dotted code with last segment `seg` is classified. */
  function ClassifyOfSegment(seg: string): Market {
    if seg == "HK" then HongKong
    else if UsExchangeOfSuffix(seg).Some? then UsExchangeOfSuffix(seg).value
    else if EuSegment(seg).Some? then EuSegment(seg).value
    else ChinaA
  }

  /** A European code `head.seg` outside the table gets `seg` replaced by its market's suffix. */
  lemma RewrittenSymbol(stockCode: string, head: string, seg: string, m: Market)
    requires Canonical(stockCode) == head + ['.'] + seg
    requires '.' !in head && RewritableSegment(seg, m)
    ensures YahooSymbol(stockCode) == head + EuSuffix(m)
  {
    RewriteOfSegment(head, seg);
  }

  /** An exchange name the rewrite recognises as market `m`. */
  predicate RewritableSegment(seg: string, m: Market) {
    IsUpperLetters(seg) && '.' !in seg && seg !in ["L", "DE", "PA", "SW", "AS"]
    && ClassifyOfSegment(seg) == m && IsEU(m)
  }

  lemma LseSegment() ensures RewritableSegment("LSE", UkLse) {}
  lemma EtrSegment() ensures RewritableSegment("ETR", GerXetra) {}
  lemma SiSegment() ensures RewritableSegment("SI", SwxSix) {}

  /** Any spelling of `BP.LSE` (any case, any outer white space) becomes `BP.L`. */
  lemma LondonSymbol(stockCode: string)
    requires Canonical(stockCode) == "BP.LSE"
    ensures YahooSymbol(stockCode) == "BP.L"
  {
    LseSegment();
    assert "BP.LSE" == "BP" + ['.'] + "LSE";
    assert "BP" + EuSuffix(UkLse) == "BP.L";
    RewrittenSymbol(stockCode, "BP", "LSE", UkLse);
  }

  /** Any spelling of `SIE.ETR` becomes `SIE.DE`. */
  lemma XetraSymbol(stockCode: string)
    requires Canonical(stockCode) == "SIE.ETR"
    ensures YahooSymbol(stockCode) == "SIE.DE"
  {
    EtrSegment();
    assert "SIE.ETR" == "SIE" + ['.'] + "ETR";
    assert "SIE" + EuSuffix(GerXetra) == "SIE.DE";
    RewrittenSymbol(stockCode, "SIE", "ETR", GerXetra);
  }

  /** Any spelling of `X.SI` becomes `X.SW`. */
  lemma SwissSymbol(stockCode: string)
    requires Canonical(stockCode) == "X.SI"
    ensures YahooSymbol(stockCode) == "X.SW"
  {
    SiSegment();
    assert "X.SI" == "X" + ['.'] + "SI";
    assert "X" + EuSuffix(SwxSix) == "X.SW";
    RewrittenSymbol(stockCode, "X", "SI", SwxSix);
  }

  // ---------------------------------------------------------------- real-time quote

  /**
   * The upstream part of `get_realtime_quote` after a cache miss: Alpha Vantage
   * first when a key is configured, Yahoo when that gave nothing; an exception
   * from either counts as no quote. Returns the outcome and the calls made.
   */
  function QuoteFetch<Q>(key: Option<string>, alpha: CallOutcome<Q>, yahoo: CallOutcome<Q>): (r: (CallOutcome<Q>, seq<Upstream>))
    ensures r.1 == if !KeyConfigured(key) then [Yahoo] else if alpha.Data? then [AlphaVantage] else [AlphaVantage, Yahoo]
    ensures r.0.Data? <==> (KeyConfigured(key) && alpha.Data?) || (Yahoo in r.1 && yahoo.Data?)
    ensures r.0.Data? ==> r.0 == if KeyConfigured(key) && alpha.Data? then alpha else yahoo
  {
    if KeyConfigured(key) && alpha.Data? then (alpha, [AlphaVantage])
    else (yahoo, if KeyConfigured(key) then [AlphaVantage, Yahoo] else [Yahoo])
  }

  function UnsupportedMessage(stockCode: string): string {
    "EUStockFetcher不支持" + stockCode + "的市场"
  }

  class EUStockFetcher<Q> {
    const alphaVantageKey: Option<string>
    var priceCache: Cache<Q>

    constructor(alphaVantageKey: Option<string>)
      ensures this.alphaVantageKey == alphaVantageKey && priceCache == map[]
    {
      this.alphaVantageKey := alphaVantageKey;
      priceCache := map[];
    }

    /** `_fetch_raw_data`: the US source's guard and fallback, with this source's symbol and message. */
    function FetchRawData<D>(stockCode: string, yahoo: CallOutcome<D>, alphaApi: CallOutcome<D>): (r: RawFetch<D>)
      ensures !SupportsMarket(stockCode) <==> r.calls == []
      ensures !SupportsMarket(stockCode) ==> r.outcome == Raised(UnsupportedMessage(stockCode))
      ensures SupportsMarket(stockCode) ==>
        r == DownloadCorrected(YahooSymbol(stockCode), yahoo, AlphaDaily(alphaVantageKey, YahooSymbol(stockCode), alphaApi))
    {
      if !SupportsMarket(stockCode) then RawFetch(Raised(UnsupportedMessage(stockCode)), [])
      else
        var symbol := YahooSymbol(stockCode);
        DownloadCorrected(symbol, yahoo, AlphaDaily(alphaVantageKey, symbol, alphaApi))
    }

    /**
     * `_fetch_raw_data` as written, `alphaApi(n)` being the outcome of the n-th
     * Alpha Vantage request: after an empty Yahoo answer a failing Alpha Vantage
     * call is made a second time by the `except` branch.
     */
    function FetchRawDataAsWritten<D>(stockCode: string, yahoo: CallOutcome<D>, alphaApi: nat -> CallOutcome<D>): (r: RawFetch<D>)
      ensures !SupportsMarket(stockCode) <==> r.calls == []
      ensures !SupportsMarket(stockCode) ==> r.outcome == Raised(UnsupportedMessage(stockCode))
      ensures SupportsMarket(stockCode) ==>
        r == DownloadAsWritten(YahooSymbol(stockCode), yahoo, AlphaRequests(alphaVantageKey, YahooSymbol(stockCode), alphaApi))
    {
      if !SupportsMarket(stockCode) then RawFetch(Raised(UnsupportedMessage(stockCode)), [])
      else
        var symbol := YahooSymbol(stockCode);
        DownloadAsWritten(symbol, yahoo, AlphaRequests(alphaVantageKey, symbol, alphaApi))
    }

    /**
     * Without an Alpha Vantage key and with an empty Yahoo answer, the code as
     * written asks Alpha Vantage twice and reports the key error under both
     * names, where the corrected download asks once and reports it alone.
     */
    lemma FetchRawDataRepeatsAlpha<D>(stockCode: string, alphaApi: nat -> CallOutcome<D>)
      requires alphaVantageKey == None && SupportsMarket(stockCode)
      ensures FetchRawDataAsWritten(stockCode, Empty, alphaApi).calls == [Yahoo, AlphaVantage, AlphaVantage]
      ensures FetchRawDataAsWritten(stockCode, Empty, alphaApi).outcome
           == Raised(BothFailedMessage(YahooSymbol(stockCode), NoKeyMessage, NoKeyMessage))
      ensures FetchRawData(stockCode, Empty, alphaApi(0)) == RawFetch(Raised(NoKeyMessage), [Yahoo, AlphaVantage])
    {
      DownloadAsWrittenRepeatsAlpha(YahooSymbol(stockCode), alphaApi);
    }

    /**
     * `get_realtime_quote`: `alpha` and `yahoo` give each upstream's answer per
     * symbol; `calls` lists the upstream calls made, empty when the cache answered
     * or the code was refused.
     */
    method GetRealtimeQuote(stockCode: string, now: real, alpha: string -> CallOutcome<Q>, yahoo: string -> CallOutcome<Q>)
      returns (r: Option<Quote<Q>>, calls: seq<Upstream>)
      modifies this
      ensures var symbol := YahooSymbol(stockCode);
        var fetch := QuoteFetch(alphaVantageKey, alpha(symbol), yahoo(symbol));
        (r, priceCache, calls != []) == CacheStep(old(priceCache), SupportsMarket(stockCode), CacheKey(symbol), stockCode, now, fetch.0)
        && (calls != [] ==> calls == fetch.1)
    {
      if !SupportsMarket(stockCode) {
        return None, [];
      }
      var symbol := YahooSymbol(stockCode);
      var key := CacheKey(symbol);
      if key in priceCache {
        var cached := priceCache[key];
        if now - cached.timestamp < CacheTimeout {
          return Some(cached.quote), [];
        }
      }
      var quote: Option<Quote<Q>> := None;
      calls := [];
      if KeyConfigured(alphaVantageKey) {
        calls := calls + [AlphaVantage];
        match alpha(symbol) {
          case Data(d) => quote := Some(Quote(stockCode, d));
          case _ =>
        }
      }
      if quote.None? {
        calls := calls + [Yahoo];
        match yahoo(symbol) {
          case Data(d) => quote := Some(Quote(stockCode, d));
          case _ => return None, calls;
        }
      }
      priceCache := priceCache[key := CacheEntry(quote.value, now)];
      r := quote;
    }
  }

  // ---------------------------------------------------------------- indices

  /** `get_market_indices` of this source. */
  function MarketIndicesOf(m: Market): (r: seq<IndexInfo>)
    ensures |r| > 0 <==> IsEU(m)
  {
    match m
    case UkLse => [IndexInfo("^UKX", "FTSE 100", "UKX"), IndexInfo("^MCX", "FTSE 250", "MCX")]
    case GerXetra => [IndexInfo("^GDAXI", "DAX", "DAX"), IndexInfo("^MDAXI", "MDAX", "MDAX")]
    case FraEuronext => [IndexInfo("^FCHI", "CAC 40", "CAC 40")]
    case SwxSix => [IndexInfo("^SSMI", "SMI", "SMI")]
    case Euronext => [IndexInfo("^AEX", "AEX", "AEX")]
    case _ => []
  }

  /**
   * Where both tables list a market (London, Xetra) they list the same indices
   * with `code` and `symbol` swapped; the other three European markets appear in
   * this table only.
   */
  lemma IndicesSwapCodeAndSymbol(m: Market)
    requires IsEU(m)
    ensures m in {UkLse, GerXetra} ==>
      |MarketIndicesOf(m)| == |MarketIndices(m)|
      && forall i :: 0 <= i < |MarketIndices(m)| ==>
        MarketIndicesOf(m)[i].code == MarketIndices(m)[i].symbol && MarketIndicesOf(m)[i].symbol == MarketIndices(m)[i].code
    ensures m !in {UkLse, GerXetra} ==> MarketIndices(m) == [] && |MarketIndicesOf(m)| == 1
  {
  }
}
