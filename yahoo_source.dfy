/**
 * What the US and the European sources share: the real-time quote cache with
 * its 60-second lifetime and `quote_<symbol>` keys, the Alpha Vantage key
 * check, and the daily download that falls back from Yahoo Finance to Alpha
 * Vantage. Every upstream call is a parameter giving its outcome.
 */
module YahooSource {
  import opened Wrappers
  import opened Fetching

  /** A real-time quote: the stock code the caller asked with, and the upstream's figures. */
  datatype Quote<Q> = Quote(code: string, data: Q)

  datatype CacheEntry<Q> = CacheEntry(quote: Quote<Q>, timestamp: real)

  type Cache<Q> = map<string, CacheEntry<Q>>

  /** `_cache_timeout`, in seconds. */
  const CacheTimeout: real := 60.0

  function CacheKey(symbol: string): string {
    "quote_" + symbol
  }

  /** Distinct symbols never share a cache entry. */
  lemma CacheKeyInjective(s1: string, s2: string)
    requires CacheKey(s1) == CacheKey(s2)
    ensures s1 == s2
  {
    assert s1 == CacheKey(s1)[6..] && s2 == CacheKey(s2)[6..];
  }

  /** The quote a cache lookup at time `now` serves: a present entry younger than the timeout. */
  function CachedQuote<Q>(cache: Cache<Q>, key: string, now: real): (r: Option<Quote<Q>>)
    ensures r.Some? <==> key in cache && now - cache[key].timestamp < CacheTimeout
    ensures r.Some? ==> r.value == cache[key].quote
  {
    if key in cache && now - cache[key].timestamp < CacheTimeout then Some(cache[key].quote) else None
  }

  /** A quote stored at time `t` is served for exactly the following 60 seconds (and at any earlier clock reading). */
  lemma StoredQuoteLifetime<Q>(cache: Cache<Q>, key: string, q: Quote<Q>, t: real, now: real)
    ensures CachedQuote(cache[key := CacheEntry(q, t)], key, now) == if now < t + 60.0 then Some(q) else None
  {
  }

  /** Storing under one key leaves every other key's lookup as it was. */
  lemma StoreKeepsOtherKeys<Q>(cache: Cache<Q>, key: string, q: Quote<Q>, t: real, other: string, now: real)
    requires other != key
    ensures CachedQuote(cache[key := CacheEntry(q, t)], other, now) == CachedQuote(cache, other, now)
  {
  }

  /**
   * One real-time quote request in front of the cache: an unsupported code is
   * refused without touching the cache; a live entry under `key` is served
   * without asking the upstream; otherwise the upstream's answer `fetch` is
   * taken, and only a quote is stored, stamped with `now`, the clock reading
   * taken before the fetch. The result is the quote, the cache afterwards and
   * whether the upstream was asked.
   */
  function CacheStep<Q>(cache: Cache<Q>, supported: bool, key: string, stockCode: string, now: real, fetch: CallOutcome<Q>)
    : (s: (Option<Quote<Q>>, Cache<Q>, bool))
    ensures !supported ==> s == (None, cache, false)
    ensures supported && CachedQuote(cache, key, now).Some? ==> s == (CachedQuote(cache, key, now), cache, false)
    ensures supported && CachedQuote(cache, key, now).None? ==>
      s.2 && (s.0.Some? <==> fetch.Data?)
      && (fetch.Data? ==> s.0 == Some(Quote(stockCode, fetch.value)) && s.1 == cache[key := CacheEntry(s.0.value, now)])
      && (!fetch.Data? ==> s.1 == cache)
  {
    if !supported then (None, cache, false)
    else match CachedQuote(cache, key, now)
      case Some(q) => (Some(q), cache, false)
      case None =>
        match fetch
        case Data(d) => (Some(Quote(stockCode, d)), cache[key := CacheEntry(Quote(stockCode, d), now)], true)
        case _ => (None, cache, true)
  }

  /**
   * A second request within 60 seconds of one that fetched a quote, under the
   * same key, is served from the cache with the first quote (and the first caller's code),
   * whatever the upstream would answer now.
   */
  lemma RepeatWithinTimeoutIsCached<Q>(cache: Cache<Q>, key: string, code1: string, code2: string, t1: real, t2: real,
                                       fetch1: CallOutcome<Q>, fetch2: CallOutcome<Q>)
    requires CacheStep(cache, true, key, code1, t1, fetch1).0.Some? && CacheStep(cache, true, key, code1, t1, fetch1).2
    requires t2 < t1 + 60.0
    ensures var first := CacheStep(cache, true, key, code1, t1, fetch1);
      CacheStep(first.1, true, key, code2, t2, fetch2) == (first.0, first.1, false)
  {
    var first := CacheStep(cache, true, key, code1, t1, fetch1);
    StoredQuoteLifetime(cache, key, first.0.value, t1, t2);
  }

  // ---------------------------------------------------------------- Alpha Vantage

  const NoKeyMessage: string := "未配置Alpha Vantage API Key"

  /** `if not self.alpha_vantage_key`: a key is configured when it is present and not empty. */
  predicate KeyConfigured(key: Option<string>) {
    key.Some? && key.value != ""
  }

  /**
   * `_fetch_alpha_vantage_data`: without a key it raises before any request;
   * otherwise a failure of the request `api` is re-raised with the symbol.
   */
  function AlphaDaily<D>(key: Option<string>, symbol: string, api: CallOutcome<D>): (r: CallOutcome<D>)
    ensures !KeyConfigured(key) ==> r == Raised(NoKeyMessage)
    ensures KeyConfigured(key) ==> (r.Raised? <==> api.Raised?) && (!api.Raised? ==> r == api)
  {
    if !KeyConfigured(key) then Raised(NoKeyMessage)
    else match api
      case Raised(e) => Raised("Alpha Vantage获取" + symbol + "失败: " + e)
      case _ => api
  }

  /** Successive Alpha Vantage requests for one symbol, each reported as `AlphaDaily` reports it. */
  function AlphaRequests<D>(key: Option<string>, symbol: string, api: nat -> CallOutcome<D>): (r: nat -> CallOutcome<D>)
    ensures forall n: nat :: r(n) == AlphaDaily(key, symbol, api(n))
  {
    (n: nat) => AlphaDaily(key, symbol, api(n))
  }

  // ---------------------------------------------------------------- the daily download

  datatype Upstream = Yahoo | AlphaVantage

  /** The download's outcome and the upstream calls it made, in order. */
  datatype RawFetch<D> = RawFetch(outcome: CallOutcome<D>, calls: seq<Upstream>)

  function BothFailedMessage(symbol: string, yahooError: string, alphaError: string): string {
    "所有数据源获取" + symbol + "失败: Yahoo: " + yahooError + ", Alpha Vantage: " + alphaError
  }

  /**
   * The Yahoo-then-Alpha-Vantage download as written: `alpha(n)` is the outcome
   * of the n-th Alpha Vantage call. After an empty Yahoo answer the Alpha
   * Vantage call sits inside the `try`, so when it raises, the `except` branch
   * calls Alpha Vantage a second time and reports the first Alpha Vantage error
   * as the Yahoo error.
   */
  function DownloadAsWritten<D>(symbol: string, yahoo: CallOutcome<D>, alpha: nat -> CallOutcome<D>): (r: RawFetch<D>)
    ensures |r.calls| > 0 && r.calls[0] == Yahoo
    ensures yahoo.Data? <==> r.calls == [Yahoo]
    ensures yahoo.Data? ==> r.outcome == yahoo
  {
    match yahoo
    case Data(_) => RawFetch(yahoo, [Yahoo])
    case Empty =>
      (match alpha(0)
       case Raised(e) =>
         (match alpha(1)
          case Raised(e2) => RawFetch(Raised(BothFailedMessage(symbol, e, e2)), [Yahoo, AlphaVantage, AlphaVantage])
          case _ => RawFetch(alpha(1), [Yahoo, AlphaVantage, AlphaVantage]))
       case _ => RawFetch(alpha(0), [Yahoo, AlphaVantage]))
    case Raised(e) =>
      (match alpha(0)
       case Raised(e2) => RawFetch(Raised(BothFailedMessage(symbol, e, e2)), [Yahoo, AlphaVantage])
       case _ => RawFetch(alpha(0), [Yahoo, AlphaVantage]))
  }

  /**
   * An empty Yahoo answer and no Alpha Vantage key: Alpha Vantage is called twice
   * and the key error is reported under both names.
   */
  lemma DownloadAsWrittenRepeatsAlpha<D>(symbol: string, api: nat -> CallOutcome<D>)
    ensures DownloadAsWritten(symbol, Empty, AlphaRequests(None, symbol, api))
         == RawFetch(Raised(BothFailedMessage(symbol, NoKeyMessage, NoKeyMessage)), [Yahoo, AlphaVantage, AlphaVantage])
    ensures DownloadCorrected(symbol, Empty, AlphaDaily(None, symbol, api(0)))
         == RawFetch(Raised(NoKeyMessage), [Yahoo, AlphaVantage])
  {
  }

  /**
   * The download as intended: after an empty Yahoo answer Alpha Vantage is
   * asked once and its own outcome, error included, is the result.
   */
  function DownloadCorrected<D>(symbol: string, yahoo: CallOutcome<D>, alpha: CallOutcome<D>): (r: RawFetch<D>)
    ensures r.calls == if yahoo.Data? then [Yahoo] else [Yahoo, AlphaVantage]
    ensures r.outcome.Data? <==> yahoo.Data? || alpha.Data?
    ensures yahoo.Data? ==> r.outcome == yahoo
    ensures yahoo.Empty? ==> r.outcome == alpha
    ensures yahoo.Raised? && alpha.Raised? ==> r.outcome == Raised(BothFailedMessage(symbol, yahoo.message, alpha.message))
  {
    match yahoo
    case Data(_) => RawFetch(yahoo, [Yahoo])
    case Empty => RawFetch(alpha, [Yahoo, AlphaVantage])
    case Raised(e) =>
      (match alpha
       case Raised(e2) => RawFetch(Raised(BothFailedMessage(symbol, e, e2)), [Yahoo, AlphaVantage])
       case _ => RawFetch(alpha, [Yahoo, AlphaVantage]))
  }

  /** Each upstream is called at most once, and the two versions agree whenever Alpha Vantage is called only once. */
  lemma DownloadCallsEachOnce<D>(symbol: string, yahoo: CallOutcome<D>, alpha: nat -> CallOutcome<D>)
    ensures var r := DownloadCorrected(symbol, yahoo, alpha(0));
      multiset(r.calls)[Yahoo] == 1 && multiset(r.calls)[AlphaVantage] <= 1
    ensures !(yahoo.Empty? && alpha(0).Raised?) ==> DownloadAsWritten(symbol, yahoo, alpha) == DownloadCorrected(symbol, yahoo, alpha(0))
  {
  }
}
