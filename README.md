# Multi-market stock analysis core, modelled in Dafny

This project models the market-aware core of a stock analysis system that
covers A-shares, Hong Kong, the three US exchanges and five European
exchanges. The model covers these parts:

- **Market types.** A stock code is classified into a market. Each market has
  a display name, a currency, a time zone and a region. Codes are normalised
  and validated per market, and each market has a trading window and an index
  list.
- **Multi-market manager.** Data sources are kept sorted by priority. For a
  code's market, the sources that market prefers move to the front. The
  sources are then tried in turn, and each failure is recorded.
- **Simple manager.** It has one mock source and no routing.
- **US and European sources.** Each decides which codes it serves and turns a
  code into a Yahoo Finance symbol. A daily download falls back from Yahoo to
  Alpha Vantage. A real-time quote sits behind a 60-second cache. Both share
  the same daily-bar normalisation.
- **Currency converter.** It picks the display currency: CNY for A-shares,
  EUR for every other market. It converts amounts through euro-based rates,
  formats amounts in units of ten thousand and a hundred million, and converts
  the money fields of a stock record.
- **Factor scorer.** Fourteen factor scorers read an analysis context. Scores
  are clamped, rounded and signalled, then averaged by weight.
- **R2 storage adapter.** It covers only the key and URL logic.

Upstream calls are not modelled: Yahoo Finance, Alpha Vantage, the
exchange-rate API and boto3. Each becomes a parameter giving the call's
outcome: data, an empty answer, or a raised exception with its message.
The clock is also a parameter.

Modules: `Wrappers`, `Text`, `Numeric`, `MarketTypes`, `StableSort`,
`Fetching`, `MultiMarket`, `SimpleManager`, `Normalizer`, `YahooSource`,
`UsStockFetcher`, `EuStockFetcher`, `Currencies`, `FactorScoring`,
`R2Storage`.

## Model

| member | source | states |
|---|---|---|
| MarketTypes.Canonical | market_types.py:49 | The code is upper-cased and trimmed: no outer white space and no lower-case letter remain |
| MarketTypes.CanonicalIdempotent | market_types.py:49 | Upper-casing and trimming a second time changes nothing |
| MarketTypes.FromStockCodeIgnoresCaseAndSpace | market_types.py:39-49 | Classification depends only on the upper-cased, trimmed code |
| MarketTypes.UsRule | market_types.py:62-69 | The US rule only ever yields one of the three US exchanges |
| MarketTypes.EuRule | market_types.py:71-81 | The European suffix rule only ever yields a European market |
| MarketTypes.EuRuleBySegment | market_types.py:71-81 | The European suffix rule is decided by the last dot segment alone |
| MarketTypes.ClassifyBySegment | market_types.py:52-85 | A dotted code is classified by its last dot segment: HK, then a US exchange, then a European suffix, else the A-share default |
| MarketTypes.ClassifyDotted | market_types.py:63-66 | A dotted code is a US market exactly when its last segment is NYSE, NASDAQ or AMEX, and then it is that exchange |
| MarketTypes.ClassifyBare | market_types.py:63-69 | A dot-free code is a US market exactly when it is one to five letters, and then it is NASDAQ |
| MarketTypes.UsRoutingDotted | market_types.py:63-66 | The same as ClassifyDotted, stated on the raw code |
| MarketTypes.UsRoutingBare | market_types.py:67-69 | The same as ClassifyBare, stated on the raw code |
| MarketTypes.FromStockCodeShanghai | market_types.py:56-58 | "600519" is an A-share code |
| MarketTypes.FromStockCodeTicker | market_types.py:67-69 | "AAPL" goes to NASDAQ |
| MarketTypes.FromStockCodeHongKongSuffix | market_types.py:52-53 | "0005.HK" is Hong Kong |
| MarketTypes.FromStockCodeHongKongDigits | market_types.py:52-53 | "00700" is Hong Kong: five digits with a leading zero |
| MarketTypes.FromStockCodeLondon | market_types.py:72-73 | "VOD.L" is London |
| MarketTypes.FromStockCodeXetra | market_types.py:74-75 | "SAP.DE" is Xetra |
| MarketTypes.DisplayNameInjective | market_types.py:87-101 | No two markets share a display name |
| MarketTypes.Currency | market_types.py:103-117 | USD exactly for the US exchanges; EUR exactly for Xetra, Euronext Paris and Euronext; always one of six currencies |
| MarketTypes.TimezoneSharedOnlyByUs | market_types.py:119-133 | Two markets share a time zone only when both are US exchanges |
| MarketTypes.RegionOf | market_types.py:143-154 | Asia exactly for A-shares and Hong Kong; Americas exactly for the US; Europe exactly for the five European markets |
| MarketTypes.Base | market_types.py:168-175 | The cut code has no dot and no lower-case letter, and does not start with white space |
| MarketTypes.NormalizeInfersTarget | market_types.py:170-171 | Without a target, the code's own classified market is used |
| MarketTypes.SuffixesAreExchangeSuffixes | market_types.py:178-204 | Every US and European suffix is a dot followed by upper-case letters |
| MarketTypes.PaddingOfDigits | market_types.py:188-210 | An all-digit base is zero-padded to at least 5 digits (Hong Kong) or 6 (A-shares) and stays all-digit |
| MarketTypes.NormalizeIdempotent | market_types.py:157-210 | With a fixed target, normalising twice equals normalising once, unless white space precedes the dot |
| MarketTypes.NormalizeKeepsSpaceBeforeDot | market_types.py:168-175 | "AB .X" normalises to "AB " for Hong Kong, keeping the space |
| MarketTypes.NormalizeNotIdempotentOnTrailingSpace | market_types.py:168-175 | Normalising "AB " again gives "AB", so idempotence fails there |
| MarketTypes.ValidateStockCodeFormat | market_types.py:309-337 | Only a non-empty code can pass the per-market pattern |
| MarketTypes.NormalizeValidates | market_types.py:157-337 | A code normalised to a market passes that market's format, for bases of the right shape |
| MarketTypes.ValidateAcceptsFinalNewline | market_types.py:333-337 | Because `$` also matches before a final newline, "600519\n" validates as an A-share; "600519" is not a Hong Kong code |
| MarketTypes.IsTradingHours | market_types.py:237-264 | Open only on weekdays 0-4 and only for markets with a window; always closed for SIX and Euronext |
| MarketTypes.TradingHoursConvex | market_types.py:257-264 | Any time between two open times of the same day is open |
| MarketTypes.IsTradingHoursAsWritten | market_types.py:224-232 | As written, every call raises `NameError` for the unbound `pytz` |
| MarketTypes.TradingHoursAsWrittenNeverAnswers | market_types.py:224-264 | The as-written function never returns the intended answer, even where the intended window is open (New York, Monday 10:00) |
| MarketTypes.TradingHoursInclusive | market_types.py:260-264 | Both window ends are open, and the minute before and the minute after are closed |
| MarketTypes.MarketIndices | market_types.py:267-306 | The list is non-empty exactly for A-shares, Hong Kong, NYSE, NASDAQ, London and Xetra |
| StableSort.SortByOrders | multi_market_manager.py:41 | Sorting by a key yields a key-ordered list |
| StableSort.SortByPermutes | multi_market_manager.py:41 | Sorting is a permutation |
| StableSort.SortByStable | multi_market_manager.py:41 | Sorting is stable: elements with equal keys keep their order |
| StableSort.SortByIdempotent | multi_market_manager.py:97 | Re-sorting a sorted list changes nothing |
| Fetching.FailureLinesCount | multi_market_manager.py:185-190 | At most one failure line per source, and none when no source raised |
| MultiMarket.DailyPreferred | multi_market_manager.py:144-158 | Every market has a non-empty preferred list for daily data |
| MultiMarket.RealtimePreferred | multi_market_manager.py:220-233 | The real-time lists equal the daily ones, except the A-share list, which is its first two entries |
| MultiMarket.PlanOrder | multi_market_manager.py:160-168 | The routing order is a permutation. Preferred sources precede all others and follow the market's list; the others follow priority |
| MultiMarket.PlanStartsWithFirstPreferred | multi_market_manager.py:161-168 | A registered source with the first preferred name is tried first |
| MultiMarket.MarketSourceTriedFirst | multi_market_manager.py:142-168 | The US source is tried first for US codes, the European source for European codes |
| MultiMarket.FailureSummaryKeepsLines | multi_market_manager.py:192-193 | The summary contains every per-source failure line |
| MultiMarket.FailureAsWrittenLosesSummary | multi_market_manager.py:195 | As written, every daily failure surfaces as the same NameError, whatever the sources reported |
| MultiMarket.FailureCorrected | multi_market_manager.py:192-195 | The intended failure is a DataFetchError whose message contains every failure line |
| MultiMarket.MultiMarketDataFetcherManager.constructor | multi_market_manager.py:31-43 | A non-empty given list, else the defaults, sorted by priority |
| MultiMarket.MultiMarketDataFetcherManager.AddFetcher | multi_market_manager.py:94-97 | Append then stable re-sort: the list stays priority-ordered and gains exactly the new source |
| MultiMarket.AddFetcherPlacement | multi_market_manager.py:94-97 | Adding to a sorted list inserts the new source after every source of equal or lower priority |
| MultiMarket.MultiMarketDataFetcherManager.AvailableFetchers | multi_market_manager.py:265-268 | The names of the sources, in their order |
| MultiMarket.TryInOrder | multi_market_manager.py:170-190 | The first source that returns data wins. Otherwise the result is the failure lines of the raising sources, in order |
| MultiMarket.MultiMarketDataFetcherManager.GetDailyData | multi_market_manager.py:99-195 | Success iff some source in the market's routing order has data; the winner is the first; failure carries every failure line (corrected; see Findings) |
| MultiMarket.FirstQuote | multi_market_manager.py:244-263 | The first source that has the operation and returns a quote wins; else None |
| MultiMarket.MultiMarketDataFetcherManager.GetRealtimeQuote | multi_market_manager.py:197-263 | A quote iff some source in the real-time routing order serves one; it is the first such source's |
| SimpleManager.DataFetcherManager.constructor | data_provider/simple_manager.py:124-132 | The manager starts with the mock source alone |
| SimpleManager.DataFetcherManager.AvailableFetchers | data_provider/simple_manager.py:134-137 | The names of the sources, in list order |
| SimpleManager.DataFetcherManager.GetDailyData | data_provider/simple_manager.py:139-170 | The first source with data wins, in list order. Otherwise the error names only the stock code |
| SimpleManager.DataFetcherManager.GetRealtimeQuote | data_provider/simple_manager.py:172-180 | A quote only from the first source, only when it has the operation and answers |
| SimpleManager.FreshManagerHasNoQuote | data_provider/simple_manager.py:19-23 | With only the mock source there is never a real-time quote, and the only name is MockFetcher |
| Normalizer.ResetIndexRaisesWhen | data_provider/us_stock_fetcher.py:283-284 | `reset_index` refuses exactly a `Date` index beside a `Date` column, and an unnamed index when `index` and `level_0` are both taken |
| Normalizer.ResetIndexOfLength | data_provider/us_stock_fetcher.py:283-284 | Moving the index into the columns keeps the frame rectangular |
| Normalizer.RenameAllLookup | data_provider/us_stock_fetcher.py:286-300 | After renaming, a standard name holds the Yahoo column when there was one, else its own column |
| Normalizer.RenameAllOther | data_provider/us_stock_fetcher.py:298-300 | Columns outside the rename table pass through unchanged |
| Normalizer.ForwardFill | data_provider/us_stock_fetcher.py:308 | `pct_change`'s default forward fill: present cells are kept, and a missing cell takes the filled cell above it |
| Normalizer.ForwardFillLeavesOnlyLeadingGaps | data_provider/us_stock_fetcher.py:308 | After filling, a cell is missing only if every cell up to it was |
| Normalizer.PctCell | data_provider/us_stock_fetcher.py:307-309 | Between finite closes with a non-zero previous close, the percentage change rounded to two decimals (within 0.005). A zero previous close gives an infinity of the close's sign, or 0 when the close is also 0. Anything involving NaN gives 0 |
| Normalizer.PctCellOfUnchanged | data_provider/us_stock_fetcher.py:307-309 | An unchanged close gives a change of 0 |
| Normalizer.PctColumn | data_provider/us_stock_fetcher.py:307-309 | The first row is 0, and each later row is the change between the forward-filled closes |
| Normalizer.PctColumnOfPresent | data_provider/us_stock_fetcher.py:307-309 | Between two present closes, the change from the one to the other |
| Normalizer.PctColumnOfMissing | data_provider/us_stock_fetcher.py:307-309 | A missing close after the first row gives 0 |
| Normalizer.PctColumnAfterGap | data_provider/us_stock_fetcher.py:307-309 | After a run of missing closes, the change is measured from the last close before the run |
| Normalizer.AmountCell | data_provider/us_stock_fetcher.py:311-313 | Volume times close. An infinity times a non-zero number is an infinity with the product's sign; an infinity times zero, or anything with NaN, is NaN |
| Normalizer.Select | data_provider/us_stock_fetcher.py:320-323 | Only wanted columns that exist are selected, with their cells |
| Normalizer.SelectCovers | data_provider/us_stock_fetcher.py:320-323 | Every wanted column that exists is selected |
| Normalizer.SelectAppend | data_provider/us_stock_fetcher.py:320-323 | Selection keeps the keep-list order |
| Normalizer.NormalizeFrame | data_provider/us_stock_fetcher.py:271-325 | Raises `ValueError("cannot insert <name>, already exists")` exactly when `reset_index` does; otherwise gives the normalised columns |
| Normalizer.NormalizeData | data_provider/us_stock_fetcher.py:271-325 | The first column is the stock code on every row; every column is as long as the index and is a kept column of the working frame |
| Normalizer.NormalizedClose | data_provider/us_stock_fetcher.py:302-304 | `close` exists exactly when some close does, and holds the adjusted close when there is one |
| Normalizer.NormalizedPctChg | data_provider/us_stock_fetcher.py:306-309 | `pct_chg` is the percentage-change column of the effective close |
| Normalizer.NormalizedAmount | data_provider/us_stock_fetcher.py:311-315 | `amount` is volume times close when both exist, else all zeros |
| Normalizer.NormalizedDate | data_provider/us_stock_fetcher.py:283-300 | An index named Date becomes the `date` column |
| YahooSource.CacheKeyInjective | data_provider/us_stock_fetcher.py:347 | Distinct symbols have distinct cache keys |
| YahooSource.CachedQuote | data_provider/us_stock_fetcher.py:345-352 | The cache answers iff the entry exists and is younger than 60 seconds |
| YahooSource.StoredQuoteLifetime | data_provider/us_stock_fetcher.py:404-408 | A quote stored at time t is served exactly before t + 60 |
| YahooSource.StoreKeepsOtherKeys | data_provider/us_stock_fetcher.py:404-408 | Storing one key leaves every other key's lookup as it was |
| YahooSource.CacheStep | data_provider/us_stock_fetcher.py:339-416 | Unsupported codes touch nothing. A live entry is served without a fetch. Otherwise only a fetched quote is stored, stamped with the time before the fetch |
| YahooSource.RepeatWithinTimeoutIsCached | data_provider/us_stock_fetcher.py:345-352 | A repeat request within 60 seconds is served from the cache, whatever the upstream would say |
| YahooSource.AlphaDaily | data_provider/us_stock_fetcher.py:173-215 | Without a key the call raises the key error before any request; otherwise it raises iff the request does |
| YahooSource.DownloadAsWritten | data_provider/us_stock_fetcher.py:244-269 | As written: Yahoo is always called first, and data from Yahoo is returned alone |
| YahooSource.DownloadAsWrittenRepeatsAlpha | data_provider/us_stock_fetcher.py:257-269 | As written, an empty Yahoo answer and no key make two Alpha Vantage calls and raise the combined error with the key error as both parts; the corrected download makes one call and raises the key error itself |
| YahooSource.AlphaRequests | data_provider/us_stock_fetcher.py:173-215 | The n-th Alpha Vantage request of a download is the key check followed by the n-th answer of the API |
| YahooSource.DownloadCorrected | data_provider/us_stock_fetcher.py:244-269 | As intended: Yahoo's data, else Alpha Vantage's own outcome after an empty answer, else both errors combined |
| YahooSource.DownloadCallsEachOnce | data_provider/us_stock_fetcher.py:257-269 | Each upstream is called at most once. The two versions agree unless Yahoo is empty and Alpha Vantage raises |
| UsStockFetcher.YahooSymbol | data_provider/us_stock_fetcher.py:155-171 | The symbol is the canonical code up to its first dot: dot-free and upper-case |
| UsStockFetcher.YahooSymbolIdempotent | data_provider/us_stock_fetcher.py:155-171 | Taking the symbol twice changes nothing, unless white space preceded the dot |
| UsStockFetcher.YahooSymbolNotIdempotentOnSpace | data_provider/us_stock_fetcher.py:165-171 | "AB .NYSE" gives "AB ", and that gives "AB" |
| UsStockFetcher.SupportedBareCode | data_provider/us_stock_fetcher.py:150-171 | A served dot-free code is a ticker of one to five letters and is its own symbol |
| UsStockFetcher.SupportedDottedCode | data_provider/us_stock_fetcher.py:150-171 | A served dotted code names its exchange after its last dot, and its symbol is shorter than the code |
| UsStockFetcher.TickerSymbol | data_provider/us_stock_fetcher.py:165-171 | A ticker of upper-case letters is its own symbol |
| UsStockFetcher.SuffixedTickerSymbol | data_provider/us_stock_fetcher.py:165-171 | A ticker followed by an exchange suffix has the bare ticker as its symbol, so both share the cache entry keyed by that symbol (line 347) |
| UsStockFetcher.USStockFetcher.constructor | data_provider/us_stock_fetcher.py:139-148 | The key is kept and the cache starts empty |
| UsStockFetcher.USStockFetcher.FetchRawData | data_provider/us_stock_fetcher.py:223-269 | An unsupported code fails with no call; otherwise the corrected Yahoo-then-Alpha-Vantage download of its symbol (see Findings) |
| UsStockFetcher.USStockFetcher.FetchRawDataAsWritten | data_provider/us_stock_fetcher.py:223-269 | An unsupported code fails with no call; otherwise the download as written, with its repeated Alpha Vantage call |
| UsStockFetcher.USStockFetcher.FetchRawDataRepeatsAlpha | data_provider/us_stock_fetcher.py:257-269 | Without a key and with an empty Yahoo answer, the method as written calls Alpha Vantage twice and raises the combined error; the corrected one calls it once and raises the key error |
| UsStockFetcher.USStockFetcher.GetRealtimeQuote | data_provider/us_stock_fetcher.py:327-416 | The result, the new cache and whether Yahoo was asked are one step of the cache model, keyed by the symbol |
| EuStockFetcher.ExchangeMapping | data_provider/eu_stock_fetcher.py:133-169 | An entry exists exactly for the five European markets |
| EuStockFetcher.ExchangeMappingAgrees | data_provider/eu_stock_fetcher.py:133-169 | The table's currency and suffix agree with the market enumeration's |
| EuStockFetcher.ExchangeInfoOf | data_provider/eu_stock_fetcher.py:203-219 | The entry of the code's market, or the Unknown/EUR default for other markets |
| EuStockFetcher.DropLetterSuffix | data_provider/eu_stock_fetcher.py:197 | The code changes exactly when its last dot segment is upper-case letters, and the result is a prefix |
| EuStockFetcher.YahooSuffixedIsSupported | data_provider/eu_stock_fetcher.py:186-191 | A code already carrying a table suffix is served, and the suffix is its own market's |
| EuStockFetcher.SupportedIffMarketSuffix | data_provider/eu_stock_fetcher.py:171-201 | A code is served exactly when it is European and its symbol ends in its market's suffix |
| EuStockFetcher.YahooSymbolIdempotent | data_provider/eu_stock_fetcher.py:176-201 | Taking the symbol twice changes nothing |
| EuStockFetcher.RewrittenSymbol | data_provider/eu_stock_fetcher.py:193-199 | For a European code `head.SEG` outside the table, SEG is replaced by its market's suffix |
| EuStockFetcher.LondonSymbol | data_provider/eu_stock_fetcher.py:193-199 | "BP.LSE" becomes "BP.L" |
| EuStockFetcher.XetraSymbol | data_provider/eu_stock_fetcher.py:193-199 | "SIE.ETR" becomes "SIE.DE" |
| EuStockFetcher.SwissSymbol | data_provider/eu_stock_fetcher.py:193-199 | "X.SI" becomes "X.SW" |
| EuStockFetcher.QuoteFetch | data_provider/eu_stock_fetcher.py:400-416 | Alpha Vantage first when a key is set, Yahoo when that gave nothing; a quote iff one of the calls made returned one |
| EuStockFetcher.EUStockFetcher.constructor | data_provider/eu_stock_fetcher.py:121-130 | The key is kept and the cache starts empty |
| EuStockFetcher.EUStockFetcher.FetchRawData | data_provider/eu_stock_fetcher.py:271-317 | An unsupported code fails with no call; otherwise the corrected Yahoo-then-Alpha-Vantage download of its symbol (see Findings) |
| EuStockFetcher.EUStockFetcher.FetchRawDataAsWritten | data_provider/eu_stock_fetcher.py:271-317 | An unsupported code fails with no call; otherwise the download as written, with its repeated Alpha Vantage call |
| EuStockFetcher.EUStockFetcher.FetchRawDataRepeatsAlpha | data_provider/eu_stock_fetcher.py:305-317 | Without a key and with an empty Yahoo answer, the method as written calls Alpha Vantage twice and raises the combined error; the corrected one calls it once and raises the key error |
| EuStockFetcher.EUStockFetcher.GetRealtimeQuote | data_provider/eu_stock_fetcher.py:375-425 | One step of the cache model over the two-upstream fetch, with the calls made |
| EuStockFetcher.MarketIndicesOf | data_provider/eu_stock_fetcher.py:576-606 | The list is non-empty exactly for the European markets |
| EuStockFetcher.IndicesSwapCodeAndSymbol | data_provider/eu_stock_fetcher.py:586-604 | For London and Xetra this table swaps `code` and `symbol` relative to the market module's; the other three appear here only |
| Currencies.TargetCurrency | currency_converter.py:122-137 | CNY exactly for the A-share market; otherwise, unknown markets included, EUR |
| Currencies.TargetCurrencyOfMarket | currency_converter.py:122-137 | Every market key gets CNY iff it is the A-share market, else EUR |
| Currencies.ConvertAmount | currency_converter.py:139-165 | The same currency is exact at rate 1. Otherwise it fails iff the source rate is zero, and the amount is scaled by the returned rate |
| Currencies.ConvertRate | currency_converter.py:159-165 | The cross rate times the source's euro rate is the target's euro rate |
| Currencies.ConvertKeepsEuroValue | currency_converter.py:159-165 | The converted amount has the same euro value as the original |
| Currencies.ConvertRoundTrip | currency_converter.py:139-165 | Converting back gives the original amount, at the reciprocal rate |
| Currencies.ConvertChain | currency_converter.py:139-165 | Converting through a third currency equals converting directly |
| Currencies.UnitsOf | currency_converter.py:206-219 | The unit names are the currency's, prefixed by 万 and 亿; an unknown code stands for itself |
| Currencies.KnownUnitsDistinct | currency_converter.py:206-213 | The six known currencies have distinct unit names |
| Currencies.FormatCurrency | currency_converter.py:204-226 | The displayed figure times its scale is the amount. The scale is the largest whose figure is at least 1, within the thresholds |
| Currencies.FormatScaleUnique | currency_converter.py:221-226 | The figure bounds determine the scale uniquely |
| Currencies.FormatAmount | currency_converter.py:167-202 | A missing or equal target is shown exactly. Otherwise it fails iff the rate is zero, and shows the converted amount in the target's units, with the rate note iff requested |
| Currencies.ConvertForDisplay | currency_converter.py:314-337 | Shown in the market's target currency; an amount already in it is displayed unconverted |
| Currencies.InferCurrencyAgrees | currency_converter.py:245-259 | The inferred original currency of a market is the market's own currency |
| Currencies.CurrencyInfoKeyIsNotMoney | currency_converter.py:270-291 | The info key is not one of the money fields |
| Currencies.PartlyConverted | currency_converter.py:267-284 | Converting a set of fields keeps the record's keys |
| Currencies.PartlyConvertedSkip | currency_converter.py:274-284 | A field that cannot be read as a number is left as it was |
| Currencies.PartlyConvertedConvert | currency_converter.py:274-284 | A readable money field is replaced by its converted amount |
| Currencies.ConvertedRecord | currency_converter.py:228-293 | Same currency: an unchanged copy. Otherwise it fails iff the rate is zero and some field is convertible; on success the readable money fields are converted, the rest kept, and the info added |
| Currencies.ConvertedRecordWhenConverting | currency_converter.py:261-291 | When the currencies differ and no field needs a zero rate, the result is every field after conversion plus the currency info |
| Currencies.ConvertedFieldKeepsValue | currency_converter.py:274-282 | Every converted field keeps its euro value |
| Currencies.ReportedRateIsTargetRate | currency_converter.py:286-291 | The reported exchange rate is the target's euro rate, not the conversion rate (1.0 against 1/1.08 for USD to EUR) |
| Currencies.CurrencyConverter.constructor | currency_converter.py:119-133 | The converter starts with the given rates |
| Currencies.CurrencyConverter.RefreshRates | currency_converter.py:295-298 | The rates are replaced by the current ones |
| Currencies.CurrencyConverter.ConvertStockData | currency_converter.py:228-293 | The loop over the money fields computes exactly ConvertedRecord |
| FactorScoring.Clamp | factor_scoring.py:13-14 | The result lies in [low, high] and equals the value when already inside |
| FactorScoring.ToPercent | factor_scoring.py:26-32 | Defined iff the input is numeric; a magnitude of at most 1 is multiplied by 100, anything else kept |
| FactorScoring.DefaultSignal | factor_scoring.py:35-40 | Bullish iff the score is at least 70, neutral iff it is in [55, 70), bearish iff below 55 |
| FactorScoring.DefaultSignalMonotone | factor_scoring.py:35-40 | A higher score never gives a weaker signal |
| FactorScoring.KeywordScore | factor_scoring.py:97-106 | The status keywords give 80/20/65/35/50, and 多头 wins over every other keyword |
| FactorScoring.Trend | factor_scoring.py:93-123 | None iff no keyword and some close or average is missing; otherwise one of seven values |
| FactorScoring.TrendKeywordFirst | factor_scoring.py:97-106 | With a keyword, the moving averages are not consulted |
| FactorScoring.TrendAlignment | factor_scoring.py:108-123 | Close above the averages, each above the next, scores 80; the reverse scores 20 |
| FactorScoring.Momentum | factor_scoring.py:126-157 | None iff both inputs are missing; otherwise in [20, 75] |
| FactorScoring.Volume | factor_scoring.py:160-198 | None iff all three inputs are missing; otherwise in [25, 70] |
| FactorScoring.Valuation | factor_scoring.py:201-229 | None iff PE and PB are missing; otherwise in [30, 65] |
| FactorScoring.SizeOfCap | factor_scoring.py:232-244 | The size score is one of 35, 50, 65, 75 |
| FactorScoring.SizeMonotone | factor_scoring.py:232-244 | A larger market value never scores lower |
| FactorScoring.Size | factor_scoring.py:232-244 | None iff the market value is missing |
| FactorScoring.VolatilityOfRange | factor_scoring.py:251-268 | The score is one of 80, 65, 50, 35, 20 |
| FactorScoring.VolatilityAntitone | factor_scoring.py:251-268 | A wider range never scores higher |
| FactorScoring.LowVolatility | factor_scoring.py:251-268 | None iff high, low or close is missing or the close is zero; otherwise the score of (high - low) / close |
| FactorScoring.Quality | factor_scoring.py:271-309 | None iff all three inputs are missing; otherwise in [22, 83] |
| FactorScoring.Profitability | factor_scoring.py:312-344 | None iff all three margins are missing; otherwise in [30, 74] |
| FactorScoring.Investment | factor_scoring.py:347-375 | None iff both growth figures are missing; otherwise in [40, 60] |
| FactorScoring.InvestmentPrefersAssetGrowth | factor_scoring.py:366-373 | Revenue growth is ignored whenever asset growth is present |
| FactorScoring.Liquidity | factor_scoring.py:378-406 | None iff both inputs are missing; otherwise in [27, 70] |
| FactorScoring.DividendYield | factor_scoring.py:409-426 | None iff the consulted yield is not numeric; otherwise one of 70, 62, 55, 45 |
| FactorScoring.DividendPrefersFundamentals | factor_scoring.py:411-414 | Any non-None fundamentals yield shadows the real-time one, even an unparsable one (which leaves the factor unscored) |
| FactorScoring.SurpriseScore | factor_scoring.py:436-443 | One of 70, 60, 40, 50 |
| FactorScoring.RevisionScore | factor_scoring.py:445-455 | One of 68, 58, 40, 50 |
| FactorScoring.EarningsRevisions | factor_scoring.py:429-456 | None iff neither a non-zero estimate with an actual nor a non-zero trailing with a forward figure exists |
| FactorScoring.EarningsPreferSurprise | factor_scoring.py:436-443 | With a usable surprise, the trailing and forward figures do not matter |
| FactorScoring.ChipScore | factor_scoring.py:459-497 | None iff profit ratio, concentration and the cost/price pair are all missing; otherwise in [25, 75] |
| FactorScoring.Risk | factor_scoring.py:500-535 | None iff bias, change and a usable range are all missing; otherwise in [-5, 70] |
| FactorScoring.RiskCanBeNegative | factor_scoring.py:500-535 | A stretched, limit-moving, wide-range day scores -5, below the [0, 100] the scorer clamps to |
| FactorScoring.Accumulate | factor_scoring.py:63-75 | Scores, signals and weights share their keys, and every recorded score lies in [0, 100] |
| FactorScoring.AccumulateScoredIff | factor_scoring.py:66-72 | A name has a score iff one of its factors produced a value; skipped factors leave no trace |
| FactorScoring.AccumulateTotalWeight | factor_scoring.py:70-75 | The total weight is the summed weight of the factors not skipped |
| FactorScoring.AccumulateWeightedSum | factor_scoring.py:70-74 | The weighted sum is the sum, front to back, of clamped score times weight over the factors not skipped |
| FactorScoring.AccumulateSumBounds | factor_scoring.py:70-75 | With no negative weight, the weighted sum lies between 0 and 100 times the total weight |
| FactorScoring.ScoreOf | factor_scoring.py:58-90 | The order lists every factor name. There is a total iff the scored weight is positive; it is then the weighted mean of the clamped scores, rounded to 2 places, and "overall" is its signal, and otherwise the signals are the factors' own |
| FactorScoring.TotalInRange | factor_scoring.py:74-79 | With no negative weight, the total lies in [0, 100] |
| FactorScoring.FactorScorer.constructor | factor_scoring.py:52-53 | The scorer keeps the given factor list |
| FactorScoring.FactorScorer.AddFactor | factor_scoring.py:55-56 | The factor is appended at the end |
| FactorScoring.FactorScorer.Score | factor_scoring.py:58-90 | The scoring loop computes exactly ScoreOf of the current factors |
| FactorScoring.DefaultWeightsPositive | factor_scoring.py:538-555 | Every default weight is positive, so TotalInRange applies to the default scorer |
| FactorScoring.BuildDefaultFactorScorer | factor_scoring.py:538-555 | A fresh scorer holding the fourteen default factors |
| R2Storage.NormalizePrefix | r2_storage.py:125-130 | "" iff the prefix is blank; otherwise it ends in "/" but not "//" and has no outer white space |
| R2Storage.NormalizePrefixIdempotent | r2_storage.py:125-130 | Normalising twice equals normalising once |
| R2Storage.BuildKey | r2_storage.py:117-118 | The key starts with the prefix and ends with the file name, with nothing in between |
| R2Storage.BuildKeyInjective | r2_storage.py:117-118 | Under one prefix, distinct names give distinct keys |
| R2Storage.PublicBase | r2_storage.py:32 | None iff the base is missing or empty; otherwise the base without trailing slashes |
| R2Storage.BuildPublicUrl | r2_storage.py:120-123 | None iff the base is missing or empty; otherwise base, one slash, key |
| R2Storage.PublicUrlIffBase | r2_storage.py:32 | URLs are built iff the configured base has a character other than "/" |
| R2Storage.NewStorage | r2_storage.py:18-32 | The credentials are kept; the prefix and base are normalised |
| R2Storage.FromConfig | r2_storage.py:43-57 | A storage iff endpoint, key id, secret and bucket are all set, built from those settings |
| R2Storage.FileName | r2_storage.py:60 | The file name has no slash and ends the path |
| R2Storage.UploadFileKey | r2_storage.py:61 | A non-empty explicit key is used verbatim; otherwise the prefixed file name |
| R2Storage.ObjectKey | r2_storage.py:82 | Text uploads, downloads and existence checks always use the prefixed key |
| R2Storage.ExplicitKeysDiffer | r2_storage.py:61 | Under a prefix, the same explicit key names different objects for upload_file and upload_text |
| R2Storage.UploadResult | r2_storage.py:65-94 | A URL iff the transfer succeeded and a base is set, and it ends with the key |

## Left out

- Network and I/O: Yahoo Finance, Alpha Vantage, the exchange-rate API, boto3 transfers and the rate-cache file (currency_converter.py:26-113, r2_storage.py:34-40 and 65-115) become parameters giving each call's outcome.
- Currencies: the default rate table is a given `Rates` map.
- The tenacity retry on the daily download is not modelled, nor the `get_daily_data` template of the missing base class. `data_provider/base.py` is not part of this model, so `STANDARD_COLUMNS` is a parameter.
- Logging, `print`, the `__main__` self-tests and the module-level singletons (`get_multi_market_manager`, `get_currency_converter`, `get_factor_scorer`) are left out.
- `_init_default_fetchers` imports sources outside this model. The constructor takes the resulting list as a parameter, and its import error path is left out.
- The mock source's random bars (simple_manager.py:25-118, data_provider/mock_fetcher.py) are left out. Only its name, priority and lack of a quote operation are kept.
- Quote objects are not modelled: `USRealtimeQuote`, `EURealtimeQuote` and `EarningsInfo`, their field extraction, `get_earnings_info`, `get_enhanced_data` and `_fetch_alpha_vantage_quote`'s parsing. A quote is a value of the upstream's whose contents the model does not inspect.
- The Alpha Vantage frame construction and date filtering (us_stock_fetcher.py:194-212) are left out. Only the key guard and error wrapping are kept.
- `is_market_trading_hours` takes the local weekday, hour and minute. pytz conversion and `datetime.now()` are left out. As written the function always raises (see Findings); MarketTypes.IsTradingHours models the evident intent.
- UsStockFetcher.USStockFetcher.FetchRawData models the corrected download; the download as written is UsStockFetcher.USStockFetcher.FetchRawDataAsWritten.
- MultiMarket.MultiMarketDataFetcherManager.GetDailyData models the corrected raise of `DataFetchError` with the failure summary; as written the call raises `NameError` instead, which MultiMarket.FailureAsWrittenLosesSummary states.
- EuStockFetcher.EUStockFetcher.FetchRawData models the corrected download; the download as written is EuStockFetcher.EUStockFetcher.FetchRawDataAsWritten.
- Floating point is modelled as exact reals: rounding (`round(x, 2)` is half-even on the exact value), NaN, and the `.2f`/`.4f` text rendering of amounts and rates. In the normalised columns, ±inf is a cell of its own (Normalizer.Cell.Inf) and NaN is a missing cell; signed zero is not modelled, so a change from a zero close to zero is 0.
- Normalizer.PctColumn models `pct_change()` with its default forward fill of missing closes, the behaviour of pandas before 3.0; no pandas version is pinned.
- Normalizer.AmountCell treats a text cell in the close or volume column as NaN, where pandas would multiply or raise on the text itself.
- Normalizer.PctCell treats a text cell in the close column as NaN, so a change involving it is 0, where pandas `pct_change()` raises `TypeError` on the text.
- Currencies.FormatCurrency returns the figure, scale and unit rather than the formatted string.
- Currencies.AsFloat: Python's `float()` on a string is the parameter `parse`.
- Text handling: `upper()`, `isdigit()`, `isalpha()` and the regular-expression class `\d` are modelled on ASCII only. `strip()` uses Python's full white-space set.
- Normalizer.NormalizeData requires that no frame holds a column under both its Yahoo name and its standard name. pandas would then keep two columns of one name, which a map cannot represent. A `reset_index` collision is not excluded: it is the failure path of Normalizer.NormalizeFrame.
- R2Storage.FileName takes `Path(...).name` as the text after the last "/". Trailing slashes and "." components are not modelled.
- R2Storage: the content type is not modelled (`mimetypes.guess_type`).
- FactorScoring: the context's nested dictionaries become records of already-classified inputs (absent, numeric or non-numeric).
- FactorScoring.Trend: a non-string `ma_status` is not modelled.
- FactorScoring: a custom signaler is any total function.
- MultiMarket: a failure of `Market.from_stock_code` cannot happen here, since classification is total. The `market = None` fallback is therefore not modelled.
- MultiMarket.PlanOrder: needs non-negative priorities. With a negative priority a non-preferred source can overtake a preferred one.

## Findings

| source | as written | input that shows it | evidently intended | confidence | as-written member | corrected member |
|---|---|---|---|---|---|---|
| multi_market_manager.py:195 | raises `DataFetchError`, which the module never imports (line 14 imports `DataFetcherError`), so Python raises `NameError` and the summary of failures is lost | any code for which every source fails | raise the imported error type with the summary carrying every failure line | not executed | MultiMarket.FailureAsWrittenLosesSummary | MultiMarket.FailureCorrected |
| data_provider/us_stock_fetcher.py:257-269 | the Alpha Vantage fallback for an empty Yahoo answer sits inside the `try`, so when it raises, the `except` calls Alpha Vantage again and reports its error as Yahoo's (same at data_provider/eu_stock_fetcher.py:305-317) | Yahoo returns an empty frame and no Alpha Vantage key is set | one Alpha Vantage call whose own error is reported | not executed | YahooSource.DownloadAsWrittenRepeatsAlpha | YahooSource.DownloadCorrected |
| market_types.py:230 | `is_market_trading_hours` tests `if pytz:`, a name the module never imports (lines 10-14), so every call raises `NameError` before any time is compared | any market at any time, e.g. NYSE on a Monday at 10:00 | the weekday and opening-window check, with local time when pytz is unavailable | not executed | MarketTypes.TradingHoursAsWrittenNeverAnswers | MarketTypes.IsTradingHours |
