/**
 * The simplified data-source manager: one built-in mock source, tried in list
 * order without market routing; failures are swallowed, and only the first
 * source is asked for a real-time quote.
 */
module SimpleManager {
  import opened Wrappers
  import opened Fetching

  /** The built-in mock source: lowest priority, and no real-time quote operation. */
  const MockFetcher: Fetcher := Fetcher("MockFetcher", 999, false)

  /** The message of the `DataFetchError` raised when every source fails. */
  function AllFailedMessage(stockCode: string): string {
    "所有数据源获取 " + stockCode + " 失败"
  }

  class DataFetcherManager {
    var fetchers: seq<Fetcher>

    constructor()
      ensures fetchers == [MockFetcher]
    {
      fetchers := [MockFetcher];
    }

    /** `available_fetchers`: the source names in list order. */
    function AvailableFetchers(): (r: seq<string>)
      reads this
      ensures |r| == |fetchers|
      ensures forall i :: 0 <= i < |fetchers| ==> r[i] == fetchers[i].name
    {
      Names(fetchers)
    }

    /**
     * `get_daily_data`: the sources are tried in list order and the first data
     * wins; empty answers and exceptions are both skipped without a trace, and the
     * final error names only the stock code.
     */
    method GetDailyData<D>(stockCode: string, call: Fetcher -> CallOutcome<D>) returns (r: Result<(D, string), string>)
      ensures r.Success? <==> exists i :: 0 <= i < |fetchers| && call(fetchers[i]).Data?
      ensures r.Success? ==>
        exists i :: FirstAnswer(fetchers, call, i) && call(fetchers[i]) == Data(r.value.0) && r.value.1 == fetchers[i].name
      ensures r.Failure? ==> r.error == AllFailedMessage(stockCode)
    {
      var i := 0;
      while i < |fetchers|
        invariant 0 <= i <= |fetchers|
        invariant forall j :: 0 <= j < i ==> !call(fetchers[j]).Data?
      {
        var f := fetchers[i];
        match call(f) {
          case Data(d) =>
            assert FirstAnswer(fetchers, call, i);
            r := Success((d, f.name));
            return;
          case Empty =>
          case Raised(_) =>
        }
        i := i + 1;
      }
      r := Failure(AllFailedMessage(stockCode));
    }

    /**
     * `get_realtime_quote`: only the first source is asked, and only when it has
     * the operation; its answer is passed through, and an exception becomes `None`.
     */
    function GetRealtimeQuote<Q>(stockCode: string, call: Fetcher -> CallOutcome<Q>): (r: Option<Q>)
      reads this
      ensures r.Some? <==> |fetchers| > 0 && fetchers[0].hasRealtimeQuote && call(fetchers[0]).Data?
      ensures r.Some? ==> call(fetchers[0]) == Data(r.value)
    {
      if |fetchers| > 0 && fetchers[0].hasRealtimeQuote then
        match call(fetchers[0])
        case Data(q) => Some(q)
        case Empty => None
        case Raised(_) => None
      else None
    }
  }

  predicate FirstAnswer<D>(fs: seq<Fetcher>, call: Fetcher -> CallOutcome<D>, i: int) {
    0 <= i < |fs| && call(fs[i]).Data? && forall j :: 0 <= j < i ==> !call(fs[j]).Data?
  }

  /** With its built-in source alone, the manager never has a real-time quote and names only the mock source. */
  lemma FreshManagerHasNoQuote<Q>(m: DataFetcherManager, stockCode: string, call: Fetcher -> CallOutcome<Q>)
    requires m.fetchers == [MockFetcher]
    ensures m.GetRealtimeQuote(stockCode, call) == None
    ensures m.AvailableFetchers() == ["MockFetcher"]
  {
  }
}
