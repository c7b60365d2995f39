/**
 * The multi-market data-source manager: a priority-ordered list of sources,
 * and market-aware routing that moves the sources preferred for a stock's
 * market to the front before trying them in turn.
 */
module MultiMarket {
  import opened Wrappers
  import opened Text
  import opened MarketTypes
  import opened StableSort
  import opened Fetching

  /** The preferred sources for daily data, per market, in the order they are tried. */
  function DailyPreferred(m: Market): (r: seq<string>)
    ensures |r| > 0
  {
    match m
    case ChinaA => ["EfinanceFetcher", "AkshareFetcher", "TushareFetcher", "BaostockFetcher"]
    case HongKong => ["AkshareFetcher", "YfinanceFetcher"]
    case UsNyse => ["USStockFetcher", "YfinanceFetcher"]
    case UsNasdaq => ["USStockFetcher", "YfinanceFetcher"]
    case UsAmex => ["USStockFetcher", "YfinanceFetcher"]
    case _ => ["EUStockFetcher", "YfinanceFetcher"]
  }

  /** The preferred sources for real-time quotes: as for daily data except the A-share list is shorter. */
  function RealtimePreferred(m: Market): (r: seq<string>)
    ensures |r| > 0
    ensures m != ChinaA ==> r == DailyPreferred(m)
    ensures m == ChinaA ==> r == DailyPreferred(m)[..2]
  {
    if m == ChinaA then ["EfinanceFetcher", "AkshareFetcher"] else DailyPreferred(m)
  }

  /** `get_fetcher_priority`: a preferred source's place in the list, else the list length plus its priority. */
  function RoutingKey(preferred: seq<string>, f: Fetcher): int {
    if f.name in preferred then IndexOf(preferred, f.name) else |preferred| + f.priority
  }

  /** The order in which sources are tried for a market with the given preferred list. */
  function Plan(fetchers: seq<Fetcher>, preferred: seq<string>): seq<Fetcher> {
    SortBy(fetchers, (f: Fetcher) => RoutingKey(preferred, f))
  }

  predicate NonNegativePriorities(fetchers: seq<Fetcher>) {
    forall i :: 0 <= i < |fetchers| ==> fetchers[i].priority >= 0
  }

  lemma PlanKeepsPriorities(fetchers: seq<Fetcher>, preferred: seq<string>, i: nat)
    requires NonNegativePriorities(fetchers) && i < |Plan(fetchers, preferred)|
    ensures Plan(fetchers, preferred)[i].priority >= 0
  {
    var plan := Plan(fetchers, preferred);
    SortByPermutes(fetchers, (f: Fetcher) => RoutingKey(preferred, f));
    assert plan[i] in multiset(plan);
    assert plan[i] in multiset(fetchers);
    var k :| 0 <= k < |fetchers| && fetchers[k] == plan[i];
  }

  /**
   * The routing order, given non-negative priorities: preferred sources come
   * before all others, preferred sources follow the market's list, and the others
   * follow their priority. The plan is a permutation of the registered sources.
   */
  lemma PlanOrder(fetchers: seq<Fetcher>, preferred: seq<string>, i: nat, j: nat)
    requires NonNegativePriorities(fetchers)
    requires i < j < |Plan(fetchers, preferred)|
    ensures multiset(Plan(fetchers, preferred)) == multiset(fetchers)
    ensures var plan := Plan(fetchers, preferred);
      (plan[j].name in preferred ==> plan[i].name in preferred)
      && (plan[i].name in preferred && plan[j].name in preferred ==>
            IndexOf(preferred, plan[i].name) <= IndexOf(preferred, plan[j].name))
      && (plan[i].name !in preferred && plan[j].name !in preferred ==> plan[i].priority <= plan[j].priority)
  {
    var plan := Plan(fetchers, preferred);
    var key := (f: Fetcher) => RoutingKey(preferred, f);
    SortByOrders(fetchers, key);
    SortByPermutes(fetchers, key);
    assert key(plan[i]) <= key(plan[j]);
    PlanKeepsPriorities(fetchers, preferred, i);
  }

  /**
   * When a source with the market's first preferred name is registered and no
   * priority is negative, it is the first source tried.
   */
  lemma PlanStartsWithFirstPreferred(fetchers: seq<Fetcher>, preferred: seq<string>, k: nat)
    requires NonNegativePriorities(fetchers)
    requires |preferred| > 0 && k < |fetchers| && fetchers[k].name == preferred[0]
    ensures |Plan(fetchers, preferred)| > 0 && Plan(fetchers, preferred)[0].name == preferred[0]
  {
    var plan := Plan(fetchers, preferred);
    var key := (f: Fetcher) => RoutingKey(preferred, f);
    SortByOrders(fetchers, key);
    SortByPermutes(fetchers, key);
    assert fetchers[k] in multiset(fetchers);
    assert fetchers[k] in multiset(plan);
    var p :| 0 <= p < |plan| && plan[p] == fetchers[k];
    assert key(plan[p]) == 0;
    assert key(plan[0]) <= 0 by {
      if p > 0 { assert key(plan[0]) <= key(plan[p]); }
    }
    PlanKeepsPriorities(fetchers, preferred, 0);
  }

  /** For a US market the US source is tried first, for a European market the European source. */
  lemma MarketSourceTriedFirst(fetchers: seq<Fetcher>, m: Market, k: nat)
    requires NonNegativePriorities(fetchers) && k < |fetchers|
    requires (IsUS(m) && fetchers[k].name == "USStockFetcher") || (IsEU(m) && fetchers[k].name == "EUStockFetcher")
    ensures var plan := Plan(fetchers, DailyPreferred(m));
      |plan| > 0 && plan[0].name == fetchers[k].name
  {
    assert DailyPreferred(m)[0] == fetchers[k].name;
    PlanStartsWithFirstPreferred(fetchers, DailyPreferred(m), k);
  }

  /** How the attempts ended when no source produced data: `DataFetchError(summary)` as intended, or the `NameError` actually raised. */
  datatype DailyFailure = DataFetchError(message: string) | NameError(undefinedName: string)

  /** The summary the manager means to raise: a header line, then one line per failed source. */
  function FailureSummary(stockCode: string, lines: seq<string>): string {
    "所有数据源获取 " + stockCode + " 失败:\n" + Join(lines, "\n")
  }

  /** The intended failure carries every per-source failure line. */
  lemma FailureSummaryKeepsLines(stockCode: string, lines: seq<string>, i: nat)
    requires i < |lines|
    ensures ContainsSub(FailureSummary(stockCode, lines), lines[i])
  {
    JoinContainsParts(lines, "\n", i);
    var pre, post :| Join(lines, "\n") == pre + lines[i] + post;
    var header := "所有数据源获取 " + stockCode + " 失败:\n";
    assert FailureSummary(stockCode, lines) == (header + pre) + lines[i] + post;
    ContainsSubMiddle(header + pre, lines[i], post);
  }

  /**
   * The failure as written: the module raises `DataFetchError`, a name it never
   * defines or imports (it imports `DataFetcherError`), so Python raises a
   * `NameError` for that name instead.
   */
  function FailureAsWritten(stockCode: string, lines: seq<string>): DailyFailure {
    NameError("DataFetchError")
  }

  /** As written, the caller sees the same error whatever the sources reported: the summary is lost. */
  lemma FailureAsWrittenLosesSummary(stockCode: string, lines1: seq<string>, lines2: seq<string>)
    ensures FailureAsWritten(stockCode, lines1) == FailureAsWritten(stockCode, lines2)
    ensures !FailureAsWritten(stockCode, lines1).DataFetchError?
  {
  }

  /** The failure as intended: `DataFetchError` with the summary, which carries every failure line. */
  function FailureCorrected(stockCode: string, lines: seq<string>): (r: DailyFailure)
    ensures r.DataFetchError?
    ensures forall i :: 0 <= i < |lines| ==> ContainsSub(r.message, lines[i])
  {
    forall i | 0 <= i < |lines|
      ensures ContainsSub(FailureSummary(stockCode, lines), lines[i])
    {
      FailureSummaryKeepsLines(stockCode, lines, i);
    }
    DataFetchError(FailureSummary(stockCode, lines))
  }

  class MultiMarketDataFetcherManager {
    var fetchers: seq<Fetcher>

    /** The registered sources are kept in priority order. */
    ghost predicate Valid()
      reads this
    {
      SortedBy(fetchers, Priority)
    }

    /**
     * A non-empty list given by the caller is sorted by priority; otherwise the
     * default sources (passed in, since they are built by modules outside this
     * model) are sorted by priority.
     */
    constructor(given: seq<Fetcher>, defaults: seq<Fetcher>)
      ensures fetchers == SortBy(if |given| > 0 then given else defaults, Priority)
      ensures Valid()
    {
      fetchers := SortBy(if |given| > 0 then given else defaults, Priority);
      SortByOrders(if |given| > 0 then given else defaults, Priority);
    }

    /** `add_fetcher`: append, then re-sort by priority. */
    method AddFetcher(f: Fetcher)
      modifies this
      ensures fetchers == SortBy(old(fetchers) + [f], Priority)
      ensures Valid()
      ensures multiset(fetchers) == multiset(old(fetchers)) + multiset{f}
    {
      SortByOrders(fetchers + [f], Priority);
      SortByPermutes(fetchers + [f], Priority);
      fetchers := SortBy(fetchers + [f], Priority);
    }

    /** `available_fetchers`: the source names in their current order. */
    function AvailableFetchers(): (r: seq<string>)
      reads this
      ensures |r| == |fetchers|
      ensures forall i :: 0 <= i < |fetchers| ==> r[i] == fetchers[i].name
    {
      Names(fetchers)
    }

    /**
     * `get_daily_data`: the sources are tried in the routing order of the code's
     * market; the first one that returns data wins, an empty answer is skipped
     * silently, and a raised exception is recorded as a failure line. With no
     * winner the error carries every failure line (the corrected behaviour; see
     * FailureAsWritten).
     */
    method GetDailyData<D>(stockCode: string, call: Fetcher -> CallOutcome<D>)
      returns (r: Result<(D, string), DailyFailure>)
      ensures var plan := Plan(fetchers, DailyPreferred(FromStockCode(stockCode)));
        r.Success? <==> exists i :: 0 <= i < |plan| && call(plan[i]).Data?
      ensures var plan := Plan(fetchers, DailyPreferred(FromStockCode(stockCode)));
        r.Success? ==> exists i :: FirstData(plan, call, i) && call(plan[i]) == Data(r.value.0) && r.value.1 == plan[i].name
      ensures var plan := Plan(fetchers, DailyPreferred(FromStockCode(stockCode)));
        r.Failure? ==> r.error == FailureCorrected(stockCode, FailureLines(plan, call))
    {
      var plan := Plan(fetchers, DailyPreferred(FromStockCode(stockCode)));
      var attempt := TryInOrder(plan, call);
      match attempt {
        case Success(v) => r := Success(v);
        case Failure(lines) => r := Failure(FailureCorrected(stockCode, lines));
      }
    }

    /**
     * `get_realtime_quote`: the sources are tried in the real-time routing order;
     * a source without a quote operation is skipped, the first source that returns
     * a quote wins, and an empty answer or an exception moves on. With no winner the
     * result is `None`.
     */
    method GetRealtimeQuote<Q>(stockCode: string, call: Fetcher -> CallOutcome<Q>) returns (r: Option<Q>)
      ensures var plan := Plan(fetchers, RealtimePreferred(FromStockCode(stockCode)));
        r.Some? <==> exists i :: 0 <= i < |plan| && Serves(plan[i], call)
      ensures var plan := Plan(fetchers, RealtimePreferred(FromStockCode(stockCode)));
        r.Some? ==> exists i :: FirstServer(plan, call, i) && call(plan[i]) == Data(r.value)
    {
      var plan := Plan(fetchers, RealtimePreferred(FromStockCode(stockCode)));
      r := FirstQuote(plan, call);
    }
  }

  /** Position `i` holds the first source in `plan` whose call returns data. */
  predicate FirstData<D>(plan: seq<Fetcher>, call: Fetcher -> CallOutcome<D>, i: int) {
    0 <= i < |plan| && call(plan[i]).Data? && forall j :: 0 <= j < i ==> !call(plan[j]).Data?
  }

  /** The loop of `get_daily_data` over a fixed order: the first data wins, else all failure lines. */
  method TryInOrder<D>(plan: seq<Fetcher>, call: Fetcher -> CallOutcome<D>) returns (r: Result<(D, string), seq<string>>)
    ensures r.Success? <==> exists i :: 0 <= i < |plan| && call(plan[i]).Data?
    ensures r.Success? ==> exists i :: FirstData(plan, call, i) && call(plan[i]) == Data(r.value.0) && r.value.1 == plan[i].name
    ensures r.Failure? ==> r.error == FailureLines(plan, call)
  {
    var lines: seq<string> := [];
    var i := 0;
    while i < |plan|
      invariant 0 <= i <= |plan|
      invariant forall j :: 0 <= j < i ==> !call(plan[j]).Data?
      invariant lines == FailureLines(plan[..i], call)
    {
      var f := plan[i];
      assert plan[..i + 1] == plan[..i] + [f];
      FailureLinesSnoc(plan[..i], f, call);
      match call(f) {
        case Data(d) =>
          assert FirstData(plan, call, i);
          r := Success((d, f.name));
          return;
        case Empty =>
        case Raised(msg) =>
          lines := lines + [FailureLine(f.name, msg)];
      }
      i := i + 1;
    }
    assert plan[..i] == plan;
    r := Failure(lines);
  }

  /** The source offers real-time quotes and its call returns one. */
  predicate Serves<Q>(f: Fetcher, call: Fetcher -> CallOutcome<Q>) {
    f.hasRealtimeQuote && call(f).Data?
  }

  predicate FirstServer<Q>(plan: seq<Fetcher>, call: Fetcher -> CallOutcome<Q>, i: int) {
    0 <= i < |plan| && Serves(plan[i], call) && forall j :: 0 <= j < i ==> !Serves(plan[j], call)
  }

  /** The loop of `get_realtime_quote` over a fixed order. */
  method FirstQuote<Q>(plan: seq<Fetcher>, call: Fetcher -> CallOutcome<Q>) returns (r: Option<Q>)
    ensures r.Some? <==> exists i :: 0 <= i < |plan| && Serves(plan[i], call)
    ensures r.Some? ==> exists i :: FirstServer(plan, call, i) && call(plan[i]) == Data(r.value)
  {
    var i := 0;
    while i < |plan|
      invariant 0 <= i <= |plan|
      invariant forall j :: 0 <= j < i ==> !Serves(plan[j], call)
    {
      var f := plan[i];
      if f.hasRealtimeQuote {
        match call(f) {
          case Data(q) =>
            assert FirstServer(plan, call, i);
            r := Some(q);
            return;
          case Empty =>
          case Raised(_) =>
        }
      }
      i := i + 1;
    }
    r := None;
  }

  /** Adding a source to a priority-ordered list places it after every source of equal or lower priority. */
  lemma AddFetcherPlacement(fs: seq<Fetcher>, f: Fetcher)
    requires SortedBy(fs, Priority)
    ensures SortBy(fs + [f], Priority) == Insert(f, fs, Priority)
  {
    var s := fs + [f];
    assert s[..|s| - 1] == fs;
    SortBySorted(fs, Priority);
  }
}
