/**
 * Factor scoring: each factor turns the analysis context into an optional
 * score, the scorer clamps the scores to [0, 100], rounds them, signals
 * them, and combines them into a weight-averaged total.
 */
module FactorScoring {
  import opened Wrappers
  import opened Text
  import opened Numeric

  // ---------------------------------------------------------------- helpers

  /** `_clamp`: `max(low, min(high, value))`. */
  function Clamp(value: real, low: real, high: real): (r: real)
    ensures low <= high ==> low <= r <= high
    ensures low <= value <= high ==> r == value
    ensures r >= low
  {
    var m := if high < value then high else value;
    if low > m then low else m
  }

  /**
   * A context value as `_to_float` sees it: absent (missing or None), a
   * value `float` accepts, or one it rejects.
   */
  datatype Input = Absent | Numeric(x: real) | NonNumeric

  /** `_to_float`. */
  function ToFloat(v: Input): Option<real> {
    if v.Numeric? then Some(v.x) else None
  }

  /** `_to_percent`: a fraction of magnitude at most one is read as a ratio and scaled to percent. */
  function ToPercent(v: Input): (r: Option<real>)
    ensures r.Some? <==> v.Numeric?
    ensures v.Numeric? && Abs(v.x) <= 1.0 ==> r == Some(v.x * 100.0)
    ensures v.Numeric? && Abs(v.x) > 1.0 ==> r == Some(v.x)
  {
    match ToFloat(v)
    case None => None
    case Some(x) => if Abs(x) <= 1.0 then Some(x * 100.0) else Some(x)
  }

  /** `_default_signal`. */
  function DefaultSignal(score: real): (r: string)
    ensures r == "bullish" <==> score >= 70.0
    ensures r == "neutral" <==> 55.0 <= score < 70.0
    ensures r == "bearish" <==> score < 55.0
  {
    if score >= 70.0 then "bullish"
    else if score >= 55.0 then "neutral"
    else "bearish"
  }

  function SignalRank(s: string): int {
    if s == "bullish" then 2 else if s == "neutral" then 1 else 0
  }

  /** A higher score never gives a weaker signal. */
  lemma DefaultSignalMonotone(s1: real, s2: real)
    requires s1 <= s2
    ensures SignalRank(DefaultSignal(s1)) <= SignalRank(DefaultSignal(s2))
  {
  }

  // ---------------------------------------------------------------- the context

  /** `context["today"]`. */
  datatype Today = Today(close: Input, ma5: Input, ma10: Input, ma20: Input, pctChg: Input, high: Input, low: Input)

  /** `context["realtime"]`. */
  datatype Realtime = Realtime(volumeRatio: Input, turnoverRate: Input, peRatio: Input, pbRatio: Input,
                               totalMv: Input, price: Input, dividendYield: Input)

  /** `context["fundamentals"]`. */
  datatype Fundamentals = Fundamentals(roe: Input, profitMargin: Input, debtToEquity: Input,
                                       operatingMargin: Input, grossMargin: Input,
                                       assetGrowth: Input, revenueGrowth: Input, dividendYield: Input,
                                       epsEstimate: Input, epsActual: Input, trailingEps: Input, forwardEps: Input)

  /** `context["chip"]`. */
  datatype Chip = Chip(profitRatio: Input, concentration90: Input, avgCost: Input)

  /**
   * The analysis context. A missing sub-dictionary is one whose entries are
   * all absent; `maStatus` is `context.get("ma_status") or ""`;
   * `biasMa5` comes from `context["trend_analysis"]`.
   */
  datatype Context = Context(maStatus: string, today: Today, biasMa5: Input, realtime: Realtime,
                             volumeChangeRatio: Input, fundamentals: Fundamentals, chip: Chip)

  // ---------------------------------------------------------------- the scorers

  /** The `ma_status` keywords, in the order they are tried. */
  function KeywordScore(status: string): (r: Option<real>)
    ensures r.Some? ==> r.value in {80.0, 20.0, 65.0, 35.0, 50.0}
    ensures ContainsSub(status, "多头") ==> r == Some(80.0)
  {
    if ContainsSub(status, "多头") then Some(80.0)
    else if ContainsSub(status, "空头") then Some(20.0)
    else if ContainsSub(status, "短期向好") then Some(65.0)
    else if ContainsSub(status, "短期走弱") then Some(35.0)
    else if ContainsSub(status, "震荡") then Some(50.0)
    else None
  }

  /** `_score_trend`: a keyword in the moving-average status decides; otherwise the order of close and the averages. */
  function Trend(c: Context): (r: Option<real>)
    ensures r.Some? ==> r.value in {80.0, 20.0, 65.0, 35.0, 50.0, 60.0, 40.0}
    ensures r.None? <==> (KeywordScore(Strip(c.maStatus)).None?
      && (ToFloat(c.today.close).None? || ToFloat(c.today.ma5).None? || ToFloat(c.today.ma10).None? || ToFloat(c.today.ma20).None?))
  {
    var keyword := KeywordScore(Strip(c.maStatus));
    if keyword.Some? then keyword
    else
      var close, ma5, ma10, ma20 := ToFloat(c.today.close), ToFloat(c.today.ma5), ToFloat(c.today.ma10), ToFloat(c.today.ma20);
      if close.None? || ma5.None? || ma10.None? || ma20.None? then None
      else
        var p, a5, a10, a20 := close.value, ma5.value, ma10.value, ma20.value;
        if p > a5 > a10 > a20 then Some(80.0)
        else if p < a5 < a10 < a20 then Some(20.0)
        else if p > a5 && a5 > a10 then Some(60.0)
        else if p < a5 && a5 < a10 then Some(40.0)
        else Some(50.0)
  }

  /** A status keyword takes precedence: the moving averages are then not consulted. */
  lemma TrendKeywordFirst(c: Context, today: Today)
    requires KeywordScore(Strip(c.maStatus)).Some?
    ensures Trend(c) == Trend(c.(today := today)) == KeywordScore(Strip(c.maStatus))
  {
  }

  /** A bullish alignment of close and averages scores 80, a bearish one 20, when no keyword decides. */
  lemma TrendAlignment(c: Context)
    requires KeywordScore(Strip(c.maStatus)).None?
    requires c.today.close.Numeric? && c.today.ma5.Numeric? && c.today.ma10.Numeric? && c.today.ma20.Numeric?
    ensures c.today.close.x > c.today.ma5.x > c.today.ma10.x > c.today.ma20.x ==> Trend(c) == Some(80.0)
    ensures c.today.close.x < c.today.ma5.x < c.today.ma10.x < c.today.ma20.x ==> Trend(c) == Some(20.0)
  {
  }

  /** `_score_momentum`. */
  function Momentum(c: Context): (r: Option<real>)
    ensures r.None? <==> ToFloat(c.today.pctChg).None? && ToFloat(c.biasMa5).None?
    ensures r.Some? ==> 20.0 <= r.value <= 75.0
  {
    var pct, bias := ToFloat(c.today.pctChg), ToFloat(c.biasMa5);
    var s1 := if pct.None? then 50.0 else
      var p := pct.value;
      if 0.0 <= p <= 3.0 then 65.0
      else if 3.0 < p <= 5.0 then 55.0
      else if p > 5.0 then 40.0
      else if -3.0 <= p < 0.0 then 45.0
      else if -5.0 <= p < -3.0 then 40.0
      else 35.0;
    var s2 := if bias.None? then s1 else
      if bias.value < 2.0 then s1 + 10.0
      else if bias.value > 5.0 then s1 - 15.0
      else s1;
    if pct.Some? || bias.Some? then Some(s2) else None
  }

  /** `_score_volume`. */
  function Volume(c: Context): (r: Option<real>)
    ensures r.None? <==>
      ToFloat(c.realtime.volumeRatio).None? && ToFloat(c.realtime.turnoverRate).None? && ToFloat(c.volumeChangeRatio).None?
    ensures r.Some? ==> 25.0 <= r.value <= 70.0
  {
    var vr, tr, vcr := ToFloat(c.realtime.volumeRatio), ToFloat(c.realtime.turnoverRate), ToFloat(c.volumeChangeRatio);
    var s1 := if vr.None? then 50.0 else
      var v := vr.value;
      if v < 0.5 then 35.0
      else if v < 0.8 then 42.0
      else if v < 1.2 then 55.0
      else if v < 2.0 then 60.0
      else if v < 3.0 then 55.0
      else 45.0;
    var s2 := if tr.None? then s1 else
      if tr.value > 8.0 then s1 + 5.0 else if tr.value < 1.0 then s1 - 5.0 else s1;
    var s3 := if vcr.None? then s2 else
      if vcr.value > 1.5 then s2 + 5.0 else if vcr.value < 0.7 then s2 - 5.0 else s2;
    if vr.Some? || tr.Some? || vcr.Some? then Some(s3) else None
  }

  /** `_score_valuation`, which `_score_value` returns unchanged. */
  function Valuation(c: Context): (r: Option<real>)
    ensures r.None? <==> ToFloat(c.realtime.peRatio).None? && ToFloat(c.realtime.pbRatio).None?
    ensures r.Some? ==> 30.0 <= r.value <= 65.0
  {
    var pe, pb := ToFloat(c.realtime.peRatio), ToFloat(c.realtime.pbRatio);
    var s1 := if pe.None? then 50.0 else
      var x := pe.value;
      if 10.0 <= x <= 30.0 then 60.0
      else if 30.0 < x <= 60.0 then 52.0
      else if x < 5.0 then 40.0
      else if x > 80.0 then 35.0
      else 50.0;
    var s2 := if pb.None? then s1 else
      var y := pb.value;
      if 1.0 <= y <= 4.0 then s1 + 5.0
      else if y > 10.0 then s1 - 5.0
      else if y < 0.5 then s1 - 5.0
      else s1;
    if pe.Some? || pb.Some? then Some(s2) else None
  }

  /** The score of a market capitalisation. */
  function SizeOfCap(totalMv: real): (r: real)
    ensures r in {35.0, 50.0, 65.0, 75.0}
  {
    if totalMv < 5000000000.0 then 35.0
    else if totalMv < 50000000000.0 then 50.0
    else if totalMv < 200000000000.0 then 65.0
    else 75.0
  }

  /** A larger company never scores lower. */
  lemma SizeMonotone(mv1: real, mv2: real)
    requires mv1 <= mv2
    ensures SizeOfCap(mv1) <= SizeOfCap(mv2)
  {
  }

  /** `_score_size`. */
  function Size(c: Context): (r: Option<real>)
    ensures r.None? <==> ToFloat(c.realtime.totalMv).None?
    ensures r.Some? ==> r.value == SizeOfCap(c.realtime.totalMv.x)
  {
    match ToFloat(c.realtime.totalMv)
    case None => None
    case Some(mv) => Some(SizeOfCap(mv))
  }

  /** The score of an intraday range relative to the close. */
  function VolatilityOfRange(range: real): (r: real)
    ensures r in {80.0, 65.0, 50.0, 35.0, 20.0}
  {
    if range < 0.02 then 80.0
    else if range < 0.05 then 65.0
    else if range < 0.08 then 50.0
    else if range < 0.12 then 35.0
    else 20.0
  }

  /** A wider range never scores higher. */
  lemma VolatilityAntitone(r1: real, r2: real)
    requires r1 <= r2
    ensures VolatilityOfRange(r1) >= VolatilityOfRange(r2)
  {
  }

  /** `_score_low_volatility`: `(high - low) / close`, undefined without all three or with a zero close. */
  function LowVolatility(c: Context): (r: Option<real>)
    ensures r.None? <==>
      ToFloat(c.today.high).None? || ToFloat(c.today.low).None? || ToFloat(c.today.close).None? || c.today.close.x == 0.0
    ensures r.Some? ==> r.value == VolatilityOfRange((c.today.high.x - c.today.low.x) / c.today.close.x)
  {
    var high, low, close := ToFloat(c.today.high), ToFloat(c.today.low), ToFloat(c.today.close);
    if high.None? || low.None? || close.None? || close.value == 0.0 then None
    else Some(VolatilityOfRange((high.value - low.value) / close.value))
  }

  /** `_score_quality`: return on equity, profit margin and debt to equity, all read as percentages. */
  function Quality(c: Context): (r: Option<real>)
    ensures r.None? <==>
      !c.fundamentals.roe.Numeric? && !c.fundamentals.profitMargin.Numeric? && !c.fundamentals.debtToEquity.Numeric?
    ensures r.Some? ==> 22.0 <= r.value <= 83.0
  {
    var roe, pm, de := ToPercent(c.fundamentals.roe), ToPercent(c.fundamentals.profitMargin), ToPercent(c.fundamentals.debtToEquity);
    var s1 := if roe.None? then 50.0 else
      if roe.value >= 15.0 then 65.0 else if roe.value >= 8.0 then 58.0 else if roe.value < 5.0 then 40.0 else 50.0;
    var s2 := if pm.None? then s1 else
      if pm.value >= 15.0 then s1 + 10.0 else if pm.value >= 8.0 then s1 + 5.0 else if pm.value < 3.0 then s1 - 8.0 else s1;
    var s3 := if de.None? then s2 else
      var d := de.value;
      if d <= 50.0 then s2 + 8.0
      else if d <= 100.0 then s2 + 4.0
      else if d > 200.0 then s2 - 10.0
      else if d > 150.0 then s2 - 6.0
      else s2;
    if roe.Some? || pm.Some? || de.Some? then Some(s3) else None
  }

  /** `_score_profitability`: profit, operating and gross margins as percentages. */
  function Profitability(c: Context): (r: Option<real>)
    ensures r.None? <==>
      !c.fundamentals.profitMargin.Numeric? && !c.fundamentals.operatingMargin.Numeric? && !c.fundamentals.grossMargin.Numeric?
    ensures r.Some? ==> 30.0 <= r.value <= 74.0
  {
    var pm, om, gm := ToPercent(c.fundamentals.profitMargin), ToPercent(c.fundamentals.operatingMargin), ToPercent(c.fundamentals.grossMargin);
    var s1 := if pm.None? then 50.0 else
      if pm.value >= 15.0 then 60.0 else if pm.value >= 8.0 then 55.0 else if pm.value < 3.0 then 42.0 else 50.0;
    var s2 := if om.None? then s1 else
      if om.value >= 12.0 then s1 + 8.0 else if om.value < 2.0 then s1 - 6.0 else s1;
    var s3 := if gm.None? then s2 else
      if gm.value >= 30.0 then s2 + 6.0 else if gm.value < 10.0 then s2 - 6.0 else s2;
    if pm.Some? || om.Some? || gm.Some? then Some(s3) else None
  }

  /** `_score_investment`: asset growth, or revenue growth when asset growth is missing. */
  function Investment(c: Context): (r: Option<real>)
    ensures r.None? <==> !c.fundamentals.assetGrowth.Numeric? && !c.fundamentals.revenueGrowth.Numeric?
    ensures r.Some? ==> 40.0 <= r.value <= 60.0
  {
    var ag, rg := ToPercent(c.fundamentals.assetGrowth), ToPercent(c.fundamentals.revenueGrowth);
    if ag.Some? then
      var g := ag.value;
      Some(if g < 0.0 then 55.0 else if g <= 5.0 then 60.0 else if g <= 15.0 then 55.0 else if g > 30.0 then 40.0 else 50.0)
    else if rg.Some? then
      var g := rg.value;
      Some(if 0.0 <= g <= 15.0 then 55.0 else if g > 25.0 then 45.0 else if g < 0.0 then 45.0 else 50.0)
    else None
  }

  /** Revenue growth is consulted only when asset growth is missing. */
  lemma InvestmentPrefersAssetGrowth(c: Context, revenueGrowth: Input)
    requires c.fundamentals.assetGrowth.Numeric?
    ensures Investment(c) == Investment(c.(fundamentals := c.fundamentals.(revenueGrowth := revenueGrowth)))
  {
  }

  /** `_score_liquidity`. */
  function Liquidity(c: Context): (r: Option<real>)
    ensures r.None? <==> ToFloat(c.realtime.volumeRatio).None? && ToFloat(c.realtime.turnoverRate).None?
    ensures r.Some? ==> 27.0 <= r.value <= 70.0
  {
    var vr, tr := ToFloat(c.realtime.volumeRatio), ToFloat(c.realtime.turnoverRate);
    var s1 := if vr.None? then 50.0 else
      var v := vr.value;
      if v < 0.6 then 35.0 else if v < 0.9 then 42.0 else if v < 1.5 then 58.0 else if v < 2.5 then 62.0 else 55.0;
    var s2 := if tr.None? then s1 else
      if tr.value > 8.0 then s1 + 8.0 else if tr.value < 1.0 then s1 - 8.0 else s1;
    if vr.Some? || tr.Some? then Some(s2) else None
  }

  /** The dividend yield consulted: the fundamentals' value unless it is absent, then the real-time one. */
  function DividendSource(c: Context): Input {
    if c.fundamentals.dividendYield.Absent? then c.realtime.dividendYield else c.fundamentals.dividendYield
  }

  /** `_score_dividend_yield`. */
  function DividendYield(c: Context): (r: Option<real>)
    ensures r.None? <==> !DividendSource(c).Numeric?
    ensures r.Some? ==> r.value in {70.0, 62.0, 55.0, 45.0}
  {
    match ToPercent(DividendSource(c))
    case None => None
    case Some(y) => Some(if y >= 5.0 then 70.0 else if y >= 2.0 then 62.0 else if y >= 0.5 then 55.0 else 45.0)
  }

  /**
   * Any fundamentals value other than None shadows the real-time yield, even
   * one that `float` rejects, which leaves the factor unscored.
   */
  lemma DividendPrefersFundamentals(c: Context, realtimeYield: Input)
    requires !c.fundamentals.dividendYield.Absent?
    ensures DividendYield(c) == DividendYield(c.(realtime := c.realtime.(dividendYield := realtimeYield)))
    ensures c.fundamentals.dividendYield.NonNumeric? ==> DividendYield(c).None?
  {
  }

  /** The surprise of `actual` against a non-zero `estimate`, as scored. */
  function SurpriseScore(actual: real, estimate: real): (r: real)
    requires estimate != 0.0
    ensures r in {70.0, 60.0, 40.0, 50.0}
  {
    var surprise := (actual - estimate) / Abs(estimate);
    if surprise >= 0.05 then 70.0 else if surprise > 0.0 then 60.0 else if surprise <= -0.05 then 40.0 else 50.0
  }

  /** The revision of a forward against a non-zero trailing figure, as scored. */
  function RevisionScore(forward: real, trailing: real): (r: real)
    requires trailing != 0.0
    ensures r in {68.0, 58.0, 40.0, 50.0}
  {
    var revision := (forward - trailing) / Abs(trailing);
    if revision >= 0.05 then 68.0 else if revision > 0.0 then 58.0 else if revision <= -0.05 then 40.0 else 50.0
  }

  /** `_score_earnings_revisions`: the earnings surprise when there is one, else the estimate revision. */
  function EarningsRevisions(c: Context): (r: Option<real>)
    ensures r.None? <==>
      !(c.fundamentals.epsEstimate.Numeric? && c.fundamentals.epsEstimate.x != 0.0 && c.fundamentals.epsActual.Numeric?)
      && !(c.fundamentals.trailingEps.Numeric? && c.fundamentals.trailingEps.x != 0.0 && c.fundamentals.forwardEps.Numeric?)
    ensures r.Some? ==> r.value in {70.0, 60.0, 40.0, 50.0, 68.0, 58.0}
  {
    var f := c.fundamentals;
    var est, act, trailing, forward := ToFloat(f.epsEstimate), ToFloat(f.epsActual), ToFloat(f.trailingEps), ToFloat(f.forwardEps);
    if est.Some? && est.value != 0.0 && act.Some? then Some(SurpriseScore(act.value, est.value))
    else if trailing.Some? && trailing.value != 0.0 && forward.Some? then Some(RevisionScore(forward.value, trailing.value))
    else None
  }

  /** With a usable surprise the trailing and forward figures do not matter. */
  lemma EarningsPreferSurprise(c: Context, trailing: Input, forward: Input)
    requires c.fundamentals.epsEstimate.Numeric? && c.fundamentals.epsEstimate.x != 0.0 && c.fundamentals.epsActual.Numeric?
    ensures EarningsRevisions(c) == Some(SurpriseScore(c.fundamentals.epsActual.x, c.fundamentals.epsEstimate.x))
    ensures EarningsRevisions(c) == EarningsRevisions(c.(fundamentals := c.fundamentals.(trailingEps := trailing, forwardEps := forward)))
  {
  }

  /** The price the chip factor compares with the average cost: the real-time price, else the close. */
  function CurrentPrice(c: Context): Option<real> {
    if ToFloat(c.realtime.price).Some? then ToFloat(c.realtime.price) else ToFloat(c.today.close)
  }

  /** `_score_chip`. */
  function ChipScore(c: Context): (r: Option<real>)
    ensures r.None? <==>
      ToFloat(c.chip.profitRatio).None? && ToFloat(c.chip.concentration90).None?
      && (ToFloat(c.chip.avgCost).None? || CurrentPrice(c).None?)
    ensures r.Some? ==> 25.0 <= r.value <= 75.0
  {
    var pr, conc, cost, price := ToFloat(c.chip.profitRatio), ToFloat(c.chip.concentration90), ToFloat(c.chip.avgCost), CurrentPrice(c);
    var s1 := if pr.None? then 50.0 else
      var p := pr.value;
      if 0.4 <= p <= 0.8 then 60.0 else if p > 0.9 then 40.0 else if p < 0.2 then 40.0 else 50.0;
    var s2 := if conc.None? then s1 else
      if conc.value < 0.15 then s1 + 10.0 else if conc.value > 0.35 then s1 - 10.0 else s1;
    var paired := cost.Some? && price.Some?;
    var s3 := if !paired then s2 else
      if price.value > cost.value * 1.03 then s2 + 5.0 else if price.value < cost.value * 0.97 then s2 - 5.0 else s2;
    if pr.Some? || conc.Some? || paired then Some(s3) else None
  }

  /** `_score_risk`: can fall below zero, which the clamp in `score` absorbs. */
  function Risk(c: Context): (r: Option<real>)
    ensures r.None? <==>
      ToFloat(c.biasMa5).None? && ToFloat(c.today.pctChg).None?
      && (ToFloat(c.today.high).None? || ToFloat(c.today.low).None? || ToFloat(c.today.close).None? || c.today.close.x == 0.0)
    ensures r.Some? ==> -5.0 <= r.value <= 70.0
  {
    var pct, bias := ToFloat(c.today.pctChg), ToFloat(c.biasMa5);
    var high, low, close := ToFloat(c.today.high), ToFloat(c.today.low), ToFloat(c.today.close);
    var s1 := if bias.None? then 60.0 else
      if bias.value > 8.0 then 30.0 else if bias.value > 5.0 then 40.0 else if bias.value < 2.0 then 70.0 else 60.0;
    var s2 := if pct.None? then s1 else
      if Abs(pct.value) > 10.0 then s1 - 25.0 else if Abs(pct.value) > 7.0 then s1 - 15.0 else s1;
    var ranged := high.Some? && low.Some? && close.Some? && close.value != 0.0;
    var s3 := if !ranged then s2 else
      if (high.value - low.value) / close.value > 0.08 then s2 - 10.0 else s2;
    if bias.Some? || pct.Some? || ranged then Some(s3) else None
  }

  /** The most negative risk score: stretched above the five-day average, a limit move and a wide range. */
  lemma RiskCanBeNegative(c: Context)
    requires c.biasMa5 == Numeric(9.0) && c.today.pctChg == Numeric(11.0)
    requires c.today.high == Numeric(110.0) && c.today.low == Numeric(90.0) && c.today.close == Numeric(100.0)
    ensures Risk(c) == Some(-5.0)
  {
  }

  // ---------------------------------------------------------------- the scorer

  /** `FactorDefinition`. */
  datatype Factor = Factor(name: string, weight: real, scorer: Context -> Option<real>, signaler: real -> string)

  /** The three dictionaries and two accumulators the scoring loop fills. */
  datatype Tally = Tally(scores: map<string, real>, signals: map<string, string>, weights: map<string, real>,
                         weightedSum: real, totalWeight: real)

  const EmptyTally: Tally := Tally(map[], map[], map[], 0.0, 0.0)

  /** One pass of the loop: a factor without a score is skipped; otherwise its clamped score is recorded. */
  function Step(t: Tally, f: Factor, c: Context): Tally {
    match f.scorer(c)
    case None => t
    case Some(raw) =>
      var s := Clamp(raw, 0.0, 100.0);
      Tally(t.scores[f.name := Round2(s)], t.signals[f.name := f.signaler(s)], t.weights[f.name := f.weight],
            t.weightedSum + s * f.weight, t.totalWeight + f.weight)
  }

  /** The loop's state after the factors `fs`, in order. */
  function Accumulate(fs: seq<Factor>, c: Context): (t: Tally)
    ensures t.scores.Keys == t.signals.Keys == t.weights.Keys
    ensures forall n :: n in t.scores ==> 0.0 <= t.scores[n] <= 100.0
  {
    if |fs| == 0 then EmptyTally
    else
      var last := fs[|fs| - 1];
      var t := Accumulate(fs[..|fs| - 1], c);
      Round2InPercentRange(Clamp(last.scorer(c).GetOr(0.0), 0.0, 100.0));
      Step(t, last, c)
  }

  /** A factor whose scorer returns nothing leaves the tally as it was. */
  lemma StepSkip(t: Tally, f: Factor, c: Context)
    requires f.scorer(c).None?
    ensures Step(t, f, c) == t
  {
  }

  /** A factor whose scorer returns a value records its clamped score, signal and weight. */
  lemma StepScore(t: Tally, f: Factor, c: Context, s: real)
    requires f.scorer(c).Some? && s == Clamp(f.scorer(c).value, 0.0, 100.0)
    ensures Step(t, f, c) == Tally(t.scores[f.name := Round2(s)], t.signals[f.name := f.signaler(s)],
                                   t.weights[f.name := f.weight], t.weightedSum + s * f.weight, t.totalWeight + f.weight)
  {
  }

  /** One more factor is one more step. */
  lemma AccumulateSnoc(fs: seq<Factor>, i: nat, c: Context)
    requires i < |fs|
    ensures Accumulate(fs[..i + 1], c) == Step(Accumulate(fs[..i], c), fs[i], c)
  {
    assert fs[..i + 1][..i] == fs[..i];
  }

  /** A factor is scored when its scorer returns a value. */
  predicate ScoredIn(fs: seq<Factor>, c: Context, name: string) {
    exists i :: 0 <= i < |fs| && fs[i].name == name && fs[i].scorer(c).Some?
  }

  /** A name has a score exactly when one of its factors produced a value; skipped factors leave no trace. */
  lemma {:induction false} AccumulateScoredIff(fs: seq<Factor>, c: Context, name: string)
    ensures name in Accumulate(fs, c).scores <==> ScoredIn(fs, c, name)
  {
    if |fs| > 0 {
      var init := fs[..|fs| - 1];
      AccumulateScoredIff(init, c, name);
      if ScoredIn(init, c, name) {
        var i :| 0 <= i < |init| && init[i].name == name && init[i].scorer(c).Some?;
        assert fs[i] == init[i];
      }
      if ScoredIn(fs, c, name) && !(fs[|fs| - 1].name == name && fs[|fs| - 1].scorer(c).Some?) {
        var i :| 0 <= i < |fs| && fs[i].name == name && fs[i].scorer(c).Some?;
        assert i < |init| && init[i] == fs[i];
      }
    }
  }

  /** The weight of the scored factors, summed front to back. */
  function ScoredWeight(fs: seq<Factor>, c: Context): real {
    if |fs| == 0 then 0.0
    else (if fs[0].scorer(c).Some? then fs[0].weight else 0.0) + ScoredWeight(fs[1..], c)
  }

  lemma {:induction false} ScoredWeightAppend(fs: seq<Factor>, f: Factor, c: Context)
    ensures ScoredWeight(fs + [f], c) == ScoredWeight(fs, c) + (if f.scorer(c).Some? then f.weight else 0.0)
  {
    if |fs| > 0 {
      assert (fs + [f])[1..] == fs[1..] + [f];
      ScoredWeightAppend(fs[1..], f, c);
    } else {
      assert (fs + [f])[1..] == [];
    }
  }

  /** The loop's total weight is the summed weight of the factors that were not skipped. */
  lemma {:induction false} AccumulateTotalWeight(fs: seq<Factor>, c: Context)
    ensures Accumulate(fs, c).totalWeight == ScoredWeight(fs, c)
  {
    if |fs| > 0 {
      var init := fs[..|fs| - 1];
      AccumulateTotalWeight(init, c);
      assert init + [fs[|fs| - 1]] == fs;
      ScoredWeightAppend(init, fs[|fs| - 1], c);
    }
  }

  /** What one factor adds to the weighted sum: its clamped score times its weight, or nothing when skipped. */
  function WeightedTerm(f: Factor, c: Context): real {
    match f.scorer(c)
    case None => 0.0
    case Some(raw) => Clamp(raw, 0.0, 100.0) * f.weight
  }

  /** The weighted sum of the scored factors, summed front to back. */
  function ScoredSum(fs: seq<Factor>, c: Context): real {
    if |fs| == 0 then 0.0 else WeightedTerm(fs[0], c) + ScoredSum(fs[1..], c)
  }

  lemma {:induction false} ScoredSumAppend(fs: seq<Factor>, f: Factor, c: Context)
    ensures ScoredSum(fs + [f], c) == ScoredSum(fs, c) + WeightedTerm(f, c)
  {
    if |fs| > 0 {
      assert (fs + [f])[1..] == fs[1..] + [f];
      ScoredSumAppend(fs[1..], f, c);
    } else {
      assert (fs + [f])[1..] == [];
    }
  }

  /** The loop's weighted sum is the front-to-back sum of clamped score times weight over the factors not skipped. */
  lemma {:induction false} AccumulateWeightedSum(fs: seq<Factor>, c: Context)
    ensures Accumulate(fs, c).weightedSum == ScoredSum(fs, c)
  {
    if |fs| > 0 {
      var init := fs[..|fs| - 1];
      var last := fs[|fs| - 1];
      AccumulateWeightedSum(init, c);
      assert init + [last] == fs;
      ScoredSumAppend(init, last, c);
      assert Accumulate(fs, c).weightedSum == Accumulate(init, c).weightedSum + WeightedTerm(last, c);
    }
  }

  lemma ProductBounds(s: real, w: real)
    requires 0.0 <= s <= 100.0 && w >= 0.0
    ensures 0.0 <= s * w <= 100.0 * w
  {
  }

  /** With no negative weight, the weighted sum lies between 0 and 100 times the total weight. */
  lemma {:induction false} AccumulateSumBounds(fs: seq<Factor>, c: Context)
    requires forall i :: 0 <= i < |fs| ==> fs[i].weight >= 0.0
    ensures var t := Accumulate(fs, c); 0.0 <= t.totalWeight && 0.0 <= t.weightedSum <= 100.0 * t.totalWeight
  {
    if |fs| > 0 {
      var last := fs[|fs| - 1];
      var t := Accumulate(fs[..|fs| - 1], c);
      AccumulateSumBounds(fs[..|fs| - 1], c);
      if last.scorer(c).Some? {
        var s := Clamp(last.scorer(c).value, 0.0, 100.0);
        ProductBounds(s, last.weight);
        assert Accumulate(fs, c).weightedSum == t.weightedSum + s * last.weight;
        assert Accumulate(fs, c).totalWeight == t.totalWeight + last.weight;
        assert last.weight >= 0.0;
        assert t.weightedSum <= 100.0 * t.totalWeight;
        assert s * last.weight <= 100.0 * last.weight;
        assert t.weightedSum + s * last.weight <= 100.0 * t.totalWeight + 100.0 * last.weight;
      } else {
        assert Accumulate(fs, c) == t;
      }
    }
  }

  lemma RatioBounds(sum: real, total: real)
    requires total > 0.0 && 0.0 <= sum <= 100.0 * total
    ensures 0.0 <= sum / total <= 100.0
  {
  }

  /** What `score` returns. */
  datatype Report = Report(totalScore: Option<real>, scores: map<string, real>, signals: map<string, string>,
                           weights: map<string, real>, order: seq<string>)

  /**
   * `FactorScorer.score` over the factor list `fs`: every factor's name in
   * `order`, the scores of the factors not skipped, and a rounded weighted
   * mean with its signal under "overall" when the scored weight is positive.
   */
  function ScoreOf(fs: seq<Factor>, c: Context): (r: Report)
    ensures |r.order| == |fs| && forall i :: 0 <= i < |fs| ==> r.order[i] == fs[i].name
    ensures r.scores == Accumulate(fs, c).scores && r.weights == Accumulate(fs, c).weights
    ensures r.totalScore.Some? <==> ScoredWeight(fs, c) > 0.0
    ensures r.totalScore.Some? ==> r.totalScore.value == Round2(ScoredSum(fs, c) / ScoredWeight(fs, c))
    ensures r.totalScore.Some? ==> r.signals == Accumulate(fs, c).signals["overall" := DefaultSignal(r.totalScore.value)]
    ensures r.totalScore.None? ==> r.signals == Accumulate(fs, c).signals
  {
    AccumulateTotalWeight(fs, c);
    AccumulateWeightedSum(fs, c);
    var t := Accumulate(fs, c);
    var total := if t.totalWeight > 0.0 then Some(Round2(t.weightedSum / t.totalWeight)) else None;
    Report(total, t.scores, if total.Some? then t.signals["overall" := DefaultSignal(total.value)] else t.signals,
           t.weights, seq(|fs|, i requires 0 <= i < |fs| => fs[i].name))
  }

  /** With no negative weight the total is a weighted mean of clamped scores, so it lies in [0, 100]. */
  lemma TotalInRange(fs: seq<Factor>, c: Context)
    requires forall i :: 0 <= i < |fs| ==> fs[i].weight >= 0.0
    requires ScoreOf(fs, c).totalScore.Some?
    ensures 0.0 <= ScoreOf(fs, c).totalScore.value <= 100.0
  {
    var t := Accumulate(fs, c);
    AccumulateTotalWeight(fs, c);
    AccumulateSumBounds(fs, c);
    RatioBounds(t.weightedSum, t.totalWeight);
    Round2InPercentRange(t.weightedSum / t.totalWeight);
  }

  class FactorScorer {
    var factors: seq<Factor>

    /** `FactorScorer(factors)`: keeps its own copy of the list. */
    constructor(factors: seq<Factor>)
      ensures this.factors == factors
    {
      this.factors := factors;
    }

    /** `add_factor`: appends one factor at the end. */
    method AddFactor(factor: Factor)
      modifies this
      ensures factors == old(factors) + [factor]
    {
      factors := factors + [factor];
    }

    /** `score`. */
    method Score(context: Context) returns (report: Report)
      ensures report == ScoreOf(factors, context)
    {
      var fs := factors;
      var scores: map<string, real> := map[];
      var signals: map<string, string> := map[];
      var weights: map<string, real> := map[];
      var totalWeight := 0.0;
      var weightedSum := 0.0;
      for i := 0 to |fs|
        invariant Tally(scores, signals, weights, weightedSum, totalWeight) == Accumulate(fs[..i], context)
      {
        var factor := fs[i];
        AccumulateSnoc(fs, i, context);
        var rawScore := factor.scorer(context);
        if rawScore.None? {
          StepSkip(Accumulate(fs[..i], context), factor, context);
          continue;
        }
        var score := Clamp(rawScore.value, 0.0, 100.0);
        StepScore(Accumulate(fs[..i], context), factor, context, score);
        scores := scores[factor.name := Round2(score)];
        signals := signals[factor.name := factor.signaler(score)];
        weights := weights[factor.name := factor.weight];
        weightedSum := weightedSum + score * factor.weight;
        totalWeight := totalWeight + factor.weight;
      }
      assert fs[..|fs|] == fs;
      var totalScore: Option<real> := None;
      if totalWeight > 0.0 {
        totalScore := Some(Round2(weightedSum / totalWeight));
      }
      if totalScore.Some? {
        signals := signals["overall" := DefaultSignal(totalScore.value)];
      }
      var order := seq(|fs|, i requires 0 <= i < |fs| => fs[i].name);
      report := Report(totalScore, scores, signals, weights, order);
    }
  }

  // ---------------------------------------------------------------- the default scorer

  const DefaultFactors: seq<Factor> := [
    Factor("size", 0.08, Size, DefaultSignal),
    Factor("value", 0.1, Valuation, DefaultSignal),
    Factor("momentum", 0.12, Momentum, DefaultSignal),
    Factor("low_volatility", 0.1, LowVolatility, DefaultSignal),
    Factor("quality", 0.1, Quality, DefaultSignal),
    Factor("profitability", 0.1, Profitability, DefaultSignal),
    Factor("investment", 0.08, Investment, DefaultSignal),
    Factor("liquidity", 0.12, Liquidity, DefaultSignal),
    Factor("dividend_yield", 0.1, DividendYield, DefaultSignal),
    Factor("earnings_revisions", 0.1, EarningsRevisions, DefaultSignal),
    Factor("trend", 0.25, Trend, DefaultSignal),
    Factor("volume", 0.2, Volume, DefaultSignal),
    Factor("chip", 0.1, ChipScore, DefaultSignal),
    Factor("risk", 0.1, Risk, DefaultSignal)]

  /** Every default weight is positive, so the default total always lies in [0, 100]. */
  lemma DefaultWeightsPositive()
    ensures forall i :: 0 <= i < |DefaultFactors| ==> DefaultFactors[i].weight > 0.0
  {
  }

  /** `build_default_factor_scorer`. */
  method BuildDefaultFactorScorer() returns (s: FactorScorer)
    ensures fresh(s) && s.factors == DefaultFactors
  {
    s := new FactorScorer(DefaultFactors);
  }
}
