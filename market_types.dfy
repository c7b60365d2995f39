/**
 * The market enumeration and its helpers: classifying a stock code into a
 * market, the per-market lookup tables, code normalisation, format
 * validation and the local-time trading window.
 */
module MarketTypes {
  import opened Wrappers
  import opened Text

  datatype Market =
    | ChinaA | HongKong
    | UsNyse | UsNasdaq | UsAmex
    | UkLse | GerXetra | FraEuronext | SwxSix | Euronext

  /** The enum's value string, which the currency converter uses as its key. */
  function Value(m: Market): string {
    match m
    case ChinaA => "CN_A"
    case HongKong => "HK"
    case UsNyse => "US_NYSE"
    case UsNasdaq => "US_NASDAQ"
    case UsAmex => "US_AMEX"
    case UkLse => "UK_LSE"
    case GerXetra => "GER_XETRA"
    case FraEuronext => "FRA_EURONEXT"
    case SwxSix => "SWX_SIX"
    case Euronext => "EURONEXT"
  }

  predicate IsUS(m: Market) { m.UsNyse? || m.UsNasdaq? || m.UsAmex? }

  predicate IsEU(m: Market) { m.UkLse? || m.GerXetra? || m.FraEuronext? || m.SwxSix? || m.Euronext? }

  // ---------------------------------------------------------------- classification

  /** `stock_code.upper().strip()`. */
  function Canonical(code: string): (c: string)
    ensures NoOuterSpace(c) && IsUpperCase(c)
  {
    Strip(Upper(code))
  }

  lemma CanonicalOfCanonicalForm(c: string)
    requires NoOuterSpace(c) && IsUpperCase(c)
    ensures Canonical(c) == c
  {
    UpperOfUpperCase(c);
    StripOfStripped(c);
  }

  lemma CanonicalIdempotent(code: string)
    ensures Canonical(Canonical(code)) == Canonical(code)
  {
    CanonicalOfCanonicalForm(Canonical(code));
  }

  const ShanghaiPrefixes: seq<string> := ["600", "601", "603", "688"]
  const ShenzhenPrefixes: seq<string> := ["000", "002", "300"]

  predicate StartsWithAny(s: string, prefixes: seq<string>) {
    exists p :: p in prefixes && StartsWith(s, p)
  }

  /** Rule 1: a `.HK` suffix, or a short all-digit code with a leading zero. */
  predicate IsHongKongCode(c: string) {
    EndsWith(c, ".HK") || (|c| <= 5 && IsAllDigits(c) && StartsWith(c, "0"))
  }

  /** Rule 2: six digits opening with a Shanghai or Shenzhen board prefix. */
  predicate IsAShareCode(c: string) {
    |c| == 6 && IsAllDigits(c) && (StartsWithAny(c, ShanghaiPrefixes) || StartsWithAny(c, ShenzhenPrefixes))
  }

  function UsExchangeOfSuffix(suffix: string): (r: Option<Market>)
    ensures r.Some? ==> IsUS(r.value)
  {
    if suffix == "NYSE" then Some(UsNyse)
    else if suffix == "NASDAQ" then Some(UsNasdaq)
    else if suffix == "AMEX" then Some(UsAmex)
    else None
  }

  /** Rule 3: the last dot segment names a US exchange, or a dot-free ticker of at most five letters. */
  function UsRule(c: string): (r: Option<Market>)
    ensures r.Some? ==> IsUS(r.value)
  {
    if '.' in c then UsExchangeOfSuffix(AfterLast(c, '.'))
    else if IsAllLetters(c) && |c| <= 5 then Some(UsNasdaq)
    else None
  }

  /** Rule 4: the European suffix table. */
  function EuRule(c: string): (r: Option<Market>)
    ensures r.Some? ==> IsEU(r.value)
  {
    if EndsWith(c, ".L") || EndsWith(c, ".LSE") then Some(UkLse)
    else if EndsWith(c, ".DE") || EndsWith(c, ".ETR") then Some(GerXetra)
    else if EndsWith(c, ".PA") || EndsWith(c, ".EN") then Some(FraEuronext)
    else if EndsWith(c, ".SW") || EndsWith(c, ".SI") then Some(SwxSix)
    else if EndsWith(c, ".AS") || EndsWith(c, ".NA") then Some(Euronext)
    else None
  }

  /** The rules in order, first match wins; an unmatched code defaults to the A-share market. */
  function Classify(c: string): Market {
    if IsHongKongCode(c) then HongKong
    else if IsAShareCode(c) then ChinaA
    else match UsRule(c)
      case Some(m) => m
      case None => match EuRule(c)
        case Some(m) => m
        case None => ChinaA
  }

  /** `Market.from_stock_code`: total, never fails. */
  function FromStockCode(stockCode: string): Market
  {
    Classify(Canonical(stockCode))
  }

  /** Classification ignores letter case and surrounding white space. */
  lemma FromStockCodeIgnoresCaseAndSpace(stockCode: string)
    ensures FromStockCode(stockCode) == FromStockCode(Canonical(stockCode))
  {
    CanonicalIdempotent(stockCode);
  }

  /** The worked examples of the module's own self-test, plus a five-digit Hong Kong code. */
  lemma FromStockCodeShanghai()
    ensures FromStockCode("600519") == ChinaA
  {
    CanonicalOfCanonicalForm("600519");
    ClassifyShanghai();
  }

  lemma FromStockCodeTicker()
    ensures FromStockCode("AAPL") == UsNasdaq
  {
    CanonicalOfCanonicalForm("AAPL");
    ClassifyTicker();
  }

  lemma FromStockCodeHongKongSuffix()
    ensures FromStockCode("0005.HK") == HongKong
  {
    CanonicalOfCanonicalForm("0005.HK");
    ClassifyHongKongSuffix();
  }

  lemma FromStockCodeHongKongDigits()
    ensures FromStockCode("00700") == HongKong
  {
    CanonicalOfCanonicalForm("00700");
    ClassifyHongKongDigits();
  }

  lemma FromStockCodeLondon()
    ensures FromStockCode("VOD.L") == UkLse
  {
    CanonicalOfCanonicalForm("VOD.L");
    ClassifyLondon();
  }

  lemma FromStockCodeXetra()
    ensures FromStockCode("SAP.DE") == GerXetra
  {
    CanonicalOfCanonicalForm("SAP.DE");
    ClassifyXetra();
  }

  lemma ClassifyHongKongSuffix()
    ensures Classify("0005.HK") == HongKong
  {
    assert EndsWith("0005.HK", ".HK") by { assert "0005.HK"[4..] == ".HK"; }
  }

  lemma ClassifyHongKongDigits()
    ensures Classify("00700") == HongKong
  {
    assert StartsWith("00700", "0");
  }

  lemma ClassifyShanghai()
    ensures Classify("600519") == ChinaA
  {
    assert !IsHongKongCode("600519") by { assert "600519"[3] != '.'; }
    assert IsAShareCode("600519") by { assert StartsWith("600519", "600") && "600" in ShanghaiPrefixes; }
  }

  lemma ClassifyTicker()
    ensures Classify("AAPL") == UsNasdaq
  {
    assert !IsHongKongCode("AAPL") by { assert "AAPL"[1] != '.' && !IsDigit("AAPL"[0]); }
    assert !IsAShareCode("AAPL");
    assert UsRule("AAPL") == Some(UsNasdaq) by { assert '.' !in "AAPL"; }
  }

  lemma ClassifyLondon()
    ensures Classify("VOD.L") == UkLse
  {
    assert !IsHongKongCode("VOD.L") by { assert "VOD.L"[2] != '.' && !IsDigit("VOD.L"[0]); }
    assert !IsAShareCode("VOD.L");
    assert UsRule("VOD.L") == None by {
      assert "VOD.L" == "VOD" + ['.'] + "L";
      AfterLastOfTail("VOD", '.', "L");
    }
    assert EndsWith("VOD.L", ".L") by { assert "VOD.L"[3..] == ".L"; }
  }

  lemma ClassifyXetra()
    ensures Classify("SAP.DE") == GerXetra
  {
    assert !IsHongKongCode("SAP.DE") by { assert "SAP.DE"[3] != 'H' && !IsDigit("SAP.DE"[0]); }
    assert !IsAShareCode("SAP.DE");
    assert UsRule("SAP.DE") == None by {
      assert "SAP.DE" == "SAP" + ['.'] + "DE";
      AfterLastOfTail("SAP", '.', "DE");
    }
    assert EuRule("SAP.DE") == Some(GerXetra) by {
      assert !EndsWith("SAP.DE", ".L") by { assert "SAP.DE"[5] != 'L'; }
      assert !EndsWith("SAP.DE", ".LSE") by { assert "SAP.DE"[5] != 'E' || "SAP.DE"[4] != 'S'; }
      assert EndsWith("SAP.DE", ".DE") by { assert "SAP.DE"[3..] == ".DE"; }
    }
  }

  lemma EndsWithHkSegment(c: string)
    requires EndsWith(c, ".HK")
    ensures '.' in c && AfterLast(c, '.') == "HK"
  {
    assert c == c[..|c| - 3] + ['.'] + "HK";
    AfterLastOfTail(c[..|c| - 3], '.', "HK");
  }

  lemma DigitsHaveNoDot(c: string)
    requires IsAllDigits(c)
    ensures '.' !in c
  {
    forall i | 0 <= i < |c| ensures c[i] != '.' {
      assert IsDigit(c[i]);
    }
  }

  lemma ClassifyDotted(c: string)
    requires '.' in c
    ensures var suffix := AfterLast(c, '.');
      (UsExchangeOfSuffix(suffix).Some? ==> Classify(c) == UsExchangeOfSuffix(suffix).value)
      && (IsUS(Classify(c)) <==> UsExchangeOfSuffix(suffix).Some?)
  {
    assert !IsAllDigits(c) by {
      if IsAllDigits(c) { DigitsHaveNoDot(c); }
    }
    if EndsWith(c, ".HK") {
      EndsWithHkSegment(c);
    }
  }

  /** Rule 4 read on the last dot segment. */
  function EuSegment(t: string): (r: Option<Market>)
    ensures r.Some? ==> IsEU(r.value)
  {
    if t == "L" || t == "LSE" then Some(UkLse)
    else if t == "DE" || t == "ETR" then Some(GerXetra)
    else if t == "PA" || t == "EN" then Some(FraEuronext)
    else if t == "SW" || t == "SI" then Some(SwxSix)
    else if t == "AS" || t == "NA" then Some(Euronext)
    else None
  }

  /** Every suffix of rule 4 is a dot and a dot-free segment, so the rule only reads the last dot segment. */
  lemma EuRuleBySegment(c: string)
    ensures EuRule(c) == if '.' in c then EuSegment(AfterLast(c, '.')) else None
  {
    var t := AfterLast(c, '.');
    var dotted := '.' in c;
    assert EndsWith(c, ".L") <==> dotted && t == "L" by {
      EndsWithSegment(c, '.', "L");
      assert ['.'] + "L" == ".L";
    }
    assert EndsWith(c, ".LSE") <==> dotted && t == "LSE" by {
      EndsWithSegment(c, '.', "LSE");
      assert ['.'] + "LSE" == ".LSE";
    }
    assert EndsWith(c, ".DE") <==> dotted && t == "DE" by {
      EndsWithSegment(c, '.', "DE");
      assert ['.'] + "DE" == ".DE";
    }
    assert EndsWith(c, ".ETR") <==> dotted && t == "ETR" by {
      EndsWithSegment(c, '.', "ETR");
      assert ['.'] + "ETR" == ".ETR";
    }
    assert EndsWith(c, ".PA") <==> dotted && t == "PA" by {
      EndsWithSegment(c, '.', "PA");
      assert ['.'] + "PA" == ".PA";
    }
    assert EndsWith(c, ".EN") <==> dotted && t == "EN" by {
      EndsWithSegment(c, '.', "EN");
      assert ['.'] + "EN" == ".EN";
    }
    assert EndsWith(c, ".SW") <==> dotted && t == "SW" by {
      EndsWithSegment(c, '.', "SW");
      assert ['.'] + "SW" == ".SW";
    }
    assert EndsWith(c, ".SI") <==> dotted && t == "SI" by {
      EndsWithSegment(c, '.', "SI");
      assert ['.'] + "SI" == ".SI";
    }
    assert EndsWith(c, ".AS") <==> dotted && t == "AS" by {
      EndsWithSegment(c, '.', "AS");
      assert ['.'] + "AS" == ".AS";
    }
    assert EndsWith(c, ".NA") <==> dotted && t == "NA" by {
      EndsWithSegment(c, '.', "NA");
      assert ['.'] + "NA" == ".NA";
    }
  }

  /** A dotted code is classified by its last dot segment alone. */
  lemma ClassifyBySegment(c: string)
    requires '.' in c
    ensures var t := AfterLast(c, '.');
      Classify(c) == if t == "HK" then HongKong
        else if UsExchangeOfSuffix(t).Some? then UsExchangeOfSuffix(t).value
        else if EuSegment(t).Some? then EuSegment(t).value
        else ChinaA
  {
    assert !IsAllDigits(c) by {
      if IsAllDigits(c) { DigitsHaveNoDot(c); }
    }
    EndsWithSegment(c, '.', "HK");
    EuRuleBySegment(c);
  }

  lemma ClassifyBare(c: string)
    requires '.' !in c
    ensures IsUS(Classify(c)) <==> IsAllLetters(c) && |c| <= 5
    ensures IsUS(Classify(c)) ==> Classify(c) == UsNasdaq
  {
    assert !EndsWith(c, ".HK") by {
      if EndsWith(c, ".HK") { SuffixCharIn(c, ".HK", 0); }
    }
    if IsAllLetters(c) {
      assert !IsDigit(c[0]);
    }
  }

  /**
   * A code whose last dot segment is NYSE, NASDAQ or AMEX goes to that exchange; a
   * code with a dot is classified as a US market only this way.
   */
  lemma UsRoutingDotted(stockCode: string)
    requires '.' in Canonical(stockCode)
    ensures var suffix := AfterLast(Canonical(stockCode), '.');
      (UsExchangeOfSuffix(suffix).Some? ==> FromStockCode(stockCode) == UsExchangeOfSuffix(suffix).value)
      && (IsUS(FromStockCode(stockCode)) <==> UsExchangeOfSuffix(suffix).Some?)
  {
    ClassifyDotted(Canonical(stockCode));
  }

  /** A dot-free code is classified as a US market exactly when it is one to five letters, and then as NASDAQ. */
  lemma UsRoutingBare(stockCode: string)
    requires '.' !in Canonical(stockCode)
    ensures IsUS(FromStockCode(stockCode)) <==> IsAllLetters(Canonical(stockCode)) && |Canonical(stockCode)| <= 5
    ensures IsUS(FromStockCode(stockCode)) ==> FromStockCode(stockCode) == UsNasdaq
  {
    ClassifyBare(Canonical(stockCode));
  }

  // ---------------------------------------------------------------- lookup tables

  function DisplayName(m: Market): string {
    match m
    case ChinaA => "A股"
    case HongKong => "港股"
    case UsNyse => "美股(纽交所)"
    case UsNasdaq => "美股(纳斯达克)"
    case UsAmex => "美股(美交所)"
    case UkLse => "英股(伦敦)"
    case GerXetra => "德股(法兰克福)"
    case FraEuronext => "法股(泛欧)"
    case SwxSix => "瑞士股"
    case Euronext => "泛欧交易所"
  }

  /** No two markets share a display name. */
  lemma DisplayNameInjective(m1: Market, m2: Market)
    requires DisplayName(m1) == DisplayName(m2)
    ensures m1 == m2
  {
  }


  function Currency(m: Market): (r: string)
    ensures r == "USD" <==> IsUS(m)
    ensures r == "EUR" <==> m in {GerXetra, FraEuronext, Euronext}
    ensures r in {"CNY", "HKD", "USD", "GBP", "EUR", "CHF"}
  {
    match m
    case ChinaA => "CNY"
    case HongKong => "HKD"
    case UsNyse => "USD"
    case UsNasdaq => "USD"
    case UsAmex => "USD"
    case UkLse => "GBP"
    case GerXetra => "EUR"
    case FraEuronext => "EUR"
    case SwxSix => "CHF"
    case Euronext => "EUR"
  }

  function Timezone(m: Market): string {
    match m
    case ChinaA => "Asia/Shanghai"
    case HongKong => "Asia/Hong_Kong"
    case UsNyse => "America/New_York"
    case UsNasdaq => "America/New_York"
    case UsAmex => "America/New_York"
    case UkLse => "Europe/London"
    case GerXetra => "Europe/Berlin"
    case FraEuronext => "Europe/Paris"
    case SwxSix => "Europe/Zurich"
    case Euronext => "Europe/Amsterdam"
  }

  /** Only the three US exchanges share a time zone. */
  lemma TimezoneSharedOnlyByUs(m1: Market, m2: Market)
    ensures Timezone(m1) == Timezone(m2) <==> m1 == m2 || (IsUS(m1) && IsUS(m2))
  {
  }


  datatype MarketRegion = Asia | Americas | Europe

  /** `MarketRegion.from_market`. */
  function RegionOf(m: Market): (r: MarketRegion)
    ensures r == Asia <==> m == ChinaA || m == HongKong
    ensures r == Americas <==> IsUS(m)
    ensures r == Europe <==> IsEU(m)
  {
    if m in {ChinaA, HongKong} then Asia
    else if m in {UsNyse, UsNasdaq, UsAmex} then Americas
    else Europe
  }

  // ---------------------------------------------------------------- normalisation

  /** The upper-cased, trimmed code cut at its first dot. */
  function Base(stockCode: string): (b: string)
    ensures '.' !in b && IsUpperCase(b)
    ensures |b| > 0 ==> !IsSpace(b[0])
  {
    var c := Canonical(stockCode);
    HeadOfCanonical(c);
    BeforeFirst(c, '.')
  }

  lemma HeadOfCanonical(c: string)
    requires NoOuterSpace(c) && IsUpperCase(c)
    ensures IsUpperCase(BeforeFirst(c, '.'))
    ensures |BeforeFirst(c, '.')| > 0 ==> !IsSpace(BeforeFirst(c, '.')[0])
  {
    var b := BeforeFirst(c, '.');
    assert forall i :: 0 <= i < |b| ==> b[i] == c[i];
  }

  function UsSuffix(m: Market): string {
    match m
    case UsNyse => ".NYSE"
    case UsNasdaq => ".NASDAQ"
    case UsAmex => ".AMEX"
    case _ => ""
  }

  /** The Yahoo-style suffix of each European market, as in `normalize_stock_code`'s table. */
  function EuSuffix(m: Market): string {
    match m
    case UkLse => ".L"
    case GerXetra => ".DE"
    case FraEuronext => ".PA"
    case SwxSix => ".SW"
    case Euronext => ".AS"
    case _ => ""
  }

  /** The market-specific rewrite of a base: exchange suffix, or zero padding of an all-digit base. */
  function NormalizeBase(base: string, t: Market): string {
    if IsUS(t) then base + UsSuffix(t)
    else if t == HongKong then (if IsAllDigits(base) then ZFill(base, 5) else base)
    else if IsEU(t) then base + EuSuffix(t)
    else (if IsAllDigits(base) then ZFill(base, 6) else base)
  }

  /** `normalize_stock_code(stock_code, target_market)`. */
  function NormalizeStockCode(stockCode: string, target: Option<Market>): string {
    var code := Canonical(stockCode);
    var t := if target.Some? then target.value else FromStockCode(code);
    NormalizeBase(BeforeFirst(code, '.'), t)
  }

  /** Without a target the code's own classified market is used. */
  lemma NormalizeInfersTarget(stockCode: string)
    ensures NormalizeStockCode(stockCode, None) == NormalizeStockCode(stockCode, Some(FromStockCode(stockCode)))
  {
    CanonicalIdempotent(stockCode);
  }

  lemma ZFillDigits(s: string, width: nat)
    requires IsAllDigits(s)
    ensures IsAllDigits(ZFill(s, width))
  {
    var r := ZFill(s, width);
    forall i | 0 <= i < |r| ensures IsDigit(r[i]) {
      if i >= |r| - |s| {
        assert r[i] == r[|r| - |s|..][i - (|r| - |s|)];
      }
    }
  }

  predicate IsExchangeSuffix(sfx: string) {
    |sfx| >= 2 && sfx[0] == '.' && IsUpperLetters(sfx[1..])
  }

  lemma BaseOfSuffixed(b: string, sfx: string)
    requires '.' !in b && IsUpperCase(b) && (|b| > 0 ==> !IsSpace(b[0]))
    requires IsExchangeSuffix(sfx)
    ensures Base(b + sfx) == b
  {
    var r := b + sfx;
    assert NoOuterSpace(r) by {
      assert r[|r| - 1] == sfx[1..][|sfx| - 2];
      assert |b| == 0 ==> r[0] == sfx[0];
      assert |b| > 0 ==> r[0] == b[0];
    }
    SuffixedIsUpperCase(b, sfx);
    CanonicalOfCanonicalForm(r);
    BeforeFirstOfHead(b, sfx, '.');
  }

  lemma BaseOfBare(b: string)
    requires '.' !in b && IsUpperCase(b) && NoOuterSpace(b)
    ensures Base(b) == b
  {
    CanonicalOfCanonicalForm(b);
  }

  lemma SuffixesAreExchangeSuffixes(m: Market)
    ensures IsUS(m) ==> IsExchangeSuffix(UsSuffix(m))
    ensures IsEU(m) ==> IsExchangeSuffix(EuSuffix(m))
  {
  }

  lemma DigitsAreBare(r: string)
    requires IsAllDigits(r)
    ensures Base(r) == r
  {
    DigitsHaveNoDot(r);
    assert NoOuterSpace(r) by { assert IsDigit(r[0]) && IsDigit(r[|r| - 1]); }
    assert IsUpperCase(r) by {
      forall i | 0 <= i < |r| ensures !IsLower(r[i]) { assert IsDigit(r[i]); }
    }
    BaseOfBare(r);
  }

  /** Padding an all-digit base gives an all-digit code at least as wide as the market's width. */
  lemma PaddingOfDigits(b: string, m: Market)
    requires !IsUS(m) && !IsEU(m) && IsAllDigits(b)
    ensures IsAllDigits(NormalizeBase(b, m))
    ensures |NormalizeBase(b, m)| >= (if m == HongKong then 5 else 6)
  {
    ZFillDigits(b, if m == HongKong then 5 else 6);
  }

  lemma WideDigitsUnchanged(r: string, m: Market)
    requires !IsUS(m) && !IsEU(m) && IsAllDigits(r) && |r| >= (if m == HongKong then 5 else 6)
    ensures NormalizeBase(r, m) == r
  {
  }

  lemma PaddedUnchanged(r: string, m: Market)
    requires !IsUS(m) && !IsEU(m) && IsAllDigits(r) && |r| >= (if m == HongKong then 5 else 6)
    ensures Base(r) == r
    ensures NormalizeBase(r, m) == r
  {
    DigitsAreBare(r);
    WideDigitsUnchanged(r, m);
  }

  /** Padding is a fixed point: a padded all-digit base normalises to itself. */
  lemma PaddedIsFixed(b: string, m: Market)
    requires !IsUS(m) && !IsEU(m) && IsAllDigits(b)
    ensures Base(NormalizeBase(b, m)) == NormalizeBase(b, m)
    ensures NormalizeBase(NormalizeBase(b, m), m) == NormalizeBase(b, m)
  {
    PaddingOfDigits(b, m);
    PaddedUnchanged(NormalizeBase(b, m), m);
  }

  lemma NormalizeIsBaseRewrite(stockCode: string, m: Market)
    ensures NormalizeStockCode(stockCode, Some(m)) == NormalizeBase(Base(stockCode), m)
  {
  }

  lemma SuffixedIsFixed(b: string, m: Market)
    requires '.' !in b && IsUpperCase(b) && (|b| > 0 ==> !IsSpace(b[0]))
    requires IsUS(m) || IsEU(m)
    ensures Base(NormalizeBase(b, m)) == b
  {
    SuffixesAreExchangeSuffixes(m);
    if IsUS(m) {
      BaseOfSuffixed(b, UsSuffix(m));
    } else {
      BaseOfSuffixed(b, EuSuffix(m));
    }
  }

  lemma BareIsFixed(b: string, m: Market)
    requires '.' !in b && IsUpperCase(b) && NoOuterSpace(b)
    requires !IsUS(m) && !IsEU(m) && !IsAllDigits(b)
    ensures NormalizeBase(b, m) == b && Base(b) == b
  {
    BaseOfBare(b);
  }

  /**
   * With a fixed explicit target, normalising twice is normalising once: always for
   * US and European targets, and for the digit-padding targets whenever the base
   * does not end in white space (see NormalizeNotIdempotentOnTrailingSpace).
   */
  lemma NormalizeIdempotent(stockCode: string, m: Market)
    requires IsUS(m) || IsEU(m) || NoOuterSpace(Base(stockCode))
    ensures NormalizeStockCode(NormalizeStockCode(stockCode, Some(m)), Some(m)) == NormalizeStockCode(stockCode, Some(m))
  {
    var b := Base(stockCode);
    var r := NormalizeBase(b, m);
    NormalizeIsBaseRewrite(stockCode, m);
    NormalizeIsBaseRewrite(r, m);
    if IsUS(m) || IsEU(m) {
      SuffixedIsFixed(b, m);
    } else if IsAllDigits(b) {
      PaddedIsFixed(b, m);
    } else {
      BareIsFixed(b, m);
    }
  }

  lemma BaseOfSpacedCode()
    ensures Base("AB .X") == "AB "
  {
    CanonicalOfCanonicalForm("AB .X");
    assert "AB .X" == "AB " + ".X";
    BeforeFirstOfHead("AB ", ".X", '.');
  }

  lemma StripTrailingSpace()
    ensures Strip("AB ") == "AB"
  {
    assert LStrip("AB ") == "AB ";
    assert "AB "[..2] == "AB";
    assert RStrip("AB ") == RStrip("AB");
  }

  lemma CanonicalOfTrailingSpace()
    ensures Canonical("AB ") == "AB"
  {
    assert Upper("AB ") == "AB ";
    StripTrailingSpace();
  }

  lemma BaseOfTrailingSpace()
    ensures Base("AB ") == "AB"
  {
    CanonicalOfTrailingSpace();
    assert '.' !in "AB";
  }

  /** A base with trailing space before the dot keeps it on the first pass... */
  lemma NormalizeKeepsSpaceBeforeDot()
    ensures NormalizeStockCode("AB .X", Some(HongKong)) == "AB "
  {
    BaseOfSpacedCode();
    assert !IsAllDigits("AB ") by { assert !IsDigit("AB "[0]); }
    NormalizeIsBaseRewrite("AB .X", HongKong);
  }

  /** ...and loses it on the second, so normalisation is not idempotent there. */
  lemma NormalizeNotIdempotentOnTrailingSpace()
    ensures NormalizeStockCode("AB ", Some(HongKong)) == "AB"
  {
    BaseOfTrailingSpace();
    assert !IsAllDigits("AB") by { assert !IsDigit("AB"[0]); }
    NormalizeIsBaseRewrite("AB ", HongKong);
  }

  // ---------------------------------------------------------------- validation

  /** `[A-Z]{1,5}`. */
  predicate ShortTicker(u: string) { IsUpperLetters(u) && |u| <= 5 }

  /** `[A-Z]{1,5}` followed by the literal suffix. */
  predicate TickerWithSuffix(u: string, sfx: string) {
    EndsWith(u, sfx) && ShortTicker(u[..|u| - |sfx|])
  }

  /** The per-market regular expression, matched against the whole text. */
  predicate MatchesPattern(u: string, m: Market) {
    match m
    case ChinaA => |u| == 6 && IsAllDigits(u)
    case HongKong => 4 <= |u| <= 5 && IsAllDigits(u)
    case UsNyse => ShortTicker(u) || TickerWithSuffix(u, ".NYSE")
    case UsNasdaq => ShortTicker(u) || TickerWithSuffix(u, ".NASDAQ")
    case UsAmex => ShortTicker(u) || TickerWithSuffix(u, ".AMEX")
    case _ => TickerWithSuffix(u, EuSuffix(m))
  }

  /**
   * `validate_stock_code_format`: `re.match` of an anchored pattern on the upper-cased
   * code, where Python's `$` also matches just before one final newline.
   */
  function ValidateStockCodeFormat(stockCode: string, m: Market): (ok: bool)
    ensures ok ==> |stockCode| > 0
  {
    var u := Upper(stockCode);
    MatchesPattern(u, m) || (|u| > 0 && u[|u| - 1] == '\n' && MatchesPattern(u[..|u| - 1], m))
  }

  lemma SuffixedValidates(b: string, m: Market)
    requires IsUS(m) || IsEU(m)
    requires IsUpperLetters(b) && |b| <= 5
    ensures ValidateStockCodeFormat(NormalizeBase(b, m), m)
  {
    var sfx := if IsUS(m) then UsSuffix(m) else EuSuffix(m);
    var r := b + sfx;
    assert NormalizeBase(b, m) == r;
    assert Upper(r) == r by {
      SuffixesAreExchangeSuffixes(m);
      SuffixedIsUpperCase(b, sfx);
      UpperOfUpperCase(r);
    }
    assert TickerWithSuffix(r, sfx) by {
      assert r[..|r| - |sfx|] == b;
      assert r[|r| - |sfx|..] == sfx;
    }
  }

  lemma SuffixedIsUpperCase(b: string, sfx: string)
    requires IsUpperCase(b) && IsExchangeSuffix(sfx)
    ensures IsUpperCase(b + sfx)
  {
    var r := b + sfx;
    forall i | 0 <= i < |r| ensures !IsLower(r[i]) {
      if i > |b| {
        assert r[i] == sfx[1..][i - |b| - 1];
      }
    }
  }

  lemma PaddedValidates(b: string, m: Market)
    requires m == HongKong || m == ChinaA
    requires IsAllDigits(b) && |b| <= (if m == HongKong then 5 else 6)
    ensures ValidateStockCodeFormat(NormalizeBase(b, m), m)
  {
    var width := if m == HongKong then 5 else 6;
    var r := ZFill(b, width);
    ZFillDigits(b, width);
    DigitsUnchangedByUpper(r);
    assert NormalizeBase(b, m) == r;
  }

  lemma DigitsUnchangedByUpper(r: string)
    requires IsAllDigits(r)
    ensures Upper(r) == r
  {
    assert IsUpperCase(r) by {
      forall i | 0 <= i < |r| ensures !IsLower(r[i]) { assert IsDigit(r[i]); }
    }
    UpperOfUpperCase(r);
  }

  /**
   * Normalising to a market yields a code that market's format accepts, for a base
   * of one to five letters (US, Europe), one to five digits (Hong Kong) or one to
   * six digits (A-shares).
   */
  lemma NormalizeValidates(stockCode: string, m: Market)
    requires (IsUS(m) || IsEU(m)) ==> IsAllLetters(Base(stockCode)) && |Base(stockCode)| <= 5
    requires m == HongKong ==> IsAllDigits(Base(stockCode)) && |Base(stockCode)| <= 5
    requires m == ChinaA ==> IsAllDigits(Base(stockCode)) && |Base(stockCode)| <= 6
    ensures ValidateStockCodeFormat(NormalizeStockCode(stockCode, Some(m)), m)
  {
    var b := Base(stockCode);
    assert NormalizeStockCode(stockCode, Some(m)) == NormalizeBase(b, m);
    if IsUS(m) || IsEU(m) {
      assert IsUpperLetters(b) by {
        forall i | 0 <= i < |b| ensures IsUpperLetter(b[i]) { assert !IsLower(b[i]); }
      }
      SuffixedValidates(b, m);
    } else {
      PaddedValidates(b, m);
    }
  }

  /** The trailing-newline allowance of `$`: a six-digit code followed by a newline passes. */
  lemma ValidateAcceptsFinalNewline()
    ensures ValidateStockCodeFormat("600519\n", ChinaA)
    ensures !ValidateStockCodeFormat("600519", HongKong)
  {
    assert Upper("600519\n") == "600519\n";
    assert "600519\n"[..6] == "600519";
    assert Upper("600519") == "600519";
    assert "600519"[5] != '\n';
  }

  // ---------------------------------------------------------------- trading hours

  /** Opening and closing minute of the day, for the markets that have a window in the table. */
  function TradingWindow(m: Market): Option<(int, int)> {
    match m
    case ChinaA => Some((9 * 60 + 15, 15 * 60))
    case HongKong => Some((9 * 60 + 30, 16 * 60))
    case UsNyse => Some((9 * 60 + 30, 16 * 60))
    case UsNasdaq => Some((9 * 60 + 30, 16 * 60))
    case UsAmex => Some((9 * 60 + 30, 16 * 60))
    case UkLse => Some((8 * 60, 16 * 60 + 30))
    case GerXetra => Some((9 * 60, 17 * 60 + 30))
    case FraEuronext => Some((9 * 60, 17 * 60 + 30))
    case SwxSix => None
    case Euronext => None
  }

  /**
   * The local-time part of `is_market_trading_hours`: closed on weekday 5 and 6,
   * closed for a market without a window, else open on the closed interval.
   */
  function IsTradingHours(m: Market, weekday: int, hour: int, minute: int): (open: bool)
    ensures open ==> weekday < 5 && TradingWindow(m).Some?
    ensures m == SwxSix || m == Euronext ==> !open
  {
    if weekday >= 5 then false
    else match TradingWindow(m)
      case None => false
      case Some((start, end)) => start <= hour * 60 + minute <= end
  }

  /** Open times form one interval: a time between two open times of the same day is open. */
  lemma TradingHoursConvex(m: Market, weekday: int, h1: int, m1: int, h2: int, m2: int, h: int, mi: int)
    requires IsTradingHours(m, weekday, h1, m1) && IsTradingHours(m, weekday, h2, m2)
    requires h1 * 60 + m1 <= h * 60 + mi <= h2 * 60 + m2
    ensures IsTradingHours(m, weekday, h, mi)
  {
  }

  /** Both ends of the window are inclusive. */
  lemma TradingHoursInclusive(m: Market, weekday: int)
    requires 0 <= weekday < 5 && TradingWindow(m).Some?
    ensures var (s, e) := TradingWindow(m).value;
      IsTradingHours(m, weekday, s / 60, s % 60) && IsTradingHours(m, weekday, e / 60, e % 60)
      && !IsTradingHours(m, weekday, (s - 1) / 60, (s - 1) % 60) && !IsTradingHours(m, weekday, (e + 1) / 60, (e + 1) % 60)
  {
  }

  /** The `NameError` message for the name `pytz`, which the module never imports. */
  const PytzNotDefined: string := "name 'pytz' is not defined"

  /**
   * `is_market_trading_hours` as written: with or without a time passed in, the
   * first thing it does after choosing the time is test `if pytz:`, and the
   * name is unbound, so every call raises before the window is looked at.
   */
  function IsTradingHoursAsWritten(m: Market, weekday: int, hour: int, minute: int): (r: Result<bool, string>)
    ensures r.Failure? && r.error == PytzNotDefined
  {
    Failure(PytzNotDefined)
  }

  /**
   * As written, no call answers, although the intended check opens the New
   * York exchange at 10:00 on a Monday.
   */
  lemma TradingHoursAsWrittenNeverAnswers(m: Market, weekday: int, hour: int, minute: int)
    ensures IsTradingHoursAsWritten(m, weekday, hour, minute) != Success(IsTradingHours(m, weekday, hour, minute))
    ensures IsTradingHours(UsNyse, 0, 10, 0) && IsTradingHoursAsWritten(UsNyse, 0, 10, 0).Failure?
  {
  }

  // ---------------------------------------------------------------- indices

  datatype IndexInfo = IndexInfo(code: string, name: string, symbol: string)

  /** `get_market_indices`: the table's list, or the empty list for a market without one. */
  function MarketIndices(m: Market): (r: seq<IndexInfo>)
    ensures |r| > 0 <==> m in {ChinaA, HongKong, UsNyse, UsNasdaq, UkLse, GerXetra}
  {
    match m
    case ChinaA => [
      IndexInfo("000001.SH", "上证指数", "SH000001"),
      IndexInfo("399001.SZ", "深证成指", "SZ399001"),
      IndexInfo("399006.SZ", "创业板指", "SZ399006")]
    case HongKong => [
      IndexInfo("HSI", "恒生指数", "^HSI"),
      IndexInfo("HSCEI", "恒生国企指数", "^HSCEI"),
      IndexInfo("HSTECH", "恒生科技指数", "^HSTECH")]
    case UsNyse => [
      IndexInfo("DJI", "道琼斯指数", "^DJI"),
      IndexInfo("SPX", "标普500指数", "^GSPC")]
    case UsNasdaq => [
      IndexInfo("IXIC", "纳斯达克指数", "^IXIC"),
      IndexInfo("NDX", "纳斯达克100指数", "^NDX")]
    case UkLse => [
      IndexInfo("UKX", "富时100指数", "^UKX"),
      IndexInfo("MCX", "富时250指数", "^MCX")]
    case GerXetra => [
      IndexInfo("DAX", "德国DAX指数", "^GDAXI"),
      IndexInfo("MDAX", "德国MDAX指数", "^MDAXI")]
    case _ => []
  }
}
