/**
 * The display-currency rules: which currency each market is shown in (CNY
 * for A-shares, EUR for everything else), conversion through EUR-based
 * rates, the unit a magnitude is shown in, and the conversion of the money
 * fields of a stock record. The rate table is a parameter: each entry is how
 * many units of a currency one euro buys.
 */
module Currencies {
  import opened Wrappers
  import opened Numeric
  import opened MarketTypes

  type Rates = map<string, real>

  /** `rates.get(currency, 1.0)`: a currency missing from the table counts as one euro. */
  function RateOf(rates: Rates, currency: string): real {
    if currency in rates then rates[currency] else 1.0
  }

  // ---------------------------------------------------------------- target currency

  const TargetCurrencies: map<string, string> := map[
    "CN_A" := "CNY", "HK" := "EUR",
    "US_NYSE" := "EUR", "US_NASDAQ" := "EUR", "US_AMEX" := "EUR",
    "UK_LSE" := "EUR", "GER_XETRA" := "EUR", "FRA_EURONEXT" := "EUR",
    "SWX_SIX" := "EUR", "EURONEXT" := "EUR"]

  /** `get_target_currency`: yuan for the A-share market key, euro for every other key, known or not. */
  function TargetCurrency(market: string): (r: string)
    ensures r == "CNY" <==> market == "CN_A"
    ensures r == "CNY" || r == "EUR"
  {
    if market in TargetCurrencies then TargetCurrencies[market] else "EUR"
  }

  /** Of the ten markets only the A-share market is shown in yuan. */
  lemma TargetCurrencyOfMarket(m: Market)
    ensures TargetCurrency(Value(m)) == if m == ChinaA then "CNY" else "EUR"
  {
    assert Value(m) == "CN_A" <==> m == ChinaA;
  }

  // ---------------------------------------------------------------- conversion

  /** The message of the `ZeroDivisionError` that a zero source rate raises. */
  const ZeroDivision: string := "float division by zero"

  datatype Conversion = Conversion(amount: real, rate: real)

  /**
   * `convert_amount`: equal currencies convert at exactly 1; otherwise the
   * rate goes through the euro, `(1 / rate(from)) * rate(to)`, and a zero
   * source rate raises.
   */
  function ConvertAmount(rates: Rates, amount: real, from: string, to: string): (r: Result<Conversion, string>)
    ensures from == to ==> r == Success(Conversion(amount, 1.0))
    ensures from != to ==> (r.Failure? <==> RateOf(rates, from) == 0.0)
    ensures r.Success? ==> r.value.amount == amount * r.value.rate
  {
    if from == to then Success(Conversion(amount, 1.0))
    else if RateOf(rates, from) == 0.0 then Failure(ZeroDivision)
    else
      var rate := CrossRate(rates, from, to);
      Success(Conversion(amount * rate, rate))
  }

  /** The rate from one currency to another through the euro, `(1 / rate(from)) * rate(to)`. */
  function CrossRate(rates: Rates, from: string, to: string): real
    requires RateOf(rates, from) != 0.0
  {
    1.0 / RateOf(rates, from) * RateOf(rates, to)
  }

  /** The rate is the one that turns the source's euro rate into the target's. */
  lemma ConvertRate(rates: Rates, amount: real, from: string, to: string)
    requires ConvertAmount(rates, amount, from, to).Success?
    ensures ConvertAmount(rates, amount, from, to).value.rate * RateOf(rates, from) == RateOf(rates, to)
  {
    if from != to {
      var a := RateOf(rates, from);
      assert 1.0 / a * RateOf(rates, to) * a == RateOf(rates, to);
    }
  }

  /** Conversion keeps value: the amount in euros is the same before and after. */
  lemma ConvertKeepsEuroValue(rates: Rates, amount: real, from: string, to: string)
    requires ConvertAmount(rates, amount, from, to).Success?
    ensures ConvertAmount(rates, amount, from, to).value.amount * RateOf(rates, from)
         == amount * RateOf(rates, to)
  {
    var c := ConvertAmount(rates, amount, from, to).value;
    if from != to {
      ConvertRate(rates, amount, from, to);
      calc {
        c.amount * RateOf(rates, from);
        amount * (c.rate * RateOf(rates, from));
        amount * RateOf(rates, to);
      }
    }
  }

  /** The cross rates there and back between two currencies with non-zero rates are reciprocal. */
  lemma CrossRateReciprocal(rates: Rates, from: string, to: string, x: real, y: real, rate: real)
    requires RateOf(rates, from) != 0.0 && RateOf(rates, to) != 0.0
    requires rate == CrossRate(rates, from, to) && y == x * rate
    ensures Conversion(y * CrossRate(rates, to, from), CrossRate(rates, to, from)) == Conversion(x, 1.0 / rate)
  {
    var back := CrossRate(rates, to, from);
    assert rate * back == 1.0;
    assert y * back == x * (rate * back);
  }

  /** Going from `a` to `b` and then from `b` to `c` is going from `a` to `c`. */
  lemma CrossRateChain(rates: Rates, a: string, b: string, c: string, x: real, y: real)
    requires RateOf(rates, a) != 0.0 && RateOf(rates, b) != 0.0
    requires y == x * CrossRate(rates, a, b)
    ensures y * CrossRate(rates, b, c) == x * CrossRate(rates, a, c)
  {
    var ab, bc := CrossRate(rates, a, b), CrossRate(rates, b, c);
    assert ab * bc == CrossRate(rates, a, c);
    assert y * bc == x * (ab * bc);
  }

  lemma ConvertAtCrossRate(rates: Rates, amount: real, from: string, to: string)
    requires from != to && RateOf(rates, from) != 0.0
    ensures ConvertAmount(rates, amount, from, to)
         == Success(Conversion(amount * CrossRate(rates, from, to), CrossRate(rates, from, to)))
  {
  }

  /** A conversion made at the cross rate converts back to the amount it started from. */
  lemma ConvertBack(rates: Rates, amount: real, from: string, to: string, there: Conversion)
    requires from != to && RateOf(rates, from) != 0.0 && RateOf(rates, to) != 0.0
    requires there == Conversion(amount * CrossRate(rates, from, to), CrossRate(rates, from, to))
    ensures ConvertAmount(rates, there.amount, to, from) == Success(Conversion(amount, 1.0 / there.rate))
  {
    ConvertAtCrossRate(rates, there.amount, to, from);
    CrossRateReciprocal(rates, from, to, amount, there.amount, there.rate);
    var back := Conversion(there.amount * CrossRate(rates, to, from), CrossRate(rates, to, from));
    assert back == Conversion(amount, 1.0 / there.rate);
    var want: Result<Conversion, string> := Success(back);
    assert ConvertAmount(rates, there.amount, to, from) == want;
  }

  /** Converting there and back returns the original amount, at the reciprocal rate. */
  lemma ConvertRoundTrip(rates: Rates, amount: real, from: string, to: string)
    requires RateOf(rates, from) != 0.0 && RateOf(rates, to) != 0.0
    ensures ConvertAmount(rates, amount, from, to).Success?
    ensures var there := ConvertAmount(rates, amount, from, to).value;
      ConvertAmount(rates, there.amount, to, from) == Success(Conversion(amount, 1.0 / there.rate))
  {
    if from != to {
      ConvertAtCrossRate(rates, amount, from, to);
      ConvertBack(rates, amount, from, to, ConvertAmount(rates, amount, from, to).value);
    }
  }

  /** Converting through an intermediate currency gives what converting directly gives. */
  lemma ConvertChain(rates: Rates, amount: real, a: string, b: string, c: string)
    requires RateOf(rates, a) != 0.0 && RateOf(rates, b) != 0.0 && a != c
    ensures ConvertAmount(rates, amount, a, b).Success?
    ensures var ab := ConvertAmount(rates, amount, a, b).value;
      ConvertAmount(rates, ab.amount, b, c).Success?
      && ConvertAmount(rates, ab.amount, b, c).value.amount == ConvertAmount(rates, amount, a, c).value.amount
  {
    if a != b && b != c {
      CrossRateChain(rates, a, b, c, amount, amount * CrossRate(rates, a, b));
    }
  }

  // ---------------------------------------------------------------- units

  /** The three unit labels of a currency: the price unit, ten thousand (万) and a hundred million (亿). */
  datatype Units = Units(price: string, tenThousand: string, hundredMillion: string)

  const CurrencyUnits: map<string, Units> := map[
    "CNY" := Units("元", "万元", "亿元"),
    "HKD" := Units("港元", "万港元", "亿港元"),
    "USD" := Units("美元", "万美元", "亿美元"),
    "EUR" := Units("欧元", "万欧元", "亿欧元"),
    "GBP" := Units("英镑", "万英镑", "亿英镑"),
    "CHF" := Units("瑞郎", "万瑞郎", "亿瑞郎")]

  /** The labels of `currency`; a currency outside the table is labelled with its own code. */
  function UnitsOf(currency: string): (u: Units)
    ensures u.tenThousand == "万" + u.price && u.hundredMillion == "亿" + u.price
    ensures currency !in CurrencyUnits ==> u.price == currency
  {
    if currency in CurrencyUnits then CurrencyUnits[currency]
    else Units(currency, "万" + currency, "亿" + currency)
  }

  /** The six known currencies have pairwise distinct price labels. */
  lemma KnownUnitsDistinct(c1: string, c2: string)
    requires c1 in CurrencyUnits && c2 in CurrencyUnits && UnitsOf(c1).price == UnitsOf(c2).price
    ensures c1 == c2
  {
  }

  datatype Scale = Ones | TenThousands | HundredMillions

  function Factor(s: Scale): real {
    match s
    case Ones => 1.0
    case TenThousands => 10000.0
    case HundredMillions => 100000000.0
  }

  function Label(u: Units, s: Scale): string {
    match s
    case Ones => u.price
    case TenThousands => u.tenThousand
    case HundredMillions => u.hundredMillion
  }

  /** A formatted amount before the two-decimal rendering: the figure, its scale and the unit label. */
  datatype Display = Display(figure: real, scale: Scale, unit: string)

  /** The amount a display stands for. */
  function Worth(d: Display): real {
    d.figure * Factor(d.scale)
  }

  /**
   * `_format_currency`: the amount in the largest of its currency's three
   * units that it reaches (at least one whole unit), the figure being the
   * amount divided by that unit.
   */
  function FormatCurrency(amount: real, currency: string): (d: Display)
    ensures Worth(d) == amount
    ensures d.unit == Label(UnitsOf(currency), d.scale)
    ensures d.scale == Ones || Abs(d.figure) >= 1.0
    ensures d.scale == HundredMillions || Abs(d.figure) < 10000.0
  {
    var units := UnitsOf(currency);
    if Abs(amount) >= 100000000.0 then Display(amount / 100000000.0, HundredMillions, units.hundredMillion)
    else if Abs(amount) >= 10000.0 then Display(amount / 10000.0, TenThousands, units.tenThousand)
    else Display(amount, Ones, units.price)
  }

  /**
   * The scale is determined by those two bounds: any scale at which the
   * figure is at least one (or which is the smallest) and below ten
   * thousand (or which is the largest) is the one chosen.
   */
  lemma FormatScaleUnique(amount: real, currency: string, s: Scale)
    requires s == Ones || Abs(amount / Factor(s)) >= 1.0
    requires s == HundredMillions || Abs(amount / Factor(s)) < 10000.0
    ensures FormatCurrency(amount, currency).scale == s
  {
  }

  // ---------------------------------------------------------------- format_amount

  /** The optional rate annotation: none, ` (1:1)`, or ` (1 <from> = <rate> <to>)`. */
  datatype RateNote = NoNote | OneToOne | Exchange(from: string, rate: real, to: string)

  datatype Shown = Shown(display: Display, note: RateNote)

  /**
   * `format_amount`: with no target, or the source currency as target, the
   * amount is shown as it is; otherwise it is converted first. The rate is
   * annotated only when asked for.
   */
  function FormatAmount(rates: Rates, amount: real, from: string, to: Option<string>, showRate: bool)
    : (r: Result<Shown, string>)
    ensures to.GetOr(from) == from ==>
      r == Success(Shown(FormatCurrency(amount, from), if showRate then OneToOne else NoNote))
    ensures to.GetOr(from) != from ==> (r.Failure? <==> RateOf(rates, from) == 0.0)
    ensures r.Success? ==> r.value.display.unit == Label(UnitsOf(to.GetOr(from)), r.value.display.scale)
    ensures r.Success? ==> (r.value.note.NoNote? <==> !showRate)
    ensures r.Success? && r.value.note.Exchange? ==>
      to.GetOr(from) != from && r.value.note.from == from && r.value.note.to == to.value
    ensures r.Success? && to.GetOr(from) != from ==>
      var c := ConvertAmount(rates, amount, from, to.value).value;
      Worth(r.value.display) == c.amount && (r.value.note.Exchange? ==> r.value.note.rate == c.rate)
  {
    var target := to.GetOr(from);
    if from == target then
      Success(Shown(FormatCurrency(amount, target), if showRate then OneToOne else NoNote))
    else
      match ConvertAmount(rates, amount, from, target)
      case Failure(e) => Failure(e)
      case Success(c) =>
        Success(Shown(FormatCurrency(c.amount, target), if showRate then Exchange(from, c.rate, target) else NoNote))
  }

  /** `convert_for_display`: the amount shown in its market's display currency. */
  function ConvertForDisplay(rates: Rates, amount: real, from: string, market: string, showRate: bool)
    : (r: Result<Shown, string>)
    ensures r.Success? ==> r.value.display.unit == Label(UnitsOf(TargetCurrency(market)), r.value.display.scale)
    ensures from == TargetCurrency(market) ==> r.Success? && r.value.display == FormatCurrency(amount, from)
  {
    FormatAmount(rates, amount, from, Some(TargetCurrency(market)), showRate)
  }

  // ---------------------------------------------------------------- stock records

  /** `market_currency_map.get(market, 'USD')`: the currency a market's figures arrive in. */
  const MarketCurrencies: map<string, string> := map[
    "CN_A" := "CNY", "HK" := "HKD",
    "US_NYSE" := "USD", "US_NASDAQ" := "USD", "US_AMEX" := "USD",
    "UK_LSE" := "GBP", "GER_XETRA" := "EUR", "FRA_EURONEXT" := "EUR",
    "SWX_SIX" := "CHF", "EURONEXT" := "EUR"]

  function InferCurrency(market: string): string {
    if market in MarketCurrencies then MarketCurrencies[market] else "USD"
  }

  /** The converter's own table agrees with the market enumeration's currency. */
  lemma InferCurrencyAgrees(m: Market)
    ensures InferCurrency(Value(m)) == Currency(m)
  {
  }

  /** A field value of a stock record. */
  datatype FieldValue =
    | Null
    | Number(x: real)
    | Text(s: string)
    | CurrencyInfo(originalCurrency: string, displayCurrency: string, exchangeRate: real)

  type Record = map<string, FieldValue>

  const MoneyFields: seq<string> := ["open", "high", "low", "close", "pre_close", "amount", "total_mv", "circ_mv"]

  const CurrencyInfoKey: string := "_currency_info"

  lemma CurrencyInfoKeyIsNotMoney()
    ensures CurrencyInfoKey !in MoneyFields
  {
  }

  /**
   * Python's `float(v)`: a number is itself, a string is whatever `parse`
   * (standing for `float` on strings) makes of it, anything else raises.
   */
  function AsFloat(v: FieldValue, parse: string -> Option<real>): (r: Option<real>)
    ensures v.Number? ==> r == Some(v.x)
    ensures v.Null? || v.CurrencyInfo? ==> r.None?
  {
    match v
    case Number(x) => Some(x)
    case Text(s) => parse(s)
    case _ => None
  }

  /** A money field the loop converts: present, not None, and accepted by `float`. */
  predicate Convertible(data: Record, field: string, parse: string -> Option<real>) {
    field in MoneyFields && field in data && data[field] != Null && AsFloat(data[field], parse).Some?
  }

  /** A field's value after the loop: converted when convertible, as it was otherwise. */
  function FieldAfter(rates: Rates, data: Record, field: string, from: string, to: string, parse: string -> Option<real>): FieldValue
    requires field in data
  {
    if Convertible(data, field, parse) then
      match ConvertAmount(rates, AsFloat(data[field], parse).value, from, to)
      case Success(c) => Number(c.amount)
      case Failure(_) => data[field]
    else data[field]
  }

  /** The record once the loop has visited the money fields `done`. */
  function PartlyConverted(rates: Rates, data: Record, done: seq<string>, from: string, to: string,
                           parse: string -> Option<real>): (r: Record)
    ensures r.Keys == data.Keys
  {
    map k | k in data :: if k in done then FieldAfter(rates, data, k, from, to, parse) else data[k]
  }

  /** Visiting a field that is not converted changes nothing. */
  lemma PartlyConvertedSkip(rates: Rates, data: Record, done: seq<string>, field: string, from: string, to: string,
                            parse: string -> Option<real>)
    requires field !in done && !Convertible(data, field, parse)
    ensures PartlyConverted(rates, data, done + [field], from, to, parse) == PartlyConverted(rates, data, done, from, to, parse)
  {
  }

  /** Visiting a convertible field replaces its original value by the converted amount. */
  lemma PartlyConvertedConvert(rates: Rates, data: Record, done: seq<string>, field: string, from: string, to: string,
                               parse: string -> Option<real>)
    requires field !in done && Convertible(data, field, parse)
    requires ConvertAmount(rates, AsFloat(data[field], parse).value, from, to).Success?
    ensures var before := PartlyConverted(rates, data, done, from, to, parse);
      before[field] == data[field]
      && PartlyConverted(rates, data, done + [field], from, to, parse)
         == before[field := Number(ConvertAmount(rates, AsFloat(data[field], parse).value, from, to).value.amount)]
  {
  }

  lemma MoneyFieldsDistinct(i: nat)
    requires i < |MoneyFields|
    ensures MoneyFields[i] !in MoneyFields[..i]
  {
  }

  /** Visiting every money field converts exactly the fields the specification converts. */
  lemma AllFieldsConverted(rates: Rates, data: Record, from: string, to: string, parse: string -> Option<real>)
    ensures PartlyConverted(rates, data, MoneyFields[..|MoneyFields|], from, to, parse)
         == map k | k in data :: FieldAfter(rates, data, k, from, to, parse)
  {
    assert MoneyFields[..|MoneyFields|] == MoneyFields;
  }

  /**
   * What `convert_stock_data` returns: the record itself when the figures
   * already arrive in the display currency; otherwise the record with every
   * convertible money field converted and a `_currency_info` entry, or the
   * division error when the source rate is zero and there is a field to convert.
   */
  function ConvertedRecord(rates: Rates, data: Record, market: string, original: Option<string>, parse: string -> Option<real>)
    : (r: Result<Record, string>)
    ensures var from, to := original.GetOr(InferCurrency(market)), TargetCurrency(market);
      && (from == to ==> r == Success(data))
      && (r.Failure? <==> from != to && RateOf(rates, from) == 0.0 && exists f :: Convertible(data, f, parse))
      && (r.Success? && from != to ==>
            r.value.Keys == data.Keys + {CurrencyInfoKey}
            && r.value[CurrencyInfoKey] == CurrencyInfo(from, to, RateOf(rates, to))
            && (forall k :: k in data && k != CurrencyInfoKey && !Convertible(data, k, parse) ==> r.value[k] == data[k])
            && (forall k :: Convertible(data, k, parse) ==>
                  r.value[k] == Number(ConvertAmount(rates, AsFloat(data[k], parse).value, from, to).value.amount)))
  {
    var from, to := original.GetOr(InferCurrency(market)), TargetCurrency(market);
    if from == to then Success(data)
    else if RateOf(rates, from) == 0.0 && exists f | f in MoneyFields :: Convertible(data, f, parse) then Failure(ZeroDivision)
    else
      CurrencyInfoKeyIsNotMoney();
      var converted := map k | k in data :: FieldAfter(rates, data, k, from, to, parse);
      Success(converted[CurrencyInfoKey := CurrencyInfo(from, to, RateOf(rates, to))])
  }

  /** When the currencies differ and no division fails, the record is every field after the loop plus the information entry. */
  lemma ConvertedRecordWhenConverting(rates: Rates, data: Record, market: string, original: Option<string>,
                                      parse: string -> Option<real>)
    requires original.GetOr(InferCurrency(market)) != TargetCurrency(market)
    requires RateOf(rates, original.GetOr(InferCurrency(market))) == 0.0 ==>
      forall k :: k in MoneyFields[..|MoneyFields|] ==> !Convertible(data, k, parse)
    ensures var from, to := original.GetOr(InferCurrency(market)), TargetCurrency(market);
      ConvertedRecord(rates, data, market, original, parse)
      == Success((map k | k in data :: FieldAfter(rates, data, k, from, to, parse))[CurrencyInfoKey := CurrencyInfo(from, to, RateOf(rates, to))])
  {
    assert MoneyFields[..|MoneyFields|] == MoneyFields;
  }

  /**
   * Every money field the loop converts is worth, in euros, what it was worth
   * before; with `ConvertedRecordWhenConverting` this holds for every field of
   * the converted record.
   */
  lemma ConvertedFieldKeepsValue(rates: Rates, data: Record, k: string, from: string, to: string,
                                 parse: string -> Option<real>)
    requires Convertible(data, k, parse) && RateOf(rates, from) != 0.0
    ensures FieldAfter(rates, data, k, from, to, parse).Number?
    ensures FieldAfter(rates, data, k, from, to, parse).x * RateOf(rates, from)
         == AsFloat(data[k], parse).value * RateOf(rates, to)
  {
    var x := AsFloat(data[k], parse).value;
    assert ConvertAmount(rates, x, from, to).Success?;
    ConvertKeepsEuroValue(rates, x, from, to);
  }

  /** The reported exchange rate is the target's euro rate, which is the conversion rate only for euro sources. */
  lemma ReportedRateIsTargetRate(rates: Rates, data: Record, market: string, parse: string -> Option<real>)
    requires rates == map["EUR" := 1.0, "USD" := 1.08] && market == "US_NASDAQ"
    ensures var r := ConvertedRecord(rates, data, market, None, parse);
      r.Success? && r.value[CurrencyInfoKey].exchangeRate == 1.0
      && ConvertAmount(rates, 1.0, "USD", "EUR").value.rate == 1.0 / 1.08
  {
    assert InferCurrency(market) == "USD";
    assert TargetCurrency(market) == "EUR";
  }

  class CurrencyConverter {
    var rates: Rates

    /** The converter over the rates the provider returned. */
    constructor(rates: Rates)
      ensures this.rates == rates
    {
      this.rates := rates;
    }

    /** `refresh_rates`: the provider's current rates replace the old ones. */
    method RefreshRates(current: Rates)
      modifies this
      ensures rates == current
    {
      rates := current;
    }

    /**
     * `convert_stock_data`: copies the record and overwrites the money fields
     * in list order; a field `float` rejects is left as it was; a division
     * error is not caught and ends the call.
     */
    method ConvertStockData(data: Record, market: string, original: Option<string>, parse: string -> Option<real>)
      returns (r: Result<Record, string>)
      ensures r == ConvertedRecord(rates, data, market, original, parse)
    {
      var from := if original.None? then InferCurrency(market) else original.value;
      var to := TargetCurrency(market);
      if from == to {
        return Success(data);
      }
      var converted := data;
      for i := 0 to |MoneyFields|
        invariant converted == PartlyConverted(rates, data, MoneyFields[..i], from, to, parse)
        invariant RateOf(rates, from) == 0.0 ==> forall k :: k in MoneyFields[..i] ==> !Convertible(data, k, parse)
      {
        var field := MoneyFields[i];
        MoneyFieldsDistinct(i);
        assert MoneyFields[..i + 1] == MoneyFields[..i] + [field];
        if field in converted && converted[field] != Null {
          var amount := AsFloat(converted[field], parse);
          if amount.Some? {
            var c := ConvertAmount(rates, amount.value, from, to);
            if c.Failure? {
              assert Convertible(data, field, parse);
              return Failure(c.error);
            }
            PartlyConvertedConvert(rates, data, MoneyFields[..i], field, from, to, parse);
            converted := converted[field := Number(c.value.amount)];
          } else {
            PartlyConvertedSkip(rates, data, MoneyFields[..i], field, from, to, parse);
          }
        } else {
          PartlyConvertedSkip(rates, data, MoneyFields[..i], field, from, to, parse);
        }
      }
      AllFieldsConverted(rates, data, from, to, parse);
      ConvertedRecordWhenConverting(rates, data, market, original, parse);
      converted := converted[CurrencyInfoKey := CurrencyInfo(from, to, RateOf(rates, to))];
      return Success(converted);
    }
  }
}
