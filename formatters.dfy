/** The display decisions of src/utils/formatters.ts: sign, colour and icon
    selection, the market-cap tiers, and the EUR conversion that reads the
    rate table snapshot returned by `getRates()`. The text produced by
    `Intl.NumberFormat` and `toFixed` is kept as an uninterpreted `Segment`. */
module Formatters {
  import opened Types
  import ExchangeRates

  const Trillion: real := 1000000000000.0
  const Billion: real := 1000000000.0
  const Million: real := 1000000.0

  /** The amount shown for a USD figure in `currency`: unchanged for USD,
      multiplied by the EUR rate (or 0.92) for EUR. */
  function Converted(amount: real, currency: Currency, rates: map<Currency, real>): (r: real)
    ensures currency == USD ==> r == amount
    ensures currency == EUR && EUR in rates && rates[EUR] != 0.0 ==> r == amount * rates[EUR]
    ensures currency == EUR && (EUR !in rates || rates[EUR] == 0.0) ==> r == amount * ExchangeRates.DefaultEurRate
  {
    if currency == EUR then amount * ExchangeRates.EurRateOrDefault(rates) else amount
  }

  /** `formatPrice`: one currency-formatted number. The fraction-digit cap is
      chosen by the price as passed in (before conversion). */
  function FormatPrice(price: real, currency: Currency, rates: map<Currency, real>): (t: Text)
    ensures |t| == 1 && t[0].Intl?
    ensures t[0].x == Converted(price, currency, rates)
    ensures t[0].format.currency == currency && t[0].format.minFractionDigits == 2
    ensures t[0].format.locale == "es-ES" <==> currency == EUR
    ensures t[0].format.locale == "en-US" <==> currency == USD
    ensures t[0].format.maxFractionDigits == 6 <==> price < 1.0
    ensures t[0].format.maxFractionDigits == 2 <==> price >= 1.0
  {
    var locale := if currency == EUR then "es-ES" else "en-US";
    [Intl(Converted(price, currency, rates), CurrencyFormat(locale, currency, 2, if price < 1.0 then 6 else 2))]
  }

  /** `formatPercentage`: an explicit plus sign for non-negative values, the
      value to two decimals, then a percent sign. */
  function FormatPercentage(percentage: real): (t: Text)
    ensures |t| == 3 && t[1] == Fixed(percentage, 2) && t[2] == Lit("%")
    ensures t[0] == Lit("+") <==> percentage >= 0.0
    ensures t[0] == Lit("") <==> percentage < 0.0
  {
    var sign := if percentage >= 0.0 then "+" else "";
    [Lit(sign), Fixed(percentage, 2), Lit("%")]
  }

  /** Rendered, the percentage starts with '+' exactly when it is non-negative
      (the runtime's `toFixed` never writes a plus sign) and ends with '%'. */
  lemma {:induction false} FormatPercentageRendered(percentage: real, show: Segment -> string)
    requires forall x: real :: |show(Fixed(x, 2))| > 0 && show(Fixed(x, 2))[0] != '+'
    ensures var s := Render(FormatPercentage(percentage), show);
      && |s| > 0
      && (s[0] == '+' <==> percentage >= 0.0)
      && s[|s| - 1] == '%'
  {
    var t := FormatPercentage(percentage);
    var digits := show(Fixed(percentage, 2));
    assert Render(t[2..], show) == "%" by {
      assert t[2..][1..] == [];
    }
    assert Render(t[1..], show) == digits + "%" by {
      assert t[1..][1..] == t[2..];
    }
    if percentage >= 0.0 {
      assert Render(t, show) == "+" + digits + "%";
    } else {
      assert Render(t, show) == "" + digits + "%";
    }
  }

  /** `getPercentageColor`. */
  function PercentageColor(percentage: real): (c: string)
    ensures c == "text-green-600" <==> percentage >= 0.0
    ensures c == "text-red-600" <==> percentage < 0.0
  {
    if percentage >= 0.0 then "text-green-600" else "text-red-600"
  }

  /** `getPercentageIcon`: a rising chart for non-negative values. */
  function PercentageIcon(percentage: real): (icon: string)
    ensures icon == "📈" <==> percentage >= 0.0
    ensures icon == "📉" <==> percentage < 0.0
  {
    if percentage >= 0.0 then "📈" else "📉"
  }

  /** Colour and icon split the values at the same point. */
  lemma ColorAndIconAgree(percentage: real)
    ensures PercentageColor(percentage) == "text-green-600" <==> PercentageIcon(percentage) == "📈"
  {
  }

  /** A tiered amount: `${(v / scale).toFixed(2)}<suffix> <currency>`. */
  function Tiered(value: real, scale: real, suffix: string, currency: Currency): (t: Text)
    requires scale > 0.0
    ensures |t| == 3 && t[0].Fixed? && t[0].digits == 2 && t[0].x * scale == value
    ensures t[1] == Lit(suffix + " ")
    ensures t[2] == Lit(CurrencyCode(currency))
  {
    [Fixed(value / scale, 2), Lit(suffix + " "), Lit(CurrencyCode(currency))]
  }

  /** `formatMarketCap` as written: the cap is converted once to choose the
      tier; below a million the converted value is handed to `formatPrice`,
      which converts it again. */
  function FormatMarketCap(marketCap: real, currency: Currency, rates: map<Currency, real>): (t: Text)
    ensures var c := Converted(marketCap, currency, rates);
      && (t == Tiered(c, Trillion, "T", currency) <==> c >= Trillion)
      && (t == Tiered(c, Billion, "B", currency) <==> Billion <= c < Trillion)
      && (t == Tiered(c, Million, "M", currency) <==> Million <= c < Billion)
      && (c < Million <==> t == FormatPrice(c, currency, rates))
    ensures Converted(marketCap, currency, rates) >= Million ==>
              |t| == 3 && t[2] == Lit(CurrencyCode(currency))
  {
    var convertedCap := Converted(marketCap, currency, rates);
    if convertedCap >= Trillion then Tiered(convertedCap, Trillion, "T", currency)
    else if convertedCap >= Billion then Tiered(convertedCap, Billion, "B", currency)
    else if convertedCap >= Million then Tiered(convertedCap, Million, "M", currency)
    else FormatPrice(convertedCap, currency, rates)
  }

  /** Below a million in EUR the amount handed to `Intl.NumberFormat` is the
      cap times the rate twice, not once. */
  lemma MarketCapConvertsTwice(marketCap: real, rates: map<Currency, real>)
    requires Converted(marketCap, EUR, rates) < Million
    ensures var r := ExchangeRates.EurRateOrDefault(rates);
      FormatMarketCap(marketCap, EUR, rates)[0].x == marketCap * r * r
  {
  }

  /** A concrete case: a cap of 1000 at a rate of 0.5 is displayed as 250
      euros instead of 500. */
  lemma MarketCapDoubleConversionExample()
    ensures var rates := map[EUR := 0.5];
      && Converted(1000.0, EUR, rates) == 500.0
      && FormatMarketCap(1000.0, EUR, rates)[0].x == 250.0
  {
  }

  /** `formatMarketCap` with the small-cap branch passing the unconverted cap
      to `formatPrice`, so that the rate is applied exactly once in every
      tier. */
  function FormatMarketCapConvertedOnce(marketCap: real, currency: Currency, rates: map<Currency, real>): (t: Text)
    ensures var c := Converted(marketCap, currency, rates);
      && (t == Tiered(c, Trillion, "T", currency) <==> c >= Trillion)
      && (t == Tiered(c, Billion, "B", currency) <==> Billion <= c < Trillion)
      && (t == Tiered(c, Million, "M", currency) <==> Million <= c < Billion)
      && (c < Million ==> |t| == 1 && t[0].Intl? && t[0].x == c)
  {
    var convertedCap := Converted(marketCap, currency, rates);
    if convertedCap >= Trillion then Tiered(convertedCap, Trillion, "T", currency)
    else if convertedCap >= Billion then Tiered(convertedCap, Billion, "B", currency)
    else if convertedCap >= Million then Tiered(convertedCap, Million, "M", currency)
    else FormatPrice(marketCap, currency, rates)
  }

  lemma ScalingByNonUnitChanges(x: real, r: real, y: real)
    requires x != 0.0 && r != 1.0 && y == x * r
    ensures y != x
  {
  }

  /** The two versions agree on every cap in USD and on every tiered cap. */
  lemma ConvertedOnceAgreesInUsdAndTiers(marketCap: real, currency: Currency, rates: map<Currency, real>)
    ensures currency == USD || Converted(marketCap, currency, rates) >= Million ==>
              FormatMarketCap(marketCap, currency, rates) == FormatMarketCapConvertedOnce(marketCap, currency, rates)
  {
  }

  /** In EUR below a million the two versions differ whenever the rate is
      not 1 and the cap is not 0. */
  lemma ConvertedOnceDiffersBelowMillionInEur(marketCap: real, currency: Currency, rates: map<Currency, real>)
    ensures currency == EUR && Converted(marketCap, currency, rates) < Million
            && marketCap != 0.0 && ExchangeRates.EurRateOrDefault(rates) != 1.0 ==>
              FormatMarketCap(marketCap, currency, rates) != FormatMarketCapConvertedOnce(marketCap, currency, rates)
  {
    var r := ExchangeRates.EurRateOrDefault(rates);
    if currency == EUR && Converted(marketCap, currency, rates) < Million && marketCap != 0.0 && r != 1.0 {
      MarketCapConvertsTwice(marketCap, rates);
      var asWritten := FormatMarketCap(marketCap, currency, rates)[0].x;
      var once := FormatMarketCapConvertedOnce(marketCap, currency, rates)[0].x;
      assert once == marketCap * r;
      ScalingByNonUnitChanges(once, r, asWritten);
    }
  }
}
