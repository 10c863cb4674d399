/** Value shapes shared by the dashboard's store, API service and formatters
    (the interfaces of src/types/index.ts), plus a small model of the text the
    formatters build, with the number-rendering calls left uninterpreted. */
module Types {

  datatype Option<T> = None | Some(value: T) {
    /** `x || d` for a field that may be absent. */
    function GetOr(default: T): (v: T) {
      match this
      case Some(v) => v
      case None => default
    }
  }

  datatype Result<T> = Success(value: T) | Failure

  datatype Currency = USD | EUR
  datatype AlertType = Above | Below | PercentageChange
  datatype Theme = Light | Dark | Auto
  datatype Language = Es | En

  /** The three-letter code that the formatters print after a tiered amount. */
  function CurrencyCode(c: Currency): (code: string) {
    match c
    case USD => "USD"
    case EUR => "EUR"
  }

  /** One row of the market snapshot. */
  datatype Instrument = Instrument(
    id: string,
    symbol: string,
    name: string,
    currentPrice: real,
    priceChangePercentage24h: real,
    priceChangePercentage7d: Option<real>,
    marketCap: real,
    marketCapRank: int,
    totalVolume: real,
    image: string,
    lastUpdated: string,
    high24h: Option<real>,
    low24h: Option<real>,
    circulatingSupply: Option<real>,
    totalSupply: Option<real>)

  datatype PriceAlert = PriceAlert(
    id: string,
    cryptoId: string,
    cryptoName: string,
    cryptoSymbol: string,
    targetPrice: real,
    alertType: AlertType,
    isActive: bool,
    currency: Currency,
    createdAt: string,
    triggeredAt: Option<string>,
    message: Option<Text>)

  /** One position of the simulated portfolio. */
  datatype Holding = Holding(
    cryptoId: string,
    symbol: string,
    name: string,
    amount: real,
    averagePrice: real,
    currentValue: real,
    profitLoss: real,
    profitLossPercentage: real,
    currency: Currency,
    addedAt: string,
    image: string)

  datatype ChartPoint = ChartPoint(timestamp: int, price: real)

  datatype Settings = Settings(
    currency: Currency,
    theme: Theme,
    refreshInterval: int,
    notifications: bool,
    language: Language)

  datatype MarketStats = MarketStats(
    totalMarketCap: real,
    total24hVolume: real,
    btcDominance: real,
    activeCryptocurrencies: int)

  /** The options handed to `Intl.NumberFormat(locale, {style: 'currency', ...})`. */
  datatype NumberFormat = CurrencyFormat(
    locale: string,
    currency: Currency,
    minFractionDigits: nat,
    maxFractionDigits: nat)

  /** A piece of a template string: literal text, a number through `String(x)`,
      through `x.toFixed(digits)`, or through an `Intl.NumberFormat`. */
  datatype Segment =
    | Lit(s: string)
    | Num(x: real)
    | Fixed(x: real, digits: nat)
    | Intl(x: real, format: NumberFormat)

  type Text = seq<Segment>

  /** The characters of a text, given how the runtime renders the numeric
      pieces; the renderer is a parameter because it is not part of the model. */
  function Render(t: Text, show: Segment -> string): (s: string)
    ensures t == [] ==> s == []
  {
    if t == [] then []
    else
      var head := if t[0].Lit? then t[0].s else show(t[0]);
      head + Render(t[1..], show)
  }
}
