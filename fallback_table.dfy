/** The built-in market snapshot of `CryptoApiService.getFallbackData`
    (src/services/cryptoApi.ts): fifty fixed rows, in rank order, that are
    returned whenever the ranked-list request fails. */
module FallbackTable {
  import opened Types

  /** One literal row of the table. */
  datatype FallbackRow = FallbackRow(
    id: string,
    symbol: string,
    name: string,
    price: real,
    change24h: real,
    change7d: real,
    mcap: real,
    rank: nat)

  const FallbackRowCount: nat := 50

  /** Row `i` of the table, in the order the source lists them. */
  function FallbackTableRow(i: nat): (row: FallbackRow)
    requires i < FallbackRowCount
  {
    match i
    case 0 => FallbackRow("bitcoin", "btc", "Bitcoin", 67500.0, 2.5, -1.2, 1330000000000.0, 1)
    case 1 => FallbackRow("ethereum", "eth", "Ethereum", 3200.0, 1.8, -2.1, 385000000000.0, 2)
    case 2 => FallbackRow("tether", "usdt", "Tether", 0.92, 0.01, 0.02, 140000000000.0, 3)
    case 3 => FallbackRow("ripple", "xrp", "XRP", 2.04, -0.78, -0.9, 119000000000.0, 4)
    case 4 => FallbackRow("binancecoin", "bnb", "BNB", 599.27, 0.82, -3.4, 87000000000.0, 5)
    case 5 => FallbackRow("solana", "sol", "Solana", 163.44, -0.23, -5.8, 80000000000.0, 6)
    case 6 => FallbackRow("usd-coin", "usdc", "USDC", 0.92, 0.00, 0.01, 54000000000.0, 7)
    case 7 => FallbackRow("dogecoin", "doge", "Dogecoin", 0.38, 3.2, -2.1, 56000000000.0, 8)
    case 8 => FallbackRow("cardano", "ada", "Cardano", 0.89, 1.5, -4.2, 31000000000.0, 9)
    case 9 => FallbackRow("avalanche-2", "avax", "Avalanche", 42.50, 2.8, -1.5, 17000000000.0, 10)
    case 10 => FallbackRow("chainlink", "link", "Chainlink", 25.80, 1.2, -3.1, 15000000000.0, 11)
    case 11 => FallbackRow("polygon", "matic", "Polygon", 0.95, 2.1, -1.8, 9500000000.0, 12)
    case 12 => FallbackRow("litecoin", "ltc", "Litecoin", 105.50, 0.8, -2.5, 7800000000.0, 13)
    case 13 => FallbackRow("polkadot", "dot", "Polkadot", 8.90, 1.9, -4.1, 12000000000.0, 14)
    case 14 => FallbackRow("uniswap", "uni", "Uniswap", 12.40, 3.5, -1.2, 7400000000.0, 15)
    case 15 => FallbackRow("stellar", "xlm", "Stellar", 0.42, 2.8, -3.5, 12500000000.0, 16)
    case 16 => FallbackRow("algorand", "algo", "Algorand", 0.35, 1.1, -2.8, 2800000000.0, 17)
    case 17 => FallbackRow("cosmos", "atom", "Cosmos", 9.80, 2.3, -1.9, 3800000000.0, 18)
    case 18 => FallbackRow("filecoin", "fil", "Filecoin", 6.20, 1.8, -4.2, 3500000000.0, 19)
    case 19 => FallbackRow("vechain", "vet", "VeChain", 0.045, 2.1, -2.1, 3200000000.0, 20)
    case 20 => FallbackRow("tron", "trx", "TRON", 0.28, 1.5, -1.8, 24000000000.0, 21)
    case 21 => FallbackRow("ethereum-classic", "etc", "Ethereum Classic", 32.50, 0.9, -3.2, 4800000000.0, 22)
    case 22 => FallbackRow("monero", "xmr", "Monero", 185.20, 1.2, -2.5, 3400000000.0, 23)
    case 23 => FallbackRow("iota", "miota", "IOTA", 0.28, 2.8, -1.5, 780000000.0, 24)
    case 24 => FallbackRow("eos", "eos", "EOS", 0.85, 1.1, -4.1, 850000000.0, 25)
    case 25 => FallbackRow("aave", "aave", "Aave", 180.50, 2.5, -1.8, 2700000000.0, 26)
    case 26 => FallbackRow("maker", "mkr", "Maker", 1850.00, 1.8, -2.2, 1800000000.0, 27)
    case 27 => FallbackRow("compound", "comp", "Compound", 85.20, 3.1, -1.5, 850000000.0, 28)
    case 28 => FallbackRow("yearn-finance", "yfi", "Yearn Finance", 8500.00, 2.8, -3.1, 310000000.0, 29)
    case 29 => FallbackRow("sushi", "sushi", "SushiSwap", 1.85, 1.5, -2.8, 240000000.0, 30)
    case 30 => FallbackRow("curve-dao-token", "crv", "Curve DAO Token", 0.95, 2.1, -1.2, 380000000.0, 31)
    case 31 => FallbackRow("pancakeswap-token", "cake", "PancakeSwap", 2.80, 1.8, -2.5, 450000000.0, 32)
    case 32 => FallbackRow("thorchain", "rune", "THORChain", 5.20, 2.5, -1.8, 1700000000.0, 33)
    case 33 => FallbackRow("terra-luna", "luna", "Terra Luna Classic", 0.00012, 5.2, -8.1, 850000000.0, 34)
    case 34 => FallbackRow("near", "near", "NEAR Protocol", 6.80, 1.9, -2.8, 7200000000.0, 35)
    case 35 => FallbackRow("fantom", "ftm", "Fantom", 0.85, 2.8, -1.5, 2400000000.0, 36)
    case 36 => FallbackRow("harmony", "one", "Harmony", 0.025, 1.2, -3.8, 320000000.0, 37)
    case 37 => FallbackRow("elrond-erd-2", "egld", "MultiversX", 45.20, 2.1, -2.1, 1200000000.0, 38)
    case 38 => FallbackRow("helium", "hnt", "Helium", 8.50, 1.8, -1.9, 1400000000.0, 39)
    case 39 => FallbackRow("flow", "flow", "Flow", 0.95, 2.5, -2.8, 1500000000.0, 40)
    case 40 => FallbackRow("internet-computer", "icp", "Internet Computer", 12.80, 1.1, -4.2, 6000000000.0, 41)
    case 41 => FallbackRow("theta-token", "theta", "Theta Network", 2.10, 2.8, -1.5, 2100000000.0, 42)
    case 42 => FallbackRow("decentraland", "mana", "Decentraland", 0.58, 1.5, -3.1, 1100000000.0, 43)
    case 43 => FallbackRow("the-sandbox", "sand", "The Sandbox", 0.42, 2.1, -2.5, 950000000.0, 44)
    case 44 => FallbackRow("axie-infinity", "axs", "Axie Infinity", 8.20, 1.8, -1.8, 620000000.0, 45)
    case 45 => FallbackRow("enjincoin", "enj", "Enjin Coin", 0.35, 2.5, -2.1, 320000000.0, 46)
    case 46 => FallbackRow("chiliz", "chz", "Chiliz", 0.085, 1.2, -3.5, 760000000.0, 47)
    case 47 => FallbackRow("basic-attention-token", "bat", "Basic Attention Token", 0.28, 1.8, -2.8, 420000000.0, 48)
    case 48 => FallbackRow("gala", "gala", "Gala", 0.045, 2.8, -1.2, 1600000000.0, 49)
    case _ => FallbackRow("apecoin", "ape", "ApeCoin", 1.85, 1.5, -4.1, 850000000.0, 50)
  }

  /** Every row's rank is its position plus one, and every price is positive
      (so the supply divisions below are defined). */
  lemma TableRanksAndPrices()
    ensures forall i :: 0 <= i < FallbackRowCount ==>
              FallbackTableRow(i).rank == i + 1 && FallbackTableRow(i).price > 0.0
  {
    TableRanks();
    TablePrices();
  }

  lemma TableRanks()
    ensures forall i :: 0 <= i < FallbackRowCount ==> FallbackTableRow(i).rank == i + 1
  {
    TableRanksFrom0();
    TableRanksFrom17();
    TableRanksFrom34();
  }

  lemma TableRanksFrom0()
    ensures forall i :: 0 <= i < 17 ==> FallbackTableRow(i).rank == i + 1
  {
  }

  lemma TableRanksFrom17()
    ensures forall i :: 17 <= i < 34 ==> FallbackTableRow(i).rank == i + 1
  {
  }

  lemma TableRanksFrom34()
    ensures forall i :: 34 <= i < FallbackRowCount ==> FallbackTableRow(i).rank == i + 1
  {
  }

  lemma TablePrices()
    ensures forall i :: 0 <= i < FallbackRowCount ==> FallbackTableRow(i).price > 0.0
  {
  }

  lemma TableIdsDistinctFrom0()
    ensures forall i, j :: 0 <= i < 4 && i < j < FallbackRowCount ==> FallbackTableRow(i).id != FallbackTableRow(j).id
  {
  }

  lemma TableIdsDistinctFrom4()
    ensures forall i, j :: 4 <= i < 8 && i < j < FallbackRowCount ==> FallbackTableRow(i).id != FallbackTableRow(j).id
  {
  }

  lemma TableIdsDistinctFrom8()
    ensures forall i, j :: 8 <= i < 12 && i < j < FallbackRowCount ==> FallbackTableRow(i).id != FallbackTableRow(j).id
  {
  }

  lemma TableIdsDistinctFrom12()
    ensures forall i, j :: 12 <= i < 17 && i < j < FallbackRowCount ==> FallbackTableRow(i).id != FallbackTableRow(j).id
  {
  }

  lemma TableIdsDistinctFrom17()
    ensures forall i, j :: 17 <= i < 23 && i < j < FallbackRowCount ==> FallbackTableRow(i).id != FallbackTableRow(j).id
  {
  }

  lemma TableIdsDistinctFrom23()
    ensures forall i, j :: 23 <= i < 30 && i < j < FallbackRowCount ==> FallbackTableRow(i).id != FallbackTableRow(j).id
  {
  }

  lemma TableIdsDistinctFrom30()
    ensures forall i, j :: 30 <= i < 40 && i < j < FallbackRowCount ==> FallbackTableRow(i).id != FallbackTableRow(j).id
  {
  }

  lemma TableIdsDistinctFrom40()
    ensures forall i, j :: 40 <= i < 50 && i < j < FallbackRowCount ==> FallbackTableRow(i).id != FallbackTableRow(j).id
  {
  }

  /** No two rows share an id. */
  lemma TableIdsDistinct()
    ensures forall i, j :: 0 <= i < j < FallbackRowCount ==> FallbackTableRow(i).id != FallbackTableRow(j).id
  {
    TableIdsDistinctFrom0();
    TableIdsDistinctFrom4();
    TableIdsDistinctFrom8();
    TableIdsDistinctFrom12();
    TableIdsDistinctFrom17();
    TableIdsDistinctFrom23();
    TableIdsDistinctFrom30();
    TableIdsDistinctFrom40();
  }

  function DigitChar(d: nat): (c: char)
    requires d < 10
  {
    "0123456789"[d]
  }

  /** Decimal text of a natural number, as a template string prints it. */
  function NatToString(n: nat): (s: string)
  {
    if n < 10 then [DigitChar(n)] else NatToString(n / 10) + [DigitChar(n % 10)]
  }

  function ImageUrl(row: FallbackRow): (url: string) {
    "https://assets.coingecko.com/coins/images/" + NatToString(row.rank) + "/large/" + row.id + ".png"
  }

  /** The fields the source derives from the price and the capitalisation
      rather than listing them: a 24-hour high 5% over the price, a low 5%
      under it, a volume of a tenth of the capitalisation, and the clock
      reading as the update time. */
  predicate DerivedQuotes(inst: Instrument, lastUpdated: string) {
    && inst.high24h == Some(inst.currentPrice * 1.05)
    && inst.low24h == Some(inst.currentPrice * 0.95)
    && inst.totalVolume == inst.marketCap * 0.1
    && inst.lastUpdated == lastUpdated
  }

  /** The instrument built from one table row; `lastUpdated` is the
      timestamp the source takes from the clock when it builds the list. */
  function RowToInstrument(row: FallbackRow, lastUpdated: string): (inst: Instrument)
    requires row.price > 0.0
    ensures inst.id == row.id && inst.marketCapRank == row.rank
    ensures inst.symbol == row.symbol && inst.name == row.name
    ensures inst.currentPrice == row.price && inst.marketCap == row.mcap
    ensures inst.priceChangePercentage24h == row.change24h
    ensures DerivedQuotes(inst, lastUpdated)
  {
    Instrument(
      row.id, row.symbol, row.name, row.price, row.change24h, Some(row.change7d),
      row.mcap, row.rank, row.mcap * 0.1, ImageUrl(row), lastUpdated,
      Some(row.price * 1.05), Some(row.price * 0.95),
      Some(row.mcap / row.price), Some(row.mcap / row.price * 1.2))
  }

  /** `getFallbackData`: fifty instruments with distinct ids, ranked 1 to 50
      in order, with the derived volume, high and low the source computes. */
  function FallbackData(lastUpdated: string): (list: seq<Instrument>)
    ensures |list| == 50
    ensures forall i :: 0 <= i < |list| ==> list[i].marketCapRank == i + 1
    ensures forall i, j :: 0 <= i < j < |list| ==> list[i].id != list[j].id
    ensures forall i :: 0 <= i < |list| ==> DerivedQuotes(list[i], lastUpdated)
  {
    TableRanksAndPrices();
    TableIdsDistinct();
    seq(FallbackRowCount, i requires 0 <= i < FallbackRowCount => RowToInstrument(FallbackTableRow(i), lastUpdated))
  }

  /** The table is in rank order but not in market-capitalisation order:
      USDC (rank 7) is listed with a smaller cap than Dogecoin (rank 8). */
  lemma FallbackNotOrderedByMarketCap(lastUpdated: string)
    ensures var list := FallbackData(lastUpdated);
      list[6].marketCapRank < list[7].marketCapRank && list[6].marketCap < list[7].marketCap
  {
  }
}
