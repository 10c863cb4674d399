/** The market-data service of src/services/cryptoApi.ts: the module-level
    response cache with its 30-second validity window, the cache-on-success
    paths of the three cached requests, and the synthetic chart used when the
    history request fails. Every HTTP exchange is an input value. */
module CryptoApi {
  import opened Types
  import opened FallbackTable

  /** How long a cached response is served (ms). */
  const CacheDuration: int := 30000

  /** The cache keys the service uses: `top-cryptos-${limit}`,
      `'global-stats'` and `'exchange-rates'`. Distinct requests get distinct
      keys, as the strings do. */
  datatype CacheKey = TopCryptosKey(limit: int) | GlobalStatsKey | ExchangeRatesKey

  /** The value stored under a key. */
  datatype CachedValue = CryptoList(list: seq<Instrument>) | Stats(stats: MarketStats) | EurRate(eur: real)

  datatype CacheEntry = CacheEntry(data: CachedValue, timestamp: int)

  /** Each key only ever holds the kind of value its request produces. */
  predicate KindMatches(key: CacheKey, data: CachedValue) {
    match key
    case TopCryptosKey(_) => data.CryptoList?
    case GlobalStatsKey => data.Stats?
    case ExchangeRatesKey => data.EurRate?
  }

  /** `getCachedData`: the stored data when an entry exists and is younger
      than the validity window, nothing otherwise. */
  function GetCachedData(cache: map<CacheKey, CacheEntry>, key: CacheKey, now: int): (r: Option<CachedValue>)
    ensures r.Some? <==> key in cache && now - cache[key].timestamp < CacheDuration
    ensures r.Some? ==> r.value == cache[key].data
  {
    if key in cache && now - cache[key].timestamp < CacheDuration then Some(cache[key].data) else None
  }

  /** An entry stored at time `t` is served exactly while less than 30 s old. */
  lemma {:induction false} StoredEntryLifetime(cache: map<CacheKey, CacheEntry>, key: CacheKey, data: CachedValue, t: int, now: int)
    ensures GetCachedData(cache[key := CacheEntry(data, t)], key, now).Some? <==> now < t + CacheDuration
    ensures now < t + CacheDuration ==> GetCachedData(cache[key := CacheEntry(data, t)], key, now) == Some(data)
  {
  }

  /** One HTTP exchange: an ok response and its (already mapped) body, a
      response without `ok`, or an exception. */
  datatype Response<T> = Ok(body: T) | NotOk | Thrown

  /** The list obtained by `getTopCryptocurrencies`'s two attempts: the first
      request, and the simplified retry that is made only when the first
      answered without `ok`. Nothing when neither produced a list. */
  function TopCryptosFetched(first: Response<seq<Instrument>>, retry: Response<seq<Instrument>>): (r: Option<seq<Instrument>>)
    ensures first.Ok? ==> r == Some(first.body)
    ensures first.Thrown? ==> r == None
    ensures first.NotOk? ==> r == (if retry.Ok? then Some(retry.body) else None)
  {
    match first
    case Ok(list) => Some(list)
    case Thrown => None
    case NotOk =>
      match retry
      case Ok(list) => Some(list)
      case _ => None
  }

  /** The EUR rate read from an ok response: `data.usd?.eur || 0.92`. */
  function EurFromBody(eur: Option<real>): (r: real)
    ensures r != 0.0
    ensures eur.Some? && eur.value != 0.0 ==> r == eur.value
    ensures eur.None? || eur.value == 0.0 ==> r == 0.92
  {
    if eur.Some? && eur.value != 0.0 then eur.value else 0.92
  }

  /** The state of the service is its module-level cache. */
  class CryptoApiService {
    var cache: map<CacheKey, CacheEntry>

    ghost predicate Valid()
      reads this
    {
      forall k :: k in cache ==> KindMatches(k, cache[k].data)
    }

    constructor ()
      ensures Valid() && cache == map[]
    {
      cache := map[];
    }

    /** `getTopCryptocurrencies(limit)` at time `now`. A live cache entry is
        returned without any request; a fetched list is cached and returned;
        when both attempts fail the fallback table is returned and the cache
        is left alone. */
    method GetTopCryptocurrencies(limit: int, now: int, lastUpdated: string,
                                  first: Response<seq<Instrument>>, retry: Response<seq<Instrument>>)
      returns (data: seq<Instrument>)
      requires Valid()
      modifies this
      ensures Valid()
      ensures var hit := GetCachedData(old(cache), TopCryptosKey(limit), now);
        hit.Some? ==> data == hit.value.list && cache == old(cache)
      ensures var hit := GetCachedData(old(cache), TopCryptosKey(limit), now);
        var fetched := TopCryptosFetched(first, retry);
        hit.None? && fetched.Some? ==>
          data == fetched.value
          && cache == old(cache)[TopCryptosKey(limit) := CacheEntry(CryptoList(data), now)]
      ensures var hit := GetCachedData(old(cache), TopCryptosKey(limit), now);
        hit.None? && TopCryptosFetched(first, retry).None? ==>
          data == FallbackData(lastUpdated) && cache == old(cache)
    {
      var key := TopCryptosKey(limit);
      var cached := GetCachedData(cache, key, now);
      if cached.Some? {
        return cached.value.list;
      }
      var response := first;
      if !response.Ok? && !response.Thrown? {
        response := retry;
      }
      if response.Ok? {
        data := response.body;
        cache := cache[key := CacheEntry(CryptoList(data), now)];
      } else {
        data := FallbackData(lastUpdated);
      }
    }

    /** `getGlobalMarketStats()`: served from the cache when live, cached
        after an ok response, and an error (with the cache untouched) on any
        failure. There is no fallback. */
    method GetGlobalMarketStats(now: int, response: Response<MarketStats>) returns (r: Result<MarketStats>)
      requires Valid()
      modifies this
      ensures Valid()
      ensures var hit := GetCachedData(old(cache), GlobalStatsKey, now);
        hit.Some? ==> r == Success(hit.value.stats) && cache == old(cache)
      ensures GetCachedData(old(cache), GlobalStatsKey, now).None? && response.Ok? ==>
        r == Success(response.body) && cache == old(cache)[GlobalStatsKey := CacheEntry(Stats(response.body), now)]
      ensures GetCachedData(old(cache), GlobalStatsKey, now).None? && !response.Ok? ==>
        r == Failure && cache == old(cache)
    {
      var cached := GetCachedData(cache, GlobalStatsKey, now);
      if cached.Some? {
        return Success(cached.value.stats);
      }
      match response
      case Ok(stats) =>
        cache := cache[GlobalStatsKey := CacheEntry(Stats(stats), now)];
        r := Success(stats);
      case _ =>
        r := Failure;
    }

    /** `getExchangeRates()`: served from the cache when live; an ok response
        is cached (with 0.92 standing in for a missing rate); a failed one
        yields 0.92 without being cached. */
    method GetExchangeRates(now: int, response: Response<Option<real>>) returns (eur: real)
      requires Valid()
      modifies this
      ensures Valid()
      ensures var hit := GetCachedData(old(cache), ExchangeRatesKey, now);
        hit.Some? ==> eur == hit.value.eur && cache == old(cache)
      ensures GetCachedData(old(cache), ExchangeRatesKey, now).None? && response.Ok? ==>
        eur == EurFromBody(response.body) && cache == old(cache)[ExchangeRatesKey := CacheEntry(EurRate(eur), now)]
      ensures GetCachedData(old(cache), ExchangeRatesKey, now).None? && !response.Ok? ==>
        eur == 0.92 && cache == old(cache)
    {
      var cached := GetCachedData(cache, ExchangeRatesKey, now);
      if cached.Some? {
        return cached.value.eur;
      }
      match response
      case Ok(body) =>
        eur := EurFromBody(body);
        cache := cache[ExchangeRatesKey := CacheEntry(EurRate(eur), now)];
      case _ =>
        eur := 0.92;
    }

    /** `getCacheSize`. */
    function CacheSize(): (n: nat)
      reads this
      ensures n == 0 <==> cache == map[]
    {
      |cache|
    }

    /** `clearCache`: every entry is dropped. */
    method ClearCache()
      modifies this
      ensures Valid()
      ensures cache == map[] && CacheSize() == 0
    {
      cache := map[];
    }
  }

  // ---------------------------------------------------------------------
  // The synthetic chart of `getFallbackChartData`.
  // ---------------------------------------------------------------------

  /** The base prices the chart generator knows. */
  datatype ChartBase = ChartBase(id: string, price: real)

  const ChartBases: seq<ChartBase> := [
    ChartBase("bitcoin", 67500.0),
    ChartBase("ethereum", 3200.0),
    ChartBase("solana", 163.44),
    ChartBase("binancecoin", 599.27),
    ChartBase("ripple", 2.04),
    ChartBase("tether", 0.92),
    ChartBase("usd-coin", 0.92),
    ChartBase("dogecoin", 0.38),
    ChartBase("cardano", 0.89),
    ChartBase("avalanche-2", 42.50)
  ]

  /** The base price used for ids the table does not list. */
  const DefaultBasePrice: real := 100.0

  /** The price of the first row with this id, or the default. */
  function BasePriceIn(bases: seq<ChartBase>, coinId: string): (price: real)
    ensures (forall k :: 0 <= k < |bases| ==> bases[k].id != coinId) ==> price == DefaultBasePrice
    ensures (exists k :: 0 <= k < |bases| && bases[k].id == coinId) ==>
              exists k :: 0 <= k < |bases| && bases[k].id == coinId && bases[k].price == price
                          && forall j :: 0 <= j < k ==> bases[j].id != coinId
  {
    if bases == [] then DefaultBasePrice
    else if bases[0].id == coinId then bases[0].price
    else
      var rest := BasePriceIn(bases[1..], coinId);
      assert forall k :: 1 <= k < |bases| ==> bases[k] == bases[1..][k - 1];
      rest
  }

  function BasePrice(coinId: string): (price: real) {
    BasePriceIn(ChartBases, coinId)
  }

  predicate PricesPositive(bases: seq<ChartBase>) {
    bases == [] || (bases[0].price > 0.0 && PricesPositive(bases[1..]))
  }

  /** A table of positive prices gives a positive price for every id. */
  lemma {:induction false} BasePriceInPositive(bases: seq<ChartBase>, coinId: string)
    requires PricesPositive(bases)
    ensures BasePriceIn(bases, coinId) > 0.0
  {
    if bases != [] && bases[0].id != coinId {
      BasePriceInPositive(bases[1..], coinId);
    }
  }

  lemma BasePricePositive(coinId: string)
    ensures BasePrice(coinId) > 0.0
  {
    assert PricesPositive(ChartBases);
    BasePriceInPositive(ChartBases, coinId);
  }

  const HourMs: int := 3600000
  const DayMs: int := 86400000

  /** Hourly points up to a week, daily points beyond. */
  function ChartInterval(days: int): (ms: int) {
    if days <= 7 then HourMs else DayMs
  }

  /** `i * interval`, written per branch so that each product has a
      constant factor. */
  function Elapsed(days: int, i: int): (ms: int) {
    if days <= 7 then i * 3600000 else i * 86400000
  }

  lemma ElapsedIsSteps(days: int, i: int)
    ensures Elapsed(days, i) == i * ChartInterval(days)
  {
  }

  /** Further back in the loop means further back in time. */
  lemma ElapsedIncreasing(days: int, i: int, k: int)
    requires i < k
    ensures Elapsed(days, i) < Elapsed(days, k)
  {
  }

  /** The loop's first counter value: `days` times 24 up to a week, `days`
      itself beyond. */
  function ChartSteps(days: int): (steps: int) {
    if days <= 7 then days * 24 else days
  }

  /** The loop runs from `ChartSteps(days)` down to 0. */
  function ChartPointCount(days: int): (count: nat)
    ensures days >= 0 && days <= 7 ==> count == days * 24 + 1
    ensures days > 7 ==> count == days + 1
    ensures days < 0 ==> count == 0
  {
    if ChartSteps(days) >= 0 then ChartSteps(days) + 1 else 0
  }

  function Max(a: real, b: real): (m: real) {
    if a >= b then a else b
  }

  /** `Math.max(basePrice * (1 + offset), basePrice * 0.8)`, where `offset`
      is the random variation plus the sine trend of that step. */
  function ClampedPrice(basePrice: real, offset: real): (price: real)
    ensures price >= basePrice * 0.8
    ensures price >= basePrice * (1.0 + offset)
    ensures price == basePrice * (1.0 + offset) || price == basePrice * 0.8
  {
    Max(basePrice * (1.0 + offset), basePrice * 0.8)
  }

  /** The point the loop pushes for counter value `i`. */
  function PointAt(basePrice: real, days: int, now: int, noise: nat -> real, i: nat): (point: ChartPoint) {
    ChartPoint(now - Elapsed(days, i), ClampedPrice(basePrice, noise(i)))
  }

  /** The points in the order the loop pushes them, oldest first: position
      `j` holds counter value `ChartSteps(days) - j`. This is the order the
      "chronological" comment promises. */
  function FallbackChartChronological(basePrice: real, days: int, now: int, noise: nat -> real): (points: seq<ChartPoint>)
    ensures |points| == ChartPointCount(days)
    ensures |points| > 0 ==> points[|points| - 1] == PointAt(basePrice, days, now, noise, 0)
  {
    var n := ChartSteps(days);
    seq(ChartPointCount(days), j requires 0 <= j < ChartPointCount(days) =>
          PointAt(basePrice, days, now, noise, n - j))
  }

  lemma ChronologicalAt(basePrice: real, days: int, now: int, noise: nat -> real, j: int)
    requires 0 <= j < ChartPointCount(days)
    ensures |FallbackChartChronological(basePrice, days, now, noise)| == ChartPointCount(days) == ChartSteps(days) + 1
    ensures FallbackChartChronological(basePrice, days, now, noise)[j]
            == PointAt(basePrice, days, now, noise, ChartSteps(days) - j)
  {
  }

  /** The corrected order: same count, timestamps strictly increasing and
      ending at `now`, every price at least 80% of the base. */
  lemma {:induction false} FallbackChartChronologicalShape(basePrice: real, days: int, now: int, noise: nat -> real)
    ensures var points := FallbackChartChronological(basePrice, days, now, noise);
      && |points| == ChartPointCount(days)
      && (forall j, k :: 0 <= j < k < |points| ==> points[j].timestamp < points[k].timestamp)
      && (forall j :: 0 <= j < |points| ==> points[j].price >= basePrice * 0.8)
      && (|points| > 0 ==> points[|points| - 1].timestamp == now)
  {
    var points := FallbackChartChronological(basePrice, days, now, noise);
    var n := ChartSteps(days);
    forall j | 0 <= j < |points|
      ensures points[j] == PointAt(basePrice, days, now, noise, n - j)
    {
      ChronologicalAt(basePrice, days, now, noise, j);
    }
    forall j, k | 0 <= j < k < |points|
      ensures points[j].timestamp < points[k].timestamp
    {
      ElapsedIncreasing(days, n - k, n - j);
    }
    if |points| > 0 {
      ChronologicalAt(basePrice, days, now, noise, |points| - 1);
    }
  }

  function Reversed<T>(s: seq<T>): (r: seq<T>)
    ensures |r| == |s|
    ensures forall k :: 0 <= k < |s| ==> r[k] == s[|s| - 1 - k]
  {
    seq(|s|, k requires 0 <= k < |s| => s[|s| - 1 - k])
  }

  /** `getFallbackChartData` as written: the pushed points reversed, so the
      newest point comes first and the timestamps strictly decrease. */
  function FallbackChart(basePrice: real, days: int, now: int, noise: nat -> real): (points: seq<ChartPoint>)
    ensures |points| == ChartPointCount(days)
    ensures |points| > 0 ==> points[0].timestamp == now
  {
    Reversed(FallbackChartChronological(basePrice, days, now, noise))
  }

  /** Shape of the as-written result: `days * 24 + 1` hourly points up to a
      week, `days + 1` daily points beyond; point `k` is `k` intervals before
      `now` and carries the clamped price of step `k`, so every price is at
      least 80% of the base; newest first. */
  lemma {:induction false} FallbackChartShape(basePrice: real, days: int, now: int, noise: nat -> real)
    ensures var points := FallbackChart(basePrice, days, now, noise);
      && |points| == ChartPointCount(days)
      && (forall k :: 0 <= k < |points| ==>
            points[k].timestamp == now - k * ChartInterval(days)
            && points[k].price == ClampedPrice(basePrice, noise(k))
            && points[k].price >= basePrice * 0.8)
      && (forall k, l :: 0 <= k < l < |points| ==> points[k].timestamp > points[l].timestamp)
  {
    var chrono := FallbackChartChronological(basePrice, days, now, noise);
    var points := FallbackChart(basePrice, days, now, noise);
    var n := ChartSteps(days);
    forall k | 0 <= k < |points|
      ensures points[k].timestamp == now - k * ChartInterval(days)
      ensures points[k].price == ClampedPrice(basePrice, noise(k))
    {
      ChronologicalAt(basePrice, days, now, noise, |chrono| - 1 - k);
      assert points[k] == chrono[|chrono| - 1 - k];
      ElapsedIsSteps(days, k);
    }
    forall k, l | 0 <= k < l < |points|
      ensures points[k].timestamp > points[l].timestamp
    {
      ElapsedIncreasing(days, k, l);
    }
  }

  /** Unknown ids are drawn around a base price of 100. */
  lemma FallbackChartDefaultBase(coinId: string, days: int, now: int, noise: nat -> real)
    requires forall k :: 0 <= k < |ChartBases| ==> ChartBases[k].id != coinId
    ensures forall p :: p in FallbackChart(BasePrice(coinId), days, now, noise) ==> p.price >= 80.0
  {
    FallbackChartShape(BasePrice(coinId), days, now, noise);
  }

  /** The discrepancy: whenever there are two or more points, the as-written
      result runs backwards in time, against the "chronological" comment. */
  lemma FallbackChartIsNewestFirst(basePrice: real, days: int, now: int, noise: nat -> real)
    requires days >= 1
    ensures var points := FallbackChart(basePrice, days, now, noise);
      |points| >= 2 && points[0].timestamp == now && points[0].timestamp > points[1].timestamp
  {
    FallbackChartShape(basePrice, days, now, noise);
  }

  /** The corrected order holds the same points, reversed. */
  lemma {:induction false} ChronologicalIsReverseOfAsWritten(basePrice: real, days: int, now: int, noise: nat -> real)
    ensures FallbackChartChronological(basePrice, days, now, noise) == Reversed(FallbackChart(basePrice, days, now, noise))
  {
    var chrono := FallbackChartChronological(basePrice, days, now, noise);
    var back := Reversed(FallbackChart(basePrice, days, now, noise));
    assert |back| == |chrono|;
    forall j | 0 <= j < |chrono| ensures back[j] == chrono[j] {
      assert back[j] == FallbackChart(basePrice, days, now, noise)[|chrono| - 1 - j];
    }
  }

  /** `chartData.reverse()`: reverses the array in place. */
  method ReverseInPlace<T>(a: array<T>)
    modifies a
    ensures a[..] == Reversed(old(a[..]))
  {
    var n := a.Length;
    var i := 0;
    while i < n / 2
      invariant 0 <= i <= n / 2
      invariant forall k :: 0 <= k < i ==> a[k] == old(a[n - 1 - k]) && a[n - 1 - k] == old(a[k])
      invariant forall k :: i <= k < n - i ==> a[k] == old(a[k])
    {
      a[i], a[n - 1 - i] := a[n - 1 - i], a[i];
      i := i + 1;
    }
  }

  /** `getFallbackChartData(coinId, days)` at time `now`: the counting-down
      loop pushes one point per counter value into a buffer, which is then
      reversed in place. `noise(i)` stands for the random variation plus the
      sine trend of step `i`. */
  method FallbackChartData(coinId: string, days: int, now: int, noise: nat -> real)
    returns (points: seq<ChartPoint>)
    ensures points == FallbackChart(BasePrice(coinId), days, now, noise)
  {
    var basePrice := BasePrice(coinId);
    points := GenerateChart(basePrice, days, now, noise);
  }

  /** The generator's loop and the final reversal, once the base price has
      been looked up. */
  method GenerateChart(basePrice: real, days: int, now: int, noise: nat -> real)
    returns (points: seq<ChartPoint>)
    ensures points == FallbackChart(basePrice, days, now, noise)
  {
    var n := ChartSteps(days);
    var count := ChartPointCount(days);
    var chartData := new ChartPoint[count];
    ghost var chrono := FallbackChartChronological(basePrice, days, now, noise);
    var i := n;
    while i >= 0
      invariant i <= n
      invariant n >= 0 ==> i >= -1
      invariant n < 0 ==> i == n
      invariant forall j :: 0 <= j < n - i ==> chartData[j] == PointAt(basePrice, days, now, noise, n - j)
    {
      chartData[n - i] := PointAt(basePrice, days, now, noise, i);
      i := i - 1;
    }
    forall j | 0 <= j < count
      ensures chartData[j] == chrono[j]
    {
      ChronologicalAt(basePrice, days, now, noise, j);
    }
    assert chartData[..] == chrono;
    ReverseInPlace(chartData);
    points := chartData[..];
  }
}
