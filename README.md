# Crypto dashboard core, modelled in Dafny

The dashboard shows a ranked list of crypto-currencies, lets the user keep a
simulated portfolio and set price alerts, and converts every figure between
USD and EUR. The part of it that holds state and takes decisions is modelled
here:

- **The store** (`src/store/cryptoStore.ts`), module `CryptoStore`. It holds
  the market snapshot, the holdings, the price alerts and the settings. Each
  list transformation is a function: adding a purchase by weighted-average
  cost, removing a holding, revaluing against a new snapshot, one alert pass,
  adding and removing alerts, and merging settings. The class `Store` has the
  store's four fields, and its methods perform the actions by reassigning
  them. `checkPriceAlerts` is a `while` loop over the list as read at the
  start, with one replacement of the list per fired alert, as in the source.
- **The exchange-rate manager** (`src/utils/exchangeRates.ts`), module
  `ExchangeRates`. This is a class with the rate table and the time of the
  last refresh. It refreshes only when the stored rate is older than five
  minutes, keeps the old rate when a refresh fails, and converts through
  USD.
- **The market-data service** (`src/services/cryptoApi.ts`), modules
  `CryptoApi` and `FallbackTable`:
  - the module-level cache, which serves an entry for 30 seconds and is
    written only after a successful request;
  - the cache-on-success paths of the three cached requests;
  - the 50-row fallback table;
  - the synthetic fallback chart: a counting-down loop into an array that is
    then reversed in place.
- **The formatters** (`src/utils/formatters.ts`), module `Formatters`: sign,
  colour and icon choice, the market-cap tiers, and the EUR conversion.
  Output text is a sequence of segments. The pieces produced by
  `Intl.NumberFormat` and `toFixed` stay uninterpreted segments, and a
  renderer passed as a parameter turns them into characters.

Money is `real`: arithmetic is exact, with no rounding. The clock, generated
ids and ISO timestamps are method parameters. So is every HTTP outcome
(`Ok` with its mapped body, `NotOk`, `Thrown`), and so is the random part of
each chart point.

The live list request asks the API for `order=market_cap_desc`
(src/services/cryptoApi.ts:27). The fallback table that stands in for it is
in rank order instead, and there USDC (rank 7) has a smaller cap than
Dogecoin (rank 8). `FallbackTable.FallbackNotOrderedByMarketCap` states
this.

## Model

| member | source | states |
|---|---|---|
| ExchangeRates.EurRateOrDefault | src/utils/exchangeRates.ts:18 | the EUR rate read is the stored rate when present and nonzero, else 0.92; it is never zero |
| ExchangeRates.RefreshedRates | src/utils/exchangeRates.ts:27-33 | an ok response with a truthy `usd.eur` replaces the EUR rate; every other outcome leaves the table as it was |
| ExchangeRates.RefreshKeepsRatesValid | src/utils/exchangeRates.ts:21-37 | a refresh keeps a nonzero EUR rate stored; the rate read afterwards is the accepted one, or the old one |
| ExchangeRates.ExchangeRateManager.constructor | src/utils/exchangeRates.ts:4-6 | the manager starts with EUR at 0.92 and a last update at time 0 |
| ExchangeRates.ExchangeRateManager.UpdateRates | src/utils/exchangeRates.ts:21-37 | the rate and the update time change together, only on an accepted response; otherwise both are kept |
| ExchangeRates.ExchangeRateManager.GetExchangeRate | src/utils/exchangeRates.ts:8-19 | USD gives 1 and never refreshes; EUR refreshes only when more than 300000 ms have passed, then returns the stored rate |
| ExchangeRates.ExchangeRateManager.GetRates | src/utils/exchangeRates.ts:56-58 | the result equals the table and changes nothing in the manager |
| ExchangeRates.ExchangeRateManager.ConvertPrice | src/utils/exchangeRates.ts:39-54 | conversion maps zero to zero and nothing else to zero, and, with a positive rate, keeps the sign of the amount; ConvertIdentity, ConvertDirections and ConvertRoundTrip state the rest |
| ExchangeRates.ConvertIdentity | src/utils/exchangeRates.ts:40 | converting a currency to itself returns the amount |
| ExchangeRates.ConvertDirections | src/utils/exchangeRates.ts:43-53 | USD to EUR multiplies by the rate; EUR to USD divides by it |
| ExchangeRates.ConvertRoundTrip | src/utils/exchangeRates.ts:39-54 | with the rate unchanged, converting there and back returns the amount, in both directions |
| Formatters.Converted | src/utils/formatters.ts:8 | a USD figure is unchanged for USD and multiplied by the EUR rate, or 0.92 when it is missing or zero, for EUR |
| Formatters.FormatPrice | src/utils/formatters.ts:6-16 | one currency-formatted number of the converted price, in the es-ES locale exactly for EUR and en-US exactly for USD, with 6 fraction digits at most exactly when the unconverted price is below 1, else 2 |
| Formatters.FormatPercentage | src/utils/formatters.ts:18-21 | the sign segment is "+" exactly when the value is non-negative and empty otherwise; the value follows to two decimals, then "%" |
| Formatters.FormatPercentageRendered | src/utils/formatters.ts:18-21 | the rendered text starts with '+' exactly when the value is non-negative, and ends with '%' |
| Formatters.PercentageColor | src/utils/formatters.ts:60-62 | green exactly for non-negative values, red exactly for negative ones |
| Formatters.PercentageIcon | src/utils/formatters.ts:64-66 | rising chart exactly for non-negative values, falling chart exactly for negative ones |
| Formatters.ColorAndIconAgree | src/utils/formatters.ts:60-66 | colour and icon split the values at the same point |
| Formatters.Tiered | src/utils/formatters.ts:34-40 | a tier is a two-decimal figure that scales back to the value, then the suffix, then the currency code |
| Formatters.FormatMarketCap | src/utils/formatters.ts:30-42 | T, B and M tiers of the converted cap at 1e12, 1e9 and 1e6, each exactly on its interval and ending with the currency code; below 1e6 the converted cap goes to the price formatter |
| Formatters.MarketCapConvertsTwice | src/utils/formatters.ts:41 | below a million in EUR, the amount formatted is the cap times the rate twice |
| Formatters.MarketCapDoubleConversionExample | src/utils/formatters.ts:41 | a cap of 1000 at a rate of 0.5 is shown as 250 instead of 500 |
| Formatters.FormatMarketCapConvertedOnce | src/utils/formatters.ts:30-42 | the same tiers, with the small-cap amount being the cap converted exactly once |
| Formatters.ConvertedOnceAgreesInUsdAndTiers | src/utils/formatters.ts:34-40 | the corrected formatter agrees with the original in USD and in every tier |
| Formatters.ConvertedOnceDiffersBelowMillionInEur | src/utils/formatters.ts:41 | below a million in EUR the two differ whenever the cap is nonzero and the rate is not 1 |
| CryptoApi.GetCachedData | src/services/cryptoApi.ts:9-15 | an entry is returned exactly when it exists and is less than 30000 ms old; otherwise nothing |
| CryptoApi.StoredEntryLifetime | src/services/cryptoApi.ts:7-15 | an entry stored at time t is served exactly while now < t + 30000 |
| CryptoApi.TopCryptosFetched | src/services/cryptoApi.ts:30-55 | the list comes from the first response if ok, else from the retry, which only a non-ok first answer triggers; an exception gives nothing |
| CryptoApi.EurFromBody | src/services/cryptoApi.ts:346 | a present nonzero `usd.eur` is the rate; a missing or zero one gives 0.92; the rate is never zero |
| CryptoApi.CryptoApiService.constructor | src/services/cryptoApi.ts:6 | the cache starts empty |
| CryptoApi.CryptoApiService.GetTopCryptocurrencies | src/services/cryptoApi.ts:18-94 | a live entry is returned without a request; a fetched list is cached under its limit and returned; on failure the fallback table is returned and the cache is unchanged |
| CryptoApi.CryptoApiService.GetGlobalMarketStats | src/services/cryptoApi.ts:304-330 | served from the cache when live; cached on success; an error with the cache unchanged otherwise |
| CryptoApi.CryptoApiService.GetExchangeRates | src/services/cryptoApi.ts:332-354 | served from the cache when live; cached on success; 0.92 without caching on failure |
| CryptoApi.CryptoApiService.ClearCache | src/services/cryptoApi.ts:356-362 | afterwards the cache is empty and its size is 0 |
| CryptoApi.CryptoApiService.CacheSize | src/services/cryptoApi.ts:360-362 | the size is zero exactly when the cache is empty |
| CryptoApi.BasePriceIn | src/services/cryptoApi.ts:249-250 | the price of the first row with the id, or 100 when no row has it |
| CryptoApi.BasePricePositive | src/services/cryptoApi.ts:236-250 | every base price the chart uses is positive |
| CryptoApi.ChartPointCount | src/services/cryptoApi.ts:256 | days·24 + 1 points up to a week, days + 1 beyond, none for negative days |
| CryptoApi.ClampedPrice | src/services/cryptoApi.ts:261-265 | each price is one of `Math.max`'s two arguments, the randomised price or 80% of the base, and at least both |
| CryptoApi.FallbackChartChronological | src/services/cryptoApi.ts:252-267 | the pushed points: as many as the loop runs, the last one taken at counter 0, that is at `now` |
| CryptoApi.FallbackChart | src/services/cryptoApi.ts:252-269 | the returned points: the same count, the first one at `now`; FallbackChartShape states the rest |
| CryptoApi.FallbackChartShape | src/services/cryptoApi.ts:252-269 | the result as written: point k is k intervals before now with the clamped price of step k, at least 80% of the base; timestamps strictly decrease |
| CryptoApi.FallbackChartIsNewestFirst | src/services/cryptoApi.ts:269 | from one day on, the first point is the newest one: the output runs backwards in time |
| CryptoApi.FallbackChartChronologicalShape | src/services/cryptoApi.ts:256-267 | the order the loop pushes: strictly increasing timestamps ending at now, same count, every price at least 80% of the base |
| CryptoApi.ChronologicalIsReverseOfAsWritten | src/services/cryptoApi.ts:269 | the chronological order is exactly the reverse of the returned one |
| CryptoApi.FallbackChartDefaultBase | src/services/cryptoApi.ts:250 | for ids missing from the table every price is at least 80 |
| CryptoApi.ReverseInPlace | src/services/cryptoApi.ts:269 | the array afterwards holds its old contents reversed |
| CryptoApi.GenerateChart | src/services/cryptoApi.ts:252-269 | the counting-down loop and the reversal produce exactly the specified chart for the base price |
| CryptoApi.FallbackChartData | src/services/cryptoApi.ts:232-270 | the whole generator: base-price lookup, loop and reversal |
| FallbackTable.FallbackData | src/services/cryptoApi.ts:96-168 | 50 entries with distinct ids and ranks 1 to 50 in order; high 1.05·price, low 0.95·price, volume 0.1·cap |
| FallbackTable.TableRanksAndPrices | src/services/cryptoApi.ts:98-149 | row i has rank i + 1 and a positive price |
| FallbackTable.TableIdsDistinct | src/services/cryptoApi.ts:98-149 | no two rows share an id |
| FallbackTable.RowToInstrument | src/services/cryptoApi.ts:151-167 | the instrument keeps the row's id, symbol, name, price, 24h change, cap and rank, and carries the derived high, low, volume and update time |
| FallbackTable.FallbackNotOrderedByMarketCap | src/services/cryptoApi.ts:105-106 | rank 7 is listed with a smaller cap than rank 8 |
| CryptoStore.FindInstrument | src/store/cryptoStore.ts:145 | nothing exactly when no instrument has the id; otherwise the first instrument of the snapshot with that id |
| CryptoStore.FindHolding | src/store/cryptoStore.ts:194 | nothing exactly when no row has the id; otherwise the first row of the portfolio with that id |
| CryptoStore.Filter | src/store/cryptoStore.ts:239 | the result has only elements of the input that pass, and every element that passes |
| CryptoStore.FilterAppend | src/store/cryptoStore.ts:127 | filtering a concatenation is the concatenation of the filtered parts, so order and repetitions are kept |
| CryptoStore.FilterSingle | src/store/cryptoStore.ts:239 | a single element survives exactly when it passes; with FilterAppend this fixes the result for every input |
| CryptoStore.FilterKeepsAll | src/store/cryptoStore.ts:127 | when every element passes the list comes back unchanged |
| CryptoStore.FilterDropsOne | src/store/cryptoStore.ts:239 | when exactly one element fails, the result is the list without that position |
| CryptoStore.MergedAverage | src/store/cryptoStore.ts:198-200 | the weighted average of positive amounts and prices is positive |
| CryptoStore.AddHolding | src/store/cryptoStore.ts:187-235 | an instrument missing from the snapshot changes nothing; otherwise the instrument is held afterwards, either in place or in one row appended behind the old ones |
| CryptoStore.ValuedIsValuedAt | src/store/cryptoStore.ts:251-253 | revaluing keeps amount and average and sets value, profit/loss and percentage from the price |
| CryptoStore.AddHoldingUnknownInstrument | src/store/cryptoStore.ts:188-189 | an instrument missing from the snapshot leaves the portfolio unchanged |
| CryptoStore.AddHoldingNewRow | src/store/cryptoStore.ts:218-232 | a first purchase appends exactly one row at the end with the instrument's fields, average = price and value, profit/loss and percentage from the current price |
| CryptoStore.AddHoldingMerge | src/store/cryptoStore.ts:194-215 | a further purchase keeps the length, sums the amounts, sets the weighted average, revalues the row, keeps its descriptive fields and leaves every other row untouched |
| CryptoStore.AddHoldingIsMerge | src/store/cryptoStore.ts:194-200 | with one row per instrument, adding is the `map` over the portfolio that gives that row the summed amount and the weighted average |
| CryptoStore.MergeRowsAt | src/store/cryptoStore.ts:203-214 | the `map` changes only the row of the instrument |
| CryptoStore.AddHoldingKeepsInvariant | src/store/cryptoStore.ts:187-235 | adding keeps at most one row per instrument and positive amounts and averages |
| CryptoStore.RemoveHolding | src/store/cryptoStore.ts:237-241 | the result is no longer and holds no row of that instrument |
| CryptoStore.RemoveHoldingMembers | src/store/cryptoStore.ts:237-241 | removal keeps exactly the rows of other instruments |
| CryptoStore.RemoveHoldingAbsent | src/store/cryptoStore.ts:237-241 | removing an instrument that is not held changes nothing |
| CryptoStore.RemoveHoldingAt | src/store/cryptoStore.ts:237-241 | with one row per instrument, removal deletes exactly that row and keeps the others in order |
| CryptoStore.RemoveHoldingKeepsInvariant | src/store/cryptoStore.ts:237-241 | removal keeps the portfolio invariant |
| CryptoStore.RemoveThenAddIsFresh | src/store/cryptoStore.ts:218-226 | a purchase after removal starts a new row whose average is the new price alone |
| CryptoStore.RunningAverage | src/store/cryptoStore.ts:198-200 | merging positive purchases one by one keeps a positive average |
| CryptoStore.RunningAverageIsWeightedMean | src/store/cryptoStore.ts:198-200 | the running average equals total cost over total amount |
| CryptoStore.AddAll | src/store/cryptoStore.ts:187-235 | repeated adds keep the portfolio invariant |
| CryptoStore.RepeatedAddsRow | src/store/cryptoStore.ts:194-232 | repeated purchases of a new instrument leave one row at the end with the total amount at the running average; earlier rows are untouched |
| CryptoStore.AddToLastRow | src/store/cryptoStore.ts:194-215 | a purchase merges into the last row and gives it the summed amount and the merged average |
| CryptoStore.Revalue | src/store/cryptoStore.ts:243-263 | the same rows in the same order with the same instruments and amounts |
| CryptoStore.RepeatedAddsAverage | src/store/cryptoStore.ts:198-200 | after repeated adds the row's average price is the amount-weighted mean of all the purchase prices |
| CryptoStore.RevalueSpec | src/store/cryptoStore.ts:243-263 | revaluing keeps length, order, amounts and averages; unmatched rows are unchanged; matched rows get value, profit/loss and percentage from the snapshot price |
| CryptoStore.RevalueIdempotent | src/store/cryptoStore.ts:243-263 | revaluing twice against the same snapshot equals revaluing once |
| CryptoStore.ConditionHolds | src/store/cryptoStore.ts:151-164 | above and below fire at a price exactly on the target; a percentage alert fires on a rise or a fall of at least the target |
| CryptoStore.AlertMessage | src/store/cryptoStore.ts:151-164 | the message starts with the instrument's name and, for price alerts, names the target |
| CryptoStore.MarkFired | src/store/cryptoStore.ts:176-182 | every alert keeps its id and all but its firing fields, and an alert is changed only if it carries the fired id |
| CryptoStore.EvaluateStep | src/store/cryptoStore.ts:142-184 | one iteration keeps the list length |
| CryptoStore.CheckAlerts | src/store/cryptoStore.ts:139-185 | the pass keeps the length and changes nothing with notifications off; AlertFiresIff and CheckAlertsPointwise state the rest |
| CryptoStore.EvaluatedPrefix | src/store/cryptoStore.ts:139-185 | whatever the ids, the pass keeps the length, changes only firing fields, changes only alerts it leaves inactive, and changes nothing with notifications off |
| CryptoStore.EvaluatedPrefixPointwise | src/store/cryptoStore.ts:142-184 | with distinct ids, after k iterations the first k alerts are evaluated by the per-alert rule and the rest are untouched |
| CryptoStore.StepPointwise | src/store/cryptoStore.ts:176-182 | with distinct ids, iteration k applies the per-alert rule to alert k and changes no other position |
| CryptoStore.CheckAlertsPointwise | src/store/cryptoStore.ts:139-185 | with distinct ids, the pass applies the per-alert rule to every alert |
| CryptoStore.AlertFiresIff | src/store/cryptoStore.ts:143-182 | an active alert is deactivated exactly when notifications are on, its instrument is present and its above/below/percentage condition holds; it then records the time and message, and is otherwise unchanged |
| CryptoStore.FiredAlertIsFinal | src/store/cryptoStore.ts:143 | with distinct ids, an inactive alert is never changed again |
| CryptoStore.CheckAlertsIdempotent | src/store/cryptoStore.ts:139-185 | with distinct ids, a second pass against the same snapshot changes nothing |
| CryptoStore.SharedIdRewritesInactiveAlert | src/store/cryptoStore.ts:176-182 | with a shared id, firing the active alert also rewrites the inactive one |
| CryptoStore.NewAlert | src/store/cryptoStore.ts:113-118 | the new alert has the given id and creation time, and projecting its caller-supplied fields back out gives exactly the draft: every field of the draft is carried over unchanged |
| CryptoStore.RemoveAlert | src/store/cryptoStore.ts:125-129 | the result is no longer and holds no alert with that id |
| CryptoStore.MergeSettings | src/store/cryptoStore.ts:265-269 | each supplied field wins and each absent field keeps its value |
| CryptoStore.RemoveAlertSpec | src/store/cryptoStore.ts:125-129 | removal keeps exactly the alerts with other ids, changes nothing when no alert has the id, and with distinct ids deletes exactly one position |
| CryptoStore.MergeSettingsSpec | src/store/cryptoStore.ts:265-269 | merging the same patch twice is merging it once, and the empty patch changes nothing |
| CryptoStore.Store.constructor | src/store/cryptoStore.ts:42-63 | empty lists and the default settings (USD, auto theme, 30000 ms, notifications on, Spanish) |
| CryptoStore.Store.ApplySnapshot | src/store/cryptoStore.ts:73-76 | the snapshot is replaced and the portfolio is revalued against it |
| CryptoStore.Store.AddToPortfolio | src/store/cryptoStore.ts:187-235 | the portfolio becomes the added one, the invariant is kept, nothing else changes |
| CryptoStore.Store.RemoveFromPortfolio | src/store/cryptoStore.ts:237-241 | the portfolio becomes the filtered one, the invariant is kept, nothing else changes |
| CryptoStore.Store.UpdatePortfolio | src/store/cryptoStore.ts:243-263 | the portfolio is revalued against the current snapshot, nothing else changes |
| CryptoStore.Store.AddPriceAlert | src/store/cryptoStore.ts:113-123 | exactly one alert, with the supplied fields plus id and creation time, is appended; nothing else changes |
| CryptoStore.Store.RemovePriceAlert | src/store/cryptoStore.ts:125-129 | the alerts become the filtered list; nothing else changes |
| CryptoStore.Store.CheckPriceAlerts | src/store/cryptoStore.ts:139-185 | the loop leaves the alerts equal to one pass over the list read at the start; snapshot, portfolio and settings are unchanged |
| CryptoStore.Store.CheckAlert | src/store/cryptoStore.ts:143-183 | one iteration: skip inactive alerts and unknown instruments, otherwise deactivate that id when the condition holds and notifications are on |
| CryptoStore.Store.UpdateSettings | src/store/cryptoStore.ts:265-269 | the settings become the merge of the old settings and the patch; nothing else changes |

## Left out

- Network I/O, the JSON field mapping and `response.text()` are left out. Each request is an input outcome (`Ok` with a mapped body, `NotOk`, `Thrown`). The `|| 0` defaults of the field mapping are not modelled.
- The rendering done by `Intl.NumberFormat`, `toFixed` and template number printing is not modelled. Those pieces stay uninterpreted segments, and the renderer is a parameter.
- `formatNumber`, `formatDate` and `formatDateShort` are left out: they only call the foreign formatters.
- `Date.now()` and `new Date().toISOString()` are parameters. One `checkPriceAlerts` pass records one firing time, whereas the source reads the clock once per fired alert.
- The cached requests and `updateRates` take one clock reading, `now`, for both the freshness test and the new timestamp. The source stamps the cache entry (src/services/cryptoApi.ts:86, 324, 348) and `lastUpdate` (src/utils/exchangeRates.ts:31) with a second `Date.now()` taken after the awaited fetch. With each action as one atomic step the two readings coincide; the time a fetch takes is not modelled.
- The browser `Notification` call in `checkPriceAlerts` is left out. It is a side effect with no effect on the store.
- The `persist` middleware and `localStorage` are not modelled.
- Timers and the async interleaving of store actions are not modelled. Each action is one atomic step.
- `isLoading`, `error`, `selectedCrypto`, `chartData`, `chartTimeframe` and `marketStats`, and the actions that only set them, are left out. They carry no logic.
- `fetchCryptocurrencies` is modelled only on its success path, as `ApplySnapshot`.
- The remaining network requests (`getCryptocurrencyById`, `getHistoricalData`, `searchCryptocurrencies`) are left out. They are fetch-and-map code without cached state.
- The `top-cryptos-${limit}`, `'global-stats'` and `'exchange-rates'` cache keys are a datatype. Distinct requests map to distinct keys, as the strings do.
- Floating point is not modelled: amounts and prices are exact reals. NaN and infinities do not arise.
- `getFallbackChartData` with `days = 0` divides zero by zero in its trend term and yields NaN prices. The model's per-step offset is an arbitrary real parameter, so that NaN is not represented. `days` is an integer.
- `Math.random` and `Math.sin` in the chart generator are folded into that per-step offset. Only the count, spacing, order and clamp are stated.
- CryptoStore.Store.AddToPortfolio: requires a positive amount and price. The store itself does not check them, but the portfolio form rejects anything else and the merge divides by the total amount.
- CryptoStore.AddHoldingMerge, CryptoStore.AlertFiresIff, CryptoStore.CheckAlertsPointwise: stated for one row per instrument and for distinct alert ids. The code matches by id, so duplicates (alert ids come from the clock) behave differently; `SharedIdRewritesInactiveAlert` exhibits the alert case.
- The React components, `src/App.tsx` and `src/types/index.ts` are not part of this model, except as the shape of the datatypes.

## Findings

| source | as written | input that shows it | evidently intended | confidence | as-written member | corrected member |
|---|---|---|---|---|---|---|
| src/services/cryptoApi.ts:269 | the pushed points, oldest first, are reversed before returning, so the chart comes out newest first | any `days >= 1`: point 0 has timestamp `now` and point 1 one interval earlier | chronological order, as the comment on the line says | not executed | CryptoApi.FallbackChartIsNewestFirst | CryptoApi.FallbackChartChronologicalShape |
| src/utils/formatters.ts:41 | below 1e6 the converted cap goes to `formatPrice`, which converts again | cap 1000 in EUR at rate 0.5: formatted as 250 instead of 500 | the EUR rate applied once in every tier | not executed | Formatters.MarketCapDoubleConversionExample | Formatters.ConvertedOnceDiffersBelowMillionInEur |
