/** The exchange-rate manager of src/utils/exchangeRates.ts: a rate table keyed
    by currency (only EUR is ever stored) and the time of the last successful
    refresh. The clock and the outcome of the refresh request are parameters. */
module ExchangeRates {
  import opened Types

  /** A refresh is attempted only when the stored rate is older than this (ms). */
  const UpdateInterval: int := 300000

  /** Used whenever the stored EUR rate is missing or zero (`rates.EUR || 0.92`). */
  const DefaultEurRate: real := 0.92

  /** The rate table the manager starts with. */
  const InitialRates: map<Currency, real> := map[EUR := DefaultEurRate]

  /** The EUR rate as every reader takes it: the stored value when it is
      present and truthy, the default otherwise. Never zero, so dividing by it
      is always defined. */
  function EurRateOrDefault(rates: map<Currency, real>): (r: real)
    ensures r != 0.0
    ensures EUR in rates && rates[EUR] != 0.0 ==> r == rates[EUR]
    ensures EUR !in rates || rates[EUR] == 0.0 ==> r == DefaultEurRate
  {
    if EUR in rates && rates[EUR] != 0.0 then rates[EUR] else DefaultEurRate
  }

  /** What the refresh request produced: a response with `ok` set and the
      `usd.eur` field of its body (absent when missing), a response without
      `ok`, or an exception (network failure, bad JSON). */
  datatype RateResponse = Ok(eur: Option<real>) | NotOk | Thrown

  /** The response is taken only when it is ok and carries a truthy `usd.eur`. */
  predicate Accepted(response: RateResponse) {
    response.Ok? && response.eur.Some? && response.eur.value != 0.0
  }

  /** The table after a refresh: `rates.EUR` is replaced by an accepted
      rate and kept on every other outcome. */
  function RefreshedRates(rates: map<Currency, real>, response: RateResponse): (r: map<Currency, real>)
    ensures Accepted(response) ==> r == rates[EUR := response.eur.value]
    ensures !Accepted(response) ==> r == rates
    ensures r.Keys == rates.Keys + (if Accepted(response) then {EUR} else {})
  {
    if Accepted(response) then rates[EUR := response.eur.value] else rates
  }

  /** The EUR rate is always stored and truthy: true at start, and a refresh
      stores only an accepted (nonzero) rate. */
  ghost predicate RatesValid(rates: map<Currency, real>) {
    EUR in rates && rates[EUR] != 0.0
  }

  lemma {:induction false} RefreshKeepsRatesValid(rates: map<Currency, real>, response: RateResponse)
    requires RatesValid(rates)
    ensures RatesValid(RefreshedRates(rates, response))
    ensures EurRateOrDefault(RefreshedRates(rates, response))
            == if Accepted(response) then response.eur.value else EurRateOrDefault(rates)
  {
  }

  class ExchangeRateManager {
    var rates: map<Currency, real>
    var lastUpdate: int

    ghost predicate Valid()
      reads this
    {
      RatesValid(rates)
    }

    constructor ()
      ensures Valid()
      ensures rates == InitialRates && lastUpdate == 0
    {
      rates := InitialRates;
      lastUpdate := 0;
    }

    /** True when more than five minutes have passed since the last refresh. */
    predicate IsStale(now: int)
      reads this
    {
      now - lastUpdate > UpdateInterval
    }

    /** `updateRates`: one refresh request whose outcome is `response`,
        completing at time `now`. */
    method UpdateRates(response: RateResponse, now: int)
      requires Valid()
      modifies this
      ensures Valid()
      ensures rates == RefreshedRates(old(rates), response)
      ensures lastUpdate == if Accepted(response) then now else old(lastUpdate)
    {
      if response.Ok? {
        if response.eur.Some? && response.eur.value != 0.0 {
          rates := rates[EUR := response.eur.value];
          lastUpdate := now;
        }
      }
    }

    /** `getExchangeRate`: USD is 1 and never refreshes; EUR refreshes first
        when the stored rate is stale, then reads the (possibly kept) rate. */
    method GetExchangeRate(target: Currency, now: int, response: RateResponse) returns (rate: real)
      requires Valid()
      modifies this
      ensures Valid()
      ensures target == USD ==> rate == 1.0 && rates == old(rates) && lastUpdate == old(lastUpdate)
      ensures target == EUR && !old(IsStale(now)) ==> rates == old(rates) && lastUpdate == old(lastUpdate)
      ensures target == EUR && old(IsStale(now)) ==>
                rates == RefreshedRates(old(rates), response)
                && lastUpdate == (if Accepted(response) then now else old(lastUpdate))
      ensures target == EUR ==> rate == EurRateOrDefault(rates) && rate == rates[EUR]
    {
      if target == USD {
        return 1.0;
      }
      if now - lastUpdate > UpdateInterval {
        UpdateRates(response, now);
      }
      rate := EurRateOrDefault(rates);
    }

    /** `convertPrice`: the identity when both currencies agree, otherwise
        through USD using the current EUR rate. */
    function ConvertPrice(amount: real, from: Currency, to: Currency): (r: real)
      reads this
      ensures r == 0.0 <==> amount == 0.0
      ensures (r > 0.0 <==> amount > 0.0) || EurRateOrDefault(rates) < 0.0
    {
      if from == to then amount
      else
        var usdAmount := if from == EUR then amount / EurRateOrDefault(rates) else amount;
        if to == EUR then usdAmount * EurRateOrDefault(rates) else usdAmount
    }

    /** `getRates`: a copy of the table. Maps are values here, so nothing a
        caller does with the copy can reach the manager; the method has no
        `modifies` clause. */
    method GetRates() returns (copy: map<Currency, real>)
      ensures copy == rates
    {
      copy := rates;
    }
  }

  /** Converting to the same currency returns the amount unchanged. */
  lemma ConvertIdentity(m: ExchangeRateManager, amount: real, c: Currency)
    ensures m.ConvertPrice(amount, c, c) == amount
  {
  }

  /** USD to EUR multiplies by the rate; EUR to USD divides by it. */
  lemma ConvertDirections(m: ExchangeRateManager, amount: real)
    ensures m.ConvertPrice(amount, USD, EUR) == amount * EurRateOrDefault(m.rates)
    ensures m.ConvertPrice(amount, EUR, USD) * EurRateOrDefault(m.rates) == amount
  {
  }

  /** With the rate unchanged, converting there and back returns the amount
      exactly, whichever way round. */
  lemma {:induction false} ConvertRoundTrip(m: ExchangeRateManager, amount: real, a: Currency, b: Currency)
    ensures m.ConvertPrice(m.ConvertPrice(amount, a, b), b, a) == amount
  {
    var r := EurRateOrDefault(m.rates);
    if a == USD && b == EUR {
      assert (amount * r) / r == amount;
    } else if a == EUR && b == USD {
      assert (amount / r) * r == amount;
    }
  }
}
