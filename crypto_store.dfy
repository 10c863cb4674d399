/** The portfolio and alert engine of src/store/cryptoStore.ts. The store
    keeps the latest market snapshot, the holdings, the price alerts and the
    settings; each action replaces some of these wholesale. The list
    transformations the actions apply are stated here as functions, and the
    `Store` class at the end performs the actions on its fields. */
module CryptoStore {
  import opened Types

  const DefaultSettings: Settings := Settings(USD, Auto, 30000, true, Es)

  // ---------------------------------------------------------------------
  // Lookups and filters
  // ---------------------------------------------------------------------

  /** The position of the first instrument with this id, or the length of
      the snapshot when there is none. */
  function InstrumentIndex(snapshot: seq<Instrument>, id: string): (i: nat)
    ensures i <= |snapshot|
    ensures i < |snapshot| ==> snapshot[i].id == id
    ensures forall j :: 0 <= j < i ==> snapshot[j].id != id
  {
    if snapshot == [] || snapshot[0].id == id then 0
    else 1 + InstrumentIndex(snapshot[1..], id)
  }

  /** `cryptocurrencies.find(c => c.id === id)`: the first instrument with
      this id, if any. */
  function FindInstrument(snapshot: seq<Instrument>, id: string): (r: Option<Instrument>)
    ensures r.None? <==> forall k :: 0 <= k < |snapshot| ==> snapshot[k].id != id
    ensures r.Some? ==> r.value in snapshot && r.value.id == id
    ensures r.Some? ==> exists i :: 0 <= i < |snapshot| && snapshot[i] == r.value
                                    && forall j :: 0 <= j < i ==> snapshot[j].id != id
  {
    var i := InstrumentIndex(snapshot, id);
    if i < |snapshot| then Some(snapshot[i]) else None
  }

  /** The position of the first holding of this instrument, or the length of
      the portfolio when there is none. */
  function HoldingIndex(p: seq<Holding>, id: string): (i: nat)
    ensures i <= |p|
    ensures i < |p| ==> p[i].cryptoId == id
    ensures forall j :: 0 <= j < i ==> p[j].cryptoId != id
  {
    if p == [] || p[0].cryptoId == id then 0
    else 1 + HoldingIndex(p[1..], id)
  }

  /** `portfolio.find(p => p.cryptoId === id)`: the first holding of this
      instrument, if any. */
  function FindHolding(p: seq<Holding>, id: string): (r: Option<Holding>)
    ensures r.None? <==> forall k :: 0 <= k < |p| ==> p[k].cryptoId != id
    ensures r.Some? ==> r.value in p && r.value.cryptoId == id
    ensures r.Some? ==> exists i :: 0 <= i < |p| && p[i] == r.value
                                    && forall j :: 0 <= j < i ==> p[j].cryptoId != id
  {
    var i := HoldingIndex(p, id);
    if i < |p| then Some(p[i]) else None
  }

  /** `Array.prototype.filter`: the elements that pass, in their order. */
  function Filter<T>(s: seq<T>, keep: T -> bool): (r: seq<T>)
    ensures |r| <= |s|
    ensures forall i :: 0 <= i < |r| ==> r[i] in s && keep(r[i])
    ensures forall i :: 0 <= i < |s| && keep(s[i]) ==> s[i] in r
  {
    if s == [] then []
    else (if keep(s[0]) then [s[0]] else []) + Filter(s[1..], keep)
  }

  /** Filtering distributes over concatenation: the survivors of `s + t` are
      the survivors of `s` followed by those of `t`, each in its order and
      with its repetitions. */
  lemma {:induction false} FilterAppend<T>(s: seq<T>, t: seq<T>, keep: T -> bool)
    ensures Filter(s + t, keep) == Filter(s, keep) + Filter(t, keep)
  {
    if s == [] {
      assert s + t == t;
    } else {
      var head := if keep(s[0]) then [s[0]] else [];
      assert (s + t)[0] == s[0] && (s + t)[1..] == s[1..] + t;
      FilterAppend(s[1..], t, keep);
      assert Filter(s + t, keep) == head + (Filter(s[1..], keep) + Filter(t, keep));
    }
  }

  /** Filtering a single element keeps it exactly when it passes. */
  lemma FilterSingle<T>(x: T, keep: T -> bool)
    ensures Filter([x], keep) == if keep(x) then [x] else []
  {
    assert [x][1..] == [];
  }

  /** When every element passes, the filter returns the sequence itself. */
  lemma {:induction false} FilterKeepsAll<T>(s: seq<T>, keep: T -> bool)
    requires forall k :: 0 <= k < |s| ==> keep(s[k])
    ensures Filter(s, keep) == s
  {
    if s != [] {
      FilterKeepsAll(s[1..], keep);
    }
  }

  /** When exactly the element at `k` fails, the filter removes just it and
      keeps the others in order. */
  lemma {:induction false} FilterDropsOne<T>(s: seq<T>, keep: T -> bool, k: nat)
    requires k < |s| && !keep(s[k])
    requires forall j :: 0 <= j < |s| && j != k ==> keep(s[j])
    ensures Filter(s, keep) == s[..k] + s[k + 1..]
  {
    if k == 0 {
      FilterKeepsAll(s[1..], keep);
    } else {
      FilterDropsOne(s[1..], keep, k - 1);
      assert Filter(s, keep) == [s[0]] + Filter(s[1..], keep);
      DropAfterHead(s, k);
    }
  }

  /** Dropping position `k - 1` of the tail and putting the head back drops
      position `k` of the whole. */
  lemma DropAfterHead<T>(s: seq<T>, k: nat)
    requires 0 < k < |s|
    ensures [s[0]] + (s[1..][..k - 1] + s[1..][k..]) == s[..k] + s[k + 1..]
  {
    assert s[1..][..k - 1] == s[1..k];
    assert s[1..][k..] == s[k + 1..];
    assert [s[0]] + s[1..k] == s[..k];
  }

  // ---------------------------------------------------------------------
  // Portfolio
  // ---------------------------------------------------------------------

  predicate HoldsId(p: seq<Holding>, id: string) {
    exists k :: 0 <= k < |p| && p[k].cryptoId == id
  }

  /** At most one row per instrument. */
  predicate UniqueHoldingIds(p: seq<Holding>) {
    forall j, k :: 0 <= j < k < |p| ==> p[j].cryptoId != p[k].cryptoId
  }

  /** What the portfolio form guarantees for every row it creates, and what
      the weighted average keeps: a positive amount and average price. */
  predicate PositiveRows(p: seq<Holding>) {
    forall k :: 0 <= k < |p| ==> p[k].amount > 0.0 && p[k].averagePrice > 0.0
  }

  predicate PortfolioInvariant(p: seq<Holding>) {
    UniqueHoldingIds(p) && PositiveRows(p)
  }

  /** The derived fields recomputed from a current price: value, absolute
      profit/loss and profit/loss percentage against the average price. */
  function Valued(h: Holding, currentPrice: real): (valued: Holding)
    requires h.averagePrice != 0.0
  {
    h.(currentValue := h.amount * currentPrice,
       profitLoss := (currentPrice - h.averagePrice) * h.amount,
       profitLossPercentage := (currentPrice - h.averagePrice) / h.averagePrice * 100.0)
  }

  /** The derived fields of `h` agree with a current price of `price`. */
  predicate ValuedAt(h: Holding, price: real) {
    && h.averagePrice != 0.0
    && h.currentValue == h.amount * price
    && h.profitLoss == (price - h.averagePrice) * h.amount
    && h.profitLossPercentage == (price - h.averagePrice) / h.averagePrice * 100.0
  }

  /** Valuing a row leaves its amount and cost basis alone and makes its
      derived fields agree with the price. */
  lemma ValuedIsValuedAt(h: Holding, price: real)
    requires h.averagePrice != 0.0
    ensures ValuedAt(Valued(h, price), price)
    ensures Valued(h, price).amount == h.amount && Valued(h, price).averagePrice == h.averagePrice
  {
  }

  /** Cost-basis average after buying `amount` more at `price`. */
  function MergedAverage(oldAmount: real, oldAverage: real, amount: real, price: real): (avg: real)
    requires oldAmount > 0.0 && oldAverage > 0.0 && amount > 0.0 && price > 0.0
    ensures avg > 0.0
  {
    var total := oldAmount * oldAverage + amount * price;
    assert oldAmount * oldAverage > 0.0 && amount * price > 0.0;
    total / (oldAmount + amount)
  }

  /** The row created for a first purchase. */
  function NewHolding(crypto: Instrument, amount: real, price: real, currency: Currency, addedAt: string): (h: Holding)
    requires price > 0.0
  {
    Valued(Holding(crypto.id, crypto.symbol, crypto.name, amount, price, 0.0, 0.0, 0.0,
                   currency, addedAt, crypto.image), crypto.currentPrice)
  }

  /** The `map` of the merge branch: every row of the instrument gets the new
      amount and average and is revalued; the others are kept. */
  function MergeRows(p: seq<Holding>, cryptoId: string, totalAmount: real, newAverage: real,
                     currentPrice: real): (r: seq<Holding>)
    requires newAverage != 0.0
  {
    seq(|p|, k requires 0 <= k < |p| =>
      if p[k].cryptoId == cryptoId
      then Valued(p[k].(amount := totalAmount, averagePrice := newAverage), currentPrice)
      else p[k])
  }

  /** `addToPortfolio(cryptoId, amount, price)`: nothing when the instrument
      is not in the snapshot; otherwise merge into the held row by weighted
      average, or append a new row. The amount and price are positive because
      the portfolio form rejects anything else. */
  function AddHolding(p: seq<Holding>, snapshot: seq<Instrument>, cryptoId: string,
                      amount: real, price: real, currency: Currency, addedAt: string): (r: seq<Holding>)
    requires PositiveRows(p) && amount > 0.0 && price > 0.0
    ensures FindInstrument(snapshot, cryptoId).None? ==> r == p
    ensures FindInstrument(snapshot, cryptoId).Some? ==> HoldsId(r, cryptoId)
    ensures |r| == |p| || (|r| == |p| + 1 && r[..|p|] == p)
  {
    match FindInstrument(snapshot, cryptoId)
    case None => p
    case Some(crypto) =>
      match FindHolding(p, cryptoId)
      case Some(existing) =>
        var totalAmount := existing.amount + amount;
        var newAverage := MergedAverage(existing.amount, existing.averagePrice, amount, price);
        var r := MergeRows(p, cryptoId, totalAmount, newAverage, crypto.currentPrice);
        assert r[HoldingIndex(p, cryptoId)].cryptoId == cryptoId;
        r
      case None =>
        var r := p + [NewHolding(crypto, amount, price, currency, addedAt)];
        assert r[|p|].cryptoId == cryptoId;
        r
  }

  /** Adding keeps one positive row per instrument. */
  lemma AddHoldingKeepsInvariant(p: seq<Holding>, snapshot: seq<Instrument>, cryptoId: string,
                                 amount: real, price: real, currency: Currency, addedAt: string)
    requires PortfolioInvariant(p) && amount > 0.0 && price > 0.0
    ensures PortfolioInvariant(AddHolding(p, snapshot, cryptoId, amount, price, currency, addedAt))
  {
    var r := AddHolding(p, snapshot, cryptoId, amount, price, currency, addedAt);
    match FindInstrument(snapshot, cryptoId)
    case None =>
    case Some(crypto) =>
      match FindHolding(p, cryptoId)
      case Some(existing) =>
        assert forall k :: 0 <= k < |p| ==> r[k].cryptoId == p[k].cryptoId;
      case None =>
        assert forall k :: 0 <= k < |p| ==> r[k] == p[k];
        assert r[|p|].cryptoId == cryptoId;
  }

  /** An instrument missing from the snapshot leaves the portfolio as it is. */
  lemma AddHoldingUnknownInstrument(p: seq<Holding>, snapshot: seq<Instrument>, cryptoId: string,
                                    amount: real, price: real, currency: Currency, addedAt: string)
    requires PositiveRows(p) && amount > 0.0 && price > 0.0
    requires forall k :: 0 <= k < |snapshot| ==> snapshot[k].id != cryptoId
    ensures AddHolding(p, snapshot, cryptoId, amount, price, currency, addedAt) == p
  {
  }

  /** A first purchase of instrument `c` appends exactly one row at the end,
      with the instrument's descriptive fields, priced at the purchase price
      and valued at the snapshot price. */
  lemma AddHoldingNewRow(p: seq<Holding>, snapshot: seq<Instrument>, cryptoId: string,
                         amount: real, price: real, currency: Currency, addedAt: string, c: Instrument)
    requires PositiveRows(p) && amount > 0.0 && price > 0.0
    requires FindInstrument(snapshot, cryptoId) == Some(c)
    requires !HoldsId(p, cryptoId)
    ensures var r := AddHolding(p, snapshot, cryptoId, amount, price, currency, addedAt);
      && |r| == |p| + 1
      && r[..|p|] == p
      && r[|p|].cryptoId == cryptoId && r[|p|].symbol == c.symbol && r[|p|].name == c.name
      && r[|p|].image == c.image && r[|p|].currency == currency && r[|p|].addedAt == addedAt
      && r[|p|].amount == amount
      && r[|p|].averagePrice == price
      && ValuedAt(r[|p|], c.currentPrice)
  {
    var r := AddHolding(p, snapshot, cryptoId, amount, price, currency, addedAt);
    var row := Holding(c.id, c.symbol, c.name, amount, price, 0.0, 0.0, 0.0, currency, addedAt, c.image);
    assert FindHolding(p, cryptoId).None?;
    assert r == p + [Valued(row, c.currentPrice)];
    ValuedIsValuedAt(row, c.currentPrice);
    assert r[..|p|] == p;
  }

  /** A further purchase of a held instrument keeps the length, sets that
      row's amount to the sum and its average price to the weighted average,
      revalues it, keeps its descriptive fields, and leaves every other row
      untouched. */
  lemma AddHoldingMerge(p: seq<Holding>, snapshot: seq<Instrument>, cryptoId: string,
                        amount: real, price: real, currency: Currency, addedAt: string, k: nat, c: Instrument)
    requires PortfolioInvariant(p) && amount > 0.0 && price > 0.0
    requires FindInstrument(snapshot, cryptoId) == Some(c)
    requires k < |p| && p[k].cryptoId == cryptoId
    ensures var r := AddHolding(p, snapshot, cryptoId, amount, price, currency, addedAt);
      && |r| == |p|
      && (forall j :: 0 <= j < |p| && j != k ==> r[j] == p[j])
      && r[k].amount == p[k].amount + amount
      && r[k].averagePrice == MergedAverage(p[k].amount, p[k].averagePrice, amount, price)
      && r[k].cryptoId == p[k].cryptoId && r[k].symbol == p[k].symbol && r[k].name == p[k].name
      && r[k].currency == p[k].currency && r[k].addedAt == p[k].addedAt && r[k].image == p[k].image
      && ValuedAt(r[k], c.currentPrice)
  {
    var average := MergedAverage(p[k].amount, p[k].averagePrice, amount, price);
    AddHoldingIsMerge(p, snapshot, cryptoId, amount, price, currency, addedAt, k, c);
    MergeRowsAt(p, cryptoId, p[k].amount + amount, average, c.currentPrice, k);
  }

  /** With one row per instrument, a purchase of a held instrument takes the
      merge branch with that row's amount and average. */
  lemma AddHoldingIsMerge(p: seq<Holding>, snapshot: seq<Instrument>, cryptoId: string,
                          amount: real, price: real, currency: Currency, addedAt: string, k: nat, c: Instrument)
    requires PortfolioInvariant(p) && amount > 0.0 && price > 0.0
    requires FindInstrument(snapshot, cryptoId) == Some(c)
    requires k < |p| && p[k].cryptoId == cryptoId
    ensures AddHolding(p, snapshot, cryptoId, amount, price, currency, addedAt)
         == MergeRows(p, cryptoId, p[k].amount + amount,
                      MergedAverage(p[k].amount, p[k].averagePrice, amount, price), c.currentPrice)
  {
    FindHoldingUnique(p, cryptoId, k);
  }

  /** With one row per instrument, merging changes only the row of that
      instrument: it gets the new amount and average and is valued at the
      price, and keeps its descriptive fields. */
  lemma MergeRowsAt(p: seq<Holding>, cryptoId: string, totalAmount: real, newAverage: real,
                    currentPrice: real, k: nat)
    requires UniqueHoldingIds(p) && newAverage != 0.0
    requires k < |p| && p[k].cryptoId == cryptoId
    ensures var r := MergeRows(p, cryptoId, totalAmount, newAverage, currentPrice);
      && |r| == |p|
      && (forall j :: 0 <= j < |p| && j != k ==> r[j] == p[j])
      && r[k].amount == totalAmount && r[k].averagePrice == newAverage
      && r[k].cryptoId == p[k].cryptoId && r[k].symbol == p[k].symbol && r[k].name == p[k].name
      && r[k].currency == p[k].currency && r[k].addedAt == p[k].addedAt && r[k].image == p[k].image
      && ValuedAt(r[k], currentPrice)
  {
    var row := p[k].(amount := totalAmount, averagePrice := newAverage);
    var r := MergeRows(p, cryptoId, totalAmount, newAverage, currentPrice);
    assert r[k] == Valued(row, currentPrice);
    ValuedIsValuedAt(row, currentPrice);
    forall j | 0 <= j < |p| && j != k ensures r[j] == p[j] {
      assert p[j].cryptoId != cryptoId;
    }
  }

  /** With one row per instrument, the row found for an id is the one row
      that carries it. */
  lemma FindHoldingUnique(p: seq<Holding>, cryptoId: string, k: nat)
    requires UniqueHoldingIds(p) && k < |p| && p[k].cryptoId == cryptoId
    ensures FindHolding(p, cryptoId) == Some(p[k])
  {
    assert HoldingIndex(p, cryptoId) == k;
  }

  /** `removeFromPortfolio(cryptoId)`. */
  function RemoveHolding(p: seq<Holding>, cryptoId: string): (r: seq<Holding>)
    ensures |r| <= |p|
    ensures forall k :: 0 <= k < |r| ==> r[k].cryptoId != cryptoId
  {
    Filter(p, (h: Holding) => h.cryptoId != cryptoId)
  }

  /** Removal keeps exactly the rows of other instruments. */
  lemma RemoveHoldingMembers(p: seq<Holding>, cryptoId: string)
    ensures var r := RemoveHolding(p, cryptoId);
      && !HoldsId(r, cryptoId)
      && forall h :: h in r <==> h in p && h.cryptoId != cryptoId
  {
    var r := RemoveHolding(p, cryptoId);
    forall h | h in p && h.cryptoId != cryptoId ensures h in r {
      var i :| 0 <= i < |p| && p[i] == h;
    }
    forall h | h in r ensures h in p && h.cryptoId != cryptoId {
      var i :| 0 <= i < |r| && r[i] == h;
    }
  }

  /** Removing an instrument that is not held changes nothing. */
  lemma RemoveHoldingAbsent(p: seq<Holding>, cryptoId: string)
    requires !HoldsId(p, cryptoId)
    ensures RemoveHolding(p, cryptoId) == p
  {
    FilterKeepsAll(p, (h: Holding) => h.cryptoId != cryptoId);
  }

  /** With one row per instrument, removing a held instrument closes the gap
      its row leaves and keeps the other rows in order. */
  lemma RemoveHoldingAt(p: seq<Holding>, cryptoId: string, k: nat)
    requires UniqueHoldingIds(p) && k < |p| && p[k].cryptoId == cryptoId
    ensures RemoveHolding(p, cryptoId) == p[..k] + p[k + 1..]
  {
    FilterDropsOne(p, (h: Holding) => h.cryptoId != cryptoId, k);
  }

  /** Removal keeps the portfolio invariant. */
  lemma RemoveHoldingKeepsInvariant(p: seq<Holding>, cryptoId: string)
    requires PortfolioInvariant(p)
    ensures PortfolioInvariant(RemoveHolding(p, cryptoId))
  {
    var r := RemoveHolding(p, cryptoId);
    if k :| 0 <= k < |p| && p[k].cryptoId == cryptoId {
      RemoveHoldingAt(p, cryptoId, k);
      forall i | 0 <= i < |r| ensures r[i] == p[if i < k then i else i + 1] {
      }
    } else {
      RemoveHoldingAbsent(p, cryptoId);
    }
  }

  /** Buying again after a removal starts a fresh row whose average price is
      the new price alone. */
  lemma RemoveThenAddIsFresh(p: seq<Holding>, snapshot: seq<Instrument>, cryptoId: string,
                             amount: real, price: real, currency: Currency, addedAt: string)
    requires PortfolioInvariant(p) && amount > 0.0 && price > 0.0
    requires FindInstrument(snapshot, cryptoId).Some?
    ensures var q := RemoveHolding(p, cryptoId);
      PortfolioInvariant(q)
      && var r := AddHolding(q, snapshot, cryptoId, amount, price, currency, addedAt);
      |r| == |q| + 1 && r[|q|].cryptoId == cryptoId
      && r[|q|].amount == amount && r[|q|].averagePrice == price
  {
    RemoveHoldingKeepsInvariant(p, cryptoId);
    RemoveHoldingMembers(p, cryptoId);
    var c := FindInstrument(snapshot, cryptoId).value;
    AddHoldingNewRow(RemoveHolding(p, cryptoId), snapshot, cryptoId, amount, price, currency, addedAt, c);
  }

  /** One purchase of a sequence of repeated adds. */
  datatype Purchase = Purchase(amount: real, price: real)

  predicate ValidPurchases(ps: seq<Purchase>) {
    forall k :: 0 <= k < |ps| ==> ps[k].amount > 0.0 && ps[k].price > 0.0
  }

  function TotalAmount(ps: seq<Purchase>): (total: real)
    ensures ValidPurchases(ps) && |ps| > 0 ==> total > 0.0
  {
    if ps == [] then 0.0 else TotalAmount(ps[..|ps| - 1]) + ps[|ps| - 1].amount
  }

  function TotalCost(ps: seq<Purchase>): (cost: real) {
    if ps == [] then 0.0 else TotalCost(ps[..|ps| - 1]) + ps[|ps| - 1].amount * ps[|ps| - 1].price
  }

  /** The average price the store arrives at by merging the purchases one
      after the other. */
  function RunningAverage(ps: seq<Purchase>): (average: real)
    requires ValidPurchases(ps) && |ps| > 0
    ensures average > 0.0
    decreases |ps|
  {
    var init, last := ps[..|ps| - 1], ps[|ps| - 1];
    assert ValidPurchases(init);
    if init == [] then last.price
    else MergedAverage(TotalAmount(init), RunningAverage(init), last.amount, last.price)
  }

  /** Folding one more purchase into a running average: if `average` is the
      cost `cost` spread over `amount`, merging `more` at `price` spreads the
      new cost over the new amount. */
  lemma WeightedMeanStep(amount: real, cost: real, average: real, more: real, price: real)
    requires amount > 0.0 && average > 0.0 && more > 0.0 && price > 0.0
    requires average == cost / amount
    ensures MergedAverage(amount, average, more, price) == (cost + more * price) / (amount + more)
  {
    assert amount * average == cost;
  }

  lemma CostOverAmount(amount: real, price: real)
    requires amount > 0.0
    ensures (amount * price) / amount == price
  {
  }

  /** Merging purchase by purchase gives the amount-weighted mean of all the
      purchase prices: total cost over total amount. */
  lemma {:induction false} RunningAverageIsWeightedMean(ps: seq<Purchase>)
    requires ValidPurchases(ps) && |ps| > 0
    ensures RunningAverage(ps) == TotalCost(ps) / TotalAmount(ps)
    decreases |ps|
  {
    var init, last := ps[..|ps| - 1], ps[|ps| - 1];
    assert ValidPurchases(init);
    if init == [] {
      assert TotalAmount(ps) == last.amount && TotalCost(ps) == last.amount * last.price;
      CostOverAmount(last.amount, last.price);
    } else {
      RunningAverageIsWeightedMean(init);
      var amount, cost, average := TotalAmount(init), TotalCost(init), RunningAverage(init);
      assert TotalAmount(ps) == amount + last.amount;
      assert TotalCost(ps) == cost + last.amount * last.price;
      assert RunningAverage(ps) == MergedAverage(amount, average, last.amount, last.price);
      WeightedMeanStep(amount, cost, average, last.amount, last.price);
    }
  }

  /** The portfolio after adding the purchases one by one, in order. */
  function AddAll(p: seq<Holding>, snapshot: seq<Instrument>, cryptoId: string, ps: seq<Purchase>,
                  currency: Currency, addedAt: string): (r: seq<Holding>)
    requires PortfolioInvariant(p) && ValidPurchases(ps)
    ensures PortfolioInvariant(r)
    decreases |ps|
  {
    if ps == [] then p
    else
      var last := ps[|ps| - 1];
      var q := AddAll(p, snapshot, cryptoId, ps[..|ps| - 1], currency, addedAt);
      AddHoldingKeepsInvariant(q, snapshot, cryptoId, last.amount, last.price, currency, addedAt);
      AddHolding(q, snapshot, cryptoId, last.amount, last.price, currency, addedAt)
  }

  /** `r` is `p` with one more row at the end, for `cryptoId`, holding
      `amount` at an average price of `average`. */
  predicate OneRowAppended(r: seq<Holding>, p: seq<Holding>, cryptoId: string, amount: real, average: real) {
    && |r| == |p| + 1
    && r[..|p|] == p
    && r[|p|].cryptoId == cryptoId
    && r[|p|].amount == amount
    && r[|p|].averagePrice == average
  }

  /** After repeated purchases of an instrument not held before, there is one
      row for it, at the end, holding the total amount at the running average;
      the earlier rows are untouched. */
  lemma {:induction false} RepeatedAddsRow(p: seq<Holding>, snapshot: seq<Instrument>, cryptoId: string,
                                           ps: seq<Purchase>, currency: Currency, addedAt: string)
    requires PortfolioInvariant(p) && ValidPurchases(ps) && |ps| > 0
    requires FindInstrument(snapshot, cryptoId).Some?
    requires !HoldsId(p, cryptoId)
    ensures OneRowAppended(AddAll(p, snapshot, cryptoId, ps, currency, addedAt), p, cryptoId,
                           TotalAmount(ps), RunningAverage(ps))
    decreases |ps|
  {
    var init, last := ps[..|ps| - 1], ps[|ps| - 1];
    var crypto := FindInstrument(snapshot, cryptoId).value;
    assert ValidPurchases(init);
    if init == [] {
      AddHoldingNewRow(p, snapshot, cryptoId, last.amount, last.price, currency, addedAt, crypto);
    } else {
      RepeatedAddsRow(p, snapshot, cryptoId, init, currency, addedAt);
      AddToLastRow(p, AddAll(p, snapshot, cryptoId, init, currency, addedAt), snapshot, cryptoId,
                   TotalAmount(init), RunningAverage(init), last.amount, last.price, currency, addedAt, crypto);
    }
  }

  /** The amount-weighted mean: after repeated purchases of an instrument not
      held before, its one row holds the total amount at total cost over total
      amount. */
  lemma RepeatedAddsAverage(p: seq<Holding>, snapshot: seq<Instrument>, cryptoId: string,
                            ps: seq<Purchase>, currency: Currency, addedAt: string)
    requires PortfolioInvariant(p) && ValidPurchases(ps) && |ps| > 0
    requires FindInstrument(snapshot, cryptoId).Some?
    requires !HoldsId(p, cryptoId)
    ensures var r := AddAll(p, snapshot, cryptoId, ps, currency, addedAt);
      && |r| == |p| + 1
      && r[..|p|] == p
      && r[|p|].cryptoId == cryptoId
      && r[|p|].amount == TotalAmount(ps)
      && r[|p|].averagePrice == TotalCost(ps) / TotalAmount(ps)
  {
    RepeatedAddsRow(p, snapshot, cryptoId, ps, currency, addedAt);
    RunningAverageIsWeightedMean(ps);
  }

  /** A purchase added to a portfolio whose last row holds `amount` of the
      instrument at `average` merges into that row. */
  lemma AddToLastRow(p: seq<Holding>, q: seq<Holding>, snapshot: seq<Instrument>, cryptoId: string,
                     amount: real, average: real, more: real, price: real,
                     currency: Currency, addedAt: string, crypto: Instrument)
    requires PortfolioInvariant(q) && more > 0.0 && price > 0.0
    requires FindInstrument(snapshot, cryptoId) == Some(crypto)
    requires OneRowAppended(q, p, cryptoId, amount, average)
    ensures amount > 0.0 && average > 0.0
    ensures OneRowAppended(AddHolding(q, snapshot, cryptoId, more, price, currency, addedAt), p, cryptoId,
                           amount + more, MergedAverage(amount, average, more, price))
  {
    AddHoldingMerge(q, snapshot, cryptoId, more, price, currency, addedAt, |p|, crypto);
    var r := AddHolding(q, snapshot, cryptoId, more, price, currency, addedAt);
    assert r[..|p|] == p by {
      forall j | 0 <= j < |p| ensures r[j] == p[j] {
        assert r[j] == q[j];
      }
    }
  }

  /** Whether every row's average price can be divided by. */
  predicate AveragesNonzero(p: seq<Holding>) {
    forall k :: 0 <= k < |p| ==> p[k].averagePrice != 0.0
  }

  /** `updatePortfolio()`: revalue each row whose instrument is in the
      snapshot; leave the others as they are. */
  function Revalue(p: seq<Holding>, snapshot: seq<Instrument>): (r: seq<Holding>)
    requires AveragesNonzero(p)
    ensures |r| == |p|
    ensures forall k :: 0 <= k < |p| ==> r[k].cryptoId == p[k].cryptoId && r[k].amount == p[k].amount
  {
    seq(|p|, k requires 0 <= k < |p| =>
      match FindInstrument(snapshot, p[k].cryptoId)
      case None => p[k]
      case Some(crypto) => Valued(p[k], crypto.currentPrice))
  }

  /** Revaluation keeps length, order, amounts and average prices; a row with
      no instrument in the snapshot is returned unchanged; the others get
      their derived fields recomputed from the snapshot price. */
  lemma RevalueSpec(p: seq<Holding>, snapshot: seq<Instrument>)
    requires AveragesNonzero(p)
    ensures var r := Revalue(p, snapshot);
      && |r| == |p|
      && AveragesNonzero(r)
      && (PortfolioInvariant(p) ==> PortfolioInvariant(r))
      && forall k :: 0 <= k < |p| ==>
           && r[k].cryptoId == p[k].cryptoId && r[k].amount == p[k].amount
           && r[k].averagePrice == p[k].averagePrice
           && r[k].symbol == p[k].symbol && r[k].name == p[k].name && r[k].currency == p[k].currency
           && r[k].addedAt == p[k].addedAt && r[k].image == p[k].image
           && (FindInstrument(snapshot, p[k].cryptoId).None? ==> r[k] == p[k])
           && (FindInstrument(snapshot, p[k].cryptoId).Some? ==>
                 var price := FindInstrument(snapshot, p[k].cryptoId).value.currentPrice;
                 && r[k].currentValue == p[k].amount * price
                 && r[k].profitLoss == (price - p[k].averagePrice) * p[k].amount
                 && r[k].profitLossPercentage == (price - p[k].averagePrice) / p[k].averagePrice * 100.0)
  {
  }

  /** Revaluing twice against the same snapshot gives the same portfolio as
      revaluing once. */
  lemma {:induction false} RevalueIdempotent(p: seq<Holding>, snapshot: seq<Instrument>)
    requires AveragesNonzero(p)
    ensures AveragesNonzero(Revalue(p, snapshot))
    ensures Revalue(Revalue(p, snapshot), snapshot) == Revalue(p, snapshot)
  {
    RevalueSpec(p, snapshot);
    var once := Revalue(p, snapshot);
    var twice := Revalue(once, snapshot);
    assert |twice| == |once|;
    forall k | 0 <= k < |once| ensures twice[k] == once[k] {
      assert once[k].cryptoId == p[k].cryptoId;
    }
  }

  // ---------------------------------------------------------------------
  // Price alerts
  // ---------------------------------------------------------------------

  function Abs(x: real): (r: real) {
    if x < 0.0 then -x else x
  }

  /** The `switch` of `checkPriceAlerts`: the same target field is a price
      for `above`/`below` and a percentage threshold for `percentage_change`. */
  predicate ConditionHolds(alert: PriceAlert, crypto: Instrument)
    ensures alert.alertType != PercentageChange && crypto.currentPrice == alert.targetPrice
            ==> ConditionHolds(alert, crypto)
    ensures alert.alertType == PercentageChange ==>
              (ConditionHolds(alert, crypto) <==>
                 crypto.priceChangePercentage24h >= alert.targetPrice
                 || crypto.priceChangePercentage24h <= -alert.targetPrice)
  {
    match alert.alertType
    case Above => crypto.currentPrice >= alert.targetPrice
    case Below => crypto.currentPrice <= alert.targetPrice
    case PercentageChange => Abs(crypto.priceChangePercentage24h) >= alert.targetPrice
  }

  /** The message stored on a fired alert. */
  function AlertMessage(alert: PriceAlert, crypto: Instrument): (t: Text)
    ensures |t| >= 3 && t[0] == Lit(crypto.name)
    ensures alert.alertType != PercentageChange ==> t[2] == Num(alert.targetPrice)
  {
    match alert.alertType
    case Above => [Lit(crypto.name), Lit(" está por encima de "), Num(alert.targetPrice)]
    case Below => [Lit(crypto.name), Lit(" está por debajo de "), Num(alert.targetPrice)]
    case PercentageChange => [Lit(crypto.name), Lit(" ha cambiado "), Fixed(crypto.priceChangePercentage24h, 2), Lit("%")]
  }

  /** The alert deactivated, with its firing time and message. */
  function Deactivated(a: PriceAlert, firedAt: string, message: Text): (fired: PriceAlert) {
    a.(isActive := false, triggeredAt := Some(firedAt), message := Some(message))
  }

  /** The `set` issued for a fired alert: every alert with that id is
      deactivated. */
  function MarkFired(alerts: seq<PriceAlert>, id: string, firedAt: string, message: Text): (r: seq<PriceAlert>)
    ensures |r| == |alerts|
    ensures forall k :: 0 <= k < |r| ==> r[k].id == alerts[k].id && SameAlertUpToFiring(alerts[k], r[k])
    ensures forall k :: 0 <= k < |r| ==> (r[k] == alerts[k] <==> alerts[k].id != id || alerts[k] == Deactivated(alerts[k], firedAt, message))
  {
    seq(|alerts|, k requires 0 <= k < |alerts| =>
      if alerts[k].id == id then Deactivated(alerts[k], firedAt, message) else alerts[k])
  }

  /** One iteration of the `forEach`: `alert` is the element of the list read
      at the start, `current` the list as previous iterations left it. */
  function EvaluateStep(current: seq<PriceAlert>, alert: PriceAlert, snapshot: seq<Instrument>,
                        notifications: bool, firedAt: string): (r: seq<PriceAlert>)
    ensures |r| == |current|
  {
    if !alert.isActive then current
    else
      match FindInstrument(snapshot, alert.cryptoId)
      case None => current
      case Some(crypto) =>
        if ConditionHolds(alert, crypto) && notifications
        then MarkFired(current, alert.id, firedAt, AlertMessage(alert, crypto))
        else current
  }

  /** `b` is `a` except, possibly, for the three fields firing sets. */
  predicate SameAlertUpToFiring(a: PriceAlert, b: PriceAlert) {
    b == a.(isActive := b.isActive, triggeredAt := b.triggeredAt, message := b.message)
  }

  /** The list after the first `k` iterations of the `forEach` over `alerts`.
      Whatever ids the alerts carry, the pass keeps the length, touches no
      field other than the firing ones, changes only alerts it leaves
      inactive, and changes nothing when notifications are off. */
  function EvaluatedPrefix(alerts: seq<PriceAlert>, k: nat, snapshot: seq<Instrument>,
                           notifications: bool, firedAt: string): (r: seq<PriceAlert>)
    requires k <= |alerts|
    ensures |r| == |alerts|
    ensures forall j :: 0 <= j < |r| ==> SameAlertUpToFiring(alerts[j], r[j])
    ensures forall j :: 0 <= j < |r| ==> r[j] == alerts[j] || !r[j].isActive
    ensures !notifications ==> r == alerts
  {
    if k == 0 then alerts
    else
      EvaluateStep(EvaluatedPrefix(alerts, k - 1, snapshot, notifications, firedAt),
                   alerts[k - 1], snapshot, notifications, firedAt)
  }

  /** `checkPriceAlerts()`: one pass over the alert list. */
  function CheckAlerts(alerts: seq<PriceAlert>, snapshot: seq<Instrument>,
                       notifications: bool, firedAt: string): (r: seq<PriceAlert>)
    ensures |r| == |alerts|
    ensures !notifications ==> r == alerts
  {
    EvaluatedPrefix(alerts, |alerts|, snapshot, notifications, firedAt)
  }

  /** Whether the pass fires this alert: active, notifications on, its
      instrument in the snapshot and its condition true. */
  predicate Fires(alert: PriceAlert, snapshot: seq<Instrument>, notifications: bool) {
    && alert.isActive
    && notifications
    && FindInstrument(snapshot, alert.cryptoId).Some?
    && ConditionHolds(alert, FindInstrument(snapshot, alert.cryptoId).value)
  }

  /** The pass as a per-alert rule: each alert is deactivated if it fires and
      otherwise left as it is. */
  function EvaluateAlert(alert: PriceAlert, snapshot: seq<Instrument>, notifications: bool, firedAt: string): (r: PriceAlert) {
    if Fires(alert, snapshot, notifications)
    then Deactivated(alert, firedAt, AlertMessage(alert, FindInstrument(snapshot, alert.cryptoId).value))
    else alert
  }

  predicate UniqueAlertIds(alerts: seq<PriceAlert>) {
    forall j, k :: 0 <= j < k < |alerts| ==> alerts[j].id != alerts[k].id
  }

  /** `r` is `alerts` after the per-alert rule has been applied to its first
      `k` positions and to no other. */
  predicate RuleAppliedUpTo(alerts: seq<PriceAlert>, r: seq<PriceAlert>, k: nat, snapshot: seq<Instrument>,
                            notifications: bool, firedAt: string) {
    && |r| == |alerts|
    && forall j :: 0 <= j < |alerts| ==>
         r[j] == if j < k then EvaluateAlert(alerts[j], snapshot, notifications, firedAt) else alerts[j]
  }

  /** With distinct ids, after `k` iterations the first `k` alerts have been
      evaluated by the per-alert rule and the rest are untouched. */
  lemma {:induction false} EvaluatedPrefixPointwise(alerts: seq<PriceAlert>, k: nat, snapshot: seq<Instrument>,
                                                    notifications: bool, firedAt: string)
    requires k <= |alerts| && UniqueAlertIds(alerts)
    ensures RuleAppliedUpTo(alerts, EvaluatedPrefix(alerts, k, snapshot, notifications, firedAt), k,
                            snapshot, notifications, firedAt)
  {
    if k > 0 {
      EvaluatedPrefixPointwise(alerts, k - 1, snapshot, notifications, firedAt);
      StepPointwise(alerts, k, snapshot, notifications, firedAt);
    }
  }

  /** Iteration `k` applies the per-alert rule to alert `k - 1` and, ids
      being distinct, touches no other position. */
  lemma StepPointwise(alerts: seq<PriceAlert>, k: nat, snapshot: seq<Instrument>,
                      notifications: bool, firedAt: string)
    requires 0 < k <= |alerts| && UniqueAlertIds(alerts)
    requires RuleAppliedUpTo(alerts, EvaluatedPrefix(alerts, k - 1, snapshot, notifications, firedAt), k - 1,
                             snapshot, notifications, firedAt)
    ensures RuleAppliedUpTo(alerts, EvaluatedPrefix(alerts, k, snapshot, notifications, firedAt), k,
                            snapshot, notifications, firedAt)
  {
    var alert := alerts[k - 1];
    var prev := EvaluatedPrefix(alerts, k - 1, snapshot, notifications, firedAt);
    var r := EvaluatedPrefix(alerts, k, snapshot, notifications, firedAt);
    assert r == EvaluateStep(prev, alert, snapshot, notifications, firedAt);
    forall j | 0 <= j < |alerts|
      ensures r[j] == if j < k then EvaluateAlert(alerts[j], snapshot, notifications, firedAt) else alerts[j]
    {
      if Fires(alert, snapshot, notifications) {
        var crypto := FindInstrument(snapshot, alert.cryptoId).value;
        assert r == MarkFired(prev, alert.id, firedAt, AlertMessage(alert, crypto));
        if j == k - 1 {
          assert prev[j] == alert;
        } else {
          assert alerts[j].id != alert.id;
          assert prev[j].id == alerts[j].id;
        }
      } else {
        assert r == prev;
      }
    }
  }

  /** With distinct alert ids, one pass applies the per-alert rule to every
      alert. */
  lemma CheckAlertsPointwise(alerts: seq<PriceAlert>, snapshot: seq<Instrument>, notifications: bool, firedAt: string)
    requires UniqueAlertIds(alerts)
    ensures var r := CheckAlerts(alerts, snapshot, notifications, firedAt);
      |r| == |alerts| && forall j :: 0 <= j < |alerts| ==> r[j] == EvaluateAlert(alerts[j], snapshot, notifications, firedAt)
  {
    EvaluatedPrefixPointwise(alerts, |alerts|, snapshot, notifications, firedAt);
  }

  /** With distinct ids, an alert is deactivated by a pass exactly when it was
      active, notifications are on, its instrument is in the snapshot and
      its condition holds (`above`: price at or over the target; `below`: at
      or under; `percentage_change`: absolute 24h change at or over it); it
      then carries the firing time and message, and is otherwise left as it
      was. */
  lemma AlertFiresIff(alerts: seq<PriceAlert>, snapshot: seq<Instrument>, notifications: bool, firedAt: string, j: nat)
    requires UniqueAlertIds(alerts) && j < |alerts|
    ensures var r := CheckAlerts(alerts, snapshot, notifications, firedAt);
      var a := alerts[j];
      var found := FindInstrument(snapshot, a.cryptoId);
      && (a.isActive ==>
            (!r[j].isActive <==>
               && notifications
               && found.Some?
               && (match a.alertType
                   case Above => found.value.currentPrice >= a.targetPrice
                   case Below => found.value.currentPrice <= a.targetPrice
                   case PercentageChange => Abs(found.value.priceChangePercentage24h) >= a.targetPrice)))
      && (a.isActive && !r[j].isActive ==>
            r[j].triggeredAt == Some(firedAt) && r[j].message == Some(AlertMessage(a, found.value)))
      && (a.isActive && r[j].isActive ==> r[j] == a)
  {
    CheckAlertsPointwise(alerts, snapshot, notifications, firedAt);
  }

  /** With distinct ids, an alert that is already inactive is never touched
      again, whatever the snapshot, the setting or the time. */
  lemma FiredAlertIsFinal(alerts: seq<PriceAlert>, snapshot: seq<Instrument>, notifications: bool, firedAt: string, j: nat)
    requires UniqueAlertIds(alerts) && j < |alerts| && !alerts[j].isActive
    ensures CheckAlerts(alerts, snapshot, notifications, firedAt)[j] == alerts[j]
  {
    CheckAlertsPointwise(alerts, snapshot, notifications, firedAt);
  }

  /** With distinct ids, a second pass against the same snapshot changes
      nothing: fired alerts are skipped and the others still do not fire. */
  lemma {:induction false} CheckAlertsIdempotent(alerts: seq<PriceAlert>, snapshot: seq<Instrument>,
                                                 notifications: bool, firedAt: string, laterAt: string)
    requires UniqueAlertIds(alerts)
    ensures var once := CheckAlerts(alerts, snapshot, notifications, firedAt);
      CheckAlerts(once, snapshot, notifications, laterAt) == once
  {
    var once := CheckAlerts(alerts, snapshot, notifications, firedAt);
    CheckAlertsPointwise(alerts, snapshot, notifications, firedAt);
    assert UniqueAlertIds(once) by {
      forall i, j | 0 <= i < j < |once| ensures once[i].id != once[j].id {
        assert once[i].id == alerts[i].id && once[j].id == alerts[j].id;
      }
    }
    CheckAlertsPointwise(once, snapshot, notifications, laterAt);
    var twice := CheckAlerts(once, snapshot, notifications, laterAt);
    forall j | 0 <= j < |once| ensures twice[j] == once[j] {
      assert once[j] == EvaluateAlert(alerts[j], snapshot, notifications, firedAt);
      if !Fires(alerts[j], snapshot, notifications) {
        assert once[j] == alerts[j];
      }
    }
  }

  /** Ids come from the clock, so two alerts created in the same millisecond
      share one. Then firing the active one also rewrites the inactive one's
      firing time and message: the per-alert rule needs distinct ids. */
  lemma SharedIdRewritesInactiveAlert(btc: Instrument, firedAt: string)
    requires btc.id == "bitcoin" && btc.currentPrice == 70000.0
    ensures var past := PriceAlert("1", "bitcoin", "Bitcoin", "btc", 60000.0, Above, false, USD, "t0", Some("t1"), Some([Lit("fired before")]));
      var live := PriceAlert("1", "bitcoin", "Bitcoin", "btc", 65000.0, Above, true, USD, "t0", None, None);
      var r := CheckAlerts([past, live], [btc], true, firedAt);
      r[0] != past && r[0].triggeredAt == Some(firedAt)
  {
    var past := PriceAlert("1", "bitcoin", "Bitcoin", "btc", 60000.0, Above, false, USD, "t0", Some("t1"), Some([Lit("fired before")]));
    var live := PriceAlert("1", "bitcoin", "Bitcoin", "btc", 65000.0, Above, true, USD, "t0", None, None);
    var alerts := [past, live];
    assert FindInstrument([btc], "bitcoin") == Some(btc);
    assert EvaluatedPrefix(alerts, 0, [btc], true, firedAt) == alerts;
    assert alerts[0] == past && !past.isActive;
    assert EvaluatedPrefix(alerts, 1, [btc], true, firedAt) == alerts;
    assert alerts[1] == live && ConditionHolds(live, btc);
    var r := CheckAlerts(alerts, [btc], true, firedAt);
    assert r == MarkFired(alerts, "1", firedAt, AlertMessage(live, btc));
    assert r[0].triggeredAt == Some(firedAt);
  }

  /** The fields of a new alert that the caller supplies (all but the id and
      the creation time). */
  datatype AlertDraft = AlertDraft(
    cryptoId: string,
    cryptoName: string,
    cryptoSymbol: string,
    targetPrice: real,
    alertType: AlertType,
    isActive: bool,
    currency: Currency,
    triggeredAt: Option<string>,
    message: Option<Text>)

  /** The fields of an alert that the caller supplies, as a draft. */
  function DraftOf(a: PriceAlert): (draft: AlertDraft) {
    AlertDraft(a.cryptoId, a.cryptoName, a.cryptoSymbol, a.targetPrice, a.alertType,
               a.isActive, a.currency, a.triggeredAt, a.message)
  }

  /** `{ ...alert, id, createdAt }`: the draft's fields, unchanged, plus the
      clock-derived id and creation time. */
  function NewAlert(draft: AlertDraft, id: string, createdAt: string): (a: PriceAlert)
    ensures a.id == id && a.createdAt == createdAt
    ensures DraftOf(a) == draft
  {
    PriceAlert(id, draft.cryptoId, draft.cryptoName, draft.cryptoSymbol, draft.targetPrice, draft.alertType,
               draft.isActive, draft.currency, createdAt, draft.triggeredAt, draft.message)
  }

  /** `removePriceAlert(alertId)`. */
  function RemoveAlert(alerts: seq<PriceAlert>, alertId: string): (r: seq<PriceAlert>)
    ensures |r| <= |alerts|
    ensures forall k :: 0 <= k < |r| ==> r[k].id != alertId
  {
    Filter(alerts, (a: PriceAlert) => a.id != alertId)
  }

  /** Removal drops exactly the alerts with that id and keeps the others in
      order. */
  lemma RemoveAlertSpec(alerts: seq<PriceAlert>, alertId: string)
    ensures var r := RemoveAlert(alerts, alertId);
      && (forall a :: a in r <==> a in alerts && a.id != alertId)
      && ((forall k :: 0 <= k < |alerts| ==> alerts[k].id != alertId) ==> r == alerts)
      && (UniqueAlertIds(alerts) ==>
            forall k :: 0 <= k < |alerts| && alerts[k].id == alertId ==> r == alerts[..k] + alerts[k + 1..])
  {
    var keep := (a: PriceAlert) => a.id != alertId;
    if forall k :: 0 <= k < |alerts| ==> alerts[k].id != alertId {
      FilterKeepsAll(alerts, keep);
    }
    if UniqueAlertIds(alerts) {
      forall k | 0 <= k < |alerts| && alerts[k].id == alertId
        ensures RemoveAlert(alerts, alertId) == alerts[..k] + alerts[k + 1..]
      {
        FilterDropsOne(alerts, keep, k);
      }
    }
  }

  // ---------------------------------------------------------------------
  // Settings
  // ---------------------------------------------------------------------

  /** A `Partial<AppSettings>`: an absent field is `None`. */
  datatype SettingsPatch = SettingsPatch(
    currency: Option<Currency>,
    theme: Option<Theme>,
    refreshInterval: Option<int>,
    notifications: Option<bool>,
    language: Option<Language>)

  const EmptyPatch: SettingsPatch := SettingsPatch(None, None, None, None, None)

  /** `{ ...settings, ...patch }`. */
  function MergeSettings(s: Settings, patch: SettingsPatch): (r: Settings)
    ensures r.currency == (if patch.currency.Some? then patch.currency.value else s.currency)
    ensures r.theme == (if patch.theme.Some? then patch.theme.value else s.theme)
    ensures r.refreshInterval == (if patch.refreshInterval.Some? then patch.refreshInterval.value else s.refreshInterval)
    ensures r.notifications == (if patch.notifications.Some? then patch.notifications.value else s.notifications)
    ensures r.language == (if patch.language.Some? then patch.language.value else s.language)
  {
    Settings(patch.currency.GetOr(s.currency), patch.theme.GetOr(s.theme),
             patch.refreshInterval.GetOr(s.refreshInterval), patch.notifications.GetOr(s.notifications),
             patch.language.GetOr(s.language))
  }

  /** Applying a patch twice is applying it once; the empty patch changes
      nothing; a later patch overrides an earlier one on the fields it
      supplies. */
  lemma MergeSettingsSpec(s: Settings, patch: SettingsPatch)
    ensures MergeSettings(MergeSettings(s, patch), patch) == MergeSettings(s, patch)
    ensures MergeSettings(s, EmptyPatch) == s
  {
  }

  // ---------------------------------------------------------------------
  // The store
  // ---------------------------------------------------------------------

  class Store {
    var cryptocurrencies: seq<Instrument>
    var portfolio: seq<Holding>
    var priceAlerts: seq<PriceAlert>
    var settings: Settings

    ghost predicate Valid()
      reads this
    {
      PortfolioInvariant(portfolio)
    }

    /** The initial state. */
    constructor ()
      ensures Valid()
      ensures cryptocurrencies == [] && portfolio == [] && priceAlerts == [] && settings == DefaultSettings
    {
      cryptocurrencies := [];
      portfolio := [];
      priceAlerts := [];
      settings := DefaultSettings;
    }

    /** The success path of `fetchCryptocurrencies`: the new snapshot replaces
        the old one and the portfolio is revalued against it. */
    method ApplySnapshot(data: seq<Instrument>)
      requires Valid()
      modifies this
      ensures Valid()
      ensures cryptocurrencies == data
      ensures portfolio == Revalue(old(portfolio), data)
      ensures priceAlerts == old(priceAlerts) && settings == old(settings)
    {
      cryptocurrencies := data;
      UpdatePortfolio();
    }

    method AddToPortfolio(cryptoId: string, amount: real, price: real, addedAt: string)
      requires Valid()
      requires amount > 0.0 && price > 0.0
      modifies this
      ensures Valid()
      ensures portfolio == AddHolding(old(portfolio), cryptocurrencies, cryptoId, amount, price, settings.currency, addedAt)
      ensures cryptocurrencies == old(cryptocurrencies) && priceAlerts == old(priceAlerts) && settings == old(settings)
    {
      var crypto := FindInstrument(cryptocurrencies, cryptoId);
      if crypto.None? {
        return;
      }
      AddHoldingKeepsInvariant(portfolio, cryptocurrencies, cryptoId, amount, price, settings.currency, addedAt);
      portfolio := AddHolding(portfolio, cryptocurrencies, cryptoId, amount, price, settings.currency, addedAt);
    }

    method RemoveFromPortfolio(cryptoId: string)
      requires Valid()
      modifies this
      ensures Valid()
      ensures portfolio == RemoveHolding(old(portfolio), cryptoId)
      ensures cryptocurrencies == old(cryptocurrencies) && priceAlerts == old(priceAlerts) && settings == old(settings)
    {
      RemoveHoldingKeepsInvariant(portfolio, cryptoId);
      portfolio := RemoveHolding(portfolio, cryptoId);
    }

    method UpdatePortfolio()
      requires Valid()
      modifies this
      ensures Valid()
      ensures portfolio == Revalue(old(portfolio), cryptocurrencies)
      ensures cryptocurrencies == old(cryptocurrencies) && priceAlerts == old(priceAlerts) && settings == old(settings)
    {
      RevalueSpec(portfolio, cryptocurrencies);
      portfolio := Revalue(portfolio, cryptocurrencies);
    }

    /** `addPriceAlert`: the id and creation time come from the clock. */
    method AddPriceAlert(draft: AlertDraft, id: string, createdAt: string)
      requires Valid()
      modifies this
      ensures Valid()
      ensures priceAlerts == old(priceAlerts) + [NewAlert(draft, id, createdAt)]
      ensures cryptocurrencies == old(cryptocurrencies) && portfolio == old(portfolio) && settings == old(settings)
    {
      priceAlerts := priceAlerts + [NewAlert(draft, id, createdAt)];
    }

    method RemovePriceAlert(alertId: string)
      requires Valid()
      modifies this
      ensures Valid()
      ensures priceAlerts == RemoveAlert(old(priceAlerts), alertId)
      ensures cryptocurrencies == old(cryptocurrencies) && portfolio == old(portfolio) && settings == old(settings)
    {
      priceAlerts := RemoveAlert(priceAlerts, alertId);
    }

    /** `checkPriceAlerts`: iterate over the list as read at the start and,
        for each alert that fires, replace the list with one where that id is
        deactivated. `firedAt` is the time every firing records. */
    method CheckPriceAlerts(firedAt: string)
      requires Valid()
      modifies this
      ensures Valid()
      ensures priceAlerts == CheckAlerts(old(priceAlerts), cryptocurrencies, settings.notifications, firedAt)
      ensures cryptocurrencies == old(cryptocurrencies) && portfolio == old(portfolio) && settings == old(settings)
    {
      var alerts := priceAlerts;
      var i := 0;
      while i < |alerts|
        invariant 0 <= i <= |alerts|
        invariant Valid()
        invariant priceAlerts == EvaluatedPrefix(alerts, i, cryptocurrencies, settings.notifications, firedAt)
        invariant cryptocurrencies == old(cryptocurrencies) && portfolio == old(portfolio) && settings == old(settings)
      {
        CheckAlert(alerts[i], firedAt);
        i := i + 1;
      }
    }

    /** The body of the `forEach` for one alert of the list read at the
        start. */
    method CheckAlert(alert: PriceAlert, firedAt: string)
      requires Valid()
      modifies this
      ensures Valid()
      ensures priceAlerts == EvaluateStep(old(priceAlerts), alert, cryptocurrencies, settings.notifications, firedAt)
      ensures cryptocurrencies == old(cryptocurrencies) && portfolio == old(portfolio) && settings == old(settings)
    {
      if alert.isActive {
        var crypto := FindInstrument(cryptocurrencies, alert.cryptoId);
        if crypto.Some? {
          var shouldAlert := ConditionHolds(alert, crypto.value);
          var message := AlertMessage(alert, crypto.value);
          if shouldAlert && settings.notifications {
            priceAlerts := MarkFired(priceAlerts, alert.id, firedAt, message);
          }
        }
      }
    }

    method UpdateSettings(patch: SettingsPatch)
      requires Valid()
      modifies this
      ensures Valid()
      ensures settings == MergeSettings(old(settings), patch)
      ensures cryptocurrencies == old(cryptocurrencies) && portfolio == old(portfolio) && priceAlerts == old(priceAlerts)
    {
      settings := MergeSettings(settings, patch);
    }
  }
}
