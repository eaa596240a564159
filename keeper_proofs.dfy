/**
 * Properties of the meToken pricing of module Keeper: which oracle median
 * `latestPrice` picks, the round trip between `valueInUSD` and `priceInUSD`,
 * the order in which `Prices` reports its errors, and what the prices it
 * returns mean: before any mint the meToken price is the mean of the accepted
 * assets' prices, after a mint the meToken supply valued at the meToken price
 * is the USD value of the reserves.
 *
 * The properties of `Prices` assume that an index lists each accepted asset
 * once; this is an assumption about the index that this model does not check.
 */
module KeeperProofs {
  import opened Wrappers
  import opened Metoken
  import opened Keeper

  /** Each accepted asset is listed once. */
  ghost predicate NoDuplicates(s: seq<Denom>) {
    forall i, j :: 0 <= i < j < |s| ==> s[i] != s[j]
  }

  // ---------------------------------------------------------------------------
  // latestPrice
  // ---------------------------------------------------------------------------

  /**
   * `latestPrice` fails exactly when no median of the symbol has a non-zero
   * block number, and otherwise returns the rate of the freshest median of the
   * symbol, which is unique (the first one wins a tie).
   */
  lemma LatestPriceSelectsFreshest(prices: seq<OraclePrice>, symbol: Denom)
    ensures LatestPriceOf(prices, symbol).Err? <==>
      forall j :: 0 <= j < |prices| && prices[j].denom == symbol ==> prices[j].blockNum == 0
    ensures LatestPriceOf(prices, symbol).Err? ==> LatestPriceOf(prices, symbol).error == PriceNotFound(symbol)
    ensures LatestPriceOf(prices, symbol).Ok? ==> exists k :: IsFreshest(prices, symbol, k, |prices|)
    ensures forall k :: IsFreshest(prices, symbol, k, |prices|) ==>
      LatestPriceOf(prices, symbol) == Ok(prices[k].exchangeRate)
  {
    FreshestSelects(prices, symbol, |prices|);
    forall k | IsFreshest(prices, symbol, k, |prices|)
      ensures LatestPriceOf(prices, symbol) == Ok(prices[k].exchangeRate)
    {
      assert IsFreshest(prices, symbol, Freshest(prices, symbol, |prices|).value, |prices|);
    }
  }

  /** Medians appended after the first n do not change what the scan keeps after n. */
  lemma {:induction false} FreshestOfPrefix(prices: seq<OraclePrice>, more: seq<OraclePrice>, symbol: Denom, n: nat)
    requires n <= |prices|
    ensures Freshest(prices + more, symbol, n) == Freshest(prices, symbol, n)
  {
    if n > 0 {
      FreshestOfPrefix(prices, more, symbol, n - 1);
      assert (prices + more)[n - 1] == prices[n - 1];
    }
  }

  /**
   * A new median of another symbol changes nothing; one of the symbol that is
   * strictly fresher than all of its medians (at a non-zero block) becomes the
   * latest price; one that is no fresher than some median of the symbol
   * changes nothing.
   */
  lemma AppendMedian(prices: seq<OraclePrice>, p: OraclePrice, symbol: Denom)
    ensures p.denom != symbol ==> LatestPriceOf(prices + [p], symbol) == LatestPriceOf(prices, symbol)
    ensures p.denom == symbol && p.blockNum > 0 &&
      (forall j :: 0 <= j < |prices| && prices[j].denom == symbol ==> prices[j].blockNum < p.blockNum)
      ==> LatestPriceOf(prices + [p], symbol) == Ok(p.exchangeRate)
    ensures (exists j :: 0 <= j < |prices| && prices[j].denom == symbol && p.blockNum <= prices[j].blockNum)
      ==> LatestPriceOf(prices + [p], symbol) == LatestPriceOf(prices, symbol)
  {
    FreshestOfPrefix(prices, [p], symbol, |prices|);
    FreshestSelects(prices, symbol, |prices|);
    assert (prices + [p])[|prices|] == p;
  }

  // ---------------------------------------------------------------------------
  // valueInUSD and priceInUSD
  // ---------------------------------------------------------------------------

  /**
   * `priceInUSD` fails with the exponent factor's error when that fails, with a
   * division by zero when the factor times the amount is zero, and otherwise
   * returns the price that values `amount` units at `totalValue`.
   */
  lemma PriceInUSDOutcome(lib: Library, amount: int, totalValue: real, e: nat)
    ensures lib.exponentFactor(e, UsdExponent).Err? ==>
      PriceInUSD(lib, amount, totalValue, e) == Err(Collaborator(lib.exponentFactor(e, UsdExponent).error))
    ensures lib.exponentFactor(e, UsdExponent).Ok? ==>
      (PriceInUSD(lib, amount, totalValue, e).Err? <==> lib.exponentFactor(e, UsdExponent).value * amount as real == 0.0)
    ensures lib.exponentFactor(e, UsdExponent).Ok? && PriceInUSD(lib, amount, totalValue, e).Err? ==>
      PriceInUSD(lib, amount, totalValue, e).error == DivisionByZero
    ensures PriceInUSD(lib, amount, totalValue, e).Ok? ==>
      PriceInUSD(lib, amount, totalValue, e).value * (lib.exponentFactor(e, UsdExponent).value * amount as real) == totalValue
  {
  }

  /** Valuing at a price that `priceInUSD` returned gives back the total it was computed from. */
  lemma ValueOfPrice(lib: Library, amount: int, totalValue: real, e: nat)
    requires PriceInUSD(lib, amount, totalValue, e).Ok?
    ensures ValueInUSD(lib, amount, PriceInUSD(lib, amount, totalValue, e).value, e) == Ok(totalValue)
  {
    var f := lib.exponentFactor(e, UsdExponent).value;
    var p := PriceInUSD(lib, amount, totalValue, e).value;
    assert p * (f * amount as real) == totalValue;
    var v := ValueInUSD(lib, amount, p, e);
    assert v.value == f * amount as real * p == totalValue;
    assert v == Ok(v.value);
  }

  /** Pricing the value of `amount` units at `price` gives back `price`, for a non-zero factor and amount. */
  lemma PriceOfValue(lib: Library, amount: int, price: real, e: nat)
    requires lib.exponentFactor(e, UsdExponent).Ok?
    requires lib.exponentFactor(e, UsdExponent).value != 0.0 && amount != 0
    ensures ValueInUSD(lib, amount, price, e).Ok?
    ensures PriceInUSD(lib, amount, ValueInUSD(lib, amount, price, e).value, e) == Ok(price)
  {
    var f := lib.exponentFactor(e, UsdExponent).value;
    var d := f * amount as real;
    assert d != 0.0;
    var v := ValueInUSD(lib, amount, price, e).value;
    assert v == d * price;
    var q := PriceInUSD(lib, amount, v, e);
    assert q.Ok? && q.value * d == d * price;
    assert q.value == price;
    assert q == Ok(q.value);
  }

  // ---------------------------------------------------------------------------
  // One asset of the valuation loop
  // ---------------------------------------------------------------------------

  /**
   * One accepted asset is valued exactly when it has settings, a latest price
   * and, once meTokens are minted, a balance and an exponent factor. Its entry
   * carries its denom, symbol, exponent and latest price; it adds its price
   * (no meToken minted) or the USD value of its available supply. The errors
   * come in the order the source checks them.
   */
  lemma AssetStepOutcome(snap: Snapshot, lib: Library, supply: IndexBalances, denom: Denom)
    ensures AssetStep(snap, lib, supply, denom).Ok? <==>
      && denom in snap.tokenSettings
      && LatestPriceOf(snap.medians, snap.tokenSettings[denom].symbolDenom).Ok?
      && (supply.metokenSupply != 0 ==>
            denom in supply.availableSupply && lib.exponentFactor(snap.tokenSettings[denom].exponent, UsdExponent).Ok?)
    ensures AssetStep(snap, lib, supply, denom).Ok? ==>
      var settings := snap.tokenSettings[denom];
      var ap := AssetStep(snap, lib, supply, denom).value.0;
      && ap.baseDenom == denom
      && ap.symbolDenom == settings.symbolDenom
      && ap.exponent == settings.exponent
      && LatestPriceOf(snap.medians, settings.symbolDenom) == Ok(ap.price)
      && (supply.metokenSupply == 0 ==> AssetStep(snap, lib, supply, denom).value.1 == ap.price)
      && (supply.metokenSupply != 0 ==>
            ValueInUSD(lib, supply.availableSupply[denom], ap.price, ap.exponent) == Ok(AssetStep(snap, lib, supply, denom).value.1))
    ensures denom !in snap.tokenSettings ==> AssetStep(snap, lib, supply, denom) == Err(TokenSettingsNotFound(denom))
    ensures denom in snap.tokenSettings && LatestPriceOf(snap.medians, snap.tokenSettings[denom].symbolDenom).Err? ==>
      AssetStep(snap, lib, supply, denom) == Err(PriceNotFound(snap.tokenSettings[denom].symbolDenom))
    ensures (&& denom in snap.tokenSettings
             && LatestPriceOf(snap.medians, snap.tokenSettings[denom].symbolDenom).Ok?
             && supply.metokenSupply != 0
             && denom !in supply.availableSupply)
      ==> AssetStep(snap, lib, supply, denom) == Err(BalanceNotFound(denom))
    ensures (&& denom in snap.tokenSettings
             && LatestPriceOf(snap.medians, snap.tokenSettings[denom].symbolDenom).Ok?
             && supply.metokenSupply != 0
             && denom in supply.availableSupply
             && lib.exponentFactor(snap.tokenSettings[denom].exponent, UsdExponent).Err?)
      ==> AssetStep(snap, lib, supply, denom)
          == Err(Collaborator(lib.exponentFactor(snap.tokenSettings[denom].exponent, UsdExponent).error))
  {
  }

  // ---------------------------------------------------------------------------
  // The valuation loop
  // ---------------------------------------------------------------------------

  /** The sum of the entries' prices. */
  function SumPrices(assets: seq<AssetPrice>): real {
    if |assets| == 0 then 0.0 else SumPrices(assets[..|assets| - 1]) + assets[|assets| - 1].price
  }

  /** Every entry has a reserve balance and an exponent factor to USD. */
  ghost predicate Valued(lib: Library, supply: IndexBalances, assets: seq<AssetPrice>) {
    forall i :: 0 <= i < |assets| ==>
      assets[i].baseDenom in supply.availableSupply && lib.exponentFactor(assets[i].exponent, UsdExponent).Ok?
  }

  /** The USD value of an entry's available reserve at its price: `ExponentFactor(exp, 0) × available × price`. */
  ghost function ReserveOf(lib: Library, supply: IndexBalances, a: AssetPrice): real
    requires a.baseDenom in supply.availableSupply && lib.exponentFactor(a.exponent, UsdExponent).Ok?
  {
    lib.exponentFactor(a.exponent, UsdExponent).value * supply.availableSupply[a.baseDenom] as real * a.price
  }

  /** The USD value of the available reserves of the entries' assets at the entries' prices. */
  ghost function ReserveValue(lib: Library, supply: IndexBalances, assets: seq<AssetPrice>): real
    requires Valued(lib, supply, assets)
  {
    if |assets| == 0 then 0.0
    else ReserveValue(lib, supply, assets[..|assets| - 1]) + ReserveOf(lib, supply, assets[|assets| - 1])
  }

  /** Two entry lists that agree on every asset, exponent and price (they may differ in rates). */
  ghost predicate SamePricing(a: seq<AssetPrice>, b: seq<AssetPrice>) {
    && |a| == |b|
    && forall i :: 0 <= i < |a| ==>
         a[i].baseDenom == b[i].baseDenom && a[i].exponent == b[i].exponent && a[i].price == b[i].price
  }

  /** Sums over entries depend only on their assets, exponents and prices. */
  lemma {:induction false} SamePricingSums(lib: Library, supply: IndexBalances, a: seq<AssetPrice>, b: seq<AssetPrice>)
    requires SamePricing(a, b)
    ensures SumPrices(a) == SumPrices(b)
    ensures Valued(lib, supply, a) <==> Valued(lib, supply, b)
    ensures Valued(lib, supply, a) ==> ReserveValue(lib, supply, a) == ReserveValue(lib, supply, b)
  {
    if |a| > 0 {
      var n := |a| - 1;
      assert SamePricing(a[..n], b[..n]);
      SamePricingSums(lib, supply, a[..n], b[..n]);
    }
  }

  /**
   * After n assets the index prices keep the index's denom and exponent and a
   * zero price, and hold one entry per accepted asset so far, in order.
   */
  lemma {:induction false} AccumulateEntries(index: Index, snap: Snapshot, lib: Library, supply: IndexBalances, n: nat)
    requires NoDuplicates(index.acceptedAssets)
    requires n <= |index.acceptedAssets|
    requires Accumulate(index, snap, lib, supply, n).Ok?
    ensures var ip := Accumulate(index, snap, lib, supply, n).value.indexPrices;
      && ip.denom == index.denom && ip.price == 0.0 && ip.exponent == index.exponent
      && |ip.assets| == n
      && forall j :: 0 <= j < n ==>
           AssetStep(snap, lib, supply, index.acceptedAssets[j]).Ok? &&
           ip.assets[j] == AssetStep(snap, lib, supply, index.acceptedAssets[j]).value.0
    decreases n, 1
  {
    if n > 0 {
      AccumulateEntries(index, snap, lib, supply, n - 1);
      AccumulateAppends(index, snap, lib, supply, n);
    }
  }

  /**
   * Step n of the loop appends the asset's entry (its denom is new, since
   * accepted assets are distinct) and adds its value to the total.
   */
  lemma AccumulateAppends(index: Index, snap: Snapshot, lib: Library, supply: IndexBalances, n: nat)
    requires NoDuplicates(index.acceptedAssets)
    requires 0 < n <= |index.acceptedAssets|
    requires Accumulate(index, snap, lib, supply, n).Ok?
    ensures Accumulate(index, snap, lib, supply, n - 1).Ok?
    ensures AssetStep(snap, lib, supply, index.acceptedAssets[n - 1]).Ok?
    ensures var before := Accumulate(index, snap, lib, supply, n - 1).value;
      var after := Accumulate(index, snap, lib, supply, n).value;
      var step := AssetStep(snap, lib, supply, index.acceptedAssets[n - 1]).value;
      && after.indexPrices == before.indexPrices.(assets := before.indexPrices.assets + [step.0])
      && after.total == before.total + step.1
    decreases n, 0
  {
    var denom := index.acceptedAssets[n - 1];
    var before := Accumulate(index, snap, lib, supply, n - 1).value;
    var step := AssetStep(snap, lib, supply, denom).value;
    AccumulateEntries(index, snap, lib, supply, n - 1);
    AssetStepOutcome(snap, lib, supply, denom);
    assert !HasBase(before.indexPrices.assets, step.0.baseDenom) by {
      forall j | 0 <= j < |before.indexPrices.assets|
        ensures before.indexPrices.assets[j].baseDenom != denom
      {
        AssetStepOutcome(snap, lib, supply, index.acceptedAssets[j]);
      }
    }
    SetPriceRecords(before.indexPrices, step.0);
  }

  /** Appending an entry adds its price to the sum of prices. */
  lemma SumPricesAppend(assets: seq<AssetPrice>, a: AssetPrice)
    ensures SumPrices(assets + [a]) == SumPrices(assets) + a.price
  {
  }

  /** Appending a valued entry adds the USD value of its reserve to the reserve value. */
  lemma ReserveValueAppend(lib: Library, supply: IndexBalances, assets: seq<AssetPrice>, a: AssetPrice)
    requires Valued(lib, supply, assets)
    requires a.baseDenom in supply.availableSupply && lib.exponentFactor(a.exponent, UsdExponent).Ok?
    ensures Valued(lib, supply, assets + [a])
    ensures ReserveValue(lib, supply, assets + [a]) == ReserveValue(lib, supply, assets) + ReserveOf(lib, supply, a)
  {
    assert (assets + [a])[..|assets|] == assets;
  }

  /** Once meTokens are minted, a valued asset adds the USD value of its available reserve. */
  lemma MintedStep(snap: Snapshot, lib: Library, supply: IndexBalances, denom: Denom)
    requires supply.metokenSupply != 0
    requires AssetStep(snap, lib, supply, denom).Ok?
    ensures var (ap, value) := AssetStep(snap, lib, supply, denom).value;
      && ap.baseDenom in supply.availableSupply
      && lib.exponentFactor(ap.exponent, UsdExponent).Ok?
      && value == ReserveOf(lib, supply, ap)
  {
    AssetStepOutcome(snap, lib, supply, denom);
    var (ap, value) := AssetStep(snap, lib, supply, denom).value;
    var v := ValueInUSD(lib, supply.availableSupply[ap.baseDenom], ap.price, ap.exponent);
    assert v == Ok(value);
    assert v.value == lib.exponentFactor(ap.exponent, UsdExponent).value * supply.availableSupply[ap.baseDenom] as real * ap.price;
  }

  /** Before any mint the loop's total is the sum of the entries' prices. */
  lemma {:induction false} UnmintedTotal(index: Index, snap: Snapshot, lib: Library, supply: IndexBalances, n: nat)
    requires NoDuplicates(index.acceptedAssets)
    requires supply.metokenSupply == 0
    requires n <= |index.acceptedAssets|
    requires Accumulate(index, snap, lib, supply, n).Ok?
    ensures Accumulate(index, snap, lib, supply, n).value.total
         == SumPrices(Accumulate(index, snap, lib, supply, n).value.indexPrices.assets)
  {
    if n > 0 {
      UnmintedTotal(index, snap, lib, supply, n - 1);
      AccumulateAppends(index, snap, lib, supply, n);
      AssetStepOutcome(snap, lib, supply, index.acceptedAssets[n - 1]);
      SumPricesAppend(Accumulate(index, snap, lib, supply, n - 1).value.indexPrices.assets,
                      AssetStep(snap, lib, supply, index.acceptedAssets[n - 1]).value.0);
    }
  }

  /** Once meTokens are minted the loop's total is the USD value of the entries' available reserves. */
  lemma {:induction false} MintedTotal(index: Index, snap: Snapshot, lib: Library, supply: IndexBalances, n: nat)
    requires NoDuplicates(index.acceptedAssets)
    requires supply.metokenSupply != 0
    requires n <= |index.acceptedAssets|
    requires Accumulate(index, snap, lib, supply, n).Ok?
    ensures Valued(lib, supply, Accumulate(index, snap, lib, supply, n).value.indexPrices.assets)
    ensures Accumulate(index, snap, lib, supply, n).value.total
         == ReserveValue(lib, supply, Accumulate(index, snap, lib, supply, n).value.indexPrices.assets)
  {
    if n > 0 {
      var before := Accumulate(index, snap, lib, supply, n - 1).value;
      var step := AssetStep(snap, lib, supply, index.acceptedAssets[n - 1]).value;
      MintedTotal(index, snap, lib, supply, n - 1);
      AccumulateAppends(index, snap, lib, supply, n);
      MintedStep(snap, lib, supply, index.acceptedAssets[n - 1]);
      ReserveValueAppend(lib, supply, before.indexPrices.assets, step.0);
    }
  }

  // ---------------------------------------------------------------------------
  // Prices
  // ---------------------------------------------------------------------------

  /**
   * The accepted assets are valued in order and the first one that fails
   * aborts `Prices` with its error.
   */
  lemma FirstFailingAssetAborts(index: Index, snap: Snapshot, lib: Library, j: nat)
    requires index.denom in snap.indexBalances
    requires j < |index.acceptedAssets|
    requires forall i :: 0 <= i < j ==>
      AssetStep(snap, lib, snap.indexBalances[index.denom], index.acceptedAssets[i]).Ok?
    requires AssetStep(snap, lib, snap.indexBalances[index.denom], index.acceptedAssets[j]).Err?
    ensures Valuation(index, snap, lib) == Err(AssetStep(snap, lib, snap.indexBalances[index.denom], index.acceptedAssets[j]).error)
  {
    AccumulateOutcome(index, snap, lib, snap.indexBalances[index.denom], |index.acceptedAssets|);
  }

  /**
   * Once every accepted asset is valued, a failure to price the meToken aborts
   * `Prices` with its error, and so does the first entry whose swap or redeem
   * rate fails.
   */
  lemma LaterFailuresAbort(index: Index, snap: Snapshot, lib: Library)
    requires index.denom in snap.indexBalances
    requires Accumulate(index, snap, lib, snap.indexBalances[index.denom], |index.acceptedAssets|).Ok?
    ensures var acc := Accumulate(index, snap, lib, snap.indexBalances[index.denom], |index.acceptedAssets|).value;
      var price := IndexPrice(index, lib, snap.indexBalances[index.denom], acc.total);
      && (price.Err? ==> Valuation(index, snap, lib) == Err(price.error))
      && (price.Ok? ==>
            forall j ::
              (&& 0 <= j < |acc.indexPrices.assets|
               && WithRates(lib, acc.indexPrices.assets[j], price.value, acc.indexPrices.exponent).Err?
               && forall i :: 0 <= i < j ==> WithRates(lib, acc.indexPrices.assets[i], price.value, acc.indexPrices.exponent).Ok?)
              ==> Valuation(index, snap, lib) == Err(WithRates(lib, acc.indexPrices.assets[j], price.value, acc.indexPrices.exponent).error))
  {
    var acc := Accumulate(index, snap, lib, snap.indexBalances[index.denom], |index.acceptedAssets|).value;
    var price := IndexPrice(index, lib, snap.indexBalances[index.denom], acc.total);
    if price.Ok? {
      var priced := acc.indexPrices.(price := price.value);
      FillRatesOutcome(lib, priced, |priced.assets|);
    }
  }

  /**
   * A successful `Prices` keeps the index's denom and exponent and returns one
   * entry per accepted asset, in order, with the asset's symbol and exponent
   * from its settings, its latest oracle price, and the swap and redeem rates
   * between that price and the meToken price.
   */
  lemma ValuationEntries(index: Index, snap: Snapshot, lib: Library)
    requires NoDuplicates(index.acceptedAssets)
    requires Valuation(index, snap, lib).Ok?
    ensures var ip := Valuation(index, snap, lib).value;
      && index.denom in snap.indexBalances
      && ip.denom == index.denom && ip.exponent == index.exponent
      && |ip.assets| == |index.acceptedAssets|
      && forall j :: 0 <= j < |ip.assets| ==>
           var a := ip.assets[j];
           && a.baseDenom == index.acceptedAssets[j]
           && a.baseDenom in snap.tokenSettings
           && a.symbolDenom == snap.tokenSettings[a.baseDenom].symbolDenom
           && a.exponent == snap.tokenSettings[a.baseDenom].exponent
           && LatestPriceOf(snap.medians, a.symbolDenom) == Ok(a.price)
           && lib.rate(a.price, ip.price, a.exponent, ip.exponent) == Ok(a.swapRate)
           && lib.rate(ip.price, a.price, ip.exponent, a.exponent) == Ok(a.redeemRate)
  {
    var supply := snap.indexBalances[index.denom];
    var n := |index.acceptedAssets|;
    var acc := Accumulate(index, snap, lib, supply, n).value;
    var price := IndexPrice(index, lib, supply, acc.total).value;
    var priced := acc.indexPrices.(price := price);
    AccumulateEntries(index, snap, lib, supply, n);
    FillRatesOutcome(lib, priced, |priced.assets|);
    var ip := Valuation(index, snap, lib).value;
    assert ip == priced.(assets := FillRates(lib, priced, |priced.assets|).value);
    forall j | 0 <= j < |ip.assets|
      ensures ip.assets[j].baseDenom == index.acceptedAssets[j]
      ensures ip.assets[j].baseDenom in snap.tokenSettings
      ensures ip.assets[j].symbolDenom == snap.tokenSettings[ip.assets[j].baseDenom].symbolDenom
      ensures ip.assets[j].exponent == snap.tokenSettings[ip.assets[j].baseDenom].exponent
      ensures LatestPriceOf(snap.medians, ip.assets[j].symbolDenom) == Ok(ip.assets[j].price)
      ensures lib.rate(ip.assets[j].price, ip.price, ip.assets[j].exponent, ip.exponent) == Ok(ip.assets[j].swapRate)
      ensures lib.rate(ip.price, ip.assets[j].price, ip.exponent, ip.assets[j].exponent) == Ok(ip.assets[j].redeemRate)
    {
      AssetStepOutcome(snap, lib, supply, index.acceptedAssets[j]);
    }
  }

  /** The rates step changes no entry's asset, exponent or price, nor the meToken price. */
  lemma ValuationPricing(index: Index, snap: Snapshot, lib: Library)
    requires Valuation(index, snap, lib).Ok?
    ensures var supply := snap.indexBalances[index.denom];
      && Accumulate(index, snap, lib, supply, |index.acceptedAssets|).Ok?
      && var acc := Accumulate(index, snap, lib, supply, |index.acceptedAssets|).value;
      && IndexPrice(index, lib, supply, acc.total) == Ok(Valuation(index, snap, lib).value.price)
      && SamePricing(Valuation(index, snap, lib).value.assets, acc.indexPrices.assets)
  {
    var supply := snap.indexBalances[index.denom];
    var acc := Accumulate(index, snap, lib, supply, |index.acceptedAssets|).value;
    var price := IndexPrice(index, lib, supply, acc.total).value;
    var priced := acc.indexPrices.(price := price);
    FillRatesOutcome(lib, priced, |priced.assets|);
  }

  /**
   * Before any meToken is minted, an index without accepted assets cannot be
   * priced (a division by zero), and otherwise the meToken price is the mean
   * of the accepted assets' latest prices.
   */
  lemma UnmintedPriceIsMean(index: Index, snap: Snapshot, lib: Library)
    requires NoDuplicates(index.acceptedAssets)
    requires index.denom in snap.indexBalances && snap.indexBalances[index.denom].metokenSupply == 0
    ensures |index.acceptedAssets| == 0 ==> Valuation(index, snap, lib) == Err(DivisionByZero)
    ensures Valuation(index, snap, lib).Ok? ==>
      && |index.acceptedAssets| > 0
      && Valuation(index, snap, lib).value.price
         == SumPrices(Valuation(index, snap, lib).value.assets) / (|index.acceptedAssets| as real)
  {
    if Valuation(index, snap, lib).Ok? {
      var supply := snap.indexBalances[index.denom];
      var acc := Accumulate(index, snap, lib, supply, |index.acceptedAssets|).value;
      ValuationPricing(index, snap, lib);
      UnmintedTotal(index, snap, lib, supply, |index.acceptedAssets|);
      SamePricingSums(lib, supply, Valuation(index, snap, lib).value.assets, acc.indexPrices.assets);
    }
  }

  /**
   * Once meTokens are minted, every entry has a reserve balance and an
   * exponent factor, and the meToken supply valued at the meToken price is
   * the USD value of the reserves at the assets' prices.
   */
  lemma MintedPriceIsValuePerToken(index: Index, snap: Snapshot, lib: Library)
    requires NoDuplicates(index.acceptedAssets)
    requires index.denom in snap.indexBalances && snap.indexBalances[index.denom].metokenSupply != 0
    requires Valuation(index, snap, lib).Ok?
    ensures var supply := snap.indexBalances[index.denom];
      var ip := Valuation(index, snap, lib).value;
      && Valued(lib, supply, ip.assets)
      && lib.exponentFactor(index.exponent, UsdExponent).Ok?
      && ip.price * (lib.exponentFactor(index.exponent, UsdExponent).value * supply.metokenSupply as real)
         == ReserveValue(lib, supply, ip.assets)
      && ValueInUSD(lib, supply.metokenSupply, ip.price, index.exponent) == Ok(ReserveValue(lib, supply, ip.assets))
  {
    var supply := snap.indexBalances[index.denom];
    var acc := Accumulate(index, snap, lib, supply, |index.acceptedAssets|).value;
    var ip := Valuation(index, snap, lib).value;
    ValuationPricing(index, snap, lib);
    MintedTotal(index, snap, lib, supply, |index.acceptedAssets|);
    SamePricingSums(lib, supply, ip.assets, acc.indexPrices.assets);
    PriceInUSDOutcome(lib, supply.metokenSupply, acc.total, index.exponent);
    ValueOfPrice(lib, supply.metokenSupply, acc.total, index.exponent);
  }

  /** Before any mint the loop reads no reserve balance: any two unminted balances give the same result. */
  lemma {:induction false} UnmintedAccumulateIgnoresBalances(index: Index, snap: Snapshot, other: Snapshot, lib: Library,
                                                             supply: IndexBalances, balances: IndexBalances, n: nat)
    requires snap.tokenSettings == other.tokenSettings && snap.medians == other.medians
    requires supply.metokenSupply == 0 && balances.metokenSupply == 0
    requires n <= |index.acceptedAssets|
    ensures Accumulate(index, snap, lib, supply, n) == Accumulate(index, other, lib, balances, n)
  {
    if n > 0 {
      UnmintedAccumulateIgnoresBalances(index, snap, other, lib, supply, balances, n - 1);
      assert AssetStep(snap, lib, supply, index.acceptedAssets[n - 1])
          == AssetStep(other, lib, balances, index.acceptedAssets[n - 1]);
    }
  }

  /** Before any mint `Prices` does not depend on the index's reserve balances. */
  lemma UnmintedIgnoresBalances(index: Index, snap: Snapshot, lib: Library, balances: IndexBalances)
    requires index.denom in snap.indexBalances
    requires snap.indexBalances[index.denom].metokenSupply == 0 && balances.metokenSupply == 0
    ensures Valuation(index, snap, lib)
         == Valuation(index, snap.(indexBalances := snap.indexBalances[index.denom := balances]), lib)
  {
    var other := snap.(indexBalances := snap.indexBalances[index.denom := balances]);
    UnmintedAccumulateIgnoresBalances(index, snap, other, lib, snap.indexBalances[index.denom], balances,
                                      |index.acceptedAssets|);
  }
}
