/**
 * The meToken keeper's pricing (x/metoken/keeper/price.go): the freshest
 * oracle median per symbol, USD value and price conversions, and `Prices`,
 * which values an index and fills in every accepted asset's swap and redeem
 * rates. The keeper's stores are read through a `Snapshot`.
 *
 * Each loop of the source is a method proved equal to a function of the same
 * inputs; the facts the methods need about those functions are lemmas here,
 * the properties of the valuation are in module KeeperProofs.
 */
module Keeper {
  import opened Wrappers
  import opened Metoken

  /**
   * What `Prices` reads from the keepers: the index balances store (by meToken
   * denom), the leverage token settings (by asset denom) and the oracle's
   * list of median prices.
   */
  datatype Snapshot = Snapshot(
    indexBalances: map<Denom, IndexBalances>,
    tokenSettings: map<Denom, TokenSettings>,
    medians: seq<OraclePrice>)

  /** The state of the valuation loop: the index prices built so far and the USD total. */
  datatype Tally = Tally(indexPrices: IndexPrices, total: real)

  /** `otypes.Price{}`: the zero observation the search for the latest price starts from. */
  const NoPrice := OraclePrice("", 0.0, 0)

  // ---------------------------------------------------------------------------
  // latestPrice
  // ---------------------------------------------------------------------------

  /**
   * Entry k is the one `latestPrice` keeps after scanning the first n entries:
   * it has the symbol, a non-zero block number that no matching entry exceeds,
   * and every earlier matching entry is strictly older (the first one wins a tie).
   */
  ghost predicate IsFreshest(prices: seq<OraclePrice>, symbol: Denom, k: int, n: int) {
    && 0 <= k < n <= |prices|
    && prices[k].denom == symbol
    && prices[k].blockNum > 0
    && (forall j :: 0 <= j < n && prices[j].denom == symbol ==> prices[j].blockNum <= prices[k].blockNum)
    && (forall j :: 0 <= j < k && prices[j].denom == symbol ==> prices[j].blockNum < prices[k].blockNum)
  }

  /** The position of the entry `latestPrice` holds after the first n iterations, if any. */
  function Freshest(prices: seq<OraclePrice>, symbol: Denom, n: nat): (r: Option<nat>)
    requires n <= |prices|
    ensures r.Some? ==> r.value < n
  {
    if n == 0 then None
    else
      var previous := Freshest(prices, symbol, n - 1);
      var latest := if previous.Some? then prices[previous.value].blockNum else 0;
      if prices[n - 1].denom == symbol && prices[n - 1].blockNum > latest then Some(n - 1) else previous
  }

  /**
   * The scan keeps nothing exactly when every matching entry was recorded at
   * block 0, and otherwise keeps the freshest matching entry, the first on a tie.
   */
  lemma {:induction false} FreshestSelects(prices: seq<OraclePrice>, symbol: Denom, n: nat)
    requires n <= |prices|
    ensures Freshest(prices, symbol, n).None? <==>
      forall j :: 0 <= j < n && prices[j].denom == symbol ==> prices[j].blockNum == 0
    ensures Freshest(prices, symbol, n).Some? ==> IsFreshest(prices, symbol, Freshest(prices, symbol, n).value, n)
  {
    if n > 0 {
      FreshestSelects(prices, symbol, n - 1);
    }
  }

  /** The result of `latestPrice`: the kept entry's exchange rate, or an error when none is kept. */
  function LatestPriceOf(prices: seq<OraclePrice>, symbol: Denom): Result<real, Error> {
    match Freshest(prices, symbol, |prices|)
    case None => Err(PriceNotFound(symbol))
    case Some(k) => Ok(prices[k].exchangeRate)
  }

  /** `latestPrice`: scans the medians, keeping the matching entry with the highest block number. */
  method LatestPrice(prices: seq<OraclePrice>, symbolDenom: Denom) returns (r: Result<real, Error>)
    ensures r == LatestPriceOf(prices, symbolDenom)
  {
    var latestPrice := NoPrice;
    for i := 0 to |prices|
      invariant latestPrice == match Freshest(prices, symbolDenom, i) case None => NoPrice case Some(k) => prices[k]
    {
      var price := prices[i];
      if price.denom == symbolDenom && price.blockNum > latestPrice.blockNum {
        latestPrice := price;
      }
    }
    FreshestSelects(prices, symbolDenom, |prices|);
    if latestPrice.blockNum == 0 {
      return Err(PriceNotFound(symbolDenom));
    }
    return Ok(latestPrice.exchangeRate);
  }

  // ---------------------------------------------------------------------------
  // valueInUSD and priceInUSD
  // ---------------------------------------------------------------------------

  /** `valueInUSD`: the USD value of `amount` base units of an asset at `assetPrice`. */
  function ValueInUSD(lib: Library, amount: int, assetPrice: real, assetExponent: nat): Result<real, Error> {
    match lib.exponentFactor(assetExponent, UsdExponent)
    case Err(reason) => Err(Collaborator(reason))
    case Ok(factor) => Ok(factor * amount as real * assetPrice)
  }

  /** `priceInUSD`: the USD price of one unit when `amount` base units are worth `totalValue`. */
  function PriceInUSD(lib: Library, amount: int, totalValue: real, assetExponent: nat): Result<real, Error> {
    match lib.exponentFactor(assetExponent, UsdExponent)
    case Err(reason) => Err(Collaborator(reason))
    case Ok(factor) => Quo(totalValue, factor * amount as real)
  }

  // ---------------------------------------------------------------------------
  // Prices: the valuation loop
  // ---------------------------------------------------------------------------

  /** An accepted asset's price entry: its settings looked up, its latest price resolved. */
  function ResolveAsset(snap: Snapshot, denom: Denom): Result<AssetPrice, Error> {
    if denom !in snap.tokenSettings then Err(TokenSettingsNotFound(denom))
    else
      var settings := snap.tokenSettings[denom];
      match LatestPriceOf(snap.medians, settings.symbolDenom)
      case Err(e) => Err(e)
      case Ok(price) => Ok(AssetPrice(denom, settings.symbolDenom, price, settings.exponent, 0.0, 0.0))
  }

  /** What an asset adds to the total: its price before any mint, its reserve value after. */
  function Contribution(lib: Library, supply: IndexBalances, ap: AssetPrice): Result<real, Error> {
    if supply.metokenSupply == 0 then Ok(ap.price)
    else if ap.baseDenom !in supply.availableSupply then Err(BalanceNotFound(ap.baseDenom))
    else ValueInUSD(lib, supply.availableSupply[ap.baseDenom], ap.price, ap.exponent)
  }

  /** One iteration of the valuation loop: the asset's price entry and what it adds to the total. */
  function AssetStep(snap: Snapshot, lib: Library, supply: IndexBalances, denom: Denom): Result<(AssetPrice, real), Error> {
    match ResolveAsset(snap, denom)
    case Err(e) => Err(e)
    case Ok(ap) =>
      match Contribution(lib, supply, ap)
      case Err(e) => Err(e)
      case Ok(value) => Ok((ap, value))
  }

  /**
   * The index prices and the accumulated USD total after the first n accepted
   * assets, or the error of the first asset that fails.
   */
  function Accumulate(index: Index, snap: Snapshot, lib: Library, supply: IndexBalances, n: nat): Result<Tally, Error>
    requires n <= |index.acceptedAssets|
  {
    if n == 0 then Ok(Tally(EmptyIndexPrices(index), 0.0))
    else
      match Accumulate(index, snap, lib, supply, n - 1)
      case Err(e) => Err(e)
      case Ok(acc) =>
        match AssetStep(snap, lib, supply, index.acceptedAssets[n - 1])
        case Err(e) => Err(e)
        case Ok(step) => Ok(Tally(SetPrice(acc.indexPrices, step.0), acc.total + step.1))
  }

  /** The valuation loop over the first n accepted assets succeeds exactly when each of them succeeds. */
  lemma {:induction false} AccumulateSucceeds(index: Index, snap: Snapshot, lib: Library, supply: IndexBalances, n: nat)
    requires n <= |index.acceptedAssets|
    ensures Accumulate(index, snap, lib, supply, n).Ok? <==>
      forall j :: 0 <= j < n ==> AssetStep(snap, lib, supply, index.acceptedAssets[j]).Ok?
  {
    if n > 0 {
      AccumulateSucceeds(index, snap, lib, supply, n - 1);
    }
  }

  /** The valuation loop over the first n accepted assets fails with the error of the first one that fails. */
  lemma {:induction false} AccumulateFirstFailure(index: Index, snap: Snapshot, lib: Library, supply: IndexBalances, n: nat, j: nat)
    requires j < n <= |index.acceptedAssets|
    requires AssetStep(snap, lib, supply, index.acceptedAssets[j]).Err?
    requires forall i :: 0 <= i < j ==> AssetStep(snap, lib, supply, index.acceptedAssets[i]).Ok?
    ensures Accumulate(index, snap, lib, supply, n) == Err(AssetStep(snap, lib, supply, index.acceptedAssets[j]).error)
  {
    if j < n - 1 {
      AccumulateFirstFailure(index, snap, lib, supply, n - 1, j);
    } else {
      AccumulateSucceeds(index, snap, lib, supply, n - 1);
    }
  }

  /**
   * The valuation loop over the first n accepted assets succeeds exactly when
   * every one of them succeeds, and otherwise fails with the error of the
   * first asset that fails.
   */
  lemma AccumulateOutcome(index: Index, snap: Snapshot, lib: Library, supply: IndexBalances, n: nat)
    requires n <= |index.acceptedAssets|
    ensures Accumulate(index, snap, lib, supply, n).Ok? <==>
      forall j :: 0 <= j < n ==> AssetStep(snap, lib, supply, index.acceptedAssets[j]).Ok?
    ensures forall j ::
      (0 <= j < n && AssetStep(snap, lib, supply, index.acceptedAssets[j]).Err? &&
       forall i :: 0 <= i < j ==> AssetStep(snap, lib, supply, index.acceptedAssets[i]).Ok?)
      ==> Accumulate(index, snap, lib, supply, n) == Err(AssetStep(snap, lib, supply, index.acceptedAssets[j]).error)
  {
    AccumulateSucceeds(index, snap, lib, supply, n);
    forall j | 0 <= j < n && AssetStep(snap, lib, supply, index.acceptedAssets[j]).Err? &&
               forall i :: 0 <= i < j ==> AssetStep(snap, lib, supply, index.acceptedAssets[i]).Ok?
      ensures Accumulate(index, snap, lib, supply, n) == Err(AssetStep(snap, lib, supply, index.acceptedAssets[j]).error)
    {
      AccumulateFirstFailure(index, snap, lib, supply, n, j);
    }
  }

  /** One iteration of the valuation loop: a failing asset ends it with its error, a valued one is recorded. */
  lemma Advance(index: Index, snap: Snapshot, lib: Library, supply: IndexBalances, i: nat,
                tally: Tally, step: Result<(AssetPrice, real), Error>)
    requires i < |index.acceptedAssets|
    requires Accumulate(index, snap, lib, supply, i) == Ok(tally)
    requires step == AssetStep(snap, lib, supply, index.acceptedAssets[i])
    ensures step.Err? ==> Accumulate(index, snap, lib, supply, |index.acceptedAssets|) == Err(step.error)
    ensures step.Ok? ==>
      Accumulate(index, snap, lib, supply, i + 1)
      == Ok(Tally(SetPrice(tally.indexPrices, step.value.0), tally.total + step.value.1))
  {
    if step.Err? {
      AccumulateOutcome(index, snap, lib, supply, i);
      AccumulateOutcome(index, snap, lib, supply, |index.acceptedAssets|);
    }
  }

  /**
   * The body of the loop of `Keeper.Prices` for one accepted asset: looks up its
   * settings and latest price, and values it at its price (no meToken minted)
   * or at the USD value of its available reserve (otherwise).
   */
  method ValueAsset(snap: Snapshot, lib: Library, supply: IndexBalances, denom: Denom)
    returns (r: Result<(AssetPrice, real), Error>)
    ensures r == AssetStep(snap, lib, supply, denom)
  {
    if denom !in snap.tokenSettings {
      return Err(TokenSettingsNotFound(denom));
    }
    var tokenSettings := snap.tokenSettings[denom];
    var assetPrice := LatestPrice(snap.medians, tokenSettings.symbolDenom);
    if assetPrice.Err? {
      return Err(assetPrice.error);
    }
    var ap := AssetPrice(denom, tokenSettings.symbolDenom, assetPrice.value, tokenSettings.exponent, 0.0, 0.0);
    if supply.metokenSupply == 0 {
      return Ok((ap, assetPrice.value));
    }
    if denom !in supply.availableSupply {
      return Err(BalanceNotFound(denom));
    }
    var assetUSDValue := ValueInUSD(lib, supply.availableSupply[denom], assetPrice.value, tokenSettings.exponent);
    if assetUSDValue.Err? {
      return Err(assetUSDValue.error);
    }
    return Ok((ap, assetUSDValue.value));
  }

  /**
   * The loop of `Keeper.Prices` over the accepted assets: records each asset's
   * price entry and adds its value to the USD total, stopping at the first
   * asset that fails.
   */
  method AccumulateAssets(index: Index, snap: Snapshot, lib: Library, supply: IndexBalances)
    returns (r: Result<Tally, Error>)
    ensures r == Accumulate(index, snap, lib, supply, |index.acceptedAssets|)
  {
    var indexPrices := EmptyIndexPrices(index);
    var totalAssetsUSDValue := 0.0;
    for i := 0 to |index.acceptedAssets|
      invariant Accumulate(index, snap, lib, supply, i) == Ok(Tally(indexPrices, totalAssetsUSDValue))
    {
      var step := ValueAsset(snap, lib, supply, index.acceptedAssets[i]);
      Advance(index, snap, lib, supply, i, Tally(indexPrices, totalAssetsUSDValue), step);
      if step.Err? {
        return Err(step.error);
      }
      var (ap, assetUSDValue) := step.value;
      indexPrices := SetPrice(indexPrices, ap);
      totalAssetsUSDValue := totalAssetsUSDValue + assetUSDValue;
    }
    return Ok(Tally(indexPrices, totalAssetsUSDValue));
  }

  // ---------------------------------------------------------------------------
  // Prices: the index price and the rates
  // ---------------------------------------------------------------------------

  /** The meToken price: the mean price before any mint, the USD value per meToken after. */
  function IndexPrice(index: Index, lib: Library, supply: IndexBalances, total: real): Result<real, Error> {
    if supply.metokenSupply == 0 then Quo(total, |index.acceptedAssets| as real)
    else PriceInUSD(lib, supply.metokenSupply, total, index.exponent)
  }

  /** An asset entry with its swap rate (asset to meToken) and redeem rate (meToken to asset). */
  function WithRates(lib: Library, a: AssetPrice, indexPrice: real, indexExponent: nat): Result<AssetPrice, Error> {
    match lib.rate(a.price, indexPrice, a.exponent, indexExponent)
    case Err(reason) => Err(Collaborator(reason))
    case Ok(swapRate) =>
      match lib.rate(indexPrice, a.price, indexExponent, a.exponent)
      case Err(reason) => Err(Collaborator(reason))
      case Ok(redeemRate) => Ok(a.(swapRate := swapRate, redeemRate := redeemRate))
  }

  /** The assets after rates are filled into the first n entries, or the first failing entry's error. */
  function FillRates(lib: Library, ip: IndexPrices, n: nat): (r: Result<seq<AssetPrice>, Error>)
    requires n <= |ip.assets|
    ensures r.Ok? ==> |r.value| == |ip.assets|
  {
    if n == 0 then Ok(ip.assets)
    else
      match FillRates(lib, ip, n - 1)
      case Err(e) => Err(e)
      case Ok(filled) =>
        match WithRates(lib, ip.assets[n - 1], ip.price, ip.exponent)
        case Err(e) => Err(e)
        case Ok(a) => Ok(filled[n - 1 := a])
  }

  /**
   * Filling the first n entries succeeds exactly when each of them gets both
   * rates; it then replaces those entries by their rated form and keeps the
   * rest, and otherwise fails with the error of the first entry that fails.
   */
  lemma {:induction false} FillRatesOutcome(lib: Library, ip: IndexPrices, n: nat)
    requires n <= |ip.assets|
    ensures FillRates(lib, ip, n).Ok? <==>
      forall j :: 0 <= j < n ==> WithRates(lib, ip.assets[j], ip.price, ip.exponent).Ok?
    ensures FillRates(lib, ip, n).Ok? ==>
      && (forall j :: 0 <= j < n ==> FillRates(lib, ip, n).value[j] == WithRates(lib, ip.assets[j], ip.price, ip.exponent).value)
      && (forall j :: n <= j < |ip.assets| ==> FillRates(lib, ip, n).value[j] == ip.assets[j])
    ensures forall j ::
      (0 <= j < n && WithRates(lib, ip.assets[j], ip.price, ip.exponent).Err? &&
       forall i :: 0 <= i < j ==> WithRates(lib, ip.assets[i], ip.price, ip.exponent).Ok?)
      ==> FillRates(lib, ip, n) == Err(WithRates(lib, ip.assets[j], ip.price, ip.exponent).error)
  {
    if n > 0 {
      FillRatesOutcome(lib, ip, n - 1);
    }
  }

  /** One iteration of the rate loop: a failing entry ends it with its error, a rated one replaces entry i. */
  lemma RateAdvance(lib: Library, ip: IndexPrices, i: nat, assets: seq<AssetPrice>, a: Result<AssetPrice, Error>)
    requires i < |ip.assets|
    requires FillRates(lib, ip, i) == Ok(assets)
    requires a == WithRates(lib, ip.assets[i], ip.price, ip.exponent)
    ensures |assets| == |ip.assets| && assets[i] == ip.assets[i]
    ensures a.Err? ==> FillRates(lib, ip, |ip.assets|) == Err(a.error)
    ensures a.Ok? ==> FillRates(lib, ip, i + 1) == Ok(assets[i := a.value])
  {
    FillRatesOutcome(lib, ip, i);
    if a.Err? {
      FillRatesOutcome(lib, ip, |ip.assets|);
    }
  }

  /**
   * The final loop of `Keeper.Prices`: sets each entry's swap and redeem rate
   * in place, stopping at the first rate that fails.
   */
  method SetRates(lib: Library, indexPrices: IndexPrices) returns (r: Result<seq<AssetPrice>, Error>)
    ensures r == FillRates(lib, indexPrices, |indexPrices.assets|)
  {
    var assets := indexPrices.assets;
    var i := 0;
    while i < |assets|
      invariant i <= |indexPrices.assets| == |assets|
      invariant FillRates(lib, indexPrices, i) == Ok(assets)
    {
      RateAdvance(lib, indexPrices, i, assets, WithRates(lib, indexPrices.assets[i], indexPrices.price, indexPrices.exponent));
      var asset := assets[i];
      var swapRate := lib.rate(asset.price, indexPrices.price, asset.exponent, indexPrices.exponent);
      if swapRate.Err? {
        return Err(Collaborator(swapRate.error));
      }
      var redeemRate := lib.rate(indexPrices.price, asset.price, indexPrices.exponent, asset.exponent);
      if redeemRate.Err? {
        return Err(Collaborator(redeemRate.error));
      }
      assets := assets[i := asset.(swapRate := swapRate.value, redeemRate := redeemRate.value)];
      i := i + 1;
    }
    return Ok(assets);
  }

  // ---------------------------------------------------------------------------
  // Prices
  // ---------------------------------------------------------------------------

  /** What `Prices` returns for an index, as a function of the snapshot. */
  function Valuation(index: Index, snap: Snapshot, lib: Library): Result<IndexPrices, Error> {
    if index.denom !in snap.indexBalances then Err(IndexBalancesNotFound(index.denom))
    else
      var supply := snap.indexBalances[index.denom];
      match Accumulate(index, snap, lib, supply, |index.acceptedAssets|)
      case Err(e) => Err(e)
      case Ok(acc) =>
        match IndexPrice(index, lib, supply, acc.total)
        case Err(e) => Err(e)
        case Ok(price) =>
          var priced := acc.indexPrices.(price := price);
          match FillRates(lib, priced, |priced.assets|)
          case Err(e) => Err(e)
          case Ok(assets) => Ok(priced.(assets := assets))
  }

  /** `Keeper.Prices`: the meToken price and every accepted asset's price, swap rate and redeem rate. */
  method Prices(index: Index, snap: Snapshot, lib: Library) returns (r: Result<IndexPrices, Error>)
    ensures r == Valuation(index, snap, lib)
  {
    if index.denom !in snap.indexBalances {
      return Err(IndexBalancesNotFound(index.denom));
    }
    var supply := snap.indexBalances[index.denom];

    var accumulated := AccumulateAssets(index, snap, lib, supply);
    if accumulated.Err? {
      return Err(accumulated.error);
    }
    var indexPrices := accumulated.value.indexPrices;
    var totalAssetsUSDValue := accumulated.value.total;

    if supply.metokenSupply == 0 {
      // QuoInt by the number of accepted assets
      var meTokenPrice := Quo(totalAssetsUSDValue, |index.acceptedAssets| as real);
      if meTokenPrice.Err? {
        return Err(meTokenPrice.error);
      }
      indexPrices := indexPrices.(price := meTokenPrice.value);
    } else {
      var meTokenPrice := PriceInUSD(lib, supply.metokenSupply, totalAssetsUSDValue, index.exponent);
      if meTokenPrice.Err? {
        return Err(meTokenPrice.error);
      }
      indexPrices := indexPrices.(price := meTokenPrice.value);
    }

    var assets := SetRates(lib, indexPrices);
    if assets.Err? {
      return Err(assets.error);
    }
    return Ok(indexPrices.(assets := assets.value));
  }
}
