/**
 * The meToken types the keeper works on (package `metoken`), and the
 * collaborators whose bodies are not part of this model: `ExponentFactor`
 * and `Rate` are supplied as a `Library` of total functions, and the decimal
 * division of `sdk.Dec` is exact real division whose zero divisor is an error.
 */
module Metoken {
  import opened Wrappers

  type Denom = string

  /** `usdExponent`: the exponent of the USD valuation unit. */
  const UsdExponent: nat := 0

  datatype Error =
    | IndexBalancesNotFound(indexDenom: Denom)  // the balances store has no entry for the index
    | TokenSettingsNotFound(denom: Denom)       // the leverage registry has no settings for an asset
    | PriceNotFound(symbolDenom: Denom)         // no usable oracle median for a symbol
    | BalanceNotFound(denom: Denom)             // an accepted asset has no reserve balance
    | DivisionByZero                            // a decimal division by zero (a panic in the source)
    | Collaborator(reason: string)              // an error raised by ExponentFactor or Rate

  /** An index: its meToken denom, its accepted assets in composition order, its exponent. */
  datatype Index = Index(denom: Denom, acceptedAssets: seq<Denom>, exponent: nat)

  /** The part of an asset's leverage settings that pricing uses. */
  datatype TokenSettings = TokenSettings(symbolDenom: Denom, exponent: nat)

  /** One oracle median: `ExchangeRateTuple.Denom`, `ExchangeRateTuple.ExchangeRate`, `BlockNum`. */
  datatype OraclePrice = OraclePrice(denom: Denom, exchangeRate: real, blockNum: nat)

  /** The index's minted meToken supply and each asset's available reserve supply. */
  datatype IndexBalances = IndexBalances(metokenSupply: nat, availableSupply: map<Denom, int>)

  datatype AssetPrice = AssetPrice(
    baseDenom: Denom,
    symbolDenom: Denom,
    price: real,
    exponent: nat,
    swapRate: real,
    redeemRate: real)

  datatype IndexPrices = IndexPrices(denom: Denom, price: real, exponent: nat, assets: seq<AssetPrice>)

  /**
   * `metoken.ExponentFactor(base, target)` and `metoken.Rate(fromPrice, toPrice,
   * fromExponent, toExponent)`, taken as given: each may return a value or an
   * error message, which the keeper reports as a `Collaborator` error.
   */
  datatype Library = Library(
    exponentFactor: (nat, nat) -> Result<real, string>,
    rate: (real, real, nat, nat) -> Result<real, string>)

  /** `EmptyIndexPrices`: the index's denom and exponent, a zero price and no assets yet. */
  function EmptyIndexPrices(index: Index): IndexPrices {
    IndexPrices(index.denom, 0.0, index.exponent, [])
  }

  ghost predicate HasBase(assets: seq<AssetPrice>, base: Denom) {
    exists j :: 0 <= j < |assets| && assets[j].baseDenom == base
  }

  /** Replaces the first entry with the same base denom, or appends a new one. */
  function Upsert(assets: seq<AssetPrice>, ap: AssetPrice): seq<AssetPrice> {
    if assets == [] then [ap]
    else if assets[0].baseDenom == ap.baseDenom then [ap] + assets[1..]
    else [assets[0]] + Upsert(assets[1..], ap)
  }

  /** `IndexPrices.SetPrice`: records an asset's price entry keyed by its base denom. */
  function SetPrice(ip: IndexPrices, ap: AssetPrice): IndexPrices {
    ip.(assets := Upsert(ip.assets, ap))
  }

  /**
   * SetPrice appends the entry when its base denom is new; otherwise it
   * overwrites in place, keeping the length and every entry of another denom.
   */
  lemma {:induction false} SetPriceRecords(ip: IndexPrices, ap: AssetPrice)
    ensures SetPrice(ip, ap) == ip.(assets := SetPrice(ip, ap).assets)
    ensures ap in SetPrice(ip, ap).assets
    ensures !HasBase(ip.assets, ap.baseDenom) ==> SetPrice(ip, ap).assets == ip.assets + [ap]
    ensures HasBase(ip.assets, ap.baseDenom) ==>
      && |SetPrice(ip, ap).assets| == |ip.assets|
      && forall j :: 0 <= j < |ip.assets| && ip.assets[j].baseDenom != ap.baseDenom ==>
           SetPrice(ip, ap).assets[j] == ip.assets[j]
  {
    UpsertRecords(ip.assets, ap);
  }

  lemma {:induction false} UpsertRecords(assets: seq<AssetPrice>, ap: AssetPrice)
    ensures ap in Upsert(assets, ap)
    ensures !HasBase(assets, ap.baseDenom) ==> Upsert(assets, ap) == assets + [ap]
    ensures HasBase(assets, ap.baseDenom) ==>
      && |Upsert(assets, ap)| == |assets|
      && forall j :: 0 <= j < |assets| && assets[j].baseDenom != ap.baseDenom ==> Upsert(assets, ap)[j] == assets[j]
  {
    if assets != [] && assets[0].baseDenom != ap.baseDenom {
      var rest := assets[1..];
      UpsertRecords(rest, ap);
      assert HasBase(assets, ap.baseDenom) <==> HasBase(rest, ap.baseDenom) by {
        if HasBase(assets, ap.baseDenom) {
          var j :| 0 <= j < |assets| && assets[j].baseDenom == ap.baseDenom;
          assert rest[j - 1].baseDenom == ap.baseDenom;
        }
        if HasBase(rest, ap.baseDenom) {
          var j :| 0 <= j < |rest| && rest[j].baseDenom == ap.baseDenom;
          assert assets[j + 1].baseDenom == ap.baseDenom;
        }
      }
      if !HasBase(assets, ap.baseDenom) {
        assert assets == [assets[0]] + rest;
      }
    }
  }

  /** Decimal division `x.Quo(y)`; a zero divisor panics in the source and is an error here. */
  function Quo(x: real, y: real): (r: Result<real, Error>)
    ensures r.Err? <==> y == 0.0
    ensures r.Err? ==> r.error == DivisionByZero
    ensures r.Ok? ==> r.value * y == x
  {
    if y == 0.0 then Err(DivisionByZero) else Ok(x / y)
  }
}
