# meToken index pricing

A Dafny model of the pricing core of Umee's meToken module,
`x/metoken/keeper/price.go`. Given an index, it computes the price of the
index's meToken and, for each accepted asset, that asset's latest oracle price,
its swap rate and its redeem rate. The index is its meToken denom, its ordered
list of accepted assets and its exponent. The computation reads three keeper
stores:

- the index's balances: the minted meToken supply and each asset's available supply;
- the leverage module's token settings: each asset's symbol denom and exponent;
- the oracle's list of median prices: symbol, exchange rate and block number.

The computation has three parts:

- `latestPrice` picks, among the medians of a symbol, the one with the highest
  block number; the first one wins a tie. It fails when no median of the symbol
  has a non-zero block number.
- `valueInUSD` converts an amount of base units at a price into a USD value,
  and `priceInUSD` converts a USD total into a per-unit price. Both scale by
  `ExponentFactor(exponent, 0)`.
- `Keeper.Prices` values every accepted asset in order.
  - With no meToken minted, the total is the sum of the asset prices and the
    meToken price is their mean.
  - Otherwise the total is the USD value of the assets' available supplies, and
    the meToken price is that value per meToken.
  - Finally every entry gets its swap rate (asset to meToken) and redeem rate
    (meToken to asset), updated in place.

Layout:

- `wrappers.dfy`: `Option` and `Result`.
- `metoken.dfy`: the types of the `metoken` package (`Index`, `IndexPrices`,
  `AssetPrice`, `IndexBalances`, …). It also holds the collaborators:
  - `Library` stands for `ExponentFactor` and `Rate`.
  - `Quo` is decimal division, with a zero divisor reported as an error.
  - `SetPrice` records an entry by base denom.
- `keeper_price.dfy` (module `Keeper`): the source's operations.
  - `latestPrice` and the two loops of `Prices` are methods with loops.
  - Each method is proved equal to a function of the same inputs: `LatestPriceOf`,
    `Accumulate`, `FillRates`, `Valuation`.
  - The lemmas the loops need are here too.
- `keeper_proofs.dfy` (module `KeeperProofs`): what those functions mean.
  - Which median is picked, and what appending a median does.
  - The value/price round trip.
  - The order in which errors abort `Prices`.
  - The entries and rates `Prices` returns.
  - The mean price before any mint, and the value-per-token price after one.
  - That balances are ignored before any mint.

The keepers and the context are replaced by a `Snapshot` value passed to
`Prices`. `sdk.Dec` is exact `real` arithmetic. Where `Prices` returns
`(indexPrices, err)`, the model returns a `Result`.

## Model

| member | source | states |
|---|---|---|
| `Metoken.SetPriceRecords` | x/metoken/keeper/price.go:41-48 | recording an entry keeps the index fields; a new base denom is appended at the end; an existing one is overwritten in place, keeping the length and every other denom's entry |
| `Metoken.Quo` | x/metoken/keeper/price.go:131 | decimal division fails with a division-by-zero error exactly when the divisor is zero; otherwise the quotient times the divisor is the dividend |
| `Keeper.FreshestSelects` | x/metoken/keeper/price.go:100-106 | after n entries the scan holds nothing exactly when every median of the symbol has block 0; otherwise it holds a median of the symbol with a non-zero, maximal block number that is strictly newer than every earlier one (first wins a tie) |
| `Keeper.LatestPrice` | x/metoken/keeper/price.go:99-113 | the loop returns the kept median's exchange rate, or `PriceNotFound(symbol)` when the kept block number is 0 |
| `KeeperProofs.LatestPriceSelectsFreshest` | x/metoken/keeper/price.go:99-113 | `latestPrice` fails, with the symbol in its error, exactly when no median of the symbol has a non-zero block number; otherwise it returns the rate of the freshest median of the symbol, which exists and is unique |
| `KeeperProofs.FreshestOfPrefix` | x/metoken/keeper/price.go:102-106 | medians after the first n do not change what the scan keeps after n |
| `KeeperProofs.AppendMedian` | x/metoken/keeper/price.go:102-106 | appending a median of another symbol changes nothing; appending a median of the symbol strictly newer than all of them (at a non-zero block) makes its rate the result; appending one no newer than an existing median of the symbol changes nothing |
| `KeeperProofs.PriceInUSDOutcome` | x/metoken/keeper/price.go:124-132 | `priceInUSD` fails with a `Collaborator` error carrying the exponent factor's message when that fails; otherwise it fails with a division by zero exactly when factor × amount is zero; otherwise price × (factor × amount) is the total value |
| `KeeperProofs.ValueOfPrice` | x/metoken/keeper/price.go:115-132 | valuing `amount` at the price `priceInUSD` returned gives back the total value |
| `KeeperProofs.PriceOfValue` | x/metoken/keeper/price.go:115-132 | for a non-zero factor and a non-zero amount, `priceInUSD(amount, valueInUSD(amount, p))` is `p` |
| `KeeperProofs.AssetStepOutcome` | x/metoken/keeper/price.go:30-65 | one accepted asset is valued exactly when it has settings, a latest price and, once minted, a balance and an exponent factor; its entry carries its denom, symbol, exponent and latest price; it adds its price (unminted) or `valueInUSD` of its available supply (minted); the errors come in the source's order: settings, price, balance, then the exponent factor's message as a `Collaborator` error |
| `Keeper.ValueAsset` | x/metoken/keeper/price.go:30-65 | the loop body returns the asset's entry and its contribution to the total, or the first error among its lookups |
| `Keeper.AccumulateOutcome` | x/metoken/keeper/price.go:29-66 | the valuation loop over the first n assets succeeds exactly when each of them is valued, and otherwise fails with the error of the first asset that fails |
| `Keeper.Advance` | x/metoken/keeper/price.go:29-66 | one iteration: a failing asset makes the whole loop fail with its error; a valued one is recorded with `SetPrice` and its value is added to the total |
| `Keeper.AccumulateAssets` | x/metoken/keeper/price.go:18-66 | the loop starts from empty index prices and a zero total, and returns the prices and total after all accepted assets, or the first asset's error |
| `KeeperProofs.AccumulateEntries` | x/metoken/keeper/price.go:18-48 | with distinct accepted assets, after n assets the index prices keep the index's denom and exponent and a zero price, and hold exactly one entry per asset so far, in order, each the one that asset's step produced |
| `KeeperProofs.AccumulateAppends` | x/metoken/keeper/price.go:41-65 | with distinct accepted assets, each step appends the asset's entry and adds its value to the total |
| `KeeperProofs.UnmintedTotal` | x/metoken/keeper/price.go:52-53 | with no meToken minted, the loop's total is the sum of the entries' prices |
| `KeeperProofs.MintedTotal` | x/metoken/keeper/price.go:54-65 | with meTokens minted, every entry has a balance and an exponent factor, and the total is the sum of `ExponentFactor(exp, 0) × available × price` over the entries |
| `Keeper.FillRates` | x/metoken/keeper/price.go:80-94 | filling rates keeps the number of entries |
| `Keeper.FillRatesOutcome` | x/metoken/keeper/price.go:80-94 | filling the first n entries succeeds exactly when each gets both rates; each of those becomes its rated form, later entries are unchanged, and otherwise the first failing entry's error is returned |
| `Keeper.RateAdvance` | x/metoken/keeper/price.go:81-93 | one iteration: entry i is still unrated; a failing rate makes the whole fill fail with its error; otherwise entry i is replaced by its rated form |
| `Keeper.SetRates` | x/metoken/keeper/price.go:80-94 | the in-place loop returns the filled entries or the first rate error |
| `Keeper.Prices` | x/metoken/keeper/price.go:16-97 | the method returns the result of the valuation as a function of the snapshot |
| `KeeperProofs.FirstFailingAssetAborts` | x/metoken/keeper/price.go:29-66 | the first accepted asset whose settings, price, balance or value fails aborts `Prices` with that error |
| `KeeperProofs.LaterFailuresAbort` | x/metoken/keeper/price.go:68-94 | once all assets are valued, a failure to price the meToken aborts with its error, and so does the first entry whose swap or redeem rate fails |
| `KeeperProofs.ValuationEntries` | x/metoken/keeper/price.go:16-97 | with distinct accepted assets, a successful `Prices` keeps the index's denom and exponent and has one entry per accepted asset, in order. Each entry has the asset's symbol and exponent from its settings and its latest oracle price. Its swap rate is `Rate(price, indexPrice, exp, indexExp)` and its redeem rate `Rate(indexPrice, price, indexExp, exp)` |
| `KeeperProofs.ValuationPricing` | x/metoken/keeper/price.go:68-94 | the returned meToken price is the one computed from the loop's total; the rate loop changes no entry's asset, exponent or price |
| `KeeperProofs.SamePricingSums` | x/metoken/keeper/price.go:92-93 | entries that differ only in their rates have the same price sum and the same reserve value |
| `KeeperProofs.UnmintedPriceIsMean` | x/metoken/keeper/price.go:68-70 | with no meToken minted, an index without accepted assets fails with a division by zero; otherwise the meToken price is the sum of the returned entries' prices divided by the number of accepted assets |
| `KeeperProofs.MintedPriceIsValuePerToken` | x/metoken/keeper/price.go:71-78 | with meTokens minted, the meToken price × `ExponentFactor(indexExp, 0)` × supply is the USD value of the entries' available supplies; equivalently, `valueInUSD(supply, meToken price)` is that reserve value |
| `KeeperProofs.UnmintedAccumulateIgnoresBalances` | x/metoken/keeper/price.go:52-53 | with no meToken minted, the valuation loop gives the same result whatever the available supplies |
| `KeeperProofs.UnmintedIgnoresBalances` | x/metoken/keeper/price.go:50-70 | with no meToken minted, `Prices` does not depend on the index's available supplies |

## Left out

- Decimal rounding: `sdk.Dec` is modelled as exact `real`. The 18-digit rounding of `Mul`, `MulInt`, `Quo` and `QuoInt` lives in the Cosmos SDK and is not part of this model. So the mean and value-per-token properties hold exactly here, and only up to rounding in the source.
- A decimal division by zero panics in the source. The model reports it as a `DivisionByZero` error. This happens with `QuoInt` when an unminted index has no accepted assets, and with `Quo` when `ExponentFactor × supply` is zero.
- The source has no guard for an empty accepted-asset list on an unminted index; the model follows the code. `UnmintedPriceIsMean` shows that this case is the division by zero.
- Tie-break: the model follows the code. The strict `>` keeps the first median of the highest block number in list order, and medians at block 0 count as absent. Keeping the last entry instead would change the result on ties.
- `metoken.ExponentFactor` and `metoken.Rate` are not part of this model. They are arbitrary total functions in `Library` that return a value or an error message, and nothing more is assumed of them.
- `metoken.EmptyIndexPrices`, `IndexPrices.SetPrice` and `IndexBalances.AssetBalance` are not part of this model. The model assumes three things about them:
  - `EmptyIndexPrices` copies the index's denom and exponent, and has a zero price and no assets. The rates read this exponent, and `ValuationEntries` relies on this assumption when it says the result keeps the index's denom and exponent.
  - `SetPrice` overwrites the first entry with the same base denom, or appends.
  - `AssetBalance` is a lookup in a map of available supplies, so duplicate balance entries are not represented.
- The keepers and `sdk.Context` (`IndexBalances`, `AllMedianPrices`, `GetTokenSettings`) become fields of a `Snapshot` parameter. A lookup that errors becomes a missing key with its own error.
- The partial `indexPrices` that the source returns beside an error is dropped. The model returns only the error.
- Overflow: `sdkmath.Int` and `sdk.Dec` panic once a result exceeds their bit-length limit. This can happen in the `Add` of the total, in `MulInt` and in `Mul`. Exact `real` and `int` never overflow, so the model does not capture these panics.
- The widths of `uint32` exponents and the `int64` conversion of the asset count are not modelled: they are unbounded naturals.
- Every error of `ExponentFactor` and `Rate` is reported as `Collaborator(message)`, so it cannot be confused with a lookup failure. The wording of the keeper's own error messages is not modelled.
- The properties of `Prices` that describe its entries and totals (`AccumulateEntries`, `AccumulateAppends`, `UnmintedTotal`, `MintedTotal`, `ValuationEntries`, `UnmintedPriceIsMean`, `MintedPriceIsValuePerToken`) assume distinct accepted assets. With a repeated asset, `SetPrice` overwrites its entry but its value is added to the total twice. The methods themselves are proved for any list.
- The end-to-end oracle test and the `umeed` command entry point hold no pricing logic and are not part of this model.
