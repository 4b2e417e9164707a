# APY normaliser of the ApeSwap "Golden Banana" pools view

This project models the one piece of business logic in the pools page of the ApeSwap
staking dashboard (`src/views/ApeZone/components/Pools/Pools.tsx`). The page takes a
snapshot of the pools, the farms, the optional statistics feed, the BNB price in USD
and the current block. From these it computes each pool's reward-token price, its APY
and whether it is finished. Then it splits the pools into an open list and a finished
list, and orders each list by `sortOrder`.

The model is pure and functional. The computation is one pass over an immutable snapshot.

- `Decimal` models a BigNumber as `Option<real>`. `Some(x)` is a finite decimal. `None`
  is a value that was never there (a `?.` lookup that missed), or a result that is NaN
  or infinite. Multiplication and division propagate `None`. Dividing by zero gives `None`.
- `PoolTypes` holds the records: `Pool`, `LpData`, `Farm`, `PoolStats`, `StatsOverall`,
  the snapshot `Env`, and the `EnrichedPool` handed to the cards.
- `PriceConversion` models `priceToBnb`.
- `Valuation` models the farm and statistics lookups (first match wins, as with
  `Array.prototype.find`). It also models the three-tier choice of valuation, as an
  explicit `Strategy`: liquidity pair, then statistics feed, then farm fallback.
- `Apy` models the APY formula.
- `Classification` models the finished flag, including the fixed exception for pool 0.
- `Ordering` models the lodash `partition` by the finished flag and the lodash `orderBy`
  by `sortOrder`. Both are given by their results. The partition is an exact,
  order-keeping split. The sort is ascending and stable, and a uniqueness lemma shows
  that this specification fixes the output.
- `PoolsView` puts the pieces together: enrich every pool, split the list, sort both halves.

Inputs that come from hooks (farms, statistics, BNB price, block) are fields of `Env`,
and the pools are the argument. The wallet account only chooses which pools
`useGnanaPools(account)` returns, so it is abstracted away: the model starts from those pools. Two values defined outside this file are also fields of
`Env`: `getBalanceNumber`, a function from a raw amount to a number, and
`BLOCKS_PER_YEAR`, a constant.

Modelling decisions, where the code decides:
- `priceToBnb` tests `tokenPrice &&`. Every caller passes either a BigNumber object or
  `undefined`, and an object is always truthy. So the test is "price present".
- `stats?.rewardTokenPrice` is a plain number. The statistics branch is taken only when
  that number is truthy, meaning present and non-zero. A price of 0 falls through to
  the farms.
- The LP branch prices the reward token by `token1` when `token1`'s symbol is the reward
  token's. Otherwise it uses `token0`, even when `token0`'s symbol does not match either.
- `endBlock` may be absent. `block > pool.endBlock` compares a number with `undefined`, which is false, so such a pool is finished only when it is flagged so.
- `sortOrder` may be absent. lodash `orderBy` puts pools without one after all pools that
  have one. Ties keep their input order.
- The spread `{...pool, isFinished, ...}` keeps every field of the pool. The computed
  `isFinished` replaces the pool's own flag. `EnrichedPool` keeps the whole `pool` and
  carries the computed flag next to it.
- A reward farm quoted in BUSD has its ratio divided by the BNB price. A ratio of 3 BUSD
  with BNB at 10 USD gives 0.3 BNB, and the reported USD price is 3 again
  (`Valuation.BusdQuotedFarmExample`).

## Model

| member | source | states |
|---|---|---|
| PriceConversion.PriceToBnb | src/views/ApeZone/components/Pools/Pools.tsx:100-109 | A token named BNB is worth exactly 1 whatever its price and quote. A non-BNB price quoted in BUSD becomes the number that, times the BNB price in USD, gives the BUSD price back. It is finite exactly when the BNB price is finite and non-zero. A price with any other quote is returned unchanged. No finite result comes from a missing price. |
| PriceConversion.BusdRoundTrip | src/views/ApeZone/components/Pools/Pools.tsx:105-106 | For a token other than BNB and a non-zero BNB price, converting a BUSD price to BNB and multiplying back by the BNB price in USD returns the original price. |
| Valuation.FindFarm | src/views/ApeZone/components/Pools/Pools.tsx:113-114 | The farm lookup misses exactly when no farm has the symbol. Otherwise it returns the farm at the first position with that symbol. |
| Valuation.StatsFor | src/views/ApeZone/components/Pools/Pools.tsx:115 | The statistics entry is missing when the feed or its pool list is missing, or when no entry has the pool's id. Otherwise it is the first entry with that id. |
| Valuation.SelectStrategy | src/views/ApeZone/components/Pools/Pools.tsx:121-128 | Liquidity-pair data wins whenever it is present. The statistics price is used exactly when there is no pair data and the statistics reward price is truthy. The farm fallback is used in every other case. |
| Valuation.RewardSide | src/views/ApeZone/components/Pools/Pools.tsx:122 | The pair side chosen is one of the two sides. It carries the reward symbol whenever either side does. It is `token1` whenever `token1` matches, even if `token0` matches too, and `token0` whenever `token1` does not match. |
| Valuation.Valuate | src/views/ApeZone/components/Pools/Pools.tsx:111-137 | The reported USD reward price is the statistics value, unchanged, except in the farm fallback. There it is the BNB price in USD times the reward price in BNB. In the statistics branch both BNB prices are the statistics entry's USD prices converted as BUSD-quoted prices. In the farm fallback the reward price in BNB is the first reward farm's ratio converted with that farm's quote, and a Binance-category pool's staking token is worth 1. Outside the pair branch, a reward token named BNB is worth 1. |
| Valuation.LiquidityPairPrices | src/views/ApeZone/components/Pools/Pools.tsx:121-124 | In the pair branch the staking price is finite exactly when the pair's supply is non-zero. It is then the number that, times the supply, gives the BNB reserve. The reward price is the chosen side's derived BNB price. |
| Valuation.LiquidityPairIgnoresStatsAndFarms | src/views/ApeZone/components/Pools/Pools.tsx:121-124 | For a pool with pair data, the BNB prices are the same whatever the farms, statistics feed and BNB price are. |
| Valuation.FalsyStatsPriceFallsThrough | src/views/ApeZone/components/Pools/Pools.tsx:115-137 | Without pair data, a statistics entry with a zero or missing reward price changes nothing. The valuation is the one made with no statistics feed at all. |
| Valuation.StatsPricedIgnoresFarms | src/views/ApeZone/components/Pools/Pools.tsx:125-127 | When the statistics branch is taken, the farms have no influence on any of the three prices. |
| Valuation.FarmFallbackPrices | src/views/ApeZone/components/Pools/Pools.tsx:128-136 | In the fallback, a non-Binance pool's staking price is the first matching farm's ratio. A missing reward farm gives no finite reward price for a non-BNB token. A reward farm quoted in anything but BUSD gives a non-BNB reward token exactly that farm's ratio as its BNB price. For a reward token other than BNB with a present ratio and a finite non-zero BNB price, a reward farm quoted in BUSD makes the reported USD price exactly that farm's ratio. |
| Valuation.BusdQuotedFarmExample | src/views/ApeZone/components/Pools/Pools.tsx:128-136 | With no pair data and no statistics, a reward farm quoting 3 BUSD and BNB at 10 USD give a reward price of 0.3 BNB and a reported price of 3 USD. |
| Valuation.ReportedPriceMatchesBnbValuation | src/views/ApeZone/components/Pools/Pools.tsx:125-136 | Without pair data, for a reward token other than BNB and a finite non-zero BNB price: the reported USD price equals the BNB price in USD times the reward price in BNB. This holds in both the statistics branch and the farm branch. |
| Apy.ApyOf | src/views/ApeZone/components/Pools/Pools.tsx:139-141 | The APY is finite exactly when both BNB prices are finite and the staked value is non-zero. It is then the number that, times the staked value, gives reward price × tokens per block × blocks per year × 100. |
| Apy.ApyNonNegative | src/views/ApeZone/components/Pools/Pools.tsx:139-141 | With non-negative prices, rewards and block rate and a positive stake, the APY is finite and not negative. |
| Apy.ApyHalvesWhenStakeDoubles | src/views/ApeZone/components/Pools/Pools.tsx:140-141 | Doubling the staked balance halves the APY. |
| Classification.IsFinished | src/views/ApeZone/components/Pools/Pools.tsx:145 | Pool 0 is never finished. Any other pool with an end block is finished exactly when it is flagged so or the block is strictly past its end block. Without an end block the comparison is false, as in JavaScript, so the pool is finished exactly when it is flagged so. |
| Classification.FinishedIsPermanent | src/views/ApeZone/components/Pools/Pools.tsx:145 | Once a pool is finished at some block, it is finished at every later block. |
| Classification.EndBlockIsLastOpenBlock | src/views/ApeZone/components/Pools/Pools.tsx:145 | For an unflagged pool other than pool 0 that has an end block, the end block itself is still open and the next block is finished. |
| Classification.NoEndBlockStaysOpen | src/views/ApeZone/components/Pools/Pools.tsx:145 | An unflagged pool other than pool 0 without an end block is open at every block. |
| Ordering.Select | src/views/ApeZone/components/Pools/Pools.tsx:151 | Every pool selected comes from the input and carries the requested flag. |
| Ordering.SelectCounts | src/views/ApeZone/components/Pools/Pools.tsx:151 | The selection keeps every copy of every pool with the requested flag, and nothing else. |
| Ordering.SelectKeepsOrder | src/views/ApeZone/components/Pools/Pools.tsx:151 | Selection keeps the input order. Selecting from two joined lists gives the selection from the first followed by the selection from the second. |
| Ordering.Partition | src/views/ApeZone/components/Pools/Pools.tsx:151 | The first list holds only finished pools and the second only open ones. Together they hold exactly the input pools, counted with repetition. |
| Ordering.SortBySortOrder | src/views/ApeZone/components/Pools/Pools.tsx:175-182 | The output is ascending by `sortOrder`, with missing keys last. It is a permutation of the input. The pools of each key are in their input order. |
| Ordering.InsertCounts | src/views/ApeZone/components/Pools/Pools.tsx:175-182 | Inserting a pool into a list adds that pool once and keeps every other pool, counted with repetition. |
| Ordering.StableOrderIsUnique | src/views/ApeZone/components/Pools/Pools.tsx:175-182 | Two sorted lists that keep every key's pools in the same order are equal. |
| Ordering.SortBySortOrderIsTheStableSort | src/views/ApeZone/components/Pools/Pools.tsx:175-182 | Any sorted list that keeps every key's pools in input order is exactly the model's sorted list. So any stable ascending sort gives the same result. |
| PoolsView.Enrich | src/views/ApeZone/components/Pools/Pools.tsx:143-148 | The enriched pool keeps the pool whole. Its flag is the classification at the current block. Its reward price is the valuation's reported price. Its APY is finite exactly when the valuation's prices are and the staked value is non-zero, and then it satisfies the APY equation. |
| PoolsView.EnrichAll | src/views/ApeZone/components/Pools/Pools.tsx:111-149 | There is one enriched pool per input pool, at the same position. |
| PoolsView.View | src/views/ApeZone/components/Pools/Pools.tsx:151-182 | Both lists are sorted by `sortOrder`. The open list holds only unfinished pools and the finished list only finished ones. Together they hold exactly the enriched pools. Each pool is in the finished list exactly when it is classified finished, and in the open list exactly when it is not. |
| PoolsView.ViewKeepsInputOrderAmongEqualKeys | src/views/ApeZone/components/Pools/Pools.tsx:151-182 | In each list, the pools that share a `sortOrder` are the input's pools with that key and the list's flag, in input order. |

## Left out

- Rendering is left out: the JSX, styled-components, `Route`/`useRouteMatch` view selection, `PoolCard`, `Coming` and the i18n strings. They are presentation only.
- Hooks are left out: `useWallet`, `useFarms`, `useGnanaPools`, `useStatsOverall`, `usePriceBnbBusd` and `useBlock`. They are external I/O, and their results are fields of `Env`.
- `getBalanceNumber` (utils/formatBalance) is not part of this model. It is the function parameter `Env.balanceNumber`.
- `BLOCKS_PER_YEAR` (config) is not part of this model. It is the parameter `Env.blocksPerYear`.
- `PoolCategory` and `QuoteToken` (config/constants/types) are not part of this model. The category is reduced to Binance or not, the only distinction the computation makes. Quote tokens are their string values, with `'BUSD'` for `QuoteToken.BUSD`.
- Apy.ApyOf: NaN and ±Infinity are collapsed into one "not finite" value. BigNumber gives 0 for a finite reward over an infinite staked value, for example a pair with zero supply. The model gives no finite APY there.
- PriceConversion.PriceToBnb: the BUSD conversion `tokenPriceBN.div(bnbPriceUSD)` (line 106) is a BigNumber division, which rounds to its configured decimal places (20 by default). The model divides exactly. So `PriceConversion.BusdRoundTrip`, the BUSD clause of `Valuation.FarmFallbackPrices`, `Valuation.ReportedPriceMatchesBnbValuation` and `Valuation.BusdQuotedFarmExample` hold in the source only up to that rounding. For example, 1e-21 BUSD at 300 USD per BNB rounds to 0 BNB, and multiplying back gives 0, not 1e-21.
- Apy.ApyOf: the APY's own division (line 141) rounds in the same way. The model divides exactly.
- Valuation.Valuate: the farm fallback's `.toNumber()` (line 136) turns the USD price into a JavaScript float. The model keeps the exact decimal.
- The internals of lodash `partition` and `orderBy` are left out. Only their results are specified: an exact, order-keeping split, and a stable ascending sort. The model's insertion sort is shown to be the unique list meeting that specification.
- Inputs in the model are finite or absent, never NaN. Some fields are always present in the model, where the source would turn an undefined value into NaN through `new BigNumber(...)` or `getBalanceNumber`. These are `tokenPerBlock`, `totalStaked` and the pair's `reserveEth`, `totalSupply` and `derivedEth`. A missing `isFinished` flag on a pool is `false`, which is its falsy reading.
