/** The records the pool view reads: pools, farms, the overall statistics feed, and the
    enriched pools it hands to the cards. */
module PoolTypes {
  import opened Options
  import opened Decimal

  /** The only distinction the APY computation makes between pool categories is whether
      the pool stakes the chain's native coin. */
  datatype PoolCategory = Binance | NonBinance

  /** One side of a liquidity pair: its symbol and its price in BNB. */
  datatype LpToken = LpToken(symbol: string, derivedEth: real)

  /** Liquidity-pair data attached to a pool whose staking token is an LP token. */
  datatype LpData = LpData(token0: LpToken, token1: LpToken, reserveEth: real, totalSupply: real)

  /** A staking pool. `tokenName` is the reward token, `stakingTokenName` the staked one;
      `totalStaked` is the raw on-chain amount; `endBlock` and `sortOrder` may be absent. */
  datatype Pool = Pool(
    sousId: int,
    poolCategory: PoolCategory,
    tokenName: string,
    stakingTokenName: string,
    tokenPerBlock: real,
    totalStaked: real,
    endBlock: Option<int>,
    isFinished: bool,
    sortOrder: Option<int>,
    lpData: Option<LpData>
  )

  /** A farm, used as a price oracle: the price of `tokenSymbol` in `quoteTokenSymbol`. */
  datatype Farm = Farm(tokenSymbol: string, tokenPriceVsQuote: Value, quoteTokenSymbol: string)

  /** The statistics feed's entry for one pool: USD prices of its staking and reward tokens. */
  datatype PoolStats = PoolStats(id: int, price: Value, rewardTokenPrice: Value)

  /** The statistics feed; its list of incentivized pools may be missing. */
  datatype StatsOverall = StatsOverall(incentivizedPools: Option<seq<PoolStats>>)

  /** The snapshot one computation pass works on. `balanceNumber` converts a raw token
      amount to a human-scale number and `blocksPerYear` is the configured block rate. */
  datatype Env = Env(
    farms: seq<Farm>,
    statsOverall: Option<StatsOverall>,
    bnbPriceUsd: Value,
    block: int,
    blocksPerYear: real,
    balanceNumber: real -> real
  )

  /** A pool as handed to the cards: every field of the pool, a recomputed finished flag
      (which takes the place of the pool's own flag), the APY and the reward token's USD price. */
  datatype EnrichedPool = EnrichedPool(pool: Pool, isFinished: bool, apy: Value, rewardTokenPrice: Value)
}
