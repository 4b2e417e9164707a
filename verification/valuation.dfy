/** Per-pool valuation: the prices, in BNB, of a pool's staking and reward tokens, chosen
    from liquidity-pair reserves, the statistics feed or the farms, in that priority. */
module Valuation {
  import opened Options
  import opened Decimal
  import opened PoolTypes
  import opened PriceConversion

  /** The index `Array.prototype.find` stops at: the first element satisfying `p`. */
  function FirstIndex<T>(xs: seq<T>, p: T -> bool): (r: Option<nat>)
    ensures r.None? <==> forall i :: 0 <= i < |xs| ==> !p(xs[i])
    ensures r.Some? ==> r.value < |xs| && p(xs[r.value])
    ensures r.Some? ==> forall j :: 0 <= j < r.value ==> !p(xs[j])
  {
    if |xs| == 0 then None
    else if p(xs[0]) then Some(0)
    else
      var rest := FirstIndex(xs[1..], p);
      if rest.None? then None else Some(rest.value + 1)
  }

  /** The first farm whose token is `symbol`. */
  function FindFarm(farms: seq<Farm>, symbol: string): (r: Option<Farm>)
    ensures r.None? <==> forall i :: 0 <= i < |farms| ==> farms[i].tokenSymbol != symbol
    ensures r.Some? ==> exists i :: 0 <= i < |farms| && farms[i] == r.value && farms[i].tokenSymbol == symbol
                                    && forall j :: 0 <= j < i ==> farms[j].tokenSymbol != symbol
  {
    var i := FirstIndex(farms, (f: Farm) => f.tokenSymbol == symbol);
    if i.Some? then Some(farms[i.value]) else None
  }

  /** The statistics feed's entry for pool `sousId`: the first one with that id, and
      none when the feed or its pool list is missing. */
  function StatsFor(statsOverall: Option<StatsOverall>, sousId: int): (r: Option<PoolStats>)
    ensures statsOverall.None? || statsOverall.value.incentivizedPools.None? ==> r.None?
    ensures statsOverall.Some? && statsOverall.value.incentivizedPools.Some? ==>
              var entries := statsOverall.value.incentivizedPools.value;
              && (r.None? <==> forall i :: 0 <= i < |entries| ==> entries[i].id != sousId)
              && (r.Some? ==> exists i :: 0 <= i < |entries| && entries[i] == r.value && entries[i].id == sousId
                                          && forall j :: 0 <= j < i ==> entries[j].id != sousId)
  {
    if statsOverall.None? || statsOverall.value.incentivizedPools.None? then None
    else
      var entries := statsOverall.value.incentivizedPools.value;
      var i := FirstIndex(entries, (s: PoolStats) => s.id == sousId);
      if i.Some? then Some(entries[i.value]) else None
  }

  /** `stats?.rewardTokenPrice` */
  function StatsRewardPrice(stats: Option<PoolStats>): Value {
    if stats.Some? then stats.value.rewardTokenPrice else None
  }

  /** `farm?.tokenPriceVsQuote` */
  function FarmPrice(farm: Option<Farm>): Value {
    if farm.Some? then farm.value.tokenPriceVsQuote else None
  }

  /** `farm?.quoteTokenSymbol` */
  function FarmQuote(farm: Option<Farm>): Option<string> {
    if farm.Some? then Some(farm.value.quoteTokenSymbol) else None
  }

  /** The three ways a pool can be valued. */
  datatype Strategy = LiquidityPair | StatsPriced | FarmFallback

  /** Liquidity-pair data wins whenever present; the statistics feed is used only when its
      reward price is truthy, so a zero or missing price falls through to the farms. */
  function SelectStrategy(pool: Pool, stats: Option<PoolStats>): (s: Strategy)
    ensures s == LiquidityPair <==> pool.lpData.Some?
    ensures s == StatsPriced <==> pool.lpData.None? && Truthy(StatsRewardPrice(stats))
    ensures s == FarmFallback <==> pool.lpData.None? && !Truthy(StatsRewardPrice(stats))
  {
    if pool.lpData.Some? then LiquidityPair
    else if Truthy(StatsRewardPrice(stats)) then StatsPriced
    else FarmFallback
  }

  /** The side of the pair that prices the reward token: `token1` when its symbol is the
      reward token's, otherwise `token0`, whatever its symbol. */
  function RewardSide(lp: LpData, tokenName: string): (t: LpToken)
    ensures t == lp.token0 || t == lp.token1
    ensures lp.token0.symbol == tokenName || lp.token1.symbol == tokenName ==> t.symbol == tokenName
    ensures lp.token1.symbol == tokenName ==> t == lp.token1
    ensures lp.token1.symbol != tokenName ==> t == lp.token0
  {
    if lp.token1.symbol == tokenName then lp.token1 else lp.token0
  }

  /** The prices one valuation produces: staking and reward token in BNB, and the reward
      token's USD price reported to the card. */
  datatype Prices = Prices(stakingInBnb: Value, rewardInBnb: Value, rewardTokenPrice: Value)

  function StrategyOf(pool: Pool, env: Env): Strategy {
    SelectStrategy(pool, StatsFor(env.statsOverall, pool.sousId))
  }

  /** The valuation of one pool. The reported USD reward price is the feed's own value
      unless the farms are used, in which case it is recomputed from the BNB price. */
  function Valuate(pool: Pool, env: Env): (v: Prices)
    ensures StrategyOf(pool, env) != FarmFallback ==>
              v.rewardTokenPrice == StatsRewardPrice(StatsFor(env.statsOverall, pool.sousId))
    ensures StrategyOf(pool, env) == FarmFallback ==> v.rewardTokenPrice == Mul(env.bnbPriceUsd, v.rewardInBnb)
    ensures pool.lpData.None? && pool.tokenName == BNB ==> v.rewardInBnb == Some(1.0)
    ensures StrategyOf(pool, env) == FarmFallback && pool.poolCategory == Binance ==> v.stakingInBnb == Some(1.0)
    ensures StrategyOf(pool, env) == StatsPriced ==>
              var s := StatsFor(env.statsOverall, pool.sousId).value;
              && v.stakingInBnb == PriceToBnb(pool.stakingTokenName, s.price, Some(BUSD), env.bnbPriceUsd)
              && v.rewardInBnb == PriceToBnb(pool.tokenName, s.rewardTokenPrice, Some(BUSD), env.bnbPriceUsd)
    ensures StrategyOf(pool, env) == FarmFallback ==>
              var f := FindFarm(env.farms, pool.tokenName);
              v.rewardInBnb == PriceToBnb(pool.tokenName, FarmPrice(f), FarmQuote(f), env.bnbPriceUsd)
  {
    var stats := StatsFor(env.statsOverall, pool.sousId);
    var statsRewardPrice := StatsRewardPrice(stats);
    match SelectStrategy(pool, stats)
    case LiquidityPair =>
      var lp := pool.lpData.value;
      Prices(Div(Some(lp.reserveEth), Some(lp.totalSupply)),
             Some(RewardSide(lp, pool.tokenName).derivedEth),
             statsRewardPrice)
    case StatsPriced =>
      Prices(PriceToBnb(pool.stakingTokenName, stats.value.price, Some(BUSD), env.bnbPriceUsd),
             PriceToBnb(pool.tokenName, statsRewardPrice, Some(BUSD), env.bnbPriceUsd),
             statsRewardPrice)
    case FarmFallback =>
      var stakingFarm := FindFarm(env.farms, pool.stakingTokenName);
      var rewardFarm := FindFarm(env.farms, pool.tokenName);
      var staking := if pool.poolCategory == Binance then Some(1.0) else FarmPrice(stakingFarm);
      var reward := PriceToBnb(pool.tokenName, FarmPrice(rewardFarm), FarmQuote(rewardFarm), env.bnbPriceUsd);
      Prices(staking, reward, Mul(env.bnbPriceUsd, reward))
  }

  /** With liquidity-pair data the staking token is worth the pair's BNB reserve per LP
      token and the reward token the matching side's derived BNB price. */
  lemma LiquidityPairPrices(pool: Pool, env: Env)
    requires pool.lpData.Some?
    ensures var v := Valuate(pool, env); var lp := pool.lpData.value;
            && (v.stakingInBnb.Some? <==> lp.totalSupply != 0.0)
            && (v.stakingInBnb.Some? ==> v.stakingInBnb.value * lp.totalSupply == lp.reserveEth)
            && v.rewardInBnb == Some(RewardSide(lp, pool.tokenName).derivedEth)
  {
  }

  /** Liquidity-pair data takes priority: neither the statistics feed nor the farms have
      any say in the BNB prices of such a pool. */
  lemma LiquidityPairIgnoresStatsAndFarms(pool: Pool, env: Env, other: Env)
    requires pool.lpData.Some?
    ensures Valuate(pool, env).stakingInBnb == Valuate(pool, other).stakingInBnb
    ensures Valuate(pool, env).rewardInBnb == Valuate(pool, other).rewardInBnb
  {
  }

  /** A statistics entry whose reward price is zero or missing counts for nothing: the
      valuation is the one made with no statistics feed at all. */
  lemma FalsyStatsPriceFallsThrough(pool: Pool, env: Env)
    requires pool.lpData.None?
    requires !Truthy(StatsRewardPrice(StatsFor(env.statsOverall, pool.sousId)))
    ensures Valuate(pool, env) == Valuate(pool, env.(statsOverall := None))
  {
  }

  /** With no liquidity-pair data and a truthy statistics price the farms are not used. */
  lemma StatsPricedIgnoresFarms(pool: Pool, env: Env, farms: seq<Farm>)
    requires pool.lpData.None?
    requires Truthy(StatsRewardPrice(StatsFor(env.statsOverall, pool.sousId)))
    ensures Valuate(pool, env) == Valuate(pool, env.(farms := farms))
  {
  }

  /** In the farm fallback the staking token of a non-native pool is priced by the first
      farm for that token (assumed BNB-quoted); a reward token whose farm is quoted in
      anything but BUSD is worth that farm's ratio in BNB; and a reward token whose farm is
      quoted in BUSD is reported at exactly that farm's BUSD price. */
  lemma FarmFallbackPrices(pool: Pool, env: Env)
    requires StrategyOf(pool, env) == FarmFallback
    ensures var v := Valuate(pool, env);
            && (pool.poolCategory != Binance ==> v.stakingInBnb == FarmPrice(FindFarm(env.farms, pool.stakingTokenName)))
            && (pool.tokenName != BNB && FindFarm(env.farms, pool.tokenName).None? ==> v.rewardInBnb.None?)
            && (var rewardFarm := FindFarm(env.farms, pool.tokenName);
                pool.tokenName != BNB && rewardFarm.Some? && rewardFarm.value.quoteTokenSymbol != BUSD
                ==> v.rewardInBnb == rewardFarm.value.tokenPriceVsQuote)
            && (var rewardFarm := FindFarm(env.farms, pool.tokenName);
                pool.tokenName != BNB && rewardFarm.Some? && rewardFarm.value.quoteTokenSymbol == BUSD
                && rewardFarm.value.tokenPriceVsQuote.Some?
                && env.bnbPriceUsd.Some? && env.bnbPriceUsd.value != 0.0
                ==> v.rewardTokenPrice == rewardFarm.value.tokenPriceVsQuote)
  {
    var rewardFarm := FindFarm(env.farms, pool.tokenName);
    if pool.tokenName != BNB && rewardFarm.Some? && rewardFarm.value.quoteTokenSymbol == BUSD
       && rewardFarm.value.tokenPriceVsQuote.Some?
       && env.bnbPriceUsd.Some? && env.bnbPriceUsd.value != 0.0
    {
      BusdRoundTrip(pool.tokenName, rewardFarm.value.tokenPriceVsQuote.value, env.bnbPriceUsd.value);
    }
  }

  /** Outside the liquidity-pair branch, the reported USD price of a reward token other
      than BNB agrees with its BNB valuation: it is the BNB price in USD times it. */
  lemma ReportedPriceMatchesBnbValuation(pool: Pool, env: Env)
    requires pool.lpData.None? && pool.tokenName != BNB
    requires env.bnbPriceUsd.Some? && env.bnbPriceUsd.value != 0.0
    ensures Mul(env.bnbPriceUsd, Valuate(pool, env).rewardInBnb) == Valuate(pool, env).rewardTokenPrice
  {
    var stats := StatsFor(env.statsOverall, pool.sousId);
    if StrategyOf(pool, env) == StatsPriced {
      BusdRoundTrip(pool.tokenName, StatsRewardPrice(stats).value, env.bnbPriceUsd.value);
    }
  }

  /** A reward token quoted at 3 BUSD by its farm, with BNB at 10 USD and neither pair data
      nor statistics, is worth 0.3 BNB and is reported at 3 USD. */
  lemma BusdQuotedFarmExample(pool: Pool, env: Env)
    requires pool.lpData.None? && pool.tokenName != BNB
    requires env.statsOverall.None? && env.bnbPriceUsd == Some(10.0)
    requires env.farms == [Farm(pool.tokenName, Some(3.0), BUSD)]
    ensures Valuate(pool, env).rewardInBnb == Some(0.3)
    ensures Valuate(pool, env).rewardTokenPrice == Some(3.0)
  {
  }
}
