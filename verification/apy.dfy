/** The yearly yield of a pool from its BNB valuation. */
module Apy {
  import opened Options
  import opened Decimal

  /** What an APY in percent means: it is finite exactly when both prices are and the
      staked value is not zero, and it is then the number that, times the staked value,
      gives the yearly reward value times one hundred. */
  predicate IsApy(apy: Value, rewardInBnb: Value, tokenPerBlock: real, blocksPerYear: real,
                  stakingInBnb: Value, stakedBalance: real)
  {
    && (apy.Some? <==> rewardInBnb.Some? && stakingInBnb.Some? && stakingInBnb.value * stakedBalance != 0.0)
    && (apy.Some? ==>
          apy.value * (stakingInBnb.value * stakedBalance)
          == rewardInBnb.value * tokenPerBlock * blocksPerYear * 100.0)
  }

  /** APY in percent: the BNB value of a year's rewards over the BNB value of the stake. */
  function ApyOf(rewardInBnb: Value, tokenPerBlock: real, blocksPerYear: real,
                 stakingInBnb: Value, stakedBalance: real): (apy: Value)
    ensures apy.Some? <==> rewardInBnb.Some? && stakingInBnb.Some? && stakingInBnb.value * stakedBalance != 0.0
    ensures apy.Some? ==>
              apy.value * (stakingInBnb.value * stakedBalance)
              == rewardInBnb.value * tokenPerBlock * blocksPerYear * 100.0
    ensures IsApy(apy, rewardInBnb, tokenPerBlock, blocksPerYear, stakingInBnb, stakedBalance)
  {
    var totalRewardPricePerYear := Mul(Mul(rewardInBnb, Some(tokenPerBlock)), Some(blocksPerYear));
    var totalStakingTokenInPool := Mul(stakingInBnb, Some(stakedBalance));
    var ratio := Div(totalRewardPricePerYear, totalStakingTokenInPool);
    var apy := Mul(ratio, Some(100.0));
    apy
  }

  /** With non-negative prices, rewards, block rate and stake the APY is never negative. */
  lemma ApyNonNegative(rewardInBnb: real, tokenPerBlock: real, blocksPerYear: real,
                       stakingInBnb: real, stakedBalance: real)
    requires rewardInBnb >= 0.0 && tokenPerBlock >= 0.0 && blocksPerYear >= 0.0
    requires stakingInBnb > 0.0 && stakedBalance > 0.0
    ensures ApyOf(Some(rewardInBnb), tokenPerBlock, blocksPerYear, Some(stakingInBnb), stakedBalance).Some?
    ensures ApyOf(Some(rewardInBnb), tokenPerBlock, blocksPerYear, Some(stakingInBnb), stakedBalance).value >= 0.0
  {
  }

  /** Twice the stake, half the APY. */
  lemma ApyHalvesWhenStakeDoubles(rewardInBnb: real, tokenPerBlock: real, blocksPerYear: real,
                                  stakingInBnb: real, stakedBalance: real)
    requires stakingInBnb * stakedBalance != 0.0
    ensures ApyOf(Some(rewardInBnb), tokenPerBlock, blocksPerYear, Some(stakingInBnb), 2.0 * stakedBalance).value * 2.0
            == ApyOf(Some(rewardInBnb), tokenPerBlock, blocksPerYear, Some(stakingInBnb), stakedBalance).value
  {
  }
}
