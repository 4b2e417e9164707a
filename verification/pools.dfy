/** The pool view's data pipeline: every pool enriched with its finished flag, APY and
    reward price, then split into open and finished lists, each ordered by `sortOrder`. */
module PoolsView {
  import opened PoolTypes
  import opened Valuation
  import opened Apy
  import opened Classification
  import opened Ordering

  /** One pool as handed to its card. The pool itself is kept whole; the flag is the
      classification at the current block; the APY is the yearly reward value over the
      staked value, in percent, from the pool's valuation. */
  function Enrich(pool: Pool, env: Env): (e: EnrichedPool)
    ensures e.pool == pool
    ensures e.isFinished == IsFinished(pool, env.block)
    ensures e.rewardTokenPrice == Valuate(pool, env).rewardTokenPrice
    ensures var v := Valuate(pool, env);
            IsApy(e.apy, v.rewardInBnb, pool.tokenPerBlock, env.blocksPerYear,
                  v.stakingInBnb, env.balanceNumber(pool.totalStaked))
  {
    var v := Valuate(pool, env);
    var apy := ApyOf(v.rewardInBnb, pool.tokenPerBlock, env.blocksPerYear,
                     v.stakingInBnb, env.balanceNumber(pool.totalStaked));
    EnrichedPool(pool, IsFinished(pool, env.block), apy, v.rewardTokenPrice)
  }

  /** `pools.map(...)`: one enriched pool per pool, in the same order. */
  function EnrichAll(pools: seq<Pool>, env: Env): (r: seq<EnrichedPool>)
    ensures |r| == |pools|
    ensures forall i :: 0 <= i < |pools| ==> r[i] == Enrich(pools[i], env)
  {
    if |pools| == 0 then []
    else [Enrich(pools[0], env)] + EnrichAll(pools[1..], env)
  }

  /** The open list and the finished list, each ordered ascending by `sortOrder`. Every
      pool is in exactly one of them: the finished list when it is classified finished at
      the current block, the open list otherwise. */
  function View(pools: seq<Pool>, env: Env): (r: (seq<EnrichedPool>, seq<EnrichedPool>))
    ensures Sorted(r.0) && Sorted(r.1)
    ensures forall x :: x in r.0 ==> !x.isFinished
    ensures forall x :: x in r.1 ==> x.isFinished
    ensures multiset(r.0) + multiset(r.1) == multiset(EnrichAll(pools, env))
    ensures forall i :: 0 <= i < |pools| ==>
              (Enrich(pools[i], env) in r.1 <==> IsFinished(pools[i], env.block))
              && (Enrich(pools[i], env) in r.0 <==> !IsFinished(pools[i], env.block))
  {
    var enriched := EnrichAll(pools, env);
    var split := Partition(enriched);
    var open, finished := SortBySortOrder(split.1), SortBySortOrder(split.0);
    assert multiset(open) + multiset(finished) == multiset(enriched);
    forall x | x in open ensures !x.isFinished {
      assert x in multiset(split.1);
    }
    forall x | x in finished ensures x.isFinished {
      assert x in multiset(split.0);
    }
    var r := (open, finished);
    forall i | 0 <= i < |pools|
      ensures (Enrich(pools[i], env) in r.1 <==> IsFinished(pools[i], env.block))
              && (Enrich(pools[i], env) in r.0 <==> !IsFinished(pools[i], env.block))
    {
      assert enriched[i] in enriched;
      LandsInExactlyOneList(enriched[i], enriched, r.0, r.1);
    }
    r
  }

  /** A split with the right flags on each side and nothing lost or added puts each pool
      on the side its flag names. */
  lemma LandsInExactlyOneList(e: EnrichedPool, all: seq<EnrichedPool>,
                              open: seq<EnrichedPool>, finished: seq<EnrichedPool>)
    requires e in all
    requires forall x :: x in open ==> !x.isFinished
    requires forall x :: x in finished ==> x.isFinished
    requires multiset(open) + multiset(finished) == multiset(all)
    ensures e in finished <==> e.isFinished
    ensures e in open <==> !e.isFinished
  {
    assert e in multiset(all);
    assert e in multiset(open) || e in multiset(finished);
  }

  /** Within one list, pools that share a `sortOrder` appear in the order of the input
      list. */
  lemma ViewKeepsInputOrderAmongEqualKeys(pools: seq<Pool>, env: Env, k: SortKey)
    ensures WithKey(View(pools, env).0, k) == Select(WithKey(EnrichAll(pools, env), k), false)
    ensures WithKey(View(pools, env).1, k) == Select(WithKey(EnrichAll(pools, env), k), true)
  {
    var enriched := EnrichAll(pools, env);
    SelectCommutesWithKey(enriched, false, k);
    SelectCommutesWithKey(enriched, true, k);
  }
}
