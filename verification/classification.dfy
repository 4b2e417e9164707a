/** Whether a pool is shown among the finished ones. */
module Classification {
  import opened Options
  import opened PoolTypes

  /** `block > endBlock` as JavaScript evaluates it: a missing end block is never passed. */
  predicate PastEnd(block: int, endBlock: Option<int>) {
    endBlock.Some? && block > endBlock.value
  }

  /** Pool 0 is always open. Any other pool is finished when flagged so or once the
      current block is strictly past its end block; without an end block only the flag
      can finish it. */
  function IsFinished(pool: Pool, block: int): (finished: bool)
    ensures pool.sousId == 0 ==> !finished
    ensures pool.sousId != 0 && pool.endBlock.Some? ==>
              (finished <==> pool.isFinished || block > pool.endBlock.value)
    ensures pool.sousId != 0 && pool.endBlock.None? ==> (finished <==> pool.isFinished)
  {
    if pool.sousId == 0 then false else pool.isFinished || PastEnd(block, pool.endBlock)
  }

  /** A pool that is finished stays finished as the chain advances. */
  lemma FinishedIsPermanent(pool: Pool, block: int, later: int)
    requires block <= later && IsFinished(pool, block)
    ensures IsFinished(pool, later)
  {
  }

  /** The end block itself is still open; the block after it is not (for an unflagged pool
      other than pool 0). */
  lemma EndBlockIsLastOpenBlock(pool: Pool)
    requires pool.sousId != 0 && !pool.isFinished && pool.endBlock.Some?
    ensures !IsFinished(pool, pool.endBlock.value)
    ensures IsFinished(pool, pool.endBlock.value + 1)
  {
  }

  /** An unflagged pool other than pool 0 with no end block is open at every block. */
  lemma NoEndBlockStaysOpen(pool: Pool, block: int)
    requires pool.sousId != 0 && !pool.isFinished && pool.endBlock.None?
    ensures !IsFinished(pool, block)
  {
  }
}
