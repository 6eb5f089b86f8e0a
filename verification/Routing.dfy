/**
  The two uint64 window tests that decide where a round is cached and which
  nodes are asked for it, compared with the windows in true integers.
 */
module Routing {
  import opened Basics
  import opened CacheModel

  /** The second test of `last` in getCacheWithPeek, in wrapping arithmetic. */
  predicate AboveWindow(last: U64, round: U64) {
    round > Wrap(last - CACHE_SIZE)
  }

  /** The window half of getCacheWithPeek. */
  predicate InWindow(last: U64, round: U64) {
    round > 0 && (last == 0 || AboveWindow(last, round))
  }

  /** getCacheWithPeek. */
  function Route(m: Mem, round: U64): CacheId {
    if round == 0 || round in m.arch.items then Archive
    else if InWindow(m.catchup.last, round) then Catchup
    else Archive
  }

  /** The test by which LoadBlockSync starts with catchup nodes, in wrapping arithmetic. */
  predicate StartsWithCatchup(latest: U64, round: U64) {
    round > Wrap(latest - CACHE_SIZE + 4)
  }

  /** The round is one of the last 996 up to the tip, in true integers; before round 996 none is. */
  predicate NearTip(latest: U64, round: U64) {
    996 <= latest && latest - 996 < round <= latest
  }

  /** For a round up to the tip, the loader's wrapping test is that window. */
  lemma NearTipExact(latest: U64, round: U64)
    requires round <= latest
    ensures StartsWithCatchup(latest, round) <==> NearTip(latest, round)
  {
  }

  const TWO63: int := 0x8000_0000_0000_0000

  /** The cache window is the true 1000-round window exactly when `last` is 0 or at least 1000. */
  lemma CacheWindowExact(last: U64)
    requires last < TWO63
    ensures (forall round: U64 :: 0 < round < TWO63 ==> (InWindow(last, round) <==> round > last - CACHE_SIZE))
            <==> (last == 0 || last >= CACHE_SIZE)
  {
    if 0 < last < CACHE_SIZE {
      assert !InWindow(last, 1);
    }
  }

  /** The loader's window is the true 996-round window exactly when the tip is at least 996. */
  lemma LoaderWindowExact(latest: U64)
    requires latest < TWO63
    ensures (forall round: U64 :: round < TWO63 ==> (StartsWithCatchup(latest, round) <==> round > latest - 996))
            <==> latest >= 996
  {
    if latest < 996 {
      assert !StartsWithCatchup(latest, 0);
    }
  }

  /** Inside a warm cache, whatever is offered to catchup nodes is also cached in the catchup cache. */
  lemma OfferedToCatchupRoutesToCatchup(m: Mem, latest: U64, round: U64)
    requires CACHE_SIZE <= m.catchup.last <= latest
    requires StartsWithCatchup(latest, round) && round !in m.arch.items
    ensures Route(m, round) == Catchup
  {
  }
}
