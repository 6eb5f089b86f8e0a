/**
  internal/blockcache in its own form: entry objects and channels that are
  updated in place, caches that hold references to them, and the unified cache
  in front of both.  The field updates are those of CacheModel.
 */
module CacheObjects {
  import opened Basics
  import opened CacheModel
  import opened Routing

  /** A Go channel of which only closing matters; closing it twice would panic.  The owner is the
      entry it is made for. */
  class Channel {
    var closed: bool
    ghost const owner: BlockEntry

    constructor (ghost owner: BlockEntry)
      ensures !closed && this.owner == owner
    {
      closed := false;
      this.owner := owner;
    }

    method Close()
      requires !closed
      modifies this
      ensures closed
    {
      closed := true;
    }
  }

  class BlockEntry {
    const round: U64
    var block: Option<BlockWrap>
    var waitFor: Channel?
    var error: Option<string>

    /** The entry of a new promise, with a channel of its own. */
    constructor Promised(round: U64)
      ensures Valid() && this.round == round && block.None? && error.None? && fresh(waitFor)
    {
      this.round, block, waitFor, error := round, None, null, None;
      new;
      waitFor := new Channel(this);
    }

    /** The entry of a result that nothing was promised for. */
    constructor Resolved(w: BlockWrap)
      ensures Valid() && round == w.round && waitFor == null && error == w.error
      ensures block == if w.error.None? then Some(w) else None
    {
      round, waitFor, error := w.round, null, w.error;
      block := if w.error.None? then Some(w) else None;
    }

    ghost predicate Valid()
      reads this, waitFor
    {
      && (error.Some? ==> waitFor == null)
      && (block.None? && error.None? ==> waitFor != null)
      && (waitFor != null ==> !waitFor.closed && waitFor.owner == this)
      && (block.Some? ==> block.value.round == round && block.value.error.None?)
    }

    /** The locked section of promiseBlock on an entry it finds. */
    method Rearm() returns (rearmed: bool)
      requires Valid()
      modifies this
      ensures Valid()
      ensures rearmed <==> old(error).Some?
      ensures block == old(block) && error.None?
      ensures if rearmed then old(waitFor) == null && waitFor != null && fresh(waitFor) else waitFor == old(waitFor)
    {
      rearmed := error.Some?;
      if rearmed {
        waitFor := new Channel(this);
        error := None;
      }
    }

    /** The locked section of addBlock on an entry it finds. */
    method Deliver(w: BlockWrap)
      requires Valid() && w.round == round
      modifies this, waitFor
      ensures Valid()
      ensures old(block).None? && w.error.None? ==> block == Some(w) && error == old(error)
      ensures old(block).None? && old(error).None? && w.error.Some? ==> block.None? && error == w.error
      ensures old(block).Some? || (old(error).Some? && w.error.Some?) ==> block == old(block) && error == old(error)
      ensures waitFor == null && (old(waitFor) != null ==> old(waitFor).closed)
    {
      if block.None? {
        if w.error.None? {
          block := Some(w);
        } else if error.None? {
          error := w.error;
        }
      }
      if (block.Some? || error.Some?) && waitFor != null {
        waitFor.Close();
        waitFor := null;
      }
    }

    /** The first read of getBlock: an error, else a block, else the channel to wait on. */
    method Inspect() returns (found: Option<BlockWrap>, failed: Option<string>, wait: Channel?)
      requires Valid()
      ensures failed == error
      ensures found == (if error.Some? then None else block)
      ensures failed.None? && found.None? ==> wait != null && wait == waitFor && !wait.closed
      ensures failed.Some? || found.Some? ==> wait == null
    {
      found, failed, wait := None, None, null;
      if error.Some? {
        failed := error;
      } else if block.Some? {
        found := block;
      } else {
        wait := waitFor;
      }
    }
  }

  /** The map after an LRU Add of an absent key: nothing is lost but, from a full cache, the victim. */
  ghost predicate Added<T>(before: map<U64, T>, after: map<U64, T>, round: U64, e: T, victim: U64) {
    && round in after && after[round] == e
    && (forall r :: r in after && r != round ==> r in before && after[r] == before[r])
    && (forall r :: r in before ==> r in after || (r == victim && |before| >= CACHE_SIZE))
  }

  method LruAdd<T>(items: map<U64, T>, round: U64, e: T, victim: U64) returns (after: map<U64, T>)
    requires |items| <= CACHE_SIZE && round !in items && CanInsert(items, victim)
    ensures |after| <= CACHE_SIZE && Added(items, after, round, e, victim)
  {
    InsertKeepsBound(items, round, e, victim);
    after := Insert(items, round, e, victim);
  }

  class BlockCache {
    var items: map<U64, BlockEntry>
    var last: U64
    ghost var repr: set<object>

    constructor ()
      ensures Valid() && fresh(repr) && items == map[] && last == 0
    {
      items, last := map[], 0;
      repr := {this};
    }

    /** Entries are filed under their own round, so that no two rounds share an entry or, since a
        channel has one owner, a channel. */
    ghost predicate Valid()
      reads this, repr
    {
      && this in repr && |items| <= CACHE_SIZE
      && (forall r :: r in items ==>
            && items[r] in repr && (items[r].waitFor != null ==> items[r].waitFor in repr)
            && items[r].round == r && items[r].Valid())
    }

    /** PeekOrAdd of an absent key; a full cache evicts the victim. */
    method Put(be: BlockEntry, victim: U64)
      requires Valid() && be.Valid() && be.round !in items && CanInsert(items, victim)
      modifies this`items, this`repr
      ensures Valid() && Added(old(items), items, be.round, be, victim)
      ensures forall o :: o in repr ==> o in old(repr) || o == be || o == be.waitFor
    {
      ghost var before := items;
      items := LruAdd(items, be.round, be, victim);
      repr := repr + {be};
      if be.waitFor != null {
        repr := repr + {be.waitFor};
      }
      forall r | r in items ensures items[r].round == r && items[r].Valid() {
        assert r != be.round ==> r in before && before[r].Valid();
      }
    }

    /** promiseBlock: the round ends up filed and without an error, its channel open if it has no block. */
    method PromiseBlock(round: U64, victim: U64) returns (be: BlockEntry)
      requires Valid() && CanInsert(items, victim)
      modifies repr
      ensures Valid() && fresh(repr - old(repr))
      ensures round in items && items[round] == be && last == old(last)
      ensures be.error.None?
      ensures round in old(items) ==> be == old(items)[round] && items == old(items) && be.block == old(be.block)
      ensures round !in old(items) ==> fresh(be) && be.block.None? && Added(old(items), items, round, be, victim)
      ensures forall r :: r in old(items) && r != round ==> unchanged(old(items)[r])
    {
      if round in items {
        be := items[round];
        var rearmed := be.Rearm();
        if rearmed {
          repr := repr + {be.waitFor};
        }
      } else {
        be := new BlockEntry.Promised(round);
        Put(be, victim);
      }
    }

    /** addBlock: the round ends up filed with a result, its waiters notified, and `last` moved up
        exactly by a newer block. */
    method AddBlock(w: BlockWrap, victim: U64)
      requires Valid() && CanInsert(items, victim)
      modifies repr
      ensures Valid() && fresh(repr - old(repr))
      ensures w.round in items && items[w.round].waitFor == null
      ensures last == if w.error.None? then Max(old(last), w.round) else old(last)
      ensures w.round in old(items) ==>
        var be := old(items)[w.round];
        && items == old(items)
        && (old(be.block).None? && w.error.None? ==> be.block == Some(w) && be.error == old(be.error))
        && (old(be.block).None? && old(be.error).None? && w.error.Some? ==> be.block.None? && be.error == w.error)
        && (old(be.block).Some? || (old(be.error).Some? && w.error.Some?) ==>
              be.block == old(be.block) && be.error == old(be.error))
        && (old(be.waitFor) != null ==> old(be.waitFor).closed)
      ensures w.round !in old(items) ==>
        var be := items[w.round];
        && fresh(be) && Added(old(items), items, w.round, be, victim)
        && be.error == w.error && be.block == if w.error.None? then Some(w) else None
      ensures forall r :: r in old(items) && r != w.round ==> unchanged(old(items)[r])
    {
      if w.round in items {
        items[w.round].Deliver(w);
      } else {
        var be := new BlockEntry.Resolved(w);
        Put(be, victim);
      }
      if last < w.round && w.error.None? {
        last := w.round;
      }
    }

    method IsBlockCached(round: U64) returns (cached: bool)
      ensures cached <==> round in items && items[round].block.Some?
    {
      cached := round in items && items[round].block.Some?;
    }
  }

  class UnifiedBlockCache {
    const catchupCache: BlockCache
    const archCache: BlockCache
    /** The rounds for which a LoadBlockSync goroutine was started, in order. */
    var loads: seq<U64>

    constructor ()
      ensures Valid() && loads == []
      ensures catchupCache.items == map[] && archCache.items == map[]
    {
      catchupCache := new BlockCache();
      archCache := new BlockCache();
      loads := [];
    }

    ghost predicate Valid()
      reads this, catchupCache, archCache, catchupCache.repr, archCache.repr
    {
      && catchupCache.Valid() && archCache.Valid()
      && catchupCache.repr !! archCache.repr && this !in catchupCache.repr && this !in archCache.repr
    }

    /** getCacheWithPeek: with a `last` of 0 or at least 1000 the catchup cache is for the rounds above
        last - 1000, in true integers, that the archive cache does not have; round 0 is never its. */
    function GetCacheWithPeek(round: U64): (c: BlockCache)
      reads this, catchupCache, archCache
      ensures c == catchupCache || c == archCache
      ensures round == 0 || round in archCache.items ==> c == archCache
      ensures catchupCache.last == 0 && round > 0 && round !in archCache.items ==> c == catchupCache
      ensures catchupCache.last >= CACHE_SIZE && round > 0 && round !in archCache.items ==>
        c == if round > catchupCache.last - CACHE_SIZE then catchupCache else archCache
    {
      if round == 0 || round in archCache.items then archCache
      else if InWindow(catchupCache.last, round) then catchupCache
      else archCache
    }

    /** It routes as the transition system does. */
    lemma RoutesAlike(m: Mem, round: U64)
      requires Valid() && m.arch.items.Keys == archCache.items.Keys && m.catchup.last == catchupCache.last
      ensures GetCacheWithPeek(round) == if Route(m, round) == Catchup then catchupCache else archCache
    {
    }

    method AddBlock(w: BlockWrap, victim: U64)
      requires Valid()
      requires var c := GetCacheWithPeek(w.round); CanInsert(c.items, victim)
      modifies GetCacheWithPeek(w.round).repr
      ensures Valid()
      ensures var c := old(GetCacheWithPeek(w.round));
        && w.round in c.items && c.items[w.round].waitFor == null
        && (c.items[w.round].block.Some? || c.items[w.round].error.Some?)
        && c.last == if w.error.None? then Max(old(c.last), w.round) else old(c.last)
      ensures var c := old(GetCacheWithPeek(w.round));
        w.round in old(c.items) ==>
          var be := c.items[w.round];
          && c.items == old(c.items)
          && (old(be.block).None? && w.error.None? ==> be.block == Some(w) && be.error == old(be.error))
          && (old(be.block).None? && old(be.error).None? && w.error.Some? ==> be.block.None? && be.error == w.error)
          && (old(be.block).Some? || (old(be.error).Some? && w.error.Some?) ==>
                be.block == old(be.block) && be.error == old(be.error))
          && (old(be.waitFor) != null ==> old(be.waitFor).closed)
      ensures var c := old(GetCacheWithPeek(w.round));
        w.round !in old(c.items) ==>
          var be := c.items[w.round];
          && fresh(be) && Added(old(c.items), c.items, w.round, be, victim)
          && be.error == w.error && be.block == if w.error.None? then Some(w) else None
    {
      var c := GetCacheWithPeek(w.round);
      c.AddBlock(w, victim);
    }

    method PromiseBlock(round: U64, victim: U64) returns (be: BlockEntry)
      requires Valid()
      requires var c := GetCacheWithPeek(round); CanInsert(c.items, victim)
      modifies `loads, GetCacheWithPeek(round).repr
      ensures Valid()
      ensures loads == old(loads) + [round]
      ensures var c := old(GetCacheWithPeek(round)); round in c.items && c.items[round] == be && be.error.None?
      ensures var c := old(GetCacheWithPeek(round));
        if round in old(c.items) then c.items == old(c.items) && be.block == old(be.block)
        else fresh(be) && be.block.None? && Added(old(c.items), c.items, round, be, victim)
    {
      var c := GetCacheWithPeek(round);
      be := c.PromiseBlock(round, victim);
      loads := loads + [round];
    }

    method IsBlockCached(round: U64) returns (cached: bool)
      ensures cached <==>
        || (round in catchupCache.items && catchupCache.items[round].block.Some?)
        || (round in archCache.items && archCache.items[round].block.Some?)
    {
      cached := catchupCache.IsBlockCached(round);
      if !cached {
        cached := archCache.IsBlockCached(round);
      }
    }
  }
}
