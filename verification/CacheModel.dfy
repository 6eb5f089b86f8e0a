/**
  The memory of the promise cache: entry objects, the wait channels they own
  and the two LRU maps that hold references to entries.  Each function below is
  one locked section of internal/blockcache/cache.go, so that a run of the
  cache is a sequence of these operations in any order.
 */
module CacheModel {
  import opened Basics

  /** CatchupSize and ArchSize. */
  const CACHE_SIZE := 1000

  datatype CacheId = Catchup | Archive

  function Other(c: CacheId): CacheId {
    if c.Catchup? then Archive else Catchup
  }

  /** A wrapped block, or the error that stands in for it. `src` is the node it came from. */
  datatype BlockWrap = BlockWrap(round: U64, src: nat, body: nat, error: Option<string>)

  /** A BlockEntry object; `waitFor` is the identity of its wait channel. */
  datatype Entry = Entry(round: U64, block: Option<BlockWrap>, waitFor: Option<nat>, error: Option<string>) {
    predicate Pending() {
      block.None? && error.None?
    }
  }

  /** A channel; `owner` records the entry object it was installed in. */
  datatype Chan = Chan(owner: nat, closed: bool)

  /** A BlockCache: the LRU as a bounded map from round to entry identity, and `last`. */
  datatype Cache = Cache(items: map<U64, nat>, last: U64)

  datatype Mem = Mem(entries: seq<Entry>, chans: seq<Chan>, catchup: Cache, arch: Cache) {
    function At(c: CacheId): Cache {
      if c.Catchup? then catchup else arch
    }

    function With(c: CacheId, x: Cache): Mem {
      if c.Catchup? then this.(catchup := x) else this.(arch := x)
    }
  }

  /** LRU Add of an absent key: a full cache first gives up one key of its own choosing. */
  function Insert<T>(items: map<U64, T>, round: U64, e: T, victim: U64): map<U64, T> {
    if |items| < CACHE_SIZE then items[round := e] else (items - {victim})[round := e]
  }

  predicate CanInsert<T>(items: map<U64, T>, victim: U64) {
    |items| < CACHE_SIZE || victim in items
  }

  /** promiseBlock, key absent: a fresh entry owning a fresh open channel. */
  function PromiseInsert(m: Mem, c: CacheId, round: U64, victim: U64): Mem {
    var e := |m.entries|;
    m.(entries := m.entries + [Entry(round, None, Some(|m.chans|), None)],
       chans := m.chans + [Chan(e, false)])
     .With(c, m.At(c).(items := Insert(m.At(c).items, round, e, victim)))
  }

  /** promiseBlock, key present: the locked section that re-arms a failed entry. */
  function Rearm(m: Mem, e: nat): Mem
    requires e < |m.entries|
  {
    if m.entries[e].error.Some? then
      m.(entries := m.entries[e := m.entries[e].(waitFor := Some(|m.chans|), error := None)],
         chans := m.chans + [Chan(e, false)])
    else m
  }

  /** addBlock, key absent: the delivered result becomes an entry without a channel. */
  function AddInsert(m: Mem, c: CacheId, w: BlockWrap, victim: U64): Mem {
    var e := |m.entries|;
    m.(entries := m.entries + [Entry(w.round, if w.error.None? then Some(w) else None, None, w.error)])
     .With(c, m.At(c).(items := Insert(m.At(c).items, w.round, e, victim)))
  }

  /** The block and error fields after a delivery to an entry that held `block` and `error`. */
  function Settle(block: Option<BlockWrap>, error: Option<string>, w: BlockWrap): (Option<BlockWrap>, Option<string>) {
    if block.Some? then (block, error)
    else if w.error.None? then (Some(w), error)
    else (None, if error.None? then w.error else error)
  }

  /** addBlock, key present: settle the entry, then close and detach its channel if it has a result. */
  function Deliver(m: Mem, e: nat, w: BlockWrap): Mem
    requires e < |m.entries|
  {
    var was := m.entries[e];
    var (b, err) := Settle(was.block, was.error, w);
    if (b.Some? || err.Some?) && was.waitFor.Some? then
      m.(entries := m.entries[e := was.(block := b, error := err, waitFor := None)],
         chans := CloseChan(m.chans, was.waitFor.value))
    else
      m.(entries := m.entries[e := was.(block := b, error := err)])
  }

  function CloseChan(chans: seq<Chan>, k: nat): seq<Chan> {
    if k < |chans| then chans[k := chans[k].(closed := true)] else chans
  }

  /** The tail of addBlock: `last` follows the newest block stored without error. */
  function BumpLast(m: Mem, c: CacheId, w: BlockWrap): Mem {
    if m.At(c).last < w.round && w.error.None? then m.With(c, m.At(c).(last := w.round)) else m
  }

  const EMPTY := Mem([], [], Cache(map[], 0), Cache(map[], 0))

  /** One of the operations above, by which the memory of a run changes. */
  datatype Op =
    | NoOp
    | PromiseOp(c: CacheId, round: U64, victim: U64)
    | RearmOp(e: nat)
    | AddOp(c: CacheId, w: BlockWrap, victim: U64)
    | DeliverOp(e: nat, w: BlockWrap)
    | BumpOp(c: CacheId, w: BlockWrap)

  predicate Allowed(m: Mem, op: Op) {
    match op
    case NoOp => true
    case PromiseOp(c, round, victim) => round !in m.At(c).items && CanInsert(m.At(c).items, victim)
    case RearmOp(e) => e < |m.entries|
    case AddOp(c, w, victim) => w.round !in m.At(c).items && CanInsert(m.At(c).items, victim)
    case DeliverOp(e, w) => e < |m.entries| && m.entries[e].round == w.round
    case BumpOp(c, w) => true
  }

  function Perform(m: Mem, op: Op): Mem
    requires Allowed(m, op)
  {
    match op
    case NoOp => m
    case PromiseOp(c, round, victim) => PromiseInsert(m, c, round, victim)
    case RearmOp(e) => Rearm(m, e)
    case AddOp(c, w, victim) => AddInsert(m, c, w, victim)
    case DeliverOp(e, w) => Deliver(m, e, w)
    case BumpOp(c, w) => BumpLast(m, c, w)
  }

  // ----- what every operation keeps

  /** The field discipline of one entry object. */
  predicate EntryOk(e: Entry) {
    && (e.error.Some? ==> e.waitFor.None?)
    && (e.Pending() ==> e.waitFor.Some?)
    && (e.block.Some? ==> e.block.value.round == e.round && e.block.value.error.None?)
  }

  predicate CacheOk(m: Mem, c: CacheId) {
    && |m.At(c).items| <= CACHE_SIZE
    && forall r :: r in m.At(c).items ==>
         m.At(c).items[r] < |m.entries| && m.entries[m.At(c).items[r]].round == r
  }

  /** A channel is open exactly while it is attached to the one entry that owns it. */
  predicate ChanOk(m: Mem, k: nat)
    requires k < |m.chans|
  {
    && m.chans[k].owner < |m.entries|
    && (!m.chans[k].closed <==> m.entries[m.chans[k].owner].waitFor == Some(k))
  }

  predicate WaitOk(m: Mem, e: nat)
    requires e < |m.entries|
  {
    m.entries[e].waitFor.Some? ==>
      m.entries[e].waitFor.value < |m.chans| && m.chans[m.entries[e].waitFor.value].owner == e
  }

  ghost predicate MemOk(m: Mem) {
    && (forall e :: 0 <= e < |m.entries| ==> EntryOk(m.entries[e]) && WaitOk(m, e))
    && (forall k :: 0 <= k < |m.chans| ==> ChanOk(m, k))
    && CacheOk(m, Catchup) && CacheOk(m, Archive)
  }

  /** Every locked section keeps the discipline of entries, channels and both caches. */
  lemma PerformKeepsMemOk(m: Mem, op: Op)
    requires MemOk(m) && Allowed(m, op)
    ensures MemOk(Perform(m, op))
  {
    var n := Perform(m, op);
    forall e | 0 <= e < |n.entries| ensures EntryOk(n.entries[e]) && WaitOk(n, e) {
      PerformKeepsEntry(m, op, e);
    }
    forall k | 0 <= k < |n.chans| ensures ChanOk(n, k) {
      PerformKeepsChan(m, op, k);
    }
    PerformKeepsCache(m, op, Catchup);
    PerformKeepsCache(m, op, Archive);
  }

  lemma PerformKeepsEntry(m: Mem, op: Op, e: nat)
    requires Allowed(m, op) && e < |Perform(m, op).entries|
    requires e < |m.entries| ==> EntryOk(m.entries[e]) && WaitOk(m, e)
    ensures EntryOk(Perform(m, op).entries[e]) && WaitOk(Perform(m, op), e)
  {
  }

  lemma PerformKeepsChan(m: Mem, op: Op, k: nat)
    requires Allowed(m, op) && k < |Perform(m, op).chans|
    requires k < |m.chans| ==> ChanOk(m, k)
    requires op.DeliverOp? || op.RearmOp? ==> EntryOk(m.entries[op.e]) && WaitOk(m, op.e)
    ensures ChanOk(Perform(m, op), k)
  {
  }

  lemma PerformKeepsCache(m: Mem, op: Op, c: CacheId)
    requires CacheOk(m, c) && Allowed(m, op)
    ensures CacheOk(Perform(m, op), c)
  {
    if op.PromiseOp? && op.c == c {
      InsertKeepsCache(m, Perform(m, op), c, op.round, op.victim);
    } else if op.AddOp? && op.c == c {
      InsertKeepsCache(m, Perform(m, op), c, op.w.round, op.victim);
    } else {
      PerformKeepsItems(m, op, c);
    }
  }

  lemma PerformKeepsItems(m: Mem, op: Op, c: CacheId)
    requires Allowed(m, op) && (op.PromiseOp? || op.AddOp? ==> op.c != c)
    ensures var n := Perform(m, op);
      && n.At(c).items == m.At(c).items && |m.entries| <= |n.entries|
      && (forall e :: 0 <= e < |m.entries| ==> n.entries[e].round == m.entries[e].round)
  {
  }

  lemma InsertKeepsCache(m: Mem, n: Mem, c: CacheId, round: U64, victim: U64)
    requires CacheOk(m, c) && round !in m.At(c).items && CanInsert(m.At(c).items, victim)
    requires n.At(c).items == Insert(m.At(c).items, round, |m.entries|, victim)
    requires |n.entries| == |m.entries| + 1 && n.entries[|m.entries|].round == round
    requires forall e :: 0 <= e < |m.entries| ==> n.entries[e] == m.entries[e]
    ensures CacheOk(n, c)
  {
    InsertKeepsBound(m.At(c).items, round, |m.entries|, victim);
  }

  lemma InsertKeepsBound<T>(items: map<U64, T>, round: U64, e: T, victim: U64)
    requires |items| <= CACHE_SIZE && round !in items && CanInsert(items, victim)
    ensures |Insert(items, round, e, victim)| <= CACHE_SIZE
    ensures round in Insert(items, round, e, victim) && Insert(items, round, e, victim)[round] == e
    ensures forall r :: r in Insert(items, round, e, victim) && r != round ==>
              r in items && Insert(items, round, e, victim)[r] == items[r]
  {
    if |items| >= CACHE_SIZE {
      var rest := items - {victim};
      assert rest.Keys == items.Keys - {victim};
      assert |rest.Keys| == |items.Keys| - 1;
      assert rest[round := e].Keys == rest.Keys + {round};
      assert |rest[round := e].Keys| == |rest.Keys| + 1;
    } else {
      assert items[round := e].Keys == items.Keys + {round};
    }
  }

  /** What one entry and one channel may undergo in one operation. */
  predicate EntryStep(a: Entry, b: Entry) {
    && a.round == b.round
    && (a.block.Some? ==> b.block == a.block && (b.error == a.error || b.error.None?))
  }

  /** Identities persist; blocks are write-once; a set block leaves the error clearable only. */
  lemma PerformKeepsHistory(m: Mem, op: Op)
    requires Allowed(m, op)
    ensures var n := Perform(m, op);
      && |m.entries| <= |n.entries|
      && |m.chans| <= |n.chans|
      && m.catchup.last <= n.catchup.last && m.arch.last <= n.arch.last
      && (forall e :: 0 <= e < |m.entries| ==> EntryStep(m.entries[e], n.entries[e]))
  {
  }

  /** Channels are conserved: owners are fixed, closing is final, and a channel is closed only by
      the delivery to its owner that also detaches it. */
  lemma ChannelConservation(m: Mem, op: Op, k: nat)
    requires Allowed(m, op) && k < |m.chans|
    requires op.DeliverOp? ==> WaitOk(m, op.e)
    ensures var n := Perform(m, op);
      && k < |n.chans| && n.chans[k].owner == m.chans[k].owner
      && (m.chans[k].closed ==> n.chans[k].closed)
      && (!m.chans[k].closed && n.chans[k].closed ==>
            && op.DeliverOp? && op.e == m.chans[k].owner
            && m.entries[op.e].waitFor == Some(k) && n.entries[op.e].waitFor.None?)
  {
  }
}
