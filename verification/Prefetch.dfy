/**
  The sequential-read prefetcher of internal/algod/prefetch.go: streams of
  requests are recognised, and after the third hit a stream keeps a window of
  promised rounds ahead of its reader.
 */
module Prefetch {
  import opened Basics

  const BP_COUNT := 30

  /** A BlockPrefetch, with the history of the rounds it matched and the rounds it considered
      for promising, both in order.  Hits is taken as unbounded. */
  datatype Stream = Stream(
    firstReq: U64, lastReq: U64, lastPre: U64, nextPre: U64, hits: nat, lastPreAt: int,
    matched: seq<U64>, considered: seq<U64>)

  predicate Matches(st: Stream, round: U64) {
    st.firstReq <= round <= Wrap(st.lastReq + 1)
  }

  function Opened(round: U64, now: int): Stream {
    Stream(round, round, round, 0, 0, now, [], [])
  }

  /** The rounds of the loop from preFrom to preTo; none if preTo has wrapped below preFrom. */
  function Rounds(preFrom: U64, preTo: U64): (r: seq<U64>)
    ensures |r| == if preFrom <= preTo then preTo - preFrom + 1 else 0
    ensures forall i :: 0 <= i < |r| ==> r[i] == preFrom + i
    decreases preTo
  {
    if preFrom > preTo then []
    else if preTo == 0 then [0]
    else Rounds(preFrom, preTo - 1) + [preTo]
  }

  /** The rounds prefetchDetect loops over when the stream takes the round. */
  function Window(st: Stream, round: U64): seq<U64> {
    if st.hits + 1 <= 2 then []
    else if st.nextPre == 0 then Rounds(Wrap(st.lastPre + 1), Wrap(st.lastPre + BP_COUNT))
    else if round > st.nextPre then Rounds(Wrap(st.lastPre + 1), Wrap(st.lastPre + BP_COUNT / 2))
    else []
  }

  /** The stream after it takes the round, in uint64 arithmetic. */
  function Touch(st: Stream, round: U64, now: int): Stream {
    var hit := st.(lastReq := round, hits := st.hits + 1,
                   matched := st.matched + [round], considered := st.considered + Window(st, round));
    if hit.hits <= 2 then hit
    else if st.nextPre == 0 then
      hit.(lastPre := Wrap(st.lastPre + BP_COUNT), nextPre := Wrap(round + BP_COUNT / 2), lastPreAt := now)
    else if round > st.nextPre then
      hit.(lastPre := Wrap(st.lastPre + BP_COUNT / 2), nextPre := Wrap(st.nextPre + BP_COUNT / 2), lastPreAt := now)
    else hit
  }

  // ----- the bounds of one stream

  predicate HistoryOk(st: Stream) {
    && st.matched != [] && st.hits == |st.matched|
    && st.matched[0] == st.firstReq && st.matched[|st.matched| - 1] == st.lastReq
    && forall i :: 0 <= i < |st.matched| ==> st.firstReq <= st.matched[i]
  }

  /** The considered rounds are exactly (firstReq, lastPre], in order, each once. */
  predicate Tiled(st: Stream) {
    && st.firstReq <= st.lastPre && |st.considered| == st.lastPre - st.firstReq
    && forall i :: 0 <= i < |st.considered| ==> st.considered[i] == st.firstReq + 1 + i
  }

  /** Up to two hits a stream is idle and has advanced at most one round per hit. */
  predicate Idle(st: Stream) {
    && st.nextPre == 0 && st.lastPre == st.firstReq
    && forall i :: 0 <= i < |st.matched| ==> st.matched[i] <= st.firstReq + |st.matched| - 1
  }

  /** From the third hit on its promised window is 13 to 15 rounds ahead of NextPre, NextPre is not
      behind any matched round, and the window ends at most 30 past the furthest matched round. */
  predicate Armed(st: Stream) {
    && 0 < st.nextPre && st.nextPre + 13 <= st.lastPre <= st.nextPre + 15
    && (forall i :: 0 <= i < |st.matched| ==> st.matched[i] <= st.nextPre)
    && (exists i :: 0 <= i < |st.matched| && st.lastPre <= st.matched[i] + BP_COUNT)
  }

  predicate StreamOk(st: Stream) {
    HistoryOk(st) && Tiled(st) && (if st.hits <= 2 then Idle(st) else Armed(st))
  }

  /** The largest round whose window ends below the largest uint64, which the loop could not pass. */
  const LAST_SAFE: int := TWO64 - 2 - BP_COUNT

  lemma OpenedOk(round: U64, now: int)
    ensures StreamOk(Touch(Opened(round, now), round, now))
  {
  }

  /** How far taking the round moves LastPre. */
  function Ahead(st: Stream, round: U64): nat {
    if st.hits + 1 <= 2 then 0
    else if st.nextPre == 0 then BP_COUNT
    else if round > st.nextPre then BP_COUNT / 2
    else 0
  }

  lemma TouchTiles(st: Stream, round: U64, now: int)
    requires Tiled(st) && st.lastPre + Ahead(st, round) < TWO64
    ensures Tiled(Touch(st, round, now))
  {
    var w := Window(st, round);
    var t := Touch(st, round, now);
    forall i | 0 <= i < |t.considered| ensures t.considered[i] == t.firstReq + 1 + i {
      if i >= |st.considered| {
        assert t.considered[i] == w[i - |st.considered|];
      } else {
        assert t.considered[i] == st.considered[i];
      }
    }
  }

  lemma TouchKeepsHistory(st: Stream, round: U64, now: int)
    requires HistoryOk(st) && st.firstReq <= round
    ensures HistoryOk(Touch(st, round, now))
  {
  }

  lemma TouchIdle(st: Stream, round: U64, now: int)
    requires HistoryOk(st) && Idle(st) && Matches(st, round) && st.hits <= 2
    requires st.lastPre + Ahead(st, round) < TWO64
    ensures var t := Touch(st, round, now); if t.hits <= 2 then Idle(t) else Armed(t)
  {
    var t := Touch(st, round, now);
    assert t.matched[0] == t.firstReq;
  }

  lemma TouchArmed(st: Stream, round: U64, now: int)
    requires HistoryOk(st) && Armed(st) && Matches(st, round) && st.hits > 2
    requires st.lastPre + Ahead(st, round) < TWO64
    ensures Armed(Touch(st, round, now))
  {
    var t := Touch(st, round, now);
    var k := |st.matched|;
    assert t.matched[k] == round;
    if round > st.nextPre {
      assert t.lastPre <= t.matched[k] + BP_COUNT;
    } else {
      var i :| 0 <= i < |st.matched| && st.lastPre <= st.matched[i] + BP_COUNT;
      assert t.matched[i] == st.matched[i];
    }
  }

  /** A stream within its bounds that began in the safe range takes a safe round without wrapping,
      and its prefetch loop ends. */
  lemma WindowFits(st: Stream, round: U64)
    requires StreamOk(st) && st.firstReq <= LAST_SAFE && round <= LAST_SAFE
    ensures st.lastPre + Ahead(st, round) < TWO64 && WindowEnds(st, round)
  {
  }

  /** Taking a matching round keeps the bounds exactly if the end of the window it adds, if any, is
      a uint64; beyond that LastPre wraps. */
  lemma TouchExact(st: Stream, round: U64, now: int)
    requires StreamOk(st) && Matches(st, round)
    ensures StreamOk(Touch(st, round, now)) <==> st.lastPre + Ahead(st, round) < TWO64
  {
    if st.lastPre + Ahead(st, round) < TWO64 {
      TouchTiles(st, round, now);
      TouchKeepsHistory(st, round, now);
      if st.hits <= 2 {
        TouchIdle(st, round, now);
      } else {
        TouchArmed(st, round, now);
      }
    } else {
      WrapBreaksTiling(st, round, now);
    }
  }

  /** A wrapped LastPre falls behind the rounds already considered. */
  lemma WrapBreaksTiling(st: Stream, round: U64, now: int)
    requires Tiled(st) && st.lastPre + Ahead(st, round) >= TWO64
    ensures !Tiled(Touch(st, round, now))
  {
    var t := Touch(st, round, now);
    assert t.lastPre < st.lastPre && |t.considered| >= |st.considered|;
  }

  // ----- the list of streams

  /** The position of the first stream that matches the round, or the length of the list. */
  function FirstMatch(bps: seq<Stream>, round: U64): (i: nat)
    ensures i <= |bps|
    ensures i < |bps| ==> Matches(bps[i], round)
    ensures forall j :: 0 <= j < i ==> !Matches(bps[j], round)
  {
    if bps == [] then 0
    else if Matches(bps[0], round) then 0
    else 1 + FirstMatch(bps[1..], round)
  }

  /** The stream that takes the round: the first that matches, or a new one. */
  function Taker(bps: seq<Stream>, round: U64, now: int): Stream {
    var i := FirstMatch(bps, round);
    if i < |bps| then bps[i] else Opened(round, now)
  }

  /** prefetchDetect before pruning. */
  function Detect(bps: seq<Stream>, round: U64, now: int): seq<Stream> {
    var i := FirstMatch(bps, round);
    var taken := Touch(Taker(bps, round, now), round, now);
    if i < |bps| then bps[i := taken] else bps + [taken]
  }

  /** The streams with a place for the one that takes the round. */
  function Extended(bps: seq<Stream>, round: U64, now: int): seq<Stream> {
    if FirstMatch(bps, round) < |bps| then bps else bps + [Opened(round, now)]
  }

  lemma DetectInPlace(bps: seq<Stream>, round: U64, now: int)
    ensures var i, ext := FirstMatch(bps, round), Extended(bps, round, now);
      && i < |ext| && ext[i] == Taker(bps, round, now)
      && Detect(bps, round, now) == ext[i := Touch(ext[i], round, now)]
  {
  }

  /** prefetchPrune: the streams whose last prefetch is at most a minute old. */
  function Prune(bps: seq<Stream>, now: int): seq<Stream> {
    PruneUpTo(bps, |bps|, now)
  }

  function PruneUpTo(bps: seq<Stream>, i: nat, now: int): seq<Stream>
    requires i <= |bps|
  {
    if i == 0 then []
    else if bps[i - 1].lastPreAt < now - 60 then PruneUpTo(bps, i - 1, now)
    else PruneUpTo(bps, i - 1, now) + [bps[i - 1]]
  }

  predicate Expired(st: Stream, now: int) {
    st.lastPreAt < now - 60
  }

  /** Pruning picks exactly the positions of the streams that have not expired, in order. */
  lemma {:induction false} PruneExact(bps: seq<Stream>, i: nat, now: int) returns (ks: seq<nat>)
    requires i <= |bps|
    ensures |ks| == |PruneUpTo(bps, i, now)|
    ensures forall j :: 0 <= j < |ks| ==> ks[j] < i && PruneUpTo(bps, i, now)[j] == bps[ks[j]]
    ensures forall a, b :: 0 <= a < b < |ks| ==> ks[a] < ks[b]
    ensures forall k :: 0 <= k < i ==> (k in ks <==> !Expired(bps[k], now))
  {
    ks := [];
    if i > 0 {
      var front := PruneExact(bps, i - 1, now);
      ks := front;
      if !Expired(bps[i - 1], now) {
        ks := front + [i - 1];
      }
      assert forall k :: 0 <= k < i - 1 ==> (k in ks <==> k in front);
    }
  }

  /** A request for a round at a time. */
  datatype Request = Request(round: U64, now: int)

  /** The streams after a sequence of requests. */
  function After(requests: seq<Request>): seq<Stream> {
    if requests == [] then []
    else
      var r := requests[|requests| - 1];
      Prune(Detect(After(requests[..|requests| - 1]), r.round, r.now), r.now)
  }

  predicate AllOk(bps: seq<Stream>) {
    forall i :: 0 <= i < |bps| ==> StreamOk(bps[i])
  }

  /** The window that the request adds to the stream that takes it, if any, ends within a uint64. */
  predicate Fits(bps: seq<Stream>, r: Request) {
    var st := Taker(bps, r.round, r.now);
    st.lastPre + Ahead(st, r.round) < TWO64
  }

  lemma {:induction false} PruneKeepsAllOk(bps: seq<Stream>, i: nat, now: int)
    requires AllOk(bps) && i <= |bps|
    ensures AllOk(PruneUpTo(bps, i, now))
  {
    if i > 0 {
      PruneKeepsAllOk(bps, i - 1, now);
    }
  }

  lemma {:induction false} PruneKeepsFresh(bps: seq<Stream>, i: nat, now: int, k: nat)
    requires k < i <= |bps| && bps[k].lastPreAt >= now - 60
    ensures exists m :: 0 <= m < |PruneUpTo(bps, i, now)| && PruneUpTo(bps, i, now)[m] == bps[k]
  {
    if k == i - 1 {
      assert PruneUpTo(bps, i, now)[|PruneUpTo(bps, i, now)| - 1] == bps[k];
    } else {
      PruneKeepsFresh(bps, i - 1, now, k);
      var m :| 0 <= m < |PruneUpTo(bps, i - 1, now)| && PruneUpTo(bps, i - 1, now)[m] == bps[k];
      assert PruneUpTo(bps, i, now)[m] == bps[k];
    }
  }

  lemma DetectExact(bps: seq<Stream>, r: Request)
    requires AllOk(bps)
    ensures AllOk(Detect(bps, r.round, r.now)) <==> Fits(bps, r)
  {
    var i := FirstMatch(bps, r.round);
    var taken := Touch(Taker(bps, r.round, r.now), r.round, r.now);
    if i < |bps| {
      TouchExact(bps[i], r.round, r.now);
      ReplaceExact(bps, i, taken);
    } else {
      OpenedOk(r.round, r.now);
      assert AllOk(bps + [taken]);
    }
  }

  lemma ReplaceExact(bps: seq<Stream>, i: nat, st: Stream)
    requires AllOk(bps) && i < |bps|
    ensures AllOk(bps[i := st]) <==> StreamOk(st)
  {
    if AllOk(bps[i := st]) {
      assert bps[i := st][i] == st;
    }
  }

  /** One request keeps every stream within its bounds exactly if its window fits: the stream that
      breaks them has just prefetched, so that pruning does not drop it. */
  lemma RequestExact(bps: seq<Stream>, r: Request)
    requires AllOk(bps)
    ensures AllOk(Prune(Detect(bps, r.round, r.now), r.now)) <==> Fits(bps, r)
  {
    DetectExact(bps, r);
    var detected := Detect(bps, r.round, r.now);
    if Fits(bps, r) {
      PruneKeepsAllOk(detected, |detected|, r.now);
    } else {
      var i := FirstMatch(bps, r.round);
      TouchExact(bps[i], r.round, r.now);
      PruneKeepsFresh(detected, |detected|, r.now, i);
    }
  }

  predicate OkAt(requests: seq<Request>, n: nat)
    requires n <= |requests|
  {
    AllOk(After(requests[..n]))
  }

  predicate FitsAt(requests: seq<Request>, n: nat)
    requires n < |requests|
  {
    Fits(After(requests[..n]), requests[n])
  }

  lemma StepExact(requests: seq<Request>, n: nat)
    requires n < |requests| && OkAt(requests, n)
    ensures OkAt(requests, n + 1) <==> FitsAt(requests, n)
  {
    assert requests[..n + 1][..n] == requests[..n];
    RequestExact(After(requests[..n]), requests[n]);
  }

  lemma {:induction false} FittingRunIsOk(requests: seq<Request>, n: nat)
    requires n <= |requests| && forall k :: 0 <= k < n ==> FitsAt(requests, k)
    ensures OkAt(requests, n)
  {
    if n == 0 {
      NoStreamIsOk(requests);
    } else {
      FittingRunIsOk(requests, n - 1);
      assert FitsAt(requests, n - 1);
      StepExact(requests, n - 1);
    }
  }

  lemma NoStreamIsOk(requests: seq<Request>)
    ensures OkAt(requests, 0)
  {
    assert requests[..0] == [];
  }

  /** For every sequence of requests: all along it every stream is idle up to its second hit, keeps its
      prefetch bounds from exactly its third hit on and tiles (FirstReq, LastPre], if and only if no
      request opens a window that ends beyond the uint64 range. */
  lemma StreamsKeepTheirBounds(requests: seq<Request>)
    ensures (forall n :: 0 <= n <= |requests| ==> OkAt(requests, n))
       <==> (forall n :: 0 <= n < |requests| ==> FitsAt(requests, n))
  {
    if forall n :: 0 <= n <= |requests| ==> OkAt(requests, n) {
      forall n | 0 <= n < |requests| ensures FitsAt(requests, n) {
        assert OkAt(requests, n) && OkAt(requests, n + 1);
        StepExact(requests, n);
      }
    }
    if forall n :: 0 <= n < |requests| ==> FitsAt(requests, n) {
      forall n | 0 <= n <= |requests| ensures OkAt(requests, n) {
        FittingRunIsOk(requests, n);
      }
    }
  }

  predicate AllSafe(bps: seq<Stream>) {
    forall i :: 0 <= i < |bps| ==> bps[i].firstReq <= LAST_SAFE
  }

  lemma {:induction false} PruneKeepsSafe(bps: seq<Stream>, i: nat, now: int)
    requires AllSafe(bps) && i <= |bps|
    ensures AllSafe(PruneUpTo(bps, i, now))
  {
    if i > 0 {
      PruneKeepsSafe(bps, i - 1, now);
    }
  }

  lemma SafeRequest(bps: seq<Stream>, r: Request)
    requires AllOk(bps) && AllSafe(bps) && r.round <= LAST_SAFE
    ensures Fits(bps, r) && WindowEnds(Taker(bps, r.round, r.now), r.round)
    ensures AllSafe(Prune(Detect(bps, r.round, r.now), r.now))
  {
    var i := FirstMatch(bps, r.round);
    if i < |bps| {
      WindowFits(bps[i], r.round);
    }
    var detected := Detect(bps, r.round, r.now);
    assert AllSafe(detected);
    PruneKeepsSafe(detected, |detected|, r.now);
  }

  predicate SafeAt(requests: seq<Request>, n: nat)
    requires n <= |requests|
  {
    AllSafe(After(requests[..n]))
  }

  /** The prefetch loop of the n-th request comes to an end. */
  predicate EndsAt(requests: seq<Request>, n: nat)
    requires n < |requests|
  {
    WindowEnds(Taker(After(requests[..n]), requests[n].round, requests[n].now), requests[n].round)
  }

  lemma SafeStep(requests: seq<Request>, n: nat)
    requires n < |requests| && requests[n].round <= LAST_SAFE && OkAt(requests, n) && SafeAt(requests, n)
    ensures FitsAt(requests, n) && EndsAt(requests, n) && OkAt(requests, n + 1) && SafeAt(requests, n + 1)
  {
    SafeRequest(After(requests[..n]), requests[n]);
    StepExact(requests, n);
    assert requests[..n + 1][..n] == requests[..n];
  }

  lemma {:induction false} SafeRunIsOk(requests: seq<Request>, n: nat)
    requires n <= |requests| && forall i :: 0 <= i < n ==> requests[i].round <= LAST_SAFE
    ensures OkAt(requests, n) && SafeAt(requests, n)
  {
    if n > 0 {
      SafeRunIsOk(requests, n - 1);
      SafeStep(requests, n - 1);
    }
  }

  /** In particular all is well, and every prefetch loop ends, as long as no request is beyond 2^64-32. */
  lemma SafeRequestsFit(requests: seq<Request>, n: nat)
    requires n < |requests| && forall i :: 0 <= i <= n ==> requests[i].round <= LAST_SAFE
    ensures FitsAt(requests, n) && EndsAt(requests, n) && OkAt(requests, n + 1)
  {
    SafeRunIsOk(requests, n);
    SafeStep(requests, n);
  }

  lemma AfterOneMore(requests: seq<Request>, r: Request, st: Stream)
    requires After(requests) == [st] && Matches(st, r.round) && Touch(st, r.round, r.now).lastPreAt >= r.now - 60
    ensures After(requests + [r]) == [Touch(st, r.round, r.now)]
  {
    var all, taken := requests + [r], Touch(st, r.round, r.now);
    assert all[..|all| - 1] == requests;
    DetectOne(st, r.round, r.now);
    OneStays(taken, r.now);
    calc {
      After(all);
      Prune(Detect(After(requests), r.round, r.now), r.now);
      Prune([taken], r.now);
      [taken];
    }
  }

  lemma DetectOne(st: Stream, round: U64, now: int)
    requires Matches(st, round)
    ensures Detect([st], round, now) == [Touch(st, round, now)]
  {
    assert FirstMatch([st], round) == 0;
  }

  lemma AfterFirst(r: Request)
    ensures After([r]) == [Touch(Opened(r.round, r.now), r.round, r.now)]
  {
    assert [r][..0] == [];
    var taken := Touch(Opened(r.round, r.now), r.round, r.now);
    assert Detect([], r.round, r.now) == [taken];
    OneStays(taken, r.now);
  }

  lemma OneStays(st: Stream, now: int)
    requires st.lastPreAt >= now - 60
    ensures Prune([st], now) == [st]
  {
    assert PruneUpTo([st], 0, now) == [];
  }

  /** The stream after n requests for the same round at the same time. */
  function Repeated(r: Request, n: nat): Stream {
    if n == 0 then Opened(r.round, r.now) else Touch(Repeated(r, n - 1), r.round, r.now)
  }

  lemma AfterThree(r: Request)
    requires r.round < TWO64 - 1
    ensures After([r, r, r]) == [Repeated(r, 3)]
  {
    AfterFirst(r);
    assert Repeated(r, 1) == Touch(Repeated(r, 0), r.round, r.now);
    AfterOneMore([r], r, Repeated(r, 1));
    assert [r] + [r] == [r, r] && [r, r] + [r] == [r, r, r];
    AfterOneMore([r, r], r, Repeated(r, 2));
  }

  /** Asking three times for round 2^64-5 wraps LastPre to 25 and breaks the bounds. */
  lemma WindowCanWrap(r: Request)
    requires r == Request(TWO64 - 5, 0)
    ensures |After([r, r, r])| == 1 && After([r, r, r])[0].lastPre == 25
    ensures !AllOk(After([r, r, r]))
  {
    AfterThree(r);
    ThriceWraps(r);
  }

  lemma ThriceWraps(r: Request)
    requires r == Request(TWO64 - 5, 0)
    ensures Repeated(r, 3).lastPre == 25 && !StreamOk(Repeated(r, 3))
  {
    TwiceIsIdle(r);
    WrapBreaksTiling(Repeated(r, 2), r.round, 0);
  }

  lemma TwiceIsIdle(r: Request)
    ensures var st := Repeated(r, 2); st.hits == 2 && st.nextPre == 0 && st.lastPre == st.firstReq == r.round && Tiled(st)
    ensures Repeated(r, 3) == Touch(Repeated(r, 2), r.round, r.now)
  {
    assert Repeated(r, 1) == Touch(Repeated(r, 0), r.round, r.now);
  }

  // ----- the prefetcher as an object

  class BlockPrefetch {
    var firstReq: U64
    var lastReq: U64
    var lastPre: U64
    var nextPre: U64
    var hits: nat
    var lastPreAt: int
    ghost var matched: seq<U64>
    ghost var considered: seq<U64>

    constructor (round: U64, now: int)
      ensures View() == Opened(round, now)
    {
      firstReq, lastReq, lastPre, nextPre, hits, lastPreAt := round, round, round, 0, 0, now;
      matched, considered := [], [];
    }

    ghost function View(): Stream
      reads this
    {
      Stream(firstReq, lastReq, lastPre, nextPre, hits, lastPreAt, matched, considered)
    }

    /** The prefetch of a stream with enough hits, if one is due. */
    method Extend(round: U64, now: int, cached: seq<bool>) returns (promised: seq<U64>)
      requires |cached| >= BP_COUNT && hits > 2
      requires nextPre == 0 ==> Wrap(lastPre + BP_COUNT) != TWO64 - 1
      requires round > nextPre > 0 ==> Wrap(lastPre + BP_COUNT / 2) != TWO64 - 1
      modifies `lastPre, `nextPre, `lastPreAt
      ensures old(nextPre) == 0 ==>
        && lastPre == Wrap(old(lastPre) + BP_COUNT) && nextPre == Wrap(round + BP_COUNT / 2) && lastPreAt == now
        && promised == Uncached(Rounds(Wrap(old(lastPre) + 1), lastPre), cached)
      ensures round > old(nextPre) > 0 ==>
        && lastPre == Wrap(old(lastPre) + BP_COUNT / 2) && nextPre == Wrap(old(nextPre) + BP_COUNT / 2) && lastPreAt == now
        && promised == Rounds(Wrap(old(lastPre) + 1), lastPre)
      ensures old(nextPre) != 0 && round <= old(nextPre) ==>
        lastPre == old(lastPre) && nextPre == old(nextPre) && lastPreAt == old(lastPreAt) && promised == []
    {
      promised := [];
      if nextPre == 0 {
        var preFrom, preTo := Wrap(lastPre + 1), Wrap(lastPre + BP_COUNT);
        promised := PromiseUncached(preFrom, preTo, cached);
        lastPre := preTo;
        lastPreAt := now;
        nextPre := Wrap(round + BP_COUNT / 2);
      } else if round > nextPre {
        var preFrom, preTo := Wrap(lastPre + 1), Wrap(lastPre + BP_COUNT / 2);
        promised := PromiseAll(preFrom, preTo);
        lastPre := preTo;
        lastPreAt := now;
        nextPre := Wrap(nextPre + BP_COUNT / 2);
      }
    }

    /** The body of Take, against the functions on values. */
    method Advance(round: U64, now: int, cached: seq<bool>) returns (promised: seq<U64>)
      requires |cached| >= BP_COUNT && WindowEnds(View(), round)
      modifies this
      ensures View() == Touch(old(View()), round, now)
      ensures promised == Promises(old(View()), round, cached)
    {
      ghost var window := Window(View(), round);
      lastReq := round;
      hits := hits + 1;
      promised := [];
      if hits > 2 {
        promised := Extend(round, now, cached);
      }
      matched := matched + [round];
      considered := considered + window;
    }

    /** The part of prefetchDetect after the stream is found; `cached` answers the IsBlockCached calls. */
    method Take(round: U64, now: int, cached: seq<bool>) returns (promised: seq<U64>)
      requires |cached| >= BP_COUNT && WindowEnds(View(), round)
      modifies this
      ensures View() == Touch(old(View()), round, now)
      ensures firstReq == old(firstReq) && lastReq == round && hits == old(hits) + 1
      ensures old(hits) >= 2 && old(nextPre) == 0 ==>
        lastPre == Wrap(old(lastPre) + 30) && nextPre == Wrap(round + 15) && lastPreAt == now
      ensures old(hits) >= 2 && round > old(nextPre) > 0 ==>
        lastPre == Wrap(old(lastPre) + 15) && nextPre == Wrap(old(nextPre) + 15) && lastPreAt == now
      ensures old(hits) < 2 || (old(nextPre) != 0 && round <= old(nextPre)) ==>
        lastPre == old(lastPre) && nextPre == old(nextPre) && lastPreAt == old(lastPreAt)
      ensures AsDue(old(View()), round, cached, promised)
    {
      ghost var before := View();
      promised := Advance(round, now, cached);
      PromisesAreDue(before, round, cached);
    }
  }

  /** The loop that arms a stream: a round is promised unless the IsBlockCached call of its turn, which
      asks about the requested round and not about this one, answers yes. */
  method PromiseUncached(preFrom: U64, preTo: U64, cached: seq<bool>) returns (promised: seq<U64>)
    requires preTo != TWO64 - 1 && |Rounds(preFrom, preTo)| <= |cached|
    ensures promised == Uncached(Rounds(preFrom, preTo), cached)
    ensures Ascending(promised)
    ensures forall r: U64 :: r in promised <==> preFrom <= r <= preTo && !cached[r - preFrom]
  {
    UncachedOfRounds(preFrom, preTo, cached);
    promised := [];
    ghost var window := Rounds(preFrom, preTo);
    var i := preFrom;
    while i <= preTo
      invariant preFrom <= i && i - preFrom <= |window|
      invariant promised == UncachedUpTo(window, i - preFrom, cached)
      decreases TWO64 - i
    {
      if !cached[i - preFrom] {
        promised := promised + [i];
      }
      i := Wrap(i + 1);
    }
  }

  /** The loop that advances a stream. */
  method PromiseAll(preFrom: U64, preTo: U64) returns (promised: seq<U64>)
    requires preTo != TWO64 - 1
    ensures promised == Rounds(preFrom, preTo)
  {
    promised := [];
    ghost var window := Rounds(preFrom, preTo);
    var i := preFrom;
    while i <= preTo
      invariant preFrom <= i && i - preFrom <= |window|
      invariant promised == window[..i - preFrom]
      decreases TWO64 - i
    {
      promised := promised + [i];
      i := Wrap(i + 1);
    }
  }

  /** The loop over the stream's next window, if there is one, comes to an end: a uint64 passes every
      bound but the largest. */
  predicate WindowEnds(st: Stream, round: U64) {
    Ahead(st, round) > 0 ==> Wrap(st.lastPre + Ahead(st, round)) != TWO64 - 1
  }

  /** The rounds of a window whose IsBlockCached call answered no. */
  function Uncached(window: seq<U64>, cached: seq<bool>): seq<U64> {
    UncachedUpTo(window, |window|, cached)
  }

  function UncachedUpTo(window: seq<U64>, n: nat, cached: seq<bool>): seq<U64>
    requires n <= |window|
  {
    if n == 0 then []
    else if n - 1 < |cached| && cached[n - 1] then UncachedUpTo(window, n - 1, cached)
    else UncachedUpTo(window, n - 1, cached) + [window[n - 1]]
  }

  /** The rounds promised when the stream takes the round: an armed stream promises its whole window. */
  function Promises(st: Stream, round: U64, cached: seq<bool>): seq<U64> {
    if st.nextPre != 0 then Window(st, round) else Uncached(Window(st, round), cached)
  }

  predicate Ascending(s: seq<U64>) {
    forall i, j :: 0 <= i < j < |s| ==> s[i] < s[j]
  }

  /** The rounds (after, after + n], in order. */
  predicate IsRange(s: seq<U64>, after: U64, n: nat) {
    |s| == n && forall i :: 0 <= i < n ==> s[i] == after + 1 + i
  }

  /** Of a window of consecutive rounds, a round is promised exactly if its answer is no, in window
      order and each once. */
  lemma {:induction false} UncachedExact(window: seq<U64>, preFrom: U64, n: nat, cached: seq<bool>)
    requires n <= |window| <= |cached| && forall i :: 0 <= i < |window| ==> window[i] == preFrom + i
    ensures forall r: U64 :: r in UncachedUpTo(window, n, cached) <==> preFrom <= r < preFrom + n && !cached[r - preFrom]
    ensures Ascending(UncachedUpTo(window, n, cached))
  {
    if n > 0 {
      UncachedExact(window, preFrom, n - 1, cached);
      var front := UncachedUpTo(window, n - 1, cached);
      forall i | 0 <= i < |front| ensures front[i] < window[n - 1] {
        assert front[i] in front;
      }
    }
  }

  lemma {:induction false} NoneCached(window: seq<U64>, n: nat, cached: seq<bool>)
    requires n <= |window| <= |cached| && forall i :: 0 <= i < |cached| ==> !cached[i]
    ensures UncachedUpTo(window, n, cached) == window[..n]
  {
    if n > 0 {
      NoneCached(window, n - 1, cached);
    }
  }

  lemma UncachedOfRounds(preFrom: U64, preTo: U64, cached: seq<bool>)
    requires |Rounds(preFrom, preTo)| <= |cached|
    ensures var promised := Uncached(Rounds(preFrom, preTo), cached);
      && Ascending(promised)
      && (forall r: U64 :: r in promised <==> preFrom <= r <= preTo && !cached[r - preFrom])
      && ((forall i :: 0 <= i < |cached| ==> !cached[i]) ==> promised == Rounds(preFrom, preTo))
      && ((forall i :: 0 <= i < |cached| ==> cached[i]) ==> promised == [])
  {
    var window := Rounds(preFrom, preTo);
    var promised := Uncached(window, cached);
    UncachedExact(window, preFrom, |window|, cached);
    if forall i :: 0 <= i < |cached| ==> !cached[i] {
      NoneCached(window, |window|, cached);
    }
    if promised != [] {
      assert promised[0] in promised;
      assert !cached[promised[0] - preFrom];
    }
  }

  /** The rounds that are due when a stream takes the round.  Up to its second hit nothing is promised.
      On its third hit it promises, of the next 30 rounds after LastPre, those whose IsBlockCached call
      answered no; later, whenever it is asked for a round past NextPre, all of the next 15. */
  ghost predicate AsDue(st: Stream, round: U64, cached: seq<bool>, promised: seq<U64>)
    requires |cached| >= 30
  {
    var preFrom := Wrap(st.lastPre + 1);
    && Ascending(promised)
    && (st.hits < 2 ==> promised == [])
    && (st.hits >= 2 && st.nextPre == 0 ==>
          && (forall r: U64 :: r in promised <==> preFrom <= r <= Wrap(st.lastPre + 30) && !cached[r - preFrom])
          && ((forall i :: 0 <= i < |cached| ==> cached[i]) ==> promised == [])
          && ((forall i :: 0 <= i < |cached| ==> !cached[i]) && st.lastPre + 30 < TWO64 ==> IsRange(promised, st.lastPre, 30)))
    && (st.hits >= 2 && round > st.nextPre > 0 ==>
          && (forall r: U64 :: r in promised <==> preFrom <= r <= Wrap(st.lastPre + 15))
          && (st.lastPre + 15 < TWO64 ==> IsRange(promised, st.lastPre, 15)))
    && (st.hits >= 2 && st.nextPre != 0 && round <= st.nextPre ==> promised == [])
  }

  lemma PromisesAreDue(st: Stream, round: U64, cached: seq<bool>)
    requires |cached| >= 30
    ensures AsDue(st, round, cached, Promises(st, round, cached))
  {
    if st.hits >= 2 && st.nextPre == 0 {
      ArmingIsDue(st, round, cached);
    } else if st.hits >= 2 && round > st.nextPre {
      AdvancingIsDue(st, round, cached);
    }
  }

  lemma WindowIsShort(after: U64, n: nat)
    requires 0 < n <= 30
    ensures |Rounds(Wrap(after + 1), Wrap(after + n))| <= n
  {
  }

  lemma ArmingIsDue(st: Stream, round: U64, cached: seq<bool>)
    requires |cached| >= 30 && st.hits >= 2 && st.nextPre == 0
    ensures AsDue(st, round, cached, Promises(st, round, cached))
  {
    var preFrom, preTo := Wrap(st.lastPre + 1), Wrap(st.lastPre + 30);
    WindowIsShort(st.lastPre, 30);
    UncachedOfRounds(preFrom, preTo, cached);
    assert Promises(st, round, cached) == Uncached(Rounds(preFrom, preTo), cached);
    if st.lastPre + 30 < TWO64 {
      WindowIsRange(st.lastPre, 30);
    }
  }

  lemma AdvancingIsDue(st: Stream, round: U64, cached: seq<bool>)
    requires |cached| >= 30 && st.hits >= 2 && round > st.nextPre > 0
    ensures AsDue(st, round, cached, Promises(st, round, cached))
  {
    var preFrom, preTo := Wrap(st.lastPre + 1), Wrap(st.lastPre + 15);
    RoundsExact(preFrom, preTo);
    assert Promises(st, round, cached) == Rounds(preFrom, preTo);
    if st.lastPre + 15 < TWO64 {
      WindowIsRange(st.lastPre, 15);
    }
  }

  lemma RoundsExact(preFrom: U64, preTo: U64)
    ensures Ascending(Rounds(preFrom, preTo))
    ensures forall r: U64 :: r in Rounds(preFrom, preTo) <==> preFrom <= r <= preTo
  {
    var window := Rounds(preFrom, preTo);
    forall r: U64 | preFrom <= r <= preTo ensures r in window {
      assert window[r - preFrom] == r;
    }
  }

  lemma WindowIsRange(after: U64, n: nat)
    requires 0 < n <= 30 && after + n < TWO64
    ensures IsRange(Rounds(Wrap(after + 1), Wrap(after + n)), after, n)
  {
  }

  class Prefetcher {
    var bps: seq<BlockPrefetch>

    constructor ()
      ensures bps == []
    {
      bps := [];
    }

    ghost predicate Valid()
      reads this
    {
      forall i, j :: 0 <= i < j < |bps| ==> bps[i] != bps[j]
    }

    /** The first k streams as values. */
    ghost function View(k: nat): (v: seq<Stream>)
      requires k <= |bps|
      reads this, bps
      ensures |v| == k && forall i :: 0 <= i < k ==> v[i] == bps[i].View()
    {
      if k == 0 then [] else View(k - 1) + [bps[k - 1].View()]
    }

    /** The search loop of prefetchDetect. */
    method Find(round: U64) returns (i: nat)
      ensures i == FirstMatch(View(|bps|), round)
    {
      i := 0;
      while i < |bps| && !(round >= bps[i].firstReq && round <= Wrap(bps[i].lastReq + 1))
        invariant i <= |bps|
        invariant forall j :: 0 <= j < i ==> !Matches(bps[j].View(), round)
      {
        i := i + 1;
      }
    }

    /** prefetchPrune. */
    method PrefetchPrune(now: int)
      requires Valid()
      modifies `bps
      ensures Valid() && View(|bps|) == Prune(old(View(|bps|)), now)
      ensures forall b :: b in bps <==> b in old(bps) && b.lastPreAt >= now - 60
    {
      var kept: seq<BlockPrefetch> := [];
      ghost var views: seq<Stream> := [];
      ghost var all := View(|bps|);
      for i := 0 to |bps|
        invariant |kept| == |views| && views == PruneUpTo(all, i, now)
        invariant forall j :: 0 <= j < |kept| ==> kept[j].View() == views[j]
        invariant forall j :: 0 <= j < |kept| ==> kept[j] in bps[..i]
        invariant forall j, k :: 0 <= j < k < |kept| ==> kept[j] != kept[k]
        invariant forall b :: b in kept <==> b in bps[..i] && b.lastPreAt >= now - 60
      {
        assert bps[..i + 1] == bps[..i] + [bps[i]];
        if bps[i].lastPreAt >= now - 60 {
          assert forall j :: 0 <= j < |kept| ==> kept[j] != bps[i];
          kept := kept + [bps[i]];
          views := views + [all[i]];
        }
      }
      bps := kept;
    }

    /** Stream i takes the round in place; the others are untouched. */
    method TakeAt(i: nat, round: U64, now: int, cached: seq<bool>) returns (promised: seq<U64>)
      requires Valid() && i < |bps| && |cached| >= BP_COUNT
      requires WindowEnds(bps[i].View(), round)
      modifies bps[i]
      ensures View(|bps|) == old(View(|bps|))[i := Touch(old(bps[i].View()), round, now)]
      ensures AsDue(old(bps[i].View()), round, cached, promised)
    {
      ghost var before := View(|bps|);
      promised := bps[i].Take(round, now, cached);
      forall j | 0 <= j < |bps| && j != i ensures View(|bps|)[j] == before[j] {
        assert bps[j] != bps[i];
      }
    }

    /** A new stream goes to the end of the list. */
    method Open(round: U64, now: int)
      requires Valid()
      modifies `bps
      ensures Valid() && |bps| == old(|bps|) + 1 && fresh(bps[|bps| - 1])
      ensures View(|bps|) == old(View(|bps|)) + [Opened(round, now)]
    {
      ghost var before := View(|bps|);
      var added := new BlockPrefetch(round, now);
      ghost var n := |bps|;
      bps := bps + [added];
      forall i | 0 <= i < n ensures View(n + 1)[i] == before[i] {
      }
    }

    /** The stream that takes the round: the first that matches, or a new one. */
    method Locate(round: U64, now: int) returns (i: nat)
      requires Valid()
      modifies `bps
      ensures Valid() && i < |bps| && i == FirstMatch(old(View(|bps|)), round)
      ensures View(|bps|) == Extended(old(View(|bps|)), round, now)
      ensures if i < old(|bps|) then bps == old(bps) else fresh(bps[i])
    {
      i := Find(round);
      if i == |bps| {
        Open(round, now);
      }
    }

    /** prefetchDetect: the in-place update is the one specified on values.  It only demands that the
        prefetch loop comes to an end, which SafeRequestsFit gives along every sequence of safe rounds. */
    method PrefetchDetect(round: U64, now: int, cached: seq<bool>) returns (promised: seq<U64>)
      requires Valid() && |cached| >= BP_COUNT
      requires WindowEnds(Taker(View(|bps|), round, now), round)
      modifies this, bps
      ensures Valid()
      ensures View(|bps|) == Prune(Detect(old(View(|bps|)), round, now), now)
      ensures AsDue(Taker(old(View(|bps|)), round, now), round, cached, promised)
    {
      ghost var before := View(|bps|);
      DetectInPlace(before, round, now);
      var i := Locate(round, now);
      promised := TakeAt(i, round, now, cached);
      PrefetchPrune(now);
    }
  }
}
