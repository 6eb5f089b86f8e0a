/** Safety of the promise cache over whole runs: the consequences a caller of the cache relies on. */
module CacheTheorems {
  import opened Basics
  import opened CacheModel
  import opened CacheSystem
  import opened CacheInvariants

  /** A failed entry has no channel; an unresolved one has an open channel that is its own.
      Hence a reader that finds neither block nor error always finds a channel to wait on. */
  lemma EntryDiscipline(ss: seq<State>, steps: seq<Step>, i: nat, e: nat)
    requires IsRun(ss, steps) && ss[0] == INIT && i < |ss| && e < |ss[i].mem.entries|
    ensures var be := ss[i].mem.entries[e];
      && (be.error.Some? ==> be.waitFor.None?)
      && (be.Pending() ==>
            && be.waitFor.Some? && be.waitFor.value < |ss[i].mem.chans|
            && ss[i].mem.chans[be.waitFor.value] == Chan(e, false))
  {
    RunOk(ss, steps, i);
    assert EntryOk(ss[i].mem.entries[e]) && WaitOk(ss[i].mem, e);
    var be := ss[i].mem.entries[e];
    if be.waitFor.Some? {
      assert ChanOk(ss[i].mem, be.waitFor.value);
    }
  }

  lemma {:induction false} ChannelHistory(ss: seq<State>, steps: seq<Step>, i: nat, j: nat, k: nat)
    requires IsRun(ss, steps) && ss[0] == INIT && i <= j < |ss| && k < |ss[i].mem.chans|
    ensures k < |ss[j].mem.chans|
    ensures ss[j].mem.chans[k].owner == ss[i].mem.chans[k].owner
    ensures ss[i].mem.chans[k].closed ==> ss[j].mem.chans[k].closed
    decreases j
  {
    if i < j {
      ChannelHistory(ss, steps, i, j - 1, k);
      RunKeepsChannel(ss, steps, j - 1, k);
    }
  }

  lemma RunKeepsChannel(ss: seq<State>, steps: seq<Step>, i: nat, k: nat)
    requires IsRun(ss, steps) && ss[0] == INIT && i < |steps| && k < |ss[i].mem.chans|
    ensures k < |ss[i + 1].mem.chans|
    ensures ss[i + 1].mem.chans[k].owner == ss[i].mem.chans[k].owner
    ensures ss[i].mem.chans[k].closed ==> ss[i + 1].mem.chans[k].closed
  {
    RunOk(ss, steps, i);
    assert StepAt(ss, steps, i);
    StepKeepsChannel(ss[i], steps[i], k);
  }

  /** Over any stretch of a run a channel keeps its one owner, is closed for good once closed, and
      is attached to its owner, and to nothing else, exactly as long as it is open. */
  lemma ChannelsConserved(ss: seq<State>, steps: seq<Step>, i: nat, j: nat, k: nat)
    requires IsRun(ss, steps) && ss[0] == INIT && i <= j < |ss| && k < |ss[i].mem.chans|
    ensures
      && k < |ss[j].mem.chans|
      && ss[j].mem.chans[k].owner == ss[i].mem.chans[k].owner < |ss[j].mem.entries|
      && (ss[i].mem.chans[k].closed ==> ss[j].mem.chans[k].closed)
      && (forall e :: 0 <= e < |ss[j].mem.entries| ==>
            (ss[j].mem.entries[e].waitFor == Some(k) <==>
             e == ss[i].mem.chans[k].owner && !ss[j].mem.chans[k].closed))
  {
    ChannelHistory(ss, steps, i, j, k);
    RunOk(ss, steps, j);
    AttachedToOwnerOnly(ss[j].mem, k);
  }

  lemma AttachedToOwnerOnly(m: Mem, k: nat)
    requires MemOk(m) && k < |m.chans|
    ensures m.chans[k].owner < |m.entries|
    ensures forall e :: 0 <= e < |m.entries| ==>
              (m.entries[e].waitFor == Some(k) <==> e == m.chans[k].owner && !m.chans[k].closed)
  {
    assert ChanOk(m, k);
    forall e | 0 <= e < |m.entries| && m.entries[e].waitFor == Some(k) ensures e == m.chans[k].owner {
      assert WaitOk(m, e);
    }
  }

  lemma StepKeepsChannel(s: State, step: Step, k: nat)
    requires StateOk(s) && Enabled(s, step) && k < |s.mem.chans|
    ensures var n := Next(s, step);
      && k < |n.mem.chans| && n.mem.chans[k].owner == s.mem.chans[k].owner
      && (s.mem.chans[k].closed ==> n.mem.chans[k].closed)
      && (!s.mem.chans[k].closed && n.mem.chans[k].closed ==>
            OpOf(s, step).DeliverOp? && OpOf(s, step).e == s.mem.chans[k].owner)
  {
    assert step.Run? ==> TaskOk(s, s.tasks[step.t]);
    NextPerforms(s, step);
    assert OpOf(s, step).DeliverOp? ==> WaitOk(s.mem, OpOf(s, step).e);
    ChannelConservation(s.mem, OpOf(s, step), k);
  }

  /** A waiting reader is never left behind: its channel is closed, so that it may wake, or is
      still the channel of its entry, which the next delivery to that entry closes. */
  lemma WaitersNeverOrphaned(ss: seq<State>, steps: seq<Step>, i: nat, t: nat)
    requires IsRun(ss, steps) && ss[0] == INIT && i < |ss| && t < |ss[i].tasks|
    requires ss[i].tasks[t].Reader? && ss[i].tasks[t].rpc.Wait?
    ensures var s := ss[i]; var Wait(_, e, ch) := s.tasks[t].rpc;
      && e < |s.mem.entries| && ch < |s.mem.chans| && s.mem.entries[e].round == s.tasks[t].round
      && (s.mem.chans[ch].closed <==> s.mem.entries[e].waitFor != Some(ch))
      && (forall w: BlockWrap :: w.round == s.tasks[t].round ==> CloseReaches(s.mem, e, ch, w))
  {
    RunOk(ss, steps, i);
    var s := ss[i];
    assert TaskOk(s, s.tasks[t]);
    var ch := s.tasks[t].rpc.ch;
    assert ChanOk(s.mem, ch);
  }

  /** Delivering w to entry e leaves channel ch closed. */
  predicate CloseReaches(m: Mem, e: nat, ch: nat, w: BlockWrap)
    requires e < |m.entries| && ch < |m.chans|
  {
    Deliver(m, e, w).chans[ch].closed
  }

  lemma StepKeepsEntry(s: State, step: Step, e: nat)
    requires StateOk(s) && Enabled(s, step) && e < |s.mem.entries|
    ensures e < |Next(s, step).mem.entries| && EntryStep(s.mem.entries[e], Next(s, step).mem.entries[e])
  {
    assert step.Run? ==> TaskOk(s, s.tasks[step.t]);
    NextPerforms(s, step);
    PerformKeepsHistory(s.mem, OpOf(s, step));
  }

  lemma RunKeepsEntry(ss: seq<State>, steps: seq<Step>, i: nat, e: nat)
    requires IsRun(ss, steps) && ss[0] == INIT && i < |steps| && e < |ss[i].mem.entries|
    ensures e < |ss[i + 1].mem.entries| && EntryStep(ss[i].mem.entries[e], ss[i + 1].mem.entries[e])
  {
    RunOk(ss, steps, i);
    assert StepAt(ss, steps, i);
    StepKeepsEntry(ss[i], steps[i], e);
  }

  /** A stored block is never replaced or lost by its entry, and a recorded error can then only be cleared. */
  lemma {:induction false} BlocksAreWriteOnce(ss: seq<State>, steps: seq<Step>, i: nat, j: nat, e: nat)
    requires IsRun(ss, steps) && ss[0] == INIT && i <= j < |ss| && e < |ss[i].mem.entries|
    ensures e < |ss[j].mem.entries|
    ensures EntryStep(ss[i].mem.entries[e], ss[j].mem.entries[e])
    decreases j
  {
    if i < j {
      BlocksAreWriteOnce(ss, steps, i, j - 1, e);
      RunKeepsEntry(ss, steps, j - 1, e);
    }
  }

  /** GetBlock returns exactly one of a block and an error under every interleaving; a block it
      returns is of the asked round, was delivered without error, and came from a listed or asked node. */
  lemma GetBlockAnswers(ss: seq<State>, steps: seq<Step>, i: nat, t: nat)
    requires IsRun(ss, steps) && ss[0] == INIT && i < |ss| && t < |ss[i].tasks|
    requires ss[i].tasks[t].Reader? && ss[i].tasks[t].rpc.Returned?
    ensures var s := ss[i]; var Returned(block, error) := s.tasks[t].rpc;
      && (block.Some? <==> error.None?)
      && (block.Some? ==>
            && block.value.round == s.tasks[t].round && block.value.error.None?
            && block.value in s.delivered && block.value.src in s.sources)
  {
    RunOk(ss, steps, i);
    assert TaskOk(ss[i], ss[i].tasks[t]);
  }

  /** latestRound is the maximum of all submissions, and the winning submissions strictly increase. */
  lemma TipIsMaximum(ss: seq<State>, steps: seq<Step>, i: nat)
    requires IsRun(ss, steps) && ss[0] == INIT && i < |ss|
    ensures var tip := ss[i].tip;
      && (forall k :: 0 <= k < |tip.submitted| ==> tip.submitted[k] <= tip.latest)
      && (tip.submitted == [] ==> tip.latest == 0) && (tip.latest > 0 ==> tip.latest in tip.submitted)
      && (forall k, l :: 0 <= k < l < |tip.wins| ==> tip.wins[k] < tip.wins[l])
  {
    RunOk(ss, steps, i);
  }

  /** isBlockInTheFuture. */
  predicate InTheFuture(tip: Tip, round: U64) {
    round > tip.latest
  }

  /** The future-round check of NodeCluster.GetBlock never hides a cached block, and neither cache's
      `last` runs ahead of the tip. */
  lemma FutureCheckHidesNothing(ss: seq<State>, steps: seq<Step>, i: nat, c: CacheId, round: U64)
    requires IsRun(ss, steps) && ss[0] == INIT && i < |ss|
    ensures ss[i].mem.At(c).last <= ss[i].tip.latest
    ensures var m := ss[i].mem;
      round in m.At(c).items && m.At(c).items[round] < |m.entries| && m.entries[m.At(c).items[round]].block.Some?
      ==> !InTheFuture(ss[i].tip, round)
  {
    RunOk(ss, steps, i);
    var m := ss[i].mem;
    assert CacheOk(m, c);
    if round in m.At(c).items {
      assert EntryOk(m.entries[m.At(c).items[round]]);
    }
  }

  /** A block whose addBlock call has finished is covered by the `last` of the cache it went to, which
      the tip covers, so that the window of a cache really follows the newest block stored in it. */
  lemma FinishedAddIsCovered(ss: seq<State>, steps: seq<Step>, i: nat, t: nat)
    requires IsRun(ss, steps) && ss[0] == INIT && i < |ss| && t < |ss[i].tasks|
    requires ss[i].tasks[t].Add? && ss[i].tasks[t].apc.ADone? && ss[i].tasks[t].w.error.None?
    ensures ss[i].tasks[t].w.round <= ss[i].mem.At(ss[i].tasks[t].apc.c).last <= ss[i].tip.latest
  {
    RunOk(ss, steps, i);
    assert TaskOk(ss[i], ss[i].tasks[t]);
  }

  /** Neither cache ever holds more than its size, and it files every entry under the entry's own round. */
  lemma CachesStayBounded(ss: seq<State>, steps: seq<Step>, i: nat, c: CacheId)
    requires IsRun(ss, steps) && ss[0] == INIT && i < |ss|
    ensures |ss[i].mem.At(c).items| <= CACHE_SIZE
    ensures forall r :: r in ss[i].mem.At(c).items ==> HasRound(ss[i].mem, ss[i].mem.At(c).items[r], r)
  {
    RunOk(ss, steps, i);
    assert CacheOk(ss[i].mem, c);
  }
}
