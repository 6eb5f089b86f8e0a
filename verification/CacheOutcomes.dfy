/** What addBlock and PromiseBlock leave behind in any run: which entry they dealt with, and in what state. */
module CacheOutcomes {
  import opened Basics
  import opened CacheModel
  import opened CacheSystem
  import opened CacheInvariants
  import opened CacheTheorems

  /** A delivery to an entry that is there, case by case.  A block fills an entry without a block and
      leaves its error as it was; an error is recorded only by an entry that has neither; all else
      leaves both fields alone.  In every case the entry has a result, its channel is closed and
      detached, and no other entry and no other channel changes. */
  lemma DeliveryExact(m: Mem, e: nat, w: BlockWrap)
    requires e < |m.entries| && EntryOk(m.entries[e]) && WaitOk(m, e)
    ensures var was, n := m.entries[e], Deliver(m, e, w);
      && |n.entries| == |m.entries| && |n.chans| == |m.chans|
      && (was.block.None? && w.error.None? ==> n.entries[e] == Entry(was.round, Some(w), None, was.error))
      && (was.block.None? && was.error.None? && w.error.Some? ==> n.entries[e] == Entry(was.round, None, None, w.error))
      && (was.block.None? && was.error.Some? && w.error.Some? ==> n.entries[e] == was)
      && (was.block.Some? ==> n.entries[e] == was.(waitFor := None))
      && (forall f :: 0 <= f < |m.entries| && f != e ==> n.entries[f] == m.entries[f])
      && (forall k :: 0 <= k < |m.chans| ==>
            n.chans[k] == if was.waitFor == Some(k) then m.chans[k].(closed := true) else m.chans[k])
      && n.catchup == m.catchup && n.arch == m.arch
  {
  }

  predicate Settled(pc: AddPc) {
    pc.ALast? || pc.ADone?
  }

  /** At step p the addBlock call t gave its result to entry e: one that it had found, or the one that
      it filed under the round in the cache it was sent to. */
  ghost predicate GaveTo(ss: seq<State>, steps: seq<Step>, p: nat, t: nat, e: nat)
    requires IsRun(ss, steps) && p < |steps|
  {
    && Moves(steps[p], t) && t < |ss[p].tasks| && ss[p].tasks[t].Add?
    && var w, pc, n := ss[p].tasks[t].w, ss[p].tasks[t].apc, ss[p + 1].mem;
       && HasRound(n, e, w.round)
       && (|| (pc.ALocked? && pc.e == e && e < |ss[p].mem.entries|)
           || (pc.APeek? && w.round !in ss[p].mem.At(pc.c).items && e == |ss[p].mem.entries|
               && w.round in n.At(pc.c).items && n.At(pc.c).items[w.round] == e))
  }

  /** The entry held no block when it was given the result. */
  ghost predicate WasVacant(s: State, e: nat) {
    e < |s.mem.entries| ==> s.mem.entries[e].block.None?
  }

  /** A call that is past its delivery was so before, or has just made it. */
  lemma SettledBefore(s: State, step: Step, t: nat)
    requires Enabled(s, step) && t < |Next(s, step).tasks|
    requires Next(s, step).tasks[t].Add? && Settled(Next(s, step).tasks[t].apc)
    ensures t < |s.tasks| && s.tasks[t].Add? && s.tasks[t].w == Next(s, step).tasks[t].w
    ensures !Settled(s.tasks[t].apc) ==> Moves(step, t) && (s.tasks[t].apc.ALocked? || s.tasks[t].apc.APeek?)
  {
    NextKeepsTasks(s, step);
  }

  /** The step that makes the delivery leaves the entry with a result: the block itself if the entry
      was vacant. */
  lemma GivingStores(ss: seq<State>, steps: seq<Step>, p: nat, t: nat) returns (e: nat)
    requires IsRun(ss, steps) && ss[0] == INIT && p < |steps| && Moves(steps[p], t) && t < |ss[p].tasks|
    requires ss[p].tasks[t].Add? && !Settled(ss[p].tasks[t].apc)
    requires t < |ss[p + 1].tasks| && ss[p + 1].tasks[t].Add? && Settled(ss[p + 1].tasks[t].apc)
    ensures GaveTo(ss, steps, p, t, e)
    ensures var w, be := ss[p].tasks[t].w, ss[p + 1].mem.entries[e];
      && !be.Pending() && be.waitFor.None?
      && (w.error.None? ==> be.block.Some?)
      && (w.error.None? && WasVacant(ss[p], e) ==> be.block == Some(w))
  {
    RunOk(ss, steps, p);
    assert StepAt(ss, steps, p);
    var s := ss[p];
    assert TaskOk(s, s.tasks[t]);
    var w, pc := s.tasks[t].w, s.tasks[t].apc;
    if pc.ALocked? {
      e := pc.e;
      assert EntryOk(s.mem.entries[e]) && WaitOk(s.mem, e);
      DeliveryExact(s.mem, e, w);
    } else {
      e := |s.mem.entries|;
      assert CacheOk(s.mem, pc.c);
      InsertKeepsBound(s.mem.At(pc.c).items, w.round, e, steps[p].x.victim);
    }
  }

  /** An addBlock call that has ended gave its result to an entry of its round, which then had a result
      and no waiters left.  If it carried a block, the entry has a block for good; and it is the
      block that was carried unless the entry had one already. */
  lemma {:induction false} EndedAddIsStored(ss: seq<State>, steps: seq<Step>, i: nat, t: nat) returns (p: nat, e: nat)
    requires IsRun(ss, steps) && ss[0] == INIT && i < |ss| && t < |ss[i].tasks|
    requires ss[i].tasks[t].Add? && Settled(ss[i].tasks[t].apc)
    ensures p < i && GaveTo(ss, steps, p, t, e) && ss[p].tasks[t].w == ss[i].tasks[t].w
    ensures !ss[p + 1].mem.entries[e].Pending() && ss[p + 1].mem.entries[e].waitFor.None?
    ensures HasRound(ss[i].mem, e, ss[i].tasks[t].w.round)
    ensures var w, be := ss[i].tasks[t].w, ss[i].mem.entries[e];
      w.error.None? ==> be.block.Some? && (WasVacant(ss[p], e) ==> be.block == Some(w))
    decreases i
  {
    assert StepAt(ss, steps, i - 1);
    SettledBefore(ss[i - 1], steps[i - 1], t);
    if Settled(ss[i - 1].tasks[t].apc) {
      p, e := EndedAddIsStored(ss, steps, i - 1, t);
    } else {
      p := i - 1;
      e := GivingStores(ss, steps, p, t);
    }
    BlocksAreWriteOnce(ss, steps, p + 1, i, e);
  }

  // ----- promises

  predicate Made(pc: PromisePc) {
    pc.PSpawn? || pc.PDone?
  }

  /** The entry has no error, and its block or an open channel of its own. */
  predicate Live(m: Mem, e: nat) {
    e < |m.entries| &&
    var be := m.entries[e];
    && be.error.None?
    && (be.block.None? ==> be.waitFor.Some? && be.waitFor.value < |m.chans| && m.chans[be.waitFor.value] == Chan(e, false))
  }

  /** At step p the promise t dealt with entry e: one that it had found, or the one that it filed under
      the round in the cache it was sent to. */
  ghost predicate DealtWith(ss: seq<State>, steps: seq<Step>, p: nat, t: nat, e: nat)
    requires IsRun(ss, steps) && p < |steps|
  {
    && Moves(steps[p], t) && t < |ss[p].tasks| && ss[p].tasks[t].Promise?
    && var round, pc, n := ss[p].tasks[t].round, ss[p].tasks[t].ppc, ss[p + 1].mem;
       && HasRound(n, e, round)
       && (|| (pc.PLocked? && pc.e == e && e < |ss[p].mem.entries| && n.entries[e].block == ss[p].mem.entries[e].block)
           || (pc.PPeek? && round !in ss[p].mem.At(pc.c).items && e == |ss[p].mem.entries|
               && n.entries[e].block.None? && round in n.At(pc.c).items && n.At(pc.c).items[round] == e))
  }

  lemma MadeBefore(s: State, step: Step, t: nat)
    requires Enabled(s, step) && t < |Next(s, step).tasks|
    requires Next(s, step).tasks[t].Promise? && Made(Next(s, step).tasks[t].ppc)
    ensures t < |s.tasks| && s.tasks[t].Promise? && s.tasks[t].round == Next(s, step).tasks[t].round
    ensures !Made(s.tasks[t].ppc) ==> Moves(step, t) && (s.tasks[t].ppc.PLocked? || s.tasks[t].ppc.PPeek?)
  {
    NextKeepsTasks(s, step);
  }

  lemma PromiseArms(ss: seq<State>, steps: seq<Step>, p: nat, t: nat) returns (e: nat)
    requires IsRun(ss, steps) && ss[0] == INIT && p < |steps| && Moves(steps[p], t) && t < |ss[p].tasks|
    requires ss[p].tasks[t].Promise? && !Made(ss[p].tasks[t].ppc)
    requires t < |ss[p + 1].tasks| && ss[p + 1].tasks[t].Promise? && Made(ss[p + 1].tasks[t].ppc)
    ensures DealtWith(ss, steps, p, t, e) && Live(ss[p + 1].mem, e)
  {
    e := PromiseDeals(ss, steps, p, t);
    EntryDiscipline(ss, steps, p + 1, e);
  }

  lemma PromiseDeals(ss: seq<State>, steps: seq<Step>, p: nat, t: nat) returns (e: nat)
    requires IsRun(ss, steps) && ss[0] == INIT && p < |steps| && Moves(steps[p], t) && t < |ss[p].tasks|
    requires ss[p].tasks[t].Promise? && !Made(ss[p].tasks[t].ppc)
    requires t < |ss[p + 1].tasks| && ss[p + 1].tasks[t].Promise? && Made(ss[p + 1].tasks[t].ppc)
    ensures DealtWith(ss, steps, p, t, e) && ss[p + 1].mem.entries[e].error.None?
  {
    RunOk(ss, steps, p);
    assert StepAt(ss, steps, p);
    var s := ss[p];
    assert TaskOk(s, s.tasks[t]);
    var round, pc := s.tasks[t].round, s.tasks[t].ppc;
    if pc.PLocked? {
      e := pc.e;
    } else {
      e := |s.mem.entries|;
      assert CacheOk(s.mem, pc.c);
      InsertKeepsBound(s.mem.At(pc.c).items, round, e, steps[p].x.victim);
    }
  }

  /** A load of the round has been started. */
  ghost predicate Loading(s: State, round: U64) {
    exists u :: 0 <= u < |s.tasks| && s.tasks[u].Load? && s.tasks[u].round == round
  }

  lemma LoadingStays(s: State, step: Step, round: U64)
    requires Enabled(s, step) && Loading(s, round)
    ensures Loading(Next(s, step), round)
  {
    var u :| 0 <= u < |s.tasks| && s.tasks[u].Load? && s.tasks[u].round == round;
    NextKeepsTasks(s, step);
    assert Next(s, step).tasks[u].Load? && Next(s, step).tasks[u].round == round;
  }

  /** A PromiseBlock call that has dealt with its entry left that entry of its round without an error
      and with its block or an open channel; it lost no block, and when the call has ended a load of the
      round has been started. */
  lemma {:induction false} MadePromiseIsLive(ss: seq<State>, steps: seq<Step>, i: nat, t: nat) returns (p: nat, e: nat)
    requires IsRun(ss, steps) && ss[0] == INIT && i < |ss| && t < |ss[i].tasks|
    requires ss[i].tasks[t].Promise? && Made(ss[i].tasks[t].ppc)
    ensures p < i && DealtWith(ss, steps, p, t, e) && ss[p].tasks[t].round == ss[i].tasks[t].round
    ensures Live(ss[p + 1].mem, e)
    ensures ss[i].tasks[t].ppc.PDone? ==> Loading(ss[i], ss[i].tasks[t].round)
    decreases i
  {
    var s, step := ss[i - 1], steps[i - 1];
    assert StepAt(ss, steps, i - 1);
    MadeBefore(s, step, t);
    if Made(s.tasks[t].ppc) {
      p, e := MadePromiseIsLive(ss, steps, i - 1, t);
      if s.tasks[t].ppc.PDone? {
        LoadingStays(s, step, s.tasks[t].round);
      } else if ss[i].tasks[t].ppc.PDone? {
        NextKeepsTasks(s, step);
        assert ss[i].tasks[|s.tasks|] == Load(s.tasks[t].round, LStart);
      }
    } else {
      p := i - 1;
      e := PromiseArms(ss, steps, p, t);
    }
  }
}
