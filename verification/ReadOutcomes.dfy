/**
  What GetBlock gives a reader that has to wait: the block its entry is given,
  and no error but one that was reported, its own timeout, or two fruitless looks.
 */
module ReadOutcomes {
  import opened Basics
  import opened CacheModel
  import opened CacheSystem
  import opened CacheInvariants
  import opened CacheTheorems
  import opened CacheOutcomes

  predicate IsReader(s: State, t: nat) {
    t < |s.tasks| && s.tasks[t].Reader?
  }

  lemma ReaderBefore(s: State, step: Step, t: nat)
    requires Enabled(s, step) && IsReader(Next(s, step), t)
    ensures t < |s.tasks| ==> s.tasks[t].Reader? && s.tasks[t].round == Next(s, step).tasks[t].round
    ensures t < |s.tasks| && !Moves(step, t) ==> s.tasks[t] == Next(s, step).tasks[t]
    ensures t >= |s.tasks| ==> Next(s, step).tasks[t].rpc == Get(0)
  {
    NextKeepsTasks(s, step);
  }

  // ----- a waiter can wake exactly when there is something to read

  /** While the channel a reader waits for is open, its entry has no result. */
  predicate OpenMeansPending(m: Mem, e: nat, ch: nat) {
    e < |m.entries| && ch < |m.chans| && (!m.chans[ch].closed ==> m.entries[e].Pending())
  }

  lemma PerformKeepsWaiting(m: Mem, op: Op, e: nat, ch: nat)
    requires MemOk(m) && Allowed(m, op) && OpenMeansPending(m, e, ch) && m.chans[ch].owner == e
    ensures OpenMeansPending(Perform(m, op), e, ch)
  {
    assert ChanOk(m, ch) && EntryOk(m.entries[e]);
  }

  lemma {:induction false} WaitersWaitForResults(ss: seq<State>, steps: seq<Step>, i: nat, t: nat)
    requires IsRun(ss, steps) && ss[0] == INIT && i < |ss| && IsReader(ss[i], t) && ss[i].tasks[t].rpc.Wait?
    ensures OpenMeansPending(ss[i].mem, ss[i].tasks[t].rpc.e, ss[i].tasks[t].rpc.ch)
    decreases i
  {
    var s, step := ss[i - 1], steps[i - 1];
    assert StepAt(ss, steps, i - 1);
    ReaderBefore(s, step, t);
    if Moves(step, t) {
      StartsToWait(ss, steps, i - 1, t);
    } else {
      WaitersWaitForResults(ss, steps, i - 1, t);
      GoesOnWaiting(ss, steps, i - 1, t);
    }
  }

  lemma StartsToWait(ss: seq<State>, steps: seq<Step>, i: nat, t: nat)
    requires IsRun(ss, steps) && ss[0] == INIT && i < |steps| && Moves(steps[i], t) && IsReader(ss[i], t)
    requires IsReader(ss[i + 1], t) && ss[i + 1].tasks[t].rpc.Wait?
    ensures OpenMeansPending(ss[i + 1].mem, ss[i + 1].tasks[t].rpc.e, ss[i + 1].tasks[t].rpc.ch)
  {
    assert StepAt(ss, steps, i);
    RunOk(ss, steps, i);
    var s := ss[i];
    assert TaskOk(s, s.tasks[t]);
    assert s.tasks[t].rpc.Read?;
    assert WaitOk(s.mem, s.tasks[t].rpc.e);
  }

  lemma GoesOnWaiting(ss: seq<State>, steps: seq<Step>, i: nat, t: nat)
    requires IsRun(ss, steps) && ss[0] == INIT && i < |steps| && IsReader(ss[i], t) && ss[i].tasks[t].rpc.Wait?
    requires OpenMeansPending(ss[i].mem, ss[i].tasks[t].rpc.e, ss[i].tasks[t].rpc.ch)
    ensures OpenMeansPending(ss[i + 1].mem, ss[i].tasks[t].rpc.e, ss[i].tasks[t].rpc.ch)
  {
    assert StepAt(ss, steps, i);
    RunOk(ss, steps, i);
    var s, step := ss[i], steps[i];
    assert TaskOk(s, s.tasks[t]) && (step.Run? ==> TaskOk(s, s.tasks[step.t]));
    NextPerforms(s, step);
    PerformKeepsWaiting(s.mem, OpOf(s, step), s.tasks[t].rpc.e, s.tasks[t].rpc.ch);
  }

  // ----- a reader whose entry is given a block returns it

  predicate AtEntry(s: State, t: nat, e: nat) {
    IsReader(s, t) &&
    var pc := s.tasks[t].rpc; (pc.Read? || pc.Wait? || pc.Reread?) && pc.e == e
  }

  /** Entry e has block b and no error. */
  predicate Has(m: Mem, e: nat, b: BlockWrap) {
    e < |m.entries| && m.entries[e].block == Some(b) && m.entries[e].error.None?
  }

  /** The turns the reader still needs. */
  function TurnsLeft(s: State, t: nat): nat {
    if !IsReader(s, t) then 0
    else if s.tasks[t].rpc.Wait? then 2
    else if s.tasks[t].rpc.Read? || s.tasks[t].rpc.Reread? then 1
    else 0
  }

  /** How many of the steps from i to j are turns of task t. */
  function Turns(steps: seq<Step>, i: nat, j: nat, t: nat): nat
    requires i <= j <= |steps|
    decreases j
  {
    if i == j then 0 else Turns(steps, i, j - 1, t) + if Moves(steps[j - 1], t) then 1 else 0
  }

  /** No turn that the reader takes from i to j is a timeout. */
  ghost predicate Patient(steps: seq<Step>, i: nat, j: nat, t: nat)
    requires j <= |steps|
  {
    forall p :: i <= p < j && Moves(steps[p], t) ==> !steps[p].x.timeout
  }

  /** The reader is at entry e, or has returned block b. */
  predicate Gets(s: State, t: nat, e: nat, b: BlockWrap) {
    AtEntry(s, t, e) || (IsReader(s, t) && s.tasks[t].rpc == Returned(Some(b), None))
  }

  lemma TurnServes(s: State, t: nat, x: Choice, e: nat, b: BlockWrap)
    requires Has(s.mem, e, b) && Gets(s, t, e, b) && ReadEnabled(s, s.tasks[t].rpc, x) && !x.timeout
    ensures var n := ReadStep(s, t, s.tasks[t].round, s.tasks[t].rpc, x);
      Gets(n, t, e, b) && TurnsLeft(n, t) + 1 == TurnsLeft(s, t)
  {
  }

  lemma StepServes(s: State, step: Step, t: nat, e: nat, b: BlockWrap)
    requires Enabled(s, step) && Has(s.mem, e, b) && Gets(s, t, e, b) && (Moves(step, t) ==> !step.x.timeout)
    ensures Gets(Next(s, step), t, e, b)
    ensures TurnsLeft(Next(s, step), t) + (if Moves(step, t) then 1 else 0) == TurnsLeft(s, t)
  {
    if Moves(step, t) {
      TurnServes(s, t, step.x, e, b);
    } else {
      NextKeepsTasks(s, step);
    }
  }

  lemma RunServes(ss: seq<State>, steps: seq<Step>, i: nat, t: nat, e: nat, b: BlockWrap)
    requires IsRun(ss, steps) && ss[0] == INIT && i < |steps|
    requires Has(ss[i].mem, e, b) && Gets(ss[i], t, e, b) && (Moves(steps[i], t) ==> !steps[i].x.timeout)
    ensures Has(ss[i + 1].mem, e, b) && Gets(ss[i + 1], t, e, b)
    ensures TurnsLeft(ss[i + 1], t) + (if Moves(steps[i], t) then 1 else 0) == TurnsLeft(ss[i], t)
  {
    RunKeepsEntry(ss, steps, i, e);
    assert StepAt(ss, steps, i);
    StepServes(ss[i], steps[i], t, e, b);
  }

  lemma ServedCanTurn(ss: seq<State>, steps: seq<Step>, i: nat, t: nat, e: nat, b: BlockWrap)
    requires IsRun(ss, steps) && ss[0] == INIT && i < |ss| && AtEntry(ss[i], t, e) && Has(ss[i].mem, e, b)
    ensures Enabled(ss[i], Run(t, Choice(0, FetchFailed("", false), true, false)))
  {
    if ss[i].tasks[t].rpc.Wait? {
      WaitersWaitForResults(ss, steps, i, t);
    }
  }

  /** A reader that waits for entry e, or is about to read it for the first or second time, when the
      entry has block b and no error, returns exactly that block: until then it can take a turn at once
      without timing out, and it needs two, or one if it is not waiting, whatever else happens. */
  lemma {:induction false} WaitingReaderGetsBlock(ss: seq<State>, steps: seq<Step>, i: nat, j: nat, t: nat,
                                                  e: nat, b: BlockWrap)
    requires IsRun(ss, steps) && ss[0] == INIT && i <= j < |ss|
    requires AtEntry(ss[i], t, e) && Has(ss[i].mem, e, b) && Patient(steps, i, j, t)
    ensures Has(ss[j].mem, e, b) && Gets(ss[j], t, e, b)
    ensures Turns(steps, i, j, t) + TurnsLeft(ss[j], t) == TurnsLeft(ss[i], t)
    ensures AtEntry(ss[j], t, e) ==> Enabled(ss[j], Run(t, Choice(0, FetchFailed("", false), true, false)))
    decreases j
  {
    if i < j {
      WaitingReaderGetsBlock(ss, steps, i, j - 1, t, e, b);
      RunServes(ss, steps, j - 1, t, e, b);
    }
    if AtEntry(ss[j], t, e) {
      ServedCanTurn(ss, steps, j, t, e, b);
    }
  }

  // ----- where the errors of entries come from

  /** Call u of addBlock has delivered this error for the round. */
  predicate Reports(s: State, u: nat, round: U64, error: string) {
    && u < |s.tasks| && s.tasks[u].Add? && Settled(s.tasks[u].apc)
    && s.tasks[u].w.round == round && s.tasks[u].w.error == Some(error)
  }

  ghost predicate Reported(s: State, round: U64, error: string) {
    exists u :: Reports(s, u, round, error)
  }

  lemma ReportsStay(s: State, step: Step, round: U64, error: string)
    requires Enabled(s, step) && Reported(s, round, error)
    ensures Reported(Next(s, step), round, error)
  {
    var u :| Reports(s, u, round, error);
    NextKeepsTasks(s, step);
    assert Reports(Next(s, step), u, round, error);
  }

  /** An operation records no error but the one it carries. */
  lemma PerformRecords(m: Mem, op: Op, e: nat)
    requires Allowed(m, op) && e < |Perform(m, op).entries| && Perform(m, op).entries[e].error.Some?
    ensures var be := Perform(m, op).entries[e];
      || (e < |m.entries| && m.entries[e].error == be.error)
      || ((op.AddOp? || op.DeliverOp?) && op.w.error == be.error && op.w.round == be.round)
  {
  }

  /** Every error that an entry records was delivered for its round by some addBlock call. */
  lemma {:induction false} EntryErrorsAreReported(ss: seq<State>, steps: seq<Step>, i: nat, e: nat)
    requires IsRun(ss, steps) && ss[0] == INIT && i < |ss|
    requires e < |ss[i].mem.entries| && ss[i].mem.entries[e].error.Some?
    ensures Reported(ss[i], ss[i].mem.entries[e].round, ss[i].mem.entries[e].error.value)
    decreases i
  {
    var s, be := ss[i - 1], ss[i].mem.entries[e];
    if e < |s.mem.entries| && s.mem.entries[e].error == be.error {
      RunKeepsEntry(ss, steps, i - 1, e);
      EntryErrorsAreReported(ss, steps, i - 1, e);
      assert StepAt(ss, steps, i - 1);
      ReportsStay(s, steps[i - 1], be.round, be.error.value);
    } else {
      NewErrorIsReported(ss, steps, i - 1, e);
    }
  }

  lemma NewErrorIsReported(ss: seq<State>, steps: seq<Step>, i: nat, e: nat)
    requires IsRun(ss, steps) && ss[0] == INIT && i < |steps|
    requires e < |ss[i + 1].mem.entries| && ss[i + 1].mem.entries[e].error.Some?
    requires e < |ss[i].mem.entries| ==> ss[i].mem.entries[e].error != ss[i + 1].mem.entries[e].error
    ensures Reported(ss[i + 1], ss[i + 1].mem.entries[e].round, ss[i + 1].mem.entries[e].error.value)
  {
    var s, step := ss[i], steps[i];
    assert StepAt(ss, steps, i);
    RunOk(ss, steps, i);
    assert step.Run? ==> TaskOk(s, s.tasks[step.t]);
    NextPerforms(s, step);
    PerformRecords(s.mem, OpOf(s, step), e);
    DelivererSettles(s, step);
    assert Reports(ss[i + 1], step.t, ss[i + 1].mem.entries[e].round, ss[i + 1].mem.entries[e].error.value);
  }

  lemma DelivererSettles(s: State, step: Step)
    requires Enabled(s, step) && (OpOf(s, step).AddOp? || OpOf(s, step).DeliverOp?)
    ensures step.Run? && step.t < |Next(s, step).tasks|
    ensures var task := Next(s, step).tasks[step.t]; task.Add? && Settled(task.apc) && task.w == OpOf(s, step).w
  {
  }

  // ----- where the errors of GetBlock come from

  const NO_BLOCK := "error getting block"
  const CONTEXT_DONE := "context done"

  /** The k-th look of the reader is about to be fruitless: the cache it looks into does not have the
      round, or the entry it has waited for was re-armed before the reader could read it again. */
  predicate FindsNothing(s: State, t: nat, k: nat) {
    IsReader(s, t) &&
    var round, pc, m := s.tasks[t].round, s.tasks[t].rpc, s.mem;
    || (pc == Get(k) && round !in m.At(CacheOf(k)).items)
    || (pc.Reread? && pc.k == k && pc.e < |m.entries| && m.entries[pc.e].Pending())
  }

  /** At step p the k-th look of the reader was fruitless. */
  ghost predicate Fruitless(ss: seq<State>, steps: seq<Step>, p: nat, t: nat, k: nat)
    requires IsRun(ss, steps) && p < |steps|
  {
    Moves(steps[p], t) && FindsNothing(ss[p], t, k)
  }

  ghost predicate FruitlessBefore(ss: seq<State>, steps: seq<Step>, i: nat, t: nat, k: nat)
    requires IsRun(ss, steps) && i < |ss|
  {
    exists p :: 0 <= p < i && Fruitless(ss, steps, p, t, k)
  }

  /** At step p the reader gave up waiting, after which the cache it had looked into was told. */
  ghost predicate TimedOut(ss: seq<State>, steps: seq<Step>, p: nat, t: nat)
    requires IsRun(ss, steps) && p < |steps|
  {
    Moves(steps[p], t) && IsReader(ss[p], t) && ss[p].tasks[t].rpc.Wait? && steps[p].x.timeout
  }

  ghost predicate TimedOutBefore(ss: seq<State>, steps: seq<Step>, i: nat, t: nat)
    requires IsRun(ss, steps) && i < |ss|
  {
    exists p :: 0 <= p < i && TimedOut(ss, steps, p, t)
  }

  /** PromiseBlock of the round has been called and has started its load. */
  ghost predicate Promised(s: State, round: U64) {
    exists u :: 0 <= u < |s.tasks| && s.tasks[u] == Promise(round, PDone)
  }

  /** Why GetBlock may fail: an addBlock call reported that error for the round, or the reader timed
      out and the timeout is reported, or both looks after the promise were fruitless. */
  ghost predicate FailsFor(ss: seq<State>, steps: seq<Step>, i: nat, t: nat, round: U64, error: string)
    requires IsRun(ss, steps) && i < |ss|
  {
    || Reported(ss[i], round, error)
    || (error == CONTEXT_DONE && TimedOutBefore(ss, steps, i, t) && Reported(ss[i], round, "block timeout"))
    || (error == NO_BLOCK && FruitlessBefore(ss, steps, i, t, 2) && FruitlessBefore(ss, steps, i, t, 3))
  }

  /** The number of the getBlock call a reader is in; 4 after the last. */
  function Look(pc: ReadPc): nat {
    match pc
    case Get(k) => k case Read(k, _) => k case Wait(k, _, _) => k case Reread(k, _) => k case AwaitTimeout(k, _) => k
    case Ask => 1
    case AwaitPromise(_) => 1
    case Returned(_, _) => 4
  }

  /** What a reader has behind it. */
  ghost predicate Story(ss: seq<State>, steps: seq<Step>, i: nat, t: nat)
    requires IsRun(ss, steps) && i < |ss| && IsReader(ss[i], t)
  {
    var round, pc := ss[i].tasks[t].round, ss[i].tasks[t].rpc;
    && Look(pc) <= 4 && (Look(pc) == 4 ==> pc.Returned?)
    && (2 <= Look(pc) <= 3 ==> Promised(ss[i], round))
    && (Look(pc) == 3 ==> FruitlessBefore(ss, steps, i, t, 2))
    && (pc.AwaitTimeout? ==>
          && TimedOutBefore(ss, steps, i, t)
          && pc.child < |ss[i].tasks| && ss[i].tasks[pc.child].Add?
          && ss[i].tasks[pc.child].w == BlockWrap(round, 0, 0, Some("block timeout")))
    && (pc.Returned? && pc.error.Some? ==> Promised(ss[i], round) && FailsFor(ss, steps, i, t, round, pc.error.value))
  }

  lemma PromisedStays(s: State, step: Step, round: U64)
    requires Enabled(s, step) && Promised(s, round)
    ensures Promised(Next(s, step), round)
  {
    var u :| 0 <= u < |s.tasks| && s.tasks[u] == Promise(round, PDone);
    NextKeepsTasks(s, step);
    assert Next(s, step).tasks[u] == s.tasks[u];
  }

  lemma AddStays(s: State, step: Step, u: nat)
    requires Enabled(s, step) && u < |s.tasks| && s.tasks[u].Add?
    ensures u < |Next(s, step).tasks| && Next(s, step).tasks[u].Add? && Next(s, step).tasks[u].w == s.tasks[u].w
  {
    NextKeepsTasks(s, step);
  }

  lemma LookedStays(ss: seq<State>, steps: seq<Step>, i: nat, t: nat, k: nat)
    requires IsRun(ss, steps) && i < |steps|
    ensures FruitlessBefore(ss, steps, i, t, k) ==> FruitlessBefore(ss, steps, i + 1, t, k)
    ensures Fruitless(ss, steps, i, t, k) ==> FruitlessBefore(ss, steps, i + 1, t, k)
    ensures TimedOutBefore(ss, steps, i, t) ==> TimedOutBefore(ss, steps, i + 1, t)
    ensures TimedOut(ss, steps, i, t) ==> TimedOutBefore(ss, steps, i + 1, t)
  {
    if FruitlessBefore(ss, steps, i, t, k) {
      var p :| 0 <= p < i && Fruitless(ss, steps, p, t, k);
    }
    if TimedOutBefore(ss, steps, i, t) {
      var p :| 0 <= p < i && TimedOut(ss, steps, p, t);
    }
  }

  lemma StoryStays(ss: seq<State>, steps: seq<Step>, i: nat, t: nat)
    requires IsRun(ss, steps) && i < |steps| && !Moves(steps[i], t)
    requires IsReader(ss[i], t) && Story(ss, steps, i, t)
    ensures IsReader(ss[i + 1], t) && Story(ss, steps, i + 1, t)
  {
    assert StepAt(ss, steps, i);
    var s, step := ss[i], steps[i];
    NextKeepsTasks(s, step);
    var round, pc := s.tasks[t].round, s.tasks[t].rpc;
    LookedStays(ss, steps, i, t, 2);
    LookedStays(ss, steps, i, t, 3);
    if Promised(s, round) {
      PromisedStays(s, step, round);
    }
    if pc.AwaitTimeout? {
      AddStays(s, step, pc.child);
    }
    if pc.Returned? && pc.error.Some? {
      if Reported(s, round, pc.error.value) {
        ReportsStay(s, step, round, pc.error.value);
      }
      if Reported(s, round, "block timeout") {
        ReportsStay(s, step, round, "block timeout");
      }
    }
  }

  /** Where a reader can be after one turn of its own, and why. */
  predicate TurnTo(s: State, t: nat, x: Choice, next: ReadPc)
    requires IsReader(s, t)
  {
    var pc := s.tasks[t].rpc;
    && Look(next) <= 4 && (Look(next) == 4 ==> next.Returned?)
    && (2 <= Look(next) <= 3 ==> 2 <= Look(pc) <= 3 || pc.AwaitPromise?)
    && (Look(next) == 3 ==> Look(pc) == 3 || FindsNothing(s, t, 2))
    && (next.AwaitTimeout? ==> pc.Wait? && x.timeout && next.child == |s.tasks|)
    && (next.Returned? && next.error.Some? ==>
          && 2 <= Look(pc) <= 3
          && (|| ((pc.Read? || pc.Reread?) && pc.e < |s.mem.entries| && s.mem.entries[pc.e].error == next.error)
              || (pc.AwaitTimeout? && next.error == Some(CONTEXT_DONE))
              || (next.error == Some(NO_BLOCK) && Look(pc) == 3 && FindsNothing(s, t, 3))))
  }

  lemma ReaderTurns(s: State, t: nat, x: Choice)
    requires IsReader(s, t) && ReadEnabled(s, s.tasks[t].rpc, x) && Look(s.tasks[t].rpc) <= 3
    requires var pc := s.tasks[t].rpc; pc.Read? || pc.Reread? ==> pc.e < |s.mem.entries| && EntryOk(s.mem.entries[pc.e])
    ensures var n := ReadStep(s, t, s.tasks[t].round, s.tasks[t].rpc, x);
      && IsReader(n, t) && n.tasks[t].round == s.tasks[t].round && TurnTo(s, t, x, n.tasks[t].rpc)
      && (n.tasks[t].rpc.AwaitTimeout? ==>
            |n.tasks| == |s.tasks| + 1 && n.tasks[|s.tasks|].Add?
            && n.tasks[|s.tasks|].w == BlockWrap(s.tasks[t].round, 0, 0, Some("block timeout")))
  {
  }

  /** A turn of the reader goes on with its story. */
  lemma StoryGoesOn(ss: seq<State>, steps: seq<Step>, i: nat, t: nat)
    requires IsRun(ss, steps) && ss[0] == INIT && i < |steps| && Moves(steps[i], t)
    requires IsReader(ss[i], t) && Story(ss, steps, i, t)
    ensures IsReader(ss[i + 1], t) && Story(ss, steps, i + 1, t)
  {
    assert StepAt(ss, steps, i);
    RunOk(ss, steps, i);
    var s, step := ss[i], steps[i];
    assert TaskOk(s, s.tasks[t]);
    var round, pc := s.tasks[t].round, s.tasks[t].rpc;
    ReaderTurns(s, t, step.x);
    LookedStays(ss, steps, i, t, 2);
    LookedStays(ss, steps, i, t, 3);
    if pc.AwaitPromise? {
      assert s.tasks[pc.child] == Promise(round, PDone);
    }
    if Promised(s, round) {
      PromisedStays(s, step, round);
    }
    if ss[i + 1].tasks[t].rpc.Returned? && ss[i + 1].tasks[t].rpc.error.Some? {
      FailureHasACause(ss, steps, i, t);
    }
  }

  lemma FailureHasACause(ss: seq<State>, steps: seq<Step>, i: nat, t: nat)
    requires IsRun(ss, steps) && ss[0] == INIT && i < |steps| && Moves(steps[i], t)
    requires Enabled(ss[i], steps[i]) && ss[i + 1] == Next(ss[i], steps[i])
    requires IsReader(ss[i], t) && Story(ss, steps, i, t) && TaskOk(ss[i], ss[i].tasks[t])
    requires IsReader(ss[i + 1], t) && TurnTo(ss[i], t, steps[i].x, ss[i + 1].tasks[t].rpc)
    requires ss[i + 1].tasks[t].rpc.Returned? && ss[i + 1].tasks[t].rpc.error.Some?
    ensures FailsFor(ss, steps, i + 1, t, ss[i].tasks[t].round, ss[i + 1].tasks[t].rpc.error.value)
  {
    var s, step := ss[i], steps[i];
    var round, pc := s.tasks[t].round, s.tasks[t].rpc;
    LookedStays(ss, steps, i, t, 2);
    LookedStays(ss, steps, i, t, 3);
    if pc.Read? || pc.Reread? {
      ErrorFound(ss, steps, i, t, pc.e);
    } else if pc.AwaitTimeout? {
      assert Reports(s, pc.child, round, "block timeout");
      ReportsStay(s, step, round, "block timeout");
    }
  }

  lemma ErrorFound(ss: seq<State>, steps: seq<Step>, i: nat, t: nat, e: nat)
    requires IsRun(ss, steps) && ss[0] == INIT && i < |steps| && Enabled(ss[i], steps[i])
    requires ss[i + 1] == Next(ss[i], steps[i]) && e < |ss[i].mem.entries|
    ensures EntryOk(ss[i].mem.entries[e])
    ensures var be := ss[i].mem.entries[e]; be.error.Some? ==> Reported(ss[i + 1], be.round, be.error.value)
  {
    RunOk(ss, steps, i);
    var be := ss[i].mem.entries[e];
    if be.error.Some? {
      EntryErrorsAreReported(ss, steps, i, e);
      ReportsStay(ss[i], steps[i], be.round, be.error.value);
    }
  }

  lemma {:induction false} RunTellsStory(ss: seq<State>, steps: seq<Step>, i: nat, t: nat)
    requires IsRun(ss, steps) && ss[0] == INIT && i < |ss| && IsReader(ss[i], t)
    ensures Story(ss, steps, i, t)
    decreases i
  {
    assert StepAt(ss, steps, i - 1);
    ReaderBefore(ss[i - 1], steps[i - 1], t);
    if t < |ss[i - 1].tasks| {
      RunTellsStory(ss, steps, i - 1, t);
      if Moves(steps[i - 1], t) {
        StoryGoesOn(ss, steps, i - 1, t);
      } else {
        StoryStays(ss, steps, i - 1, t);
      }
    }
  }

  /** GetBlock fails only after it has promised the round, and only with an error that some addBlock
      call delivered for that round, with its own timeout, which it has reported, or because both
      looks after the promise were fruitless. */
  lemma GetBlockErrorsHaveACause(ss: seq<State>, steps: seq<Step>, i: nat, t: nat)
    requires IsRun(ss, steps) && ss[0] == INIT && i < |ss| && IsReader(ss[i], t)
    requires ss[i].tasks[t].rpc.Returned? && ss[i].tasks[t].rpc.error.Some?
    ensures ss[i].tasks[t].rpc.block.None? && Promised(ss[i], ss[i].tasks[t].round)
    ensures FailsFor(ss, steps, i, t, ss[i].tasks[t].round, ss[i].tasks[t].rpc.error.value)
  {
    RunTellsStory(ss, steps, i, t);
    GetBlockAnswers(ss, steps, i, t);
  }
}
