/** What holds of the promise cache, its loader and its readers in every state of every run. */
module CacheInvariants {
  import opened Basics
  import opened CacheModel
  import opened CacheSystem

  // ----- every step is at most one memory operation

  function OpOf(s: State, step: Step): Op
    requires Enabled(s, step)
  {
    if !step.Run? then NoOp else
    match s.tasks[step.t]
    case Add(w, APeek(c)) => if w.round in s.mem.At(c).items then NoOp else AddOp(c, w, step.x.victim)
    case Add(w, ALocked(c, e)) => DeliverOp(e, w)
    case Add(w, ALast(c)) => BumpOp(c, w)
    case Promise(round, PPeek(c)) =>
      if round in s.mem.At(c).items then NoOp else PromiseOp(c, round, step.x.victim)
    case Promise(round, PLocked(c, e)) => RearmOp(e)
    case _ => NoOp
  }

  // ----- invariants

  predicate HasRound(m: Mem, e: nat, round: U64) {
    e < |m.entries| && m.entries[e].round == round
  }

  predicate AddOk(s: State, w: BlockWrap, pc: AddPc) {
    && (w.error.None? ==> w in s.sunk)
    && (pc.ALocked? ==> HasRound(s.mem, pc.e, w.round))
    && (pc.ADone? && w.error.None? ==> w.round <= s.mem.At(pc.c).last)
  }

  predicate LoadOk(s: State, pc: LoadPc) {
    match pc
    case LTry(nodes, fallback, tried) => forall n :: n in nodes ==> n in s.sources
    case LAwaitFetch(nodes, fallback, child) => forall n :: n in nodes ==> n in s.sources
    case _ => true
  }

  predicate FetchOk(s: State, node: nat, pc: FetchPc) {
    && node in s.sources
    && (match pc
        case FSubmit(w) => w.error.None? && w.src == node
        case FCheck(c, w) => w.error.None? && w.src == node && w in s.sunk
        case FCheckRead(c, e, w) => w.error.None? && w.src == node && w in s.sunk && HasRound(s.mem, e, w.round)
        case FMake(w) => w.error.None? && w.src == node && w in s.sunk
        case _ => true)
  }

  /** A returned pair is exactly one of an error and a block of the round that was delivered. */
  predicate Answer(s: State, round: U64, block: Option<BlockWrap>, error: Option<string>) {
    && (block.Some? <==> error.None?)
    && (block.Some? ==> block.value.round == round && block.value.error.None? && block.value in s.delivered)
  }

  predicate ReadOk(s: State, round: U64, pc: ReadPc) {
    match pc
    case Read(k, e) => HasRound(s.mem, e, round)
    case Wait(k, e, ch) => HasRound(s.mem, e, round) && ch < |s.mem.chans| && s.mem.chans[ch].owner == e
    case Reread(k, e) => HasRound(s.mem, e, round)
    case AwaitPromise(child) => child < |s.tasks| && s.tasks[child].Promise? && s.tasks[child].round == round
    case Returned(block, error) => Answer(s, round, block, error)
    case _ => true
  }

  predicate TaskOk(s: State, task: Task) {
    match task
    case Add(w, pc) => AddOk(s, w, pc)
    case Promise(round, pc) => pc.PLocked? ==> HasRound(s.mem, pc.e, round)
    case Load(round, pc) => LoadOk(s, pc)
    case Fetch(node, round, pc) => FetchOk(s, node, pc)
    case Reader(round, pc) => ReadOk(s, round, pc)
  }

  /** The tip is the maximum of all submissions; the winning ones strictly increase up to it. */
  predicate TipOk(tip: Tip) {
    && (forall i :: 0 <= i < |tip.submitted| ==> tip.submitted[i] <= tip.latest)
    && (tip.latest == 0 || tip.latest in tip.submitted)
    && (forall i, j :: 0 <= i < j < |tip.wins| ==> tip.wins[i] < tip.wins[j])
    && (if tip.wins == [] then tip.latest == 0 else tip.wins[|tip.wins| - 1] == tip.latest > 0)
    && (forall i :: 0 <= i < |tip.wins| ==> 0 < tip.wins[i] <= tip.latest && tip.wins[i] in tip.submitted)
  }

  /** Blocks are submitted, then delivered, then stored, and never exceed the tip. */
  predicate BlocksOk(s: State) {
    && (forall w :: w in s.sunk ==> w.round <= s.tip.latest && w.src in s.sources)
    && s.delivered <= s.sunk
    && (forall e :: 0 <= e < |s.mem.entries| && s.mem.entries[e].block.Some? ==>
          s.mem.entries[e].block.value in s.delivered)
    && s.mem.catchup.last <= s.tip.latest && s.mem.arch.last <= s.tip.latest
  }

  predicate ListsOk(s: State) {
    && (forall n :: n in s.catchupNodes ==> n in s.sources)
    && (forall n :: n in s.archNodes ==> n in s.sources)
  }

  ghost predicate StateOk(s: State) {
    && MemOk(s.mem) && TipOk(s.tip) && BlocksOk(s) && ListsOk(s)
    && forall t :: 0 <= t < |s.tasks| ==> TaskOk(s, s.tasks[t])
  }

  // ----- preservation

  lemma NextPerforms(s: State, step: Step)
    requires Enabled(s, step)
    requires step.Run? ==> TaskOk(s, s.tasks[step.t])
    ensures Allowed(s.mem, OpOf(s, step))
    ensures Next(s, step).mem == Perform(s.mem, OpOf(s, step))
  {
  }

  /** Everything a task's invariant refers to only grows. */
  ghost predicate Grows(s: State, n: State) {
    && |s.mem.entries| <= |n.mem.entries|
    && (forall e :: 0 <= e < |s.mem.entries| ==> n.mem.entries[e].round == s.mem.entries[e].round)
    && |s.mem.chans| <= |n.mem.chans|
    && (forall k :: 0 <= k < |s.mem.chans| ==> n.mem.chans[k].owner == s.mem.chans[k].owner)
    && |s.tasks| <= |n.tasks|
    && (forall t :: 0 <= t < |s.tasks| && s.tasks[t].Promise? ==>
          n.tasks[t].Promise? && n.tasks[t].round == s.tasks[t].round)
    && s.sunk <= n.sunk && s.delivered <= n.delivered && s.sources <= n.sources
    && s.mem.catchup.last <= n.mem.catchup.last && s.mem.arch.last <= n.mem.arch.last
  }

  lemma PerformKeepsOwners(m: Mem, op: Op)
    requires Allowed(m, op)
    ensures |m.chans| <= |Perform(m, op).chans|
    ensures forall k :: 0 <= k < |m.chans| ==> Perform(m, op).chans[k].owner == m.chans[k].owner
  {
  }

  lemma NextGrows(s: State, step: Step)
    requires Enabled(s, step)
    requires step.Run? ==> TaskOk(s, s.tasks[step.t])
    ensures Grows(s, Next(s, step))
  {
    NextPerforms(s, step);
    PerformKeepsHistory(s.mem, OpOf(s, step));
    PerformKeepsOwners(s.mem, OpOf(s, step));
    var n := Next(s, step);
    forall e | 0 <= e < |s.mem.entries| ensures n.mem.entries[e].round == s.mem.entries[e].round {
      assert EntryStep(s.mem.entries[e], n.mem.entries[e]);
    }
    NextKeepsTasks(s, step);
  }

  predicate Moves(step: Step, t: nat) {
    step.Run? && step.t == t
  }

  /** A step changes one task, keeps its kind and round, and at most adds one. */
  lemma NextKeepsTasks(s: State, step: Step)
    requires Enabled(s, step)
    ensures var n := Next(s, step);
      && |s.tasks| <= |n.tasks| <= |s.tasks| + 1
      && (forall t :: 0 <= t < |s.tasks| && !Moves(step, t) ==> n.tasks[t] == s.tasks[t])
      && (forall t :: 0 <= t < |s.tasks| && s.tasks[t].Promise? ==>
            n.tasks[t].Promise? && n.tasks[t].round == s.tasks[t].round)
  {
  }

  lemma TaskOkStable(s: State, n: State, task: Task)
    requires Grows(s, n) && TaskOk(s, task)
    ensures TaskOk(n, task)
  {
  }

  /** The task that moves, and the task it may create, satisfy their invariants afterwards. */
  ghost predicate MoverOk(s: State, n: State, t: nat) {
    && t < |s.tasks| <= |n.tasks|
    && TaskOk(n, n.tasks[t])
    && (|n.tasks| == |s.tasks| + 1 ==> TaskOk(n, n.tasks[|s.tasks|]))
  }

  lemma AddMoverOk(s: State, t: nat, w: BlockWrap, pc: AddPc, x: Choice)
    requires t < |s.tasks| && AddEnabled(s, w, pc, x)
    requires AddOk(s, w, pc) && CacheOk(s.mem, Catchup) && CacheOk(s.mem, Archive)
    ensures MoverOk(s, AddStep(s, t, w, pc, x), t)
  {
  }

  lemma PromiseMoverOk(s: State, t: nat, round: U64, pc: PromisePc, x: Choice)
    requires t < |s.tasks| && PromiseEnabled(s, round, pc, x)
    requires CacheOk(s.mem, Catchup) && CacheOk(s.mem, Archive)
    ensures MoverOk(s, PromiseStep(s, t, round, pc, x), t)
  {
  }

  lemma LoadMoverOk(s: State, t: nat, round: U64, pc: LoadPc)
    requires t < |s.tasks| && LoadEnabled(s, pc)
    requires LoadOk(s, pc) && ListsOk(s)
    ensures MoverOk(s, LoadStep(s, t, round, pc), t)
  {
  }

  lemma FetchMoverOk(s: State, t: nat, node: nat, round: U64, pc: FetchPc, x: Choice)
    requires t < |s.tasks| && FetchEnabled(s, pc)
    requires FetchOk(s, node, pc) && CacheOk(s.mem, Catchup) && CacheOk(s.mem, Archive)
    ensures MoverOk(s, FetchStep(s, t, node, round, pc, x), t)
  {
  }

  lemma ReadMoverOk(s: State, t: nat, round: U64, pc: ReadPc, x: Choice)
    requires t < |s.tasks| && ReadEnabled(s, pc, x)
    requires ReadOk(s, round, pc) && CacheOk(s.mem, Catchup) && CacheOk(s.mem, Archive)
    requires pc.Read? || pc.Reread? ==>
      && EntryOk(s.mem.entries[pc.e]) && WaitOk(s.mem, pc.e)
      && (s.mem.entries[pc.e].block.Some? ==> s.mem.entries[pc.e].block.value in s.delivered)
    ensures MoverOk(s, ReadStep(s, t, round, pc, x), t)
  {
  }

  lemma RunMoverOk(s: State, step: Step)
    requires StateOk(s) && Enabled(s, step) && step.Run?
    ensures MoverOk(s, Next(s, step), step.t)
  {
    var t, x := step.t, step.x;
    assert TaskOk(s, s.tasks[t]);
    match s.tasks[t]
    case Add(w, pc) => AddMoverOk(s, t, w, pc, x);
    case Promise(round, pc) => PromiseMoverOk(s, t, round, pc, x);
    case Load(round, pc) => LoadMoverOk(s, t, round, pc);
    case Fetch(node, round, pc) => FetchMoverOk(s, t, node, round, pc, x);
    case Reader(round, pc) => ReadMoverOk(s, t, round, pc, x);
  }

  /** Unmoved tasks keep their invariants because what they mention only grows. */
  lemma UnmovedOk(s: State, n: State, step: Step)
    requires Grows(s, n) && |n.tasks| <= |s.tasks| + 1
    requires forall t :: 0 <= t < |s.tasks| ==> TaskOk(s, s.tasks[t])
    requires forall t :: 0 <= t < |s.tasks| && !Moves(step, t) ==> n.tasks[t] == s.tasks[t]
    requires step.Run? && step.t < |s.tasks| ==> TaskOk(n, n.tasks[step.t])
    requires |n.tasks| == |s.tasks| + 1 ==> TaskOk(n, n.tasks[|s.tasks|])
    ensures forall t :: 0 <= t < |n.tasks| ==> TaskOk(n, n.tasks[t])
  {
    forall t | 0 <= t < |n.tasks| ensures TaskOk(n, n.tasks[t]) {
      if t < |s.tasks| && !Moves(step, t) {
        TaskOkStable(s, n, s.tasks[t]);
      }
    }
  }

  lemma NextKeepsTaskOk(s: State, step: Step)
    requires StateOk(s) && Enabled(s, step)
    ensures forall t :: 0 <= t < |Next(s, step).tasks| ==> TaskOk(Next(s, step), Next(s, step).tasks[t])
  {
    NextGrows(s, step);
    NextKeepsTasks(s, step);
    if step.Run? {
      RunMoverOk(s, step);
    }
    UnmovedOk(s, Next(s, step), step);
  }

  lemma SubmitKeepsTipOk(tip: Tip, round: U64)
    requires TipOk(tip)
    ensures TipOk(Submit(tip, round)) && Submit(tip, round).latest == Max(tip.latest, round)
  {
  }

  /** The round a step submits to SetLatestRound, if any. */
  function SubmissionOf(s: State, step: Step): Option<U64>
    requires Enabled(s, step)
  {
    match step
    case SubmitStatus(round) => Some(round)
    case Run(t, x) => if s.tasks[t].Fetch? && s.tasks[t].fpc.FSubmit? then Some(s.tasks[t].fpc.w.round) else None
    case _ => None
  }

  lemma NextSubmits(s: State, step: Step)
    requires Enabled(s, step)
    requires step.Run? ==> TaskOk(s, s.tasks[step.t])
    ensures var n := Next(s, step);
      && n.tip == (if SubmissionOf(s, step).None? then s.tip else Submit(s.tip, SubmissionOf(s, step).value))
      && (forall w :: w in n.sunk && w !in s.sunk ==> SubmissionOf(s, step) == Some(w.round) && w.src in s.sources)
      && s.sources <= n.sources
  {
  }

  lemma NextKeepsTip(s: State, step: Step)
    requires StateOk(s) && Enabled(s, step)
    ensures TipOk(Next(s, step).tip)
    ensures s.tip.latest <= Next(s, step).tip.latest
    ensures forall w :: w in Next(s, step).sunk ==> w.round <= Next(s, step).tip.latest && w.src in Next(s, step).sources
  {
    assert step.Run? ==> TaskOk(s, s.tasks[step.t]);
    NextSubmits(s, step);
    if SubmissionOf(s, step).Some? {
      SubmitKeepsTipOk(s.tip, SubmissionOf(s, step).value);
    }
  }

  lemma NextKeepsLists(s: State, step: Step)
    requires ListsOk(s) && Enabled(s, step)
    ensures ListsOk(Next(s, step))
  {
  }

  /** An operation stores no block but the one it carries. */
  lemma PerformStores(m: Mem, op: Op, blocks: set<BlockWrap>)
    requires Allowed(m, op)
    requires forall e :: 0 <= e < |m.entries| && m.entries[e].block.Some? ==> m.entries[e].block.value in blocks
    requires (op.AddOp? || op.DeliverOp?) && op.w.error.None? ==> op.w in blocks
    ensures var n := Perform(m, op);
      forall e :: 0 <= e < |n.entries| && n.entries[e].block.Some? ==> n.entries[e].block.value in blocks
  {
  }

  lemma PerformBumps(m: Mem, op: Op, bound: int)
    requires Allowed(m, op) && m.catchup.last <= bound && m.arch.last <= bound
    requires op.BumpOp? && op.w.error.None? ==> op.w.round <= bound
    ensures Perform(m, op).catchup.last <= bound && Perform(m, op).arch.last <= bound
  {
  }

  lemma NextDelivers(s: State, step: Step)
    requires Enabled(s, step) && s.delivered <= s.sunk
    requires step.Run? ==> TaskOk(s, s.tasks[step.t])
    ensures var n := Next(s, step);
      var op := OpOf(s, step);
      && s.delivered <= n.delivered <= n.sunk
      && ((op.AddOp? || op.DeliverOp?) && op.w.error.None? ==> op.w in n.delivered)
      && (op.BumpOp? && op.w.error.None? ==> op.w in s.sunk)
  {
  }

  lemma NextKeepsBlocksOk(s: State, step: Step)
    requires StateOk(s) && Enabled(s, step)
    ensures BlocksOk(Next(s, step))
  {
    assert step.Run? ==> TaskOk(s, s.tasks[step.t]);
    NextPerforms(s, step);
    NextKeepsTip(s, step);
    NextDelivers(s, step);
    var n := Next(s, step);
    PerformStores(s.mem, OpOf(s, step), n.delivered);
    PerformBumps(s.mem, OpOf(s, step), n.tip.latest);
  }

  lemma InitOk()
    ensures StateOk(INIT)
  {
  }

  lemma NextKeepsStateOk(s: State, step: Step)
    requires StateOk(s) && Enabled(s, step)
    ensures StateOk(Next(s, step))
  {
    NextPerforms(s, step) by { assert step.Run? ==> TaskOk(s, s.tasks[step.t]); }
    PerformKeepsMemOk(s.mem, OpOf(s, step));
    NextKeepsTaskOk(s, step);
    NextKeepsTip(s, step);
    NextKeepsLists(s, step);
    NextKeepsBlocksOk(s, step);
  }

  /** Every state of every run from the empty cache satisfies the invariants. */
  lemma {:induction false} RunOk(ss: seq<State>, steps: seq<Step>, i: nat)
    requires IsRun(ss, steps) && ss[0] == INIT && i < |ss|
    ensures StateOk(ss[i])
  {
    if i == 0 {
      InitOk();
    } else {
      RunOk(ss, steps, i - 1);
      assert StepAt(ss, steps, i - 1);
      NextKeepsStateOk(ss[i - 1], steps[i - 1]);
    }
  }
}
