/**
  No promise is forgotten: an unresolved entry that is still in its cache
  always has a task under way that is bound to resolve it.
 */
module LoadProgress {
  import opened Basics
  import opened CacheModel
  import opened Routing
  import opened CacheSystem
  import opened CacheInvariants

  /** Entry e is what cache c holds for the round, and it has neither block nor error. */
  predicate Unresolved(m: Mem, c: CacheId, round: U64, e: nat) {
    round in m.At(c).items && m.At(c).items[round] == e && e < |m.entries| && m.entries[e].Pending()
  }

  /** The task has yet to deliver a result for the round to entry e of cache c. */
  predicate Bound(task: Task, c: CacheId, round: U64, e: nat) {
    match task
    case Add(w, pc) =>
      w.round == round && (pc.ALock? || pc.ARoute? || pc.AWindow? || pc == APeek(c) || (pc.ALocked? && pc.e == e))
    case Promise(r, pc) => r == round && !pc.PDone?
    case Load(r, pc) =>
      r == round && (pc.LStart? || pc.LWindow? || pc.LCatchup? || pc == LArchive(false) || HasHope(pc))
    case Fetch(node, r, pc) =>
      r == round && (pc.FTry? || (Holding(pc) && pc.w.round == round && (pc.FCheckRead? ==> pc.e == e)))
    case Reader(r, pc) => false
  }

  /** The fetch has its block and has not handed it to addBlock yet. */
  predicate Holding(pc: FetchPc) {
    pc.FSubmit? || pc.FMake? || pc.FCheck? || pc.FCheckRead?
  }

  /** A load that has asked nobody yet has a node to ask, or the archive list still to take up. */
  predicate HasHope(pc: LoadPc) {
    pc.LTry? && !pc.tried && (pc.nodes != [] || pc.fallback)
  }

  /** The assumptions on one step: the round keeps routing to cache c, the archive list is not empty
      when a load of the round that has asked nobody takes it up, and a fetch of the round ends in an
      error or a block of that round that wraps. */
  predicate Cooperative(s: State, step: Step, c: CacheId, round: U64)
    requires Enabled(s, step)
  {
    step.Run? ==>
      match s.tasks[step.t]
      case Add(w, pc) => w.round == round ==>
          && (pc.ARoute? ==> PeekRoutesTo(s.mem, c, round))
          && (pc.AWindow? ==> c == if InWindow(s.mem.catchup.last, round) then Catchup else Archive)
      case Promise(r, pc) => r == round ==>
          && (pc.PRoute? ==> PeekRoutesTo(s.mem, c, round))
          && (pc.PFirst? && s.mem.catchup.last == 0 ==> c == Catchup)
          && (pc.PWindow? ==> c == if AboveWindow(s.mem.catchup.last, round) then Catchup else Archive)
      case Load(r, pc) => r == round && pc == LArchive(false) ==> s.archNodes != []
      case Fetch(node, r, pc) =>
        r == round ==>
          && (pc.FTry? && step.x.fetched.FetchGot? ==> step.x.fetched.round == round)
          && (pc.FMake? ==> step.x.wrapOk)
      case Reader(r, pc) => true
  }

  ghost predicate CooperatesAt(ss: seq<State>, steps: seq<Step>, i: nat, c: CacheId, round: U64)
    requires IsRun(ss, steps) && i < |steps|
  {
    assert StepAt(ss, steps, i);
    Cooperative(ss[i], steps[i], c, round)
  }

  ghost predicate CooperativeUpTo(ss: seq<State>, steps: seq<Step>, i: nat, c: CacheId, round: U64)
    requires IsRun(ss, steps) && i < |ss|
  {
    forall j :: 0 <= j < i ==> CooperatesAt(ss, steps, j, c, round)
  }

  /** If the peek into the archive cache decides, it decides for cache c. */
  predicate PeekRoutesTo(m: Mem, c: CacheId, round: U64) {
    round == 0 || round in m.arch.items ==> c == Archive
  }

  /** All that touches the round is confined to cache c. */
  predicate Confined(task: Task, c: CacheId, round: U64) {
    match task
    case Add(w, pc) => w.round == round && pc.APeek? ==> pc.c == c
    case Promise(r, pc) => r == round && pc.PPeek? ==> pc.c == c
    case Load(r, pc) => true
    case Fetch(node, r, pc) =>
      && (r == round ==>
            && (Holding(pc) ==> pc.w.round == round)
            && (pc.FCheckRead? ==> pc.c == c))
    case Reader(r, pc) =>
      r == round && (pc.Read? || pc.Wait? || pc.Reread?) ==> CacheOf(pc.k) == c
  }

  ghost predicate AllConfined(s: State, c: CacheId, round: U64) {
    && (forall t :: 0 <= t < |s.tasks| ==> Confined(s.tasks[t], c, round))
    && (forall d: CacheId :: d != c ==> round !in s.mem.At(d).items)
  }

  ghost predicate InFlight(s: State, c: CacheId, round: U64, e: nat) {
    exists t :: 0 <= t < |s.tasks| && Bound(s.tasks[t], c, round, e)
  }

  ghost predicate NoneForgotten(s: State, c: CacheId, round: U64) {
    forall e :: Unresolved(s.mem, c, round, e) ==> InFlight(s, c, round, e)
  }

  /** An operation puts a round into a cache only by inserting it there. */
  lemma PerformKeepsAbsent(m: Mem, op: Op, d: CacheId, round: U64)
    requires Allowed(m, op) && round !in m.At(d).items
    requires op.PromiseOp? && op.round == round ==> op.c != d
    requires op.AddOp? && op.w.round == round ==> op.c != d
    ensures round !in Perform(m, op).At(d).items
  {
  }

  /** The moving task and the one it may create stay confined. */
  ghost predicate MoverConfined(s: State, n: State, t: nat, c: CacheId, round: U64) {
    && t < |s.tasks| <= |n.tasks|
    && Confined(n.tasks[t], c, round)
    && (|n.tasks| == |s.tasks| + 1 ==> Confined(n.tasks[|s.tasks|], c, round))
  }

  lemma RunConfined(s: State, step: Step, c: CacheId, round: U64)
    requires Enabled(s, step) && step.Run? && Cooperative(s, step, c, round)
    requires Confined(s.tasks[step.t], c, round) && round !in s.mem.At(Other(c)).items
    ensures MoverConfined(s, Next(s, step), step.t, c, round)
  {
    match s.tasks[step.t]
    case Add(w, pc) =>
    case Promise(r, pc) =>
    case Load(r, pc) =>
    case Fetch(node, r, pc) =>
    case Reader(r, pc) => ReaderConfined(s, step.t, r, pc, step.x, c, round);
  }

  lemma ReaderConfined(s: State, t: nat, r: U64, pc: ReadPc, x: Choice, c: CacheId, round: U64)
    requires t < |s.tasks| && ReadEnabled(s, pc, x)
    requires Confined(Reader(r, pc), c, round) && round !in s.mem.At(Other(c)).items
    ensures MoverConfined(s, ReadStep(s, t, r, pc, x), t, c, round)
  {
  }

  lemma NextKeepsConfined(s: State, step: Step, c: CacheId, round: U64)
    requires Enabled(s, step) && Cooperative(s, step, c, round) && AllConfined(s, c, round)
    requires step.Run? ==> TaskOk(s, s.tasks[step.t])
    ensures AllConfined(Next(s, step), c, round)
  {
    assert round !in s.mem.At(Other(c)).items;
    if step.Run? {
      assert Confined(s.tasks[step.t], c, round);
      RunConfined(s, step, c, round);
    }
    NextPerforms(s, step);
    PerformKeepsAbsent(s.mem, OpOf(s, step), Other(c), round);
    NextKeepsTasks(s, step);
    UnmovedConfined(s, Next(s, step), step, c, round);
  }

  lemma UnmovedConfined(s: State, n: State, step: Step, c: CacheId, round: U64)
    requires |s.tasks| <= |n.tasks| <= |s.tasks| + 1
    requires AllConfined(s, c, round) && round !in n.mem.At(Other(c)).items
    requires forall t :: 0 <= t < |s.tasks| && !Moves(step, t) ==> n.tasks[t] == s.tasks[t]
    requires step.Run? ==> MoverConfined(s, n, step.t, c, round)
    requires |n.tasks| == |s.tasks| + 1 ==> Confined(n.tasks[|s.tasks|], c, round)
    ensures AllConfined(n, c, round)
  {
    forall t | 0 <= t < |n.tasks| ensures Confined(n.tasks[t], c, round) {
      assert t < |s.tasks| ==> Confined(s.tasks[t], c, round);
    }
  }

  /** The mover or the task it created is bound to entry e. */
  ghost predicate MoverBound(s: State, n: State, t: nat, c: CacheId, round: U64, e: nat) {
    && t < |s.tasks| <= |n.tasks|
    && (Bound(n.tasks[t], c, round, e) || (|s.tasks| < |n.tasks| && Bound(n.tasks[|s.tasks|], c, round, e)))
  }

  /** Whatever a bound task does next, the entry is resolved or a task is still bound to resolve it. */
  lemma BoundMoves(s: State, step: Step, c: CacheId, round: U64, e: nat)
    requires Enabled(s, step) && step.Run? && Cooperative(s, step, c, round)
    requires Confined(s.tasks[step.t], c, round) && round !in s.mem.At(Other(c)).items
    requires Bound(s.tasks[step.t], c, round, e)
    requires Unresolved(s.mem, c, round, e) && Unresolved(Next(s, step).mem, c, round, e)
    ensures MoverBound(s, Next(s, step), step.t, c, round, e)
  {
    match s.tasks[step.t]
    case Add(w, pc) =>
    case Promise(r, pc) =>
    case Load(r, pc) =>
    case Fetch(node, r, pc) =>
    case Reader(r, pc) =>
  }

  /** Only a promise makes an entry unresolved, and then that promise is bound to it. */
  lemma NewlyUnresolved(s: State, step: Step, c: CacheId, round: U64, e: nat)
    requires MemOk(s.mem) && Enabled(s, step)
    requires step.Run? ==> TaskOk(s, s.tasks[step.t])
    requires !Unresolved(s.mem, c, round, e) && Unresolved(Next(s, step).mem, c, round, e)
    ensures InFlight(Next(s, step), c, round, e)
  {
    NextPerforms(s, step);
    var op := OpOf(s, step);
    PerformUnresolves(s.mem, op, c, round, e);
    assert Bound(Next(s, step).tasks[step.t], c, round, e);
  }

  lemma PerformUnresolves(m: Mem, op: Op, c: CacheId, round: U64, e: nat)
    requires MemOk(m) && Allowed(m, op)
    requires !Unresolved(m, c, round, e) && Unresolved(Perform(m, op), c, round, e)
    ensures (op.PromiseOp? && op.round == round) || (op.RearmOp? && m.entries[op.e].round == round)
  {
    assert CacheOk(m, c);
    match op
    case PromiseOp(d, r, victim) => InsertUnresolves(m, op, c, round, e);
    case AddOp(d, w, victim) => InsertUnresolves(m, op, c, round, e);
    case _ =>
  }

  lemma InsertUnresolves(m: Mem, op: Op, c: CacheId, round: U64, e: nat)
    requires CacheOk(m, c) && Allowed(m, op) && (op.PromiseOp? || op.AddOp?)
    requires !Unresolved(m, c, round, e) && Unresolved(Perform(m, op), c, round, e)
    ensures op.PromiseOp? && op.round == round
  {
    if op.c == c && op.PromiseOp? {
      InsertKeepsBound(m.At(c).items, op.round, |m.entries|, op.victim);
    } else if op.c == c {
      InsertKeepsBound(m.At(c).items, op.w.round, |m.entries|, op.victim);
    }
  }

  lemma NextKeepsNoneForgotten(s: State, step: Step, c: CacheId, round: U64)
    requires MemOk(s.mem) && Enabled(s, step) && Cooperative(s, step, c, round)
    requires step.Run? ==> TaskOk(s, s.tasks[step.t])
    requires AllConfined(s, c, round) && NoneForgotten(s, c, round)
    ensures NoneForgotten(Next(s, step), c, round)
  {
    var n := Next(s, step);
    NextKeepsTasks(s, step);
    forall e | Unresolved(n.mem, c, round, e) ensures InFlight(n, c, round, e) {
      if Unresolved(s.mem, c, round, e) {
        var t :| 0 <= t < |s.tasks| && Bound(s.tasks[t], c, round, e);
        if Moves(step, t) {
          assert Confined(s.tasks[t], c, round);
          BoundMoves(s, step, c, round, e);
        } else {
          assert Bound(n.tasks[t], c, round, e);
        }
      } else {
        NewlyUnresolved(s, step, c, round, e);
      }
    }
  }

  lemma NextKeepsPromises(s: State, step: Step, c: CacheId, round: U64)
    requires StateOk(s) && Enabled(s, step) && Cooperative(s, step, c, round)
    requires AllConfined(s, c, round) && NoneForgotten(s, c, round)
    ensures AllConfined(Next(s, step), c, round) && NoneForgotten(Next(s, step), c, round)
  {
    assert step.Run? ==> TaskOk(s, s.tasks[step.t]);
    NextKeepsConfined(s, step, c, round);
    NextKeepsNoneForgotten(s, step, c, round);
  }

  lemma CooperativeStep(ss: seq<State>, steps: seq<Step>, i: nat, c: CacheId, round: U64)
    requires IsRun(ss, steps) && i < |steps| && CooperatesAt(ss, steps, i, c, round)
    ensures Enabled(ss[i], steps[i]) && ss[i + 1] == Next(ss[i], steps[i]) && Cooperative(ss[i], steps[i], c, round)
  {
    assert StepAt(ss, steps, i);
  }

  /** In every interleaving of a run whose steps cooperate for the round, an entry that the cache
      holds for it with neither block nor error has a task in flight that is bound to resolve it. */
  lemma {:induction false} NoPromiseForgotten(ss: seq<State>, steps: seq<Step>, i: nat, c: CacheId, round: U64)
    requires IsRun(ss, steps) && ss[0] == INIT && i < |ss|
    requires CooperativeUpTo(ss, steps, i, c, round)
    ensures AllConfined(ss[i], c, round) && NoneForgotten(ss[i], c, round)
  {
    if i > 0 {
      NoPromiseForgotten(ss, steps, i - 1, c, round);
      RunOk(ss, steps, i - 1);
      assert CooperatesAt(ss, steps, i - 1, c, round);
      CooperativeStep(ss, steps, i - 1, c, round);
      NextKeepsPromises(ss[i - 1], steps[i - 1], c, round);
    }
  }
}
