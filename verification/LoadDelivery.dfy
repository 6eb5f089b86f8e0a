/**
  Why a load in flight does deliver: the task that carries the obligation for an
  unresolved entry has at most 31 turns left, and inside the cache it waits for
  nothing but a lock whose holder can go on.  What it waits for outside the
  cache is the subject of WholeNode.
 */
module LoadDelivery {
  import opened Basics
  import opened CacheModel
  import opened CacheSystem
  import opened CacheInvariants
  import opened LoadProgress

  /** An upper bound on the turns a bound task and its callees take before they deliver. */
  function Rank(task: Task): nat {
    match task
    case Add(w, pc) => (
      match pc
      case ALock => 8 case ARoute => 7 case AWindow => 6 case APeek(_) => 5 case ALocked(_, _) => 4
      case _ => 0)
    case Promise(r, pc) => (
      match pc
      case PRoute => 31 case PFirst => 30 case PWindow => 29 case PPeek(_) => 28 case PLocked(_, _) => 27 case PSpawn => 26
      case PDone => 0)
    case Load(r, pc) => (
      match pc
      case LStart => 25 case LWindow => 24 case LCatchup => 23
      case LTry(_, fallback, _) => if fallback then 22 else 20
      case LArchive(_) => 21
      case _ => 0)
    case Fetch(node, r, pc) => (
      match pc
      case FTry => 15 case FSubmit(_) => 14
      case FCheck(c, _) => if c.Catchup? then 13 else 11
      case FCheckRead(c, _, _) => if c.Catchup? then 12 else 10
      case FMake(_) => 9
      case _ => 0)
    case Reader(_, _) => 0
  }

  /** Who carries the obligation after a step: the same task, or the one it has just called. */
  function Carrier(s: State, n: State, step: Step, t: nat, c: CacheId, round: U64, e: nat): nat {
    if Moves(step, t) && t < |n.tasks| && !Bound(n.tasks[t], c, round, e) then |s.tasks| else t
  }

  /** After the step of task t the obligation is with t or the task it called, and nearer its end. */
  predicate Nearer(s: State, n: State, step: Step, t: nat, c: CacheId, round: U64, e: nat)
    requires t < |s.tasks|
  {
    var u := Carrier(s, n, step, t, c, round, e);
    u < |n.tasks| && Bound(n.tasks[u], c, round, e) && Rank(n.tasks[u]) < Rank(s.tasks[t])
  }

  lemma BoundRankFalls(s: State, step: Step, c: CacheId, round: U64, e: nat)
    requires Enabled(s, step) && step.Run? && Cooperative(s, step, c, round)
    requires Confined(s.tasks[step.t], c, round) && round !in s.mem.At(Other(c)).items
    requires Bound(s.tasks[step.t], c, round, e)
    requires Unresolved(s.mem, c, round, e) && Unresolved(Next(s, step).mem, c, round, e)
    ensures Nearer(s, Next(s, step), step, step.t, c, round, e)
  {
    match s.tasks[step.t]
    case Add(w, pc) =>
    case Promise(r, pc) =>
    case Load(r, pc) => LoadRankFalls(s, step, c, round, e);
    case Fetch(node, r, pc) => FetchRankFalls(s, step, c, round, e);
    case Reader(r, pc) =>
  }

  lemma LoadRankFalls(s: State, step: Step, c: CacheId, round: U64, e: nat)
    requires Enabled(s, step) && step.Run? && s.tasks[step.t].Load? && Cooperative(s, step, c, round)
    requires Bound(s.tasks[step.t], c, round, e)
    ensures Nearer(s, LoadStep(s, step.t, s.tasks[step.t].round, s.tasks[step.t].lpc), step, step.t, c, round, e)
  {
  }

  lemma FetchRankFalls(s: State, step: Step, c: CacheId, round: U64, e: nat)
    requires Enabled(s, step) && step.Run? && s.tasks[step.t].Fetch? && Cooperative(s, step, c, round)
    requires Confined(s.tasks[step.t], c, round) && Bound(s.tasks[step.t], c, round, e)
    requires Unresolved(s.mem, c, round, e) && round !in s.mem.At(Other(c)).items
    ensures var f := s.tasks[step.t];
      Nearer(s, FetchStep(s, step.t, f.node, f.round, f.fpc, step.x), step, step.t, c, round, e)
  {
  }

  /** The carrier at step j of the obligation that task t had at step i. */
  function Carry(ss: seq<State>, steps: seq<Step>, i: nat, j: nat, t: nat, c: CacheId, round: U64, e: nat): nat
    requires |ss| == |steps| + 1 && i <= j < |ss|
    decreases j
  {
    if i == j then t
    else Carrier(ss[j - 1], ss[j], steps[j - 1], Carry(ss, steps, i, j - 1, t, c, round, e), c, round, e)
  }

  /** How many of the steps from i to j were turns of the carrier. */
  function Turns(ss: seq<State>, steps: seq<Step>, i: nat, j: nat, t: nat, c: CacheId, round: U64, e: nat): nat
    requires |ss| == |steps| + 1 && i <= j < |ss|
    decreases j
  {
    if i == j then 0
    else Turns(ss, steps, i, j - 1, t, c, round, e)
         + if Moves(steps[j - 1], Carry(ss, steps, i, j - 1, t, c, round, e)) then 1 else 0
  }

  /** As long as the entry stays unresolved its obligation is carried on, each turn of the carrier
      uses up rank, and so there are never more than 31 such turns. */
  lemma {:induction false} DeliveryIsBounded(ss: seq<State>, steps: seq<Step>, i: nat, j: nat, t: nat,
                                             c: CacheId, round: U64, e: nat)
    requires IsRun(ss, steps) && ss[0] == INIT && i <= j < |ss|
    requires CooperativeUpTo(ss, steps, j, c, round)
    requires forall k {:trigger Unresolved(ss[k].mem, c, round, e)} :: i <= k <= j ==> Unresolved(ss[k].mem, c, round, e)
    requires t < |ss[i].tasks| && Bound(ss[i].tasks[t], c, round, e)
    ensures var u := Carry(ss, steps, i, j, t, c, round, e);
      && u < |ss[j].tasks| && Bound(ss[j].tasks[u], c, round, e)
      && Rank(ss[j].tasks[u]) + Turns(ss, steps, i, j, t, c, round, e) <= Rank(ss[i].tasks[t]) <= 31
    decreases j
  {
    if i < j {
      DeliveryIsBounded(ss, steps, i, j - 1, t, c, round, e);
      NoPromiseForgotten(ss, steps, j - 1, c, round);
      assert StepAt(ss, steps, j - 1) && CooperatesAt(ss, steps, j - 1, c, round);
      assert Unresolved(ss[j - 1].mem, c, round, e) && Unresolved(ss[j].mem, c, round, e);
      CarryOnce(ss[j - 1], steps[j - 1], Carry(ss, steps, i, j - 1, t, c, round, e), c, round, e);
    }
  }

  lemma CarryOnce(s: State, step: Step, t: nat, c: CacheId, round: U64, e: nat)
    requires Enabled(s, step) && Cooperative(s, step, c, round) && AllConfined(s, c, round)
    requires Unresolved(s.mem, c, round, e) && Unresolved(Next(s, step).mem, c, round, e)
    requires t < |s.tasks| && Bound(s.tasks[t], c, round, e)
    ensures var n := Next(s, step);
      var u := Carrier(s, n, step, t, c, round, e);
      && u < |n.tasks| && Bound(n.tasks[u], c, round, e)
      && Rank(n.tasks[u]) + (if Moves(step, t) then 1 else 0) <= Rank(s.tasks[t])
  {
    NextKeepsTasks(s, step);
    if Moves(step, t) {
      assert Confined(s.tasks[t], c, round);
      BoundRankFalls(s, step, c, round, e);
    }
  }

  // ----- what the carrier can wait for inside the cache

  /** The cache mutex is held only by an addBlock call that is past acquiring it. */
  predicate LockOk(s: State) {
    s.lock.Some? ==>
      && s.lock.value < |s.tasks| && s.tasks[s.lock.value].Add?
      && !s.tasks[s.lock.value].apc.ALock? && !s.tasks[s.lock.value].apc.ADone?
  }

  lemma NextKeepsLockOk(s: State, step: Step)
    requires Enabled(s, step) && LockOk(s)
    ensures LockOk(Next(s, step))
  {
  }

  lemma {:induction false} RunLockOk(ss: seq<State>, steps: seq<Step>, i: nat)
    requires IsRun(ss, steps) && ss[0] == INIT && i < |ss|
    ensures LockOk(ss[i])
  {
    if i > 0 {
      RunLockOk(ss, steps, i - 1);
      assert StepAt(ss, steps, i - 1);
      NextKeepsLockOk(ss[i - 1], steps[i - 1]);
    }
  }

  ghost predicate CanRun(s: State, t: nat) {
    exists x: Choice :: Enabled(s, Run(t, x))
  }

  lemma AddCanRun(s: State, t: nat)
    requires t < |s.tasks| && s.tasks[t].Add? && TaskOk(s, s.tasks[t])
    requires !s.tasks[t].apc.ADone? && (s.tasks[t].apc.ALock? ==> s.lock.None?)
    ensures CanRun(s, t)
  {
    var pc := s.tasks[t].apc;
    var victim: U64 := 0;
    if pc.APeek? && |s.mem.At(pc.c).items| >= CACHE_SIZE {
      assert s.mem.At(pc.c).items.Keys != {};
      victim :| victim in s.mem.At(pc.c).items.Keys;
    }
    assert Enabled(s, Run(t, Choice(victim, FetchFailed("", false), true, false)));
  }

  lemma PromiseCanRun(s: State, t: nat)
    requires t < |s.tasks| && s.tasks[t].Promise? && TaskOk(s, s.tasks[t]) && !s.tasks[t].ppc.PDone?
    ensures CanRun(s, t)
  {
    var pc := s.tasks[t].ppc;
    var victim: U64 := 0;
    if pc.PPeek? && |s.mem.At(pc.c).items| >= CACHE_SIZE {
      assert s.mem.At(pc.c).items.Keys != {};
      victim :| victim in s.mem.At(pc.c).items.Keys;
    }
    assert Enabled(s, Run(t, Choice(victim, FetchFailed("", false), true, false)));
  }

  /** The task is about to take the cluster mutex, which is not part of the cache. */
  predicate NeedsCluster(task: Task) {
    task.Fetch? && task.fpc.FSubmit?
  }

  /** Inside the cache a bound task that is not about to take the cluster mutex can take its turn at
      once, or is waiting for the cache lock, whose holder can take its turn at once. */
  lemma CarrierRunsOrAwaitsLock(s: State, t: nat, c: CacheId, round: U64, e: nat)
    requires StateOk(s) && LockOk(s)
    requires t < |s.tasks| && Bound(s.tasks[t], c, round, e) && !NeedsCluster(s.tasks[t])
    ensures CanRun(s, t) || (s.tasks[t].Add? && s.tasks[t].apc.ALock? && s.lock.Some? && CanRun(s, s.lock.value))
  {
    assert TaskOk(s, s.tasks[t]);
    match s.tasks[t]
    case Add(w, pc) =>
      if pc.ALock? && s.lock.Some? {
        assert TaskOk(s, s.tasks[s.lock.value]);
        AddCanRun(s, s.lock.value);
      } else {
        AddCanRun(s, t);
      }
    case Promise(_, _) => PromiseCanRun(s, t);
    case Load(_, _) => assert Enabled(s, Run(t, Choice(0, FetchFailed("", false), true, false)));
    case Fetch(_, _, _) => assert Enabled(s, Run(t, Choice(0, FetchFailed("", false), true, false)));
  }
}
