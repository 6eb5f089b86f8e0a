/**
  What a promised block can wait for once the cluster is taken into account: the
  cache lock, whose holder can go on; the lock of the asked node, held while it
  sends a token; and the cluster mutex, held by a list rebuild.  The last two come
  free unless the rebuild is stalled.
 */
module WholeDelivery {
  import opened Basics
  import opened CacheModel
  import opened WholeNode
  import C = CacheSystem
  import CI = CacheInvariants
  import LP = LoadProgress
  import LD = LoadDelivery
  import K = ClusterSystem
  import KG = ClusterGenesis
  import KS = ClusterStall

  /** Task t of the cache can take a turn at once. */
  ghost predicate CanRun(s: State, t: nat) {
    exists step: Step :: step.cache.Run? && step.cache.t == t && Enabled(s, step)
  }

  predicate Fetching(task: C.Task) {
    task.Fetch? && (task.fpc.FTry? || task.fpc.FSubmit?)
  }

  lemma CacheTaskCanRun(s: State, t: nat)
    requires LD.CanRun(s.cache, t) && !Fetching(s.cache.tasks[t])
    ensures CanRun(s, t)
  {
    var x :| C.Enabled(s.cache, C.Run(t, x));
    assert Enabled(s, Step(C.Run(t, x), K.Rest));
  }

  const NO_STATUS := K.Status(0, false, false)

  /** The task can take a turn with this outcome at once. */
  ghost predicate CanTake(s: State, t: nat, x: C.Choice) {
    exists k: K.Step :: Enabled(s, Step(C.Run(t, x), k))
  }

  /** An outcome that asking an upstream may have: an error, or the block it was asked for. */
  predicate Possible(task: C.Task, x: C.Choice) {
    task.Fetch? && task.fpc.FTry? && x.fetched.FetchGot? ==> x.fetched.round == task.round
  }

  /** The locks that the turn of a fetch with this outcome needs, outside the cache, are free. */
  predicate LocksFree(s: State, task: C.Task, x: C.Choice) {
    && (task.Fetch? && task.fpc.FTry? && Answered(x.fetched) ==> LockFree(s.cluster, task.node))
    && (LD.NeedsCluster(task) ==> s.cluster.rebuild.Idle?)
  }

  /** Whatever the upstream answers, a fetch can take its turn exactly if those locks are free. */
  lemma FetchCanTakeExactly(s: State, t: nat, x: C.Choice)
    requires Ok(s) && KG.GenesisOk(s.cluster) && t < |s.cache.tasks| && Fetching(s.cache.tasks[t])
    requires Possible(s.cache.tasks[t], x)
    ensures CanTake(s, t, x) <==> LocksFree(s, s.cache.tasks[t], x)
  {
    var n := s.cache.tasks[t].node;
    if LocksFree(s, s.cache.tasks[t], x) {
      if IsOwn(s, t, n) {
        assert OwnOk(s, n, t);
        assert Enabled(s, Step(C.Run(t, x), K.NodeRuns(n, K.Choice(x.fetched.FetchGot?, false, false, NO_STATUS))));
      } else {
        assert Enabled(s, Step(C.Run(t, x), K.Rest));
      }
    }
  }

  // ----- whether those locks come free

  /** The step brings the rebuild that is under way nearer its end, or frees the node it waits for. */
  predicate Continues(k: K.State, step: K.Step) {
    step.Scan? || step.Publish? || (k.rebuild.ReadSynced? && step == K.SendToken(k.rebuild.i))
  }

  ghost predicate RebuildMoves(s: State) {
    exists step :: Enabled(s, step) && Continues(s.cluster, step.cluster)
  }

  lemma RebuildMovesUnlessStalled(s: State)
    requires KS.InBounds(s.cluster) && !s.cluster.rebuild.Idle?
    ensures RebuildMoves(s) <==> !KS.Stalled(s.cluster)
  {
    var k := s.cluster;
    KS.RebuildGoesOnUnlessStalled(k);
    if K.Enabled(k, K.Scan) {
      assert Enabled(s, Step(C.Rest, K.Scan));
    }
    if cs, as' :| K.Enabled(k, K.Publish(cs, as')) {
      assert Enabled(s, Step(C.Publish(cs, as'), K.Publish(cs, as')));
    }
    if k.rebuild.ReadSynced? && K.Enabled(k, K.SendToken(k.rebuild.i)) {
      assert Enabled(s, Step(C.Rest, K.SendToken(k.rebuild.i)));
    }
  }

  /** The cluster mutex is free, or its holder can go on exactly if it is not stalled. */
  ghost predicate MutexProgresses(s: State) {
    s.cluster.rebuild.Idle? || (RebuildMoves(s) <==> !KS.Stalled(s.cluster))
  }

  /** A node that holds its lock while it sends can send at once, or the monitor can take a token from
      the full channel at once, or the monitor is busy with a rebuild. */
  ghost predicate SenderProgresses(s: State, n: nat) {
    || Enabled(s, Step(C.Rest, K.SendToken(n)))
    || Enabled(s, Step(C.Rest, K.TakeToken))
    || (!s.cluster.rebuild.Idle? && (RebuildMoves(s) <==> !KS.Stalled(s.cluster)))
  }

  lemma SenderGoesOn(s: State, n: nat)
    requires KS.InBounds(s.cluster) && n < |s.cluster.nodes| && s.cluster.nodes[n].sending
    ensures SenderProgresses(s, n)
  {
    if !s.cluster.rebuild.Idle? {
      RebuildMovesUnlessStalled(s);
    }
  }

  /** Whatever outcome the world has in store for the turn of a fetch, the fetch can take it, or it waits
      for the lock of its node or the cluster mutex, which come free exactly unless a rebuild stalls.
      Any other task can take its turn, or waits for the cache lock whose holder can. */
  ghost predicate Progresses(s: State, t: nat) {
    t < |s.cache.tasks| &&
    var task := s.cache.tasks[t];
    if Fetching(task) then
      forall x: C.Choice :: Possible(task, x) ==>
        && (CanTake(s, t, x) <==> LocksFree(s, task, x))
        && (!LocksFree(s, task, x) ==> if LD.NeedsCluster(task) then MutexProgresses(s) else SenderProgresses(s, task.node))
    else
      CanRun(s, t) || (task.Add? && task.apc.ALock? && s.cache.lock.Some? && CanRun(s, s.cache.lock.value))
  }

  lemma FetchProgresses(s: State, t: nat)
    requires Ok(s) && KG.GenesisOk(s.cluster) && KS.InBounds(s.cluster) && CI.StateOk(s.cache)
    requires t < |s.cache.tasks| && Fetching(s.cache.tasks[t])
    ensures Progresses(s, t)
  {
    var task := s.cache.tasks[t];
    assert CI.TaskOk(s.cache, task);
    assert KG.Vetted(s.cluster, task.node);
    forall x: C.Choice | Possible(task, x)
      ensures CanTake(s, t, x) <==> LocksFree(s, task, x)
      ensures !LocksFree(s, task, x) ==> if LD.NeedsCluster(task) then MutexProgresses(s) else SenderProgresses(s, task.node)
    {
      FetchCanTakeExactly(s, t, x);
      if !LocksFree(s, task, x) {
        if LD.NeedsCluster(task) {
          RebuildMovesUnlessStalled(s);
        } else {
          SenderGoesOn(s, task.node);
        }
      }
    }
  }

  /** In every state of every joint run a task that owes a result progresses. */
  lemma CarrierProgresses(ss: seq<State>, steps: seq<Step>, i: nat, t: nat, c: CacheId, round: U64, e: nat)
    requires IsRun(ss, steps) && i < |ss|
    requires t < |ss[i].cache.tasks| && LP.Bound(ss[i].cache.tasks[t], c, round, e)
    ensures Progresses(ss[i], t)
  {
    RunOk(ss, steps, i);
    RunPartsOk(ss, steps, i);
    var s := ss[i];
    if Fetching(s.cache.tasks[t]) {
      FetchProgresses(s, t);
    } else {
      LD.CarrierRunsOrAwaitsLock(s.cache, t, c, round, e);
      if LD.CanRun(s.cache, t) {
        CacheTaskCanRun(s, t);
      } else {
        CacheTaskCanRun(s, s.cache.lock.value);
      }
    }
  }

  /** In every joint run whose cache steps cooperate for the round, an entry that the cache holds for it
      with neither block nor error has a task in flight that owes it a result and progresses. */
  lemma PromisesProgress(ss: seq<State>, steps: seq<Step>, i: nat, c: CacheId, round: U64, e: nat)
    requires IsRun(ss, steps) && i < |ss| && C.IsRun(CacheRun(ss), CacheSteps(steps))
    requires LP.CooperativeUpTo(CacheRun(ss), CacheSteps(steps), i, c, round)
    requires LP.Unresolved(ss[i].cache.mem, c, round, e)
    ensures exists t :: 0 <= t < |ss[i].cache.tasks| && LP.Bound(ss[i].cache.tasks[t], c, round, e) && Progresses(ss[i], t)
  {
    PartsRun(ss, steps);
    LP.NoPromiseForgotten(CacheRun(ss), CacheSteps(steps), i, c, round);
    assert LP.InFlight(ss[i].cache, c, round, e);
    var t :| 0 <= t < |ss[i].cache.tasks| && LP.Bound(ss[i].cache.tasks[t], c, round, e);
    CarrierProgresses(ss, steps, i, t, c, round, e);
  }

  /** In joint runs too the obligation is carried for at most 31 turns, and whoever carries it progresses. */
  lemma JointDelivery(ss: seq<State>, steps: seq<Step>, i: nat, j: nat, t: nat, c: CacheId, round: U64, e: nat)
    requires IsRun(ss, steps) && i <= j < |ss| && C.IsRun(CacheRun(ss), CacheSteps(steps))
    requires LP.CooperativeUpTo(CacheRun(ss), CacheSteps(steps), j, c, round)
    requires forall k :: i <= k <= j ==> LP.Unresolved(CacheRun(ss)[k].mem, c, round, e)
    requires t < |ss[i].cache.tasks| && LP.Bound(ss[i].cache.tasks[t], c, round, e)
    ensures var u := LD.Carry(CacheRun(ss), CacheSteps(steps), i, j, t, c, round, e);
      && u < |ss[j].cache.tasks| && LP.Bound(ss[j].cache.tasks[u], c, round, e) && Progresses(ss[j], u)
      && LD.Turns(CacheRun(ss), CacheSteps(steps), i, j, t, c, round, e) <= 31
  {
    PartsRun(ss, steps);
    LD.DeliveryIsBounded(CacheRun(ss), CacheSteps(steps), i, j, t, c, round, e);
    CarrierProgresses(ss, steps, j, LD.Carry(CacheRun(ss), CacheSteps(steps), i, j, t, c, round, e), c, round, e);
  }

  // ----- a stall blocks the carrier for good

  /** A fetch that has its block, or whose node is sending. */
  predicate Held(s: State, t: nat) {
    t < |s.cache.tasks| && s.cache.tasks[t].Fetch? &&
    (s.cache.tasks[t].fpc.FSubmit? || (s.cache.tasks[t].fpc.FTry? && !LockFree(s.cluster, s.cache.tasks[t].node)))
  }

  /** It has failed without a block. */
  predicate Failed(task: C.Task) {
    task.Fetch? && (task.fpc.FAwait? || task.fpc.FDone?) && !task.fpc.ok
  }

  lemma StalledFetchRests(s: State, step: Step, t: nat)
    requires Enabled(s, step) && KS.Stalled(s.cluster) && Held(s, t)
    ensures var n := Next(s, step); t < |n.cache.tasks| && (Failed(n.cache.tasks[t]) || (Held(n, t) && n.cache.tasks[t] == s.cache.tasks[t]))
    ensures s.cache.tasks[t].fpc.FSubmit? ==> Next(s, step).cache.tasks[t] == s.cache.tasks[t]
  {
    CI.NextKeepsTasks(s.cache, step.cache);
    if s.cache.tasks[t].fpc.FTry? {
      SendersRest(s.cluster, step.cluster, s.cache.tasks[t].node);
    }
  }

  /** In a stall no sending node gets rid of its token. */
  lemma SendersRest(k: K.State, step: K.Step, n: nat)
    requires K.Enabled(k, step) && KS.Stalled(k) && !LockFree(k, n)
    ensures !LockFree(K.Next(k, step), n)
  {
  }

  lemma FailedStaysFailed(s: State, step: Step, t: nat)
    requires Enabled(s, step) && t < |s.cache.tasks| && Failed(s.cache.tasks[t])
    ensures t < |Next(s, step).cache.tasks| && Failed(Next(s, step).cache.tasks[t])
  {
    CI.NextKeepsTasks(s.cache, step.cache);
  }

  /** Once a rebuild has stalled, a fetch that has its block never delivers it, and a fetch whose node is
      sending never gets a block: at best its upstream does not answer. */
  lemma {:induction false} StalledFetchIsStuck(ss: seq<State>, steps: seq<Step>, i: nat, j: nat, t: nat)
    requires IsRun(ss, steps) && i <= j < |ss| && KS.Stalled(ss[i].cluster) && Held(ss[i], t)
    ensures KS.Stalled(ss[j].cluster) && t < |ss[j].cache.tasks|
    ensures Failed(ss[j].cache.tasks[t]) || (Held(ss[j], t) && ss[j].cache.tasks[t] == ss[i].cache.tasks[t])
    ensures ss[i].cache.tasks[t].fpc.FSubmit? ==> ss[j].cache.tasks[t] == ss[i].cache.tasks[t] && !CanRun(ss[j], t)
    decreases j
  {
    StallStays(ss, steps, i, j);
    if i < j {
      StalledFetchIsStuck(ss, steps, i, j - 1, t);
      StuckStep(ss, steps, j - 1, t);
    }
    if ss[j].cache.tasks[t].Fetch? && ss[j].cache.tasks[t].fpc.FSubmit? {
      SubmitCannotRun(ss[j], t);
    }
  }

  lemma StallStays(ss: seq<State>, steps: seq<Step>, i: nat, j: nat)
    requires IsRun(ss, steps) && i <= j < |ss| && KS.Stalled(ss[i].cluster)
    ensures KS.Stalled(ss[j].cluster)
  {
    PartsRun(ss, steps);
    KS.StallIsFinal(ClusterRun(ss), ClusterSteps(steps), i, j);
  }

  lemma StuckStep(ss: seq<State>, steps: seq<Step>, i: nat, t: nat)
    requires IsRun(ss, steps) && i < |steps| && KS.Stalled(ss[i].cluster)
    requires t < |ss[i].cache.tasks| && (Failed(ss[i].cache.tasks[t]) || Held(ss[i], t))
    ensures t < |ss[i + 1].cache.tasks|
    ensures Failed(ss[i + 1].cache.tasks[t])
         || (Held(ss[i + 1], t) && ss[i + 1].cache.tasks[t] == ss[i].cache.tasks[t])
    ensures ss[i].cache.tasks[t].fpc.FSubmit? ==> ss[i + 1].cache.tasks[t] == ss[i].cache.tasks[t]
  {
    assert StepAt(ss, steps, i);
    if Failed(ss[i].cache.tasks[t]) {
      FailedStaysFailed(ss[i], steps[i], t);
    } else {
      StalledFetchRests(ss[i], steps[i], t);
    }
  }

  lemma SubmitCannotRun(s: State, t: nat)
    requires KS.Stalled(s.cluster) && t < |s.cache.tasks| && s.cache.tasks[t].Fetch? && s.cache.tasks[t].fpc.FSubmit?
    ensures !CanRun(s, t)
  {
  }
}
