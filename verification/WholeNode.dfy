/**
  The cache system and the cluster system running side by side.  They share the
  tip, the node lists and the cluster mutex, and the fetch of round 0 in boot
  and of the next round in the monitor loop is a task of the cache that the
  node waits for, until its block is submitted or it has failed.
 */
module WholeNode {
  import opened Basics
  import opened CacheModel
  import C = CacheSystem
  import CI = CacheInvariants
  import LD = LoadDelivery
  import K = ClusterSystem
  import KG = ClusterGenesis
  import KS = ClusterStall

  /** `own` names the fetch task that a node's own loop is waiting for. */
  datatype State = State(cache: C.State, cluster: K.State, own: map<nat, nat>)

  /** One step of either part while the other rests, or of both where they meet. */
  datatype Step = Step(cache: C.Step, cluster: K.Step)

  /** Node n is about to fetch the round itself: round 0 in boot, the next round in the monitor. */
  predicate AboutToFetch(k: K.State, n: nat, round: U64) {
    n < |k.nodes| && ((k.nodes[n].pc == K.Zero && round == 0) || k.nodes[n].pc == K.FetchNext(round))
  }

  /** Node n has fetched the round and is about to submit it. */
  predicate AboutToSink(k: K.State, n: nat, round: U64) {
    n < |k.nodes| && ((k.nodes[n].pc == K.ZeroSink && round == 0) || k.nodes[n].pc == K.SinkNext(round))
  }

  predicate IsOwn(s: State, t: nat, n: nat) {
    n in s.own && s.own[n] == t
  }

  /** The program points of a node at which it moves together with the cache. */
  predicate Together(pc: K.Pc) {
    pc.Zero? || pc.ZeroSink? || pc.FetchNext? || pc.SinkNext? || pc.SubmitStatus?
  }

  /** The cluster moves while the cache rests. */
  predicate ByItself(k: K.State, step: K.Step) {
    match step
    case NodeRuns(n, x) => n < |k.nodes| && !Together(k.nodes[n].pc)
    case Publish(_, _) => false
    // in place of these, the loads and their sinks are tasks of the cache
    case LoadReadsLists(_) => false
    case LoadSinks(_, _) => false
    case _ => true
  }

  predicate Answered(r: C.FetchResult) {
    r.FetchGot? || r.answered
  }

  /** No setState holds the lock of node n while it sends its token. */
  predicate LockFree(k: K.State, n: nat) {
    n < |k.nodes| && !k.nodes[n].sending
  }

  /** What the cluster does in the step in which task t of the cache runs. */
  predicate Joins(s: State, t: nat, x: C.Choice, k: K.Step)
    requires t < |s.cache.tasks|
  {
    match s.cache.tasks[t]
    case Fetch(n, r, FTry) =>
      // block r carries round r
      && (x.fetched.FetchGot? ==> x.fetched.round == r)
      // updateRTT takes the lock of the node that has answered
      && (Answered(x.fetched) ==> LockFree(s.cluster, n))
      && (if IsOwn(s, t, n) then k.NodeRuns? && k.n == n && k.x.ok == x.fetched.FetchGot? else k.Rest?)
    case Fetch(n, r, FSubmit(w)) =>
      // SetLatestRound takes the cluster mutex
      && s.cluster.rebuild.Idle?
      && (if IsOwn(s, t, n) then k.NodeRuns? && k.n == n else k.Rest?)
    case _ => k.Rest?
  }

  predicate Enabled(s: State, step: Step) {
    && C.Enabled(s.cache, step.cache) && K.Enabled(s.cluster, step.cluster)
    && (match step.cache
        case Rest => ByItself(s.cluster, step.cluster)
        case StartFetch(n, r) => step.cluster.Rest? && n !in s.own && AboutToFetch(s.cluster, n, r)
        case SubmitStatus(r) =>
          && step.cluster.NodeRuns?
          && s.cluster.nodes[step.cluster.n].pc.SubmitStatus? && s.cluster.nodes[step.cluster.n].latestRound == r
        case Publish(cs, as') => step.cluster == K.Publish(cs, as')
        case Run(t, x) => Joins(s, t, x, step.cluster)
        case _ => step.cluster.Rest?)
  }

  function NextOwn(s: State, step: C.Step): map<nat, nat>
    requires C.Enabled(s.cache, step)
  {
    match step
    case StartFetch(n, r) => s.own[n := |s.cache.tasks|]
    case Run(t, x) => (
      match s.cache.tasks[t]
      case Fetch(n, _, FTry) => if IsOwn(s, t, n) && x.fetched.FetchFailed? then s.own - {n} else s.own
      case Fetch(n, _, FSubmit(_)) => if IsOwn(s, t, n) then s.own - {n} else s.own
      case _ => s.own)
    case _ => s.own
  }

  function Next(s: State, step: Step): State
    requires Enabled(s, step)
  {
    State(C.Next(s.cache, step.cache), K.Next(s.cluster, step.cluster), NextOwn(s, step.cache))
  }

  ghost predicate StepAt(ss: seq<State>, steps: seq<Step>, i: nat)
    requires i < |steps| && |ss| == |steps| + 1
  {
    Enabled(ss[i], steps[i]) && ss[i + 1] == Next(ss[i], steps[i])
  }

  predicate Init(s: State) {
    s.cache == C.INIT && K.Init(s.cluster) && s.own == map[]
  }

  ghost predicate IsRun(ss: seq<State>, steps: seq<Step>) {
    && |ss| == |steps| + 1 && Init(ss[0])
    && forall i :: 0 <= i < |steps| ==> StepAt(ss, steps, i)
  }

  // ----- each part of a joint run is a run of that part

  function CacheRun(ss: seq<State>): (r: seq<C.State>)
    ensures |r| == |ss| && forall i :: 0 <= i < |ss| ==> r[i] == ss[i].cache
  {
    seq(|ss|, i requires 0 <= i < |ss| => ss[i].cache)
  }

  function CacheSteps(steps: seq<Step>): (r: seq<C.Step>)
    ensures |r| == |steps| && forall i :: 0 <= i < |steps| ==> r[i] == steps[i].cache
  {
    seq(|steps|, i requires 0 <= i < |steps| => steps[i].cache)
  }

  function ClusterRun(ss: seq<State>): (r: seq<K.State>)
    ensures |r| == |ss| && forall i :: 0 <= i < |ss| ==> r[i] == ss[i].cluster
  {
    seq(|ss|, i requires 0 <= i < |ss| => ss[i].cluster)
  }

  function ClusterSteps(steps: seq<Step>): (r: seq<K.Step>)
    ensures |r| == |steps| && forall i :: 0 <= i < |steps| ==> r[i] == steps[i].cluster
  {
    seq(|steps|, i requires 0 <= i < |steps| => steps[i].cluster)
  }

  /** Hence all that is proved of the cache and of the cluster alone holds in joint runs. */
  lemma PartsRun(ss: seq<State>, steps: seq<Step>)
    requires IsRun(ss, steps)
    ensures C.IsRun(CacheRun(ss), CacheSteps(steps)) && CacheRun(ss)[0] == C.INIT
    ensures K.IsRun(ClusterRun(ss), ClusterSteps(steps))
  {
    var cs, csteps, ks, ksteps := CacheRun(ss), CacheSteps(steps), ClusterRun(ss), ClusterSteps(steps);
    forall i | 0 <= i < |steps| ensures C.StepAt(cs, csteps, i) && K.StepAt(ks, ksteps, i) {
      assert StepAt(ss, steps, i);
    }
  }

  // ----- what joins the two parts

  predicate Shared(s: State) {
    && s.cache.tip.latest == s.cluster.latest
    && s.cache.catchupNodes == s.cluster.catchupNodes
    && s.cache.archNodes == s.cluster.archNodes
  }

  /** A node's own fetch is where the node's program counter says. */
  predicate OwnOk(s: State, n: nat, t: nat) {
    && t < |s.cache.tasks| && s.cache.tasks[t].Fetch? && s.cache.tasks[t].node == n
    && (match s.cache.tasks[t].fpc
        case FTry => AboutToFetch(s.cluster, n, s.cache.tasks[t].round)
        case FSubmit(w) => w.round == s.cache.tasks[t].round && AboutToSink(s.cluster, n, w.round)
        case _ => false)
  }

  /** A load, and a fetch made for a load, is for a round that the tip covers. */
  predicate Covered(s: State, t: nat)
    requires t < |s.cache.tasks|
  {
    match s.cache.tasks[t]
    case Load(r, pc) => pc.LWindow? || pc.LCatchup? || pc.LArchive? || pc.LTry? || pc.LAwaitFetch? ==> r <= s.cache.tip.latest
    case Fetch(n, r, FTry) => IsOwn(s, t, n) || r <= s.cache.tip.latest
    case Fetch(n, r, FSubmit(w)) => w.round == r && (IsOwn(s, t, n) || r <= s.cache.tip.latest)
    case _ => true
  }

  /** A node is not sending a token at the program points it shares with the cache. */
  predicate SendOk(k: K.State) {
    forall n :: 0 <= n < |k.nodes| && k.nodes[n].sending ==> !Together(k.nodes[n].pc)
  }

  /** Every node the cache has ever had to do with passed EnsureGenesis. */
  predicate SourcesVetted(s: State) {
    forall n :: n in s.cache.sources ==> KG.Vetted(s.cluster, n)
  }

  ghost predicate Ok(s: State) {
    && Shared(s) && SendOk(s.cluster) && SourcesVetted(s)
    && (forall n :: n in s.own ==> OwnOk(s, n, s.own[n]))
    && (forall t :: 0 <= t < |s.cache.tasks| ==> Covered(s, t))
  }

  lemma SubmitsAlike(s: State, step: Step)
    requires Enabled(s, step) && Ok(s)
    ensures Shared(Next(s, step)) && s.cache.tip.latest <= Next(s, step).cache.tip.latest
  {
    if step.cache.Run? && s.cache.tasks[step.cache.t].Fetch? && s.cache.tasks[step.cache.t].fpc.FSubmit? {
      var t := step.cache.t;
      assert Covered(s, t);
      var n := s.cache.tasks[t].node;
      assert IsOwn(s, t, n) ==> OwnOk(s, n, s.own[n]);
    } else if step.cache.Run? {
      var t := step.cache.t;
      if step.cluster.NodeRuns? {
        var n := s.cache.tasks[t].node;
        assert IsOwn(s, t, n) ==> OwnOk(s, n, s.own[n]);
      }
      RunningKeepsShared(s, step);
    }
  }

  lemma RunningKeepsShared(s: State, step: Step)
    requires Enabled(s, step) && Shared(s) && step.cache.Run?
    requires var task := s.cache.tasks[step.cache.t]; task.Fetch? ==> !task.fpc.FSubmit?
    requires step.cluster.NodeRuns? ==> K.Offer(s.cluster.nodes[step.cluster.n]) == 0
    ensures Shared(Next(s, step)) && s.cache.tip.latest <= Next(s, step).cache.tip.latest
  {
  }

  lemma NodeKeepsSendOk(nd: K.Node, x: K.Choice, upstream: string, genesis: string, latest: U64)
    requires !nd.sending
    ensures var t := K.NodeNext(nd, x, upstream, genesis, latest); t.sending ==> !Together(t.pc)
  {
  }

  lemma NextKeepsSendOk(k: K.State, step: K.Step)
    requires SendOk(k) && K.Enabled(k, step)
    ensures SendOk(K.Next(k, step))
  {
    if step.NodeRuns? {
      NodeKeepsSendOk(k.nodes[step.n], step.x, k.upstream[step.n], k.genesis, k.latest);
    }
  }

  /** A node with a fetch of its own moves only together with that fetch. */
  lemma OwnKept(s: State, step: Step, n: nat)
    requires Enabled(s, step) && n in s.own && OwnOk(s, n, s.own[n]) && n in NextOwn(s, step.cache)
    ensures var t := Next(s, step); t.own[n] == s.own[n] && OwnOk(t, n, t.own[n])
  {
    CI.NextKeepsTasks(s.cache, step.cache);
    if CI.Moves(step.cache, s.own[n]) {
      OwnMoves(s, step, n);
    } else {
      assert K.Next(s.cluster, step.cluster).nodes[n].pc == s.cluster.nodes[n].pc by {
        OthersMove(s, step, n);
      }
    }
  }

  lemma OwnMoves(s: State, step: Step, n: nat)
    requires Enabled(s, step) && n in s.own && OwnOk(s, n, s.own[n]) && n in NextOwn(s, step.cache)
    requires CI.Moves(step.cache, s.own[n])
    ensures OwnOk(Next(s, step), n, s.own[n])
  {
  }

  lemma OthersMove(s: State, step: Step, n: nat)
    requires Enabled(s, step) && n in s.own && OwnOk(s, n, s.own[n]) && !CI.Moves(step.cache, s.own[n])
    ensures n < |K.Next(s.cluster, step.cluster).nodes|
    ensures K.Next(s.cluster, step.cluster).nodes[n].pc == s.cluster.nodes[n].pc
  {
    assert step.cluster.NodeRuns? ==> step.cluster.n != n;
  }

  lemma NextKeepsOwn(s: State, step: Step)
    requires Enabled(s, step) && Ok(s)
    ensures var t := Next(s, step); forall n :: n in t.own ==> OwnOk(t, n, t.own[n])
  {
    var t := Next(s, step);
    forall n | n in t.own ensures OwnOk(t, n, t.own[n]) {
      if n in s.own && !(step.cache.StartFetch? && step.cache.node == n) {
        OwnKept(s, step, n);
      }
    }
  }

  lemma UnmovedCovered(s: State, step: Step, t: nat)
    requires Enabled(s, step) && t < |s.cache.tasks| && !CI.Moves(step.cache, t) && Covered(s, t)
    requires s.cache.tip.latest <= Next(s, step).cache.tip.latest
    ensures t < |Next(s, step).cache.tasks| && Covered(Next(s, step), t)
  {
    CI.NextKeepsTasks(s.cache, step.cache);
  }

  /** The mover and the task it may create are covered. */
  predicate MoverOk(s: State, n: State, t: nat) {
    && t < |n.cache.tasks| && Covered(n, t)
    && (|n.cache.tasks| > |s.cache.tasks| ==> Covered(n, |s.cache.tasks|))
  }

  lemma LoadCovered(s: State, step: Step, t: nat)
    requires Enabled(s, step) && CI.Moves(step.cache, t) && s.cache.tasks[t].Load? && Covered(s, t)
    ensures MoverOk(s, Next(s, step), t)
  {
  }

  lemma FetchCovered(s: State, step: Step, t: nat)
    requires Enabled(s, step) && CI.Moves(step.cache, t) && s.cache.tasks[t].Fetch? && Covered(s, t)
    ensures MoverOk(s, Next(s, step), t)
  {
  }

  lemma MoverCovered(s: State, step: Step, t: nat)
    requires Enabled(s, step) && CI.Moves(step.cache, t) && Covered(s, t)
    ensures MoverOk(s, Next(s, step), t)
  {
    match s.cache.tasks[t]
    case Load(_, _) => LoadCovered(s, step, t);
    case Fetch(_, _, _) => FetchCovered(s, step, t);
    case _ =>
  }

  lemma NextKeepsCovered(s: State, step: Step)
    requires Enabled(s, step) && Ok(s)
    ensures var n := Next(s, step); forall t :: 0 <= t < |n.cache.tasks| ==> Covered(n, t)
  {
    var n := Next(s, step);
    SubmitsAlike(s, step);
    CI.NextKeepsTasks(s.cache, step.cache);
    forall t | 0 <= t < |n.cache.tasks| ensures Covered(n, t) {
      if t < |s.cache.tasks| && !CI.Moves(step.cache, t) {
        assert Covered(s, t);
        UnmovedCovered(s, step, t);
      } else if step.cache.Run? {
        assert Covered(s, step.cache.t);
        MoverCovered(s, step, step.cache.t);
      }
    }
  }

  lemma SourcesGrow(s: C.State, step: C.Step, n: nat)
    requires C.Enabled(s, step) && n in C.Next(s, step).sources && n !in s.sources
    ensures || (step.StartFetch? && step.node == n)
            || n in C.Next(s, step).catchupNodes || n in C.Next(s, step).archNodes
  {
  }

  lemma NextKeepsVetted(s: State, step: Step)
    requires Enabled(s, step) && SourcesVetted(s) && KG.GenesisOk(s.cluster) && Shared(Next(s, step))
    ensures SourcesVetted(Next(s, step))
  {
    KG.NextKeepsGenesisOk(s.cluster, step.cluster);
    var t := Next(s, step);
    forall n | n in t.cache.sources ensures KG.Vetted(t.cluster, n) {
      if n in s.cache.sources {
        assert KG.Vetted(s.cluster, n);
      } else {
        SourcesGrow(s.cache, step.cache, n);
        if step.cache.StartFetch? && step.cache.node == n {
          assert KG.NodeOk(s.cluster, n);
        }
      }
    }
  }

  lemma NextKeepsOk(s: State, step: Step)
    requires Enabled(s, step) && Ok(s) && KG.GenesisOk(s.cluster)
    ensures Ok(Next(s, step))
  {
    SubmitsAlike(s, step);
    NextKeepsSendOk(s.cluster, step.cluster);
    NextKeepsOwn(s, step);
    NextKeepsCovered(s, step);
    NextKeepsVetted(s, step);
  }

  lemma RunPartsOk(ss: seq<State>, steps: seq<Step>, i: nat)
    requires IsRun(ss, steps) && i < |ss|
    ensures CI.StateOk(ss[i].cache) && LD.LockOk(ss[i].cache)
    ensures KG.GenesisOk(ss[i].cluster) && KS.InBounds(ss[i].cluster)
  {
    PartsRun(ss, steps);
    CI.RunOk(CacheRun(ss), CacheSteps(steps), i);
    LD.RunLockOk(CacheRun(ss), CacheSteps(steps), i);
    KG.RunGenesisOk(ClusterRun(ss), ClusterSteps(steps), i);
    KS.RunInBounds(ClusterRun(ss), ClusterSteps(steps), i);
  }

  lemma {:induction false} RunOk(ss: seq<State>, steps: seq<Step>, i: nat)
    requires IsRun(ss, steps) && i < |ss|
    ensures Ok(ss[i])
  {
    if i > 0 {
      RunOk(ss, steps, i - 1);
      RunPartsOk(ss, steps, i - 1);
      assert StepAt(ss, steps, i - 1);
      NextKeepsOk(ss[i - 1], steps[i - 1]);
    }
  }

  // ----- the blocks that are served

  /** A block of the cluster's own chain, no newer than its tip. */
  predicate Genuine(k: K.State, w: BlockWrap) {
    w.error.None? && w.round <= k.latest && KG.OfTheChain(k, w.src)
  }

  lemma DeliveredIsGenuine(s: State, w: BlockWrap)
    requires Shared(s) && SourcesVetted(s) && CI.BlocksOk(s.cache) && KG.GenesisOk(s.cluster)
    requires w in s.cache.delivered && w.error.None?
    ensures Genuine(s.cluster, w)
  {
    assert KG.Vetted(s.cluster, w.src);
    assert KG.NodeOk(s.cluster, w.src);
  }

  predicate AnswerGenuine(k: K.State, task: C.Task) {
    task.Reader? && task.rpc.Returned? && task.rpc.block.Some? ==>
      Genuine(k, task.rpc.block.value) && task.rpc.block.value.round == task.round
  }

  /** In every state of every joint run a block stored in either cache, or returned by GetBlock, was
      fetched from a node of the cluster's genesis, is the block of its round, and is not newer than
      latestRound. */
  lemma ServedBlocksAreGenuine(ss: seq<State>, steps: seq<Step>, i: nat)
    requires IsRun(ss, steps) && i < |ss|
    ensures forall e :: 0 <= e < |ss[i].cache.mem.entries| && ss[i].cache.mem.entries[e].block.Some? ==>
      && Genuine(ss[i].cluster, ss[i].cache.mem.entries[e].block.value)
      && ss[i].cache.mem.entries[e].block.value.round == ss[i].cache.mem.entries[e].round
    ensures forall t :: 0 <= t < |ss[i].cache.tasks| ==> AnswerGenuine(ss[i].cluster, ss[i].cache.tasks[t])
  {
    RunPartsOk(ss, steps, i);
    RunOk(ss, steps, i);
    var s := ss[i];
    forall e | 0 <= e < |s.cache.mem.entries| && s.cache.mem.entries[e].block.Some?
      ensures Genuine(s.cluster, s.cache.mem.entries[e].block.value)
      ensures s.cache.mem.entries[e].block.value.round == s.cache.mem.entries[e].round
    {
      assert EntryOk(s.cache.mem.entries[e]);
      DeliveredIsGenuine(s, s.cache.mem.entries[e].block.value);
    }
    forall t | 0 <= t < |s.cache.tasks| ensures AnswerGenuine(s.cluster, s.cache.tasks[t]) {
      assert CI.TaskOk(s.cache, s.cache.tasks[t]);
      var task := s.cache.tasks[t];
      if task.Reader? && task.rpc.Returned? && task.rpc.block.Some? {
        DeliveredIsGenuine(s, task.rpc.block.value);
      }
    }
  }
}
