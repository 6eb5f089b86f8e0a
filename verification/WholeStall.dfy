/**
  Every whole node with an upstream has runs in which a promised block waits for
  good although all steps cooperate: the node is listed, its block is asked for,
  and then its state changes fill the token channel at an unlucky moment.
 */
module WholeStall {
  import opened Basics
  import opened CacheModel
  import opened WholeNode
  import C = CacheSystem
  import LP = LoadProgress
  import LE = LoadExact
  import K = ClusterSystem
  import KS = ClusterStall
  import WD = WholeDelivery

  /** A joint run from s to t all of whose steps cooperate for the round in cache c. */
  ghost predicate Cooperating(ss: seq<State>, steps: seq<Step>, s: State, t: State, c: CacheId, round: U64) {
    && IsRun(ss, steps) && ss[0] == s && ss[|steps|] == t
    && C.IsRun(CacheRun(ss), CacheSteps(steps))
    && LP.CooperativeUpTo(CacheRun(ss), CacheSteps(steps), |steps|, c, round)
  }

  ghost predicate Reaches(s: State, t: State, c: CacheId, round: U64) {
    exists ss, steps :: Cooperating(ss, steps, s, t, c, round)
  }

  /** Entry e is unresolved and depends on task t alone, a fetch that waits for the mutex of a stalled
      rebuild or for a node that waits for it. */
  ghost predicate Doomed(s: State, t: nat, c: CacheId, round: U64, e: nat) {
    && KS.Stalled(s.cluster) && LP.Unresolved(s.cache.mem, c, round, e)
    && LE.OnlyBound(s.cache, t, c, round, e) && LP.Bound(s.cache.tasks[t], c, round, e) && WD.Held(s, t)
  }

  // ----- going on from a state

  lemma ExtendRun(ss: seq<State>, steps: seq<Step>, step: Step, n: State)
    requires IsRun(ss, steps) && Enabled(ss[|steps|], step) && n == Next(ss[|steps|], step)
    ensures IsRun(ss + [n], steps + [step])
  {
    forall i | 0 <= i < |steps| + 1 ensures StepAt(ss + [n], steps + [step], i) {
      assert i < |steps| ==> StepAt(ss, steps, i);
    }
  }

  lemma Go(s: State, t: State, step: Step, n: State, c: CacheId, round: U64)
    requires Reaches(s, t, c, round) && Enabled(t, step) && n == Next(t, step)
    requires LP.Cooperative(t.cache, step.cache, c, round)
    ensures Reaches(s, n, c, round)
  {
    var ss, steps :| Cooperating(ss, steps, s, t, c, round);
    ExtendRun(ss, steps, step, n);
    assert CacheRun(ss + [n]) == CacheRun(ss) + [n.cache];
    assert CacheSteps(steps + [step]) == CacheSteps(steps) + [step.cache];
    LE.ExtendCooperative(CacheRun(ss), CacheSteps(steps), step.cache, n.cache, c, round);
    assert Cooperating(ss + [n], steps + [step], s, n, c, round);
  }

  lemma Start(s: State, c: CacheId, round: U64)
    requires Init(s)
    ensures Reaches(s, s, c, round)
  {
    PartsRun([s], []);
    assert Cooperating([s], [], s, s, c, round);
  }

  // The runs below are for round 1000, promised in the catchup cache.

  ghost predicate To(s: State, t: State) {
    Reaches(s, t, Catchup, 1000)
  }

  /** The cluster moves while the cache rests. */
  lemma ClusterMoves(s: State, t: State, step: K.Step, k: K.State)
    requires To(s, t) && K.Enabled(t.cluster, step) && ByItself(t.cluster, step) && k == K.Next(t.cluster, step)
    ensures To(s, t.(cluster := k))
  {
    Go(s, t, Step(C.Rest, step), t.(cluster := k), Catchup, 1000);
  }

  /** The cache moves while the cluster rests. */
  lemma CacheMoves(s: State, t: State, step: C.Step, c: C.State)
    requires To(s, t) && Enabled(t, Step(step, K.Rest)) && LP.Cooperative(t.cache, step, Catchup, 1000)
    requires c == C.Next(t.cache, step) && NextOwn(t, step) == t.own
    ensures To(s, t.(cache := c))
  {
    Go(s, t, Step(step, K.Rest), t.(cache := c), Catchup, 1000);
  }

  /** The state t, but for node 0 and the tokens. */
  function Put(t: State, nd: K.Node, tokens: nat): State
    requires |t.cluster.nodes| > 0
  {
    t.(cluster := t.cluster.(nodes := t.cluster.nodes[0 := nd], tokens := tokens))
  }

  predicate Has0(t: State) {
    0 < |t.cluster.nodes| == |t.cluster.upstream|
  }

  /** Node 0 takes a turn by itself. */
  lemma Turn(s: State, t: State, nd: K.Node, k: nat, x: K.Choice)
    requires Has0(t) && To(s, Put(t, nd, k)) && K.NodeEnabled(Put(t, nd, k).cluster, 0, x)
    requires !Together(nd.pc) && !nd.pc.Ensure?
    ensures To(s, Put(t, K.NodeNext(nd, x, t.cluster.upstream[0], t.cluster.genesis, t.cluster.latest), k))
  {
    var u := Put(t, nd, k);
    var v := Put(t, K.NodeNext(nd, x, t.cluster.upstream[0], t.cluster.genesis, t.cluster.latest), k);
    assert K.NodeStep(u.cluster, 0, x) == v.cluster;
    ClusterMoves(s, u, K.NodeRuns(0, x), v.cluster);
  }

  /** Node 0 sends the token it owes. */
  lemma Send(s: State, t: State, nd: K.Node, k: nat)
    requires Has0(t) && To(s, Put(t, nd, k)) && nd.sending && k < K.TOKENS
    ensures To(s, Put(t, nd.(sending := false), k + 1))
  {
    var u, v := Put(t, nd, k), Put(t, nd.(sending := false), k + 1);
    assert K.Next(u.cluster, K.SendToken(0)) == v.cluster;
    ClusterMoves(s, u, K.SendToken(0), v.cluster);
  }

  // ----- node 0 is booted, reports round 1000 and is listed

  const REPORT := K.Status(1000, false, false)
  const NEXT := K.Status(1001, false, true)
  const STOPPED := K.Status(1001, true, false)
  const OK := K.Choice(true, false, false, REPORT)
  const FAIL := K.Choice(false, true, false, REPORT)

  function Fresh(genesis: string, pc: K.Pc): K.Node {
    K.Node(K.Booting, 0, None, true, genesis, false, 0, pc)
  }

  function Vetted(s: State): State
    requires Has0(s)
  {
    s.(cluster := s.cluster.(genesis := s.cluster.upstream[0]))
  }

  lemma Boots(s: State)
    requires Init(s) && Has0(s)
    ensures To(s, Put(Vetted(s), Fresh(s.cluster.upstream[0], K.Zero), 1))
  {
    var g := s.cluster.upstream[0];
    var start := K.Node(K.Config, 0, None, true, "", false, 0, K.Boot);
    Start(s, Catchup, 1000);
    assert Put(s, start, 0) == s;
    Turn(s, s, start, 0, OK);
    Send(s, s, Fresh("", K.Reset).(sending := true), 0);
    Turn(s, s, Fresh("", K.Reset), 1, OK);
    Turn(s, s, Fresh("", K.Genesis), 1, OK);
    var u := Put(s, Fresh("", K.Ensure), 1);
    var v := Put(Vetted(s), Fresh("", K.Adopt), 1);
    assert K.NodeStep(u.cluster, 0, OK) == v.cluster;
    ClusterMoves(s, u, K.NodeRuns(0, OK), v.cluster);
    Turn(s, Vetted(s), Fresh("", K.Adopt), 1, OK);
  }

  const NO_ZERO := BlockWrap(0, 0, 0, Some(""))

  /** The cache after the failed fetch of round 0, whose error waits to be filed. */
  const ZERO := C.INIT.(
    tasks := [C.Fetch(0, 0, C.FAwait(1, false)), C.Add(NO_ZERO, C.ALock)], sources := {0})

  function Asking(s: State): State
    requires Has0(s)
  {
    Vetted(s).(cache := ZERO)
  }

  /** Node 0 has no block 0, and so stays a catchup node. */
  lemma FailsZero(s: State)
    requires Init(s) && Has0(s)
    ensures To(s, Put(Asking(s), Fresh(s.cluster.upstream[0], K.AskStatus), 1))
  {
    Boots(s);
    var g := s.cluster.upstream[0];
    var t := Put(Vetted(s), Fresh(g, K.Zero), 1);
    var trying := C.INIT.(tasks := [C.Fetch(0, 0, C.FTry)], sources := {0});
    var u := t.(cache := trying, own := map[0 := 0]);
    Go(s, t, Step(C.StartFetch(0, 0), K.Rest), u, Catchup, 1000);
    var fail := Step(C.Run(0, C.Choice(0, C.FetchFailed("", false), true, false)), K.NodeRuns(0, FAIL));
    var v := Put(Asking(s), Fresh(g, K.AskStatus), 1);
    assert C.Next(u.cache, fail.cache) == v.cache;
    assert K.NodeStep(u.cluster, 0, FAIL) == v.cluster;
    assert NextOwn(u, fail.cache) == v.own;
    Go(s, u, fail, v, Catchup, 1000);
  }

  /** Node 0 once it has reported round 1000. */
  function Reporting(state: K.NodeState, genesis: string, pc: K.Pc): K.Node {
    K.Node(state, 1000, Some(REPORT), true, genesis, false, 1000, pc)
  }

  lemma Reports(s: State)
    requires Init(s) && Has0(s)
    ensures To(s, Put(Asking(s), Reporting(K.Synced, s.cluster.upstream[0], K.SubmitStatus), 2))
  {
    FailsZero(s);
    var g := s.cluster.upstream[0];
    var applied := K.Node(K.Synced, 0, None, true, g, true, 1000, K.Record(REPORT, None));
    Turn(s, Asking(s), Fresh(g, K.AskStatus), 1, OK);
    Turn(s, Asking(s), Fresh(g, K.Apply(REPORT, None)).(reported := 1000), 1, OK);
    Send(s, Asking(s), applied, 1);
    Turn(s, Asking(s), applied.(sending := false), 2, OK);
  }

  const TIP := C.Tip(1000, [1000], [1000])

  /** The tip is at round 1000. */
  function Won(s: State): State
    requires Has0(s)
  {
    var t := Asking(s);
    t.(cache := ZERO.(tip := TIP),
       cluster := t.cluster.(latest := 1000, lastSrc := Some(0), wins := [(1000, 0)], broadcasts := [Some(REPORT)]))
  }

  lemma Wins(s: State)
    requires Init(s) && Has0(s)
    ensures To(s, Put(Won(s), Reporting(K.Synced, s.cluster.upstream[0], K.ReadTip), 2))
  {
    Reports(s);
    var g := s.cluster.upstream[0];
    var t := Put(Asking(s), Reporting(K.Synced, g, K.SubmitStatus), 2);
    var v := Put(Won(s), Reporting(K.Synced, g, K.ReadTip), 2);
    assert K.NodeStep(t.cluster, 0, OK) == v.cluster;
    Go(s, t, Step(C.SubmitStatus(1000), K.NodeRuns(0, OK)), v, Catchup, 1000);
  }

  function Rebuilding(t: State, rebuild: K.Rebuild): State {
    t.(cluster := t.cluster.(rebuild := rebuild))
  }

  /** The rebuild passes over the nodes that have not started. */
  lemma {:induction false} ScansRest(s: State, t: State, i: nat)
    requires To(s, Rebuilding(t, K.ReadSynced(1, [0], []))) && 1 <= i <= |t.cluster.nodes|
    requires forall n :: 1 <= n < |t.cluster.nodes| ==> !t.cluster.nodes[n].state.Synced? && !t.cluster.nodes[n].sending
    ensures To(s, Rebuilding(t, K.ReadSynced(i, [0], [])))
  {
    if i > 1 {
      ScansRest(s, t, i - 1);
      ClusterMoves(s, Rebuilding(t, K.ReadSynced(i - 1, [0], [])), K.Scan, Rebuilding(t, K.ReadSynced(i, [0], [])).cluster);
    }
  }

  /** Node 0 is listed. */
  function Listed(s: State): State
    requires Has0(s)
  {
    var t := Won(s);
    t.(cache := t.cache.(catchupNodes := [0]), cluster := t.cluster.(catchupNodes := [0]))
  }

  lemma IsListed(s: State)
    requires Init(s) && Has0(s)
    ensures To(s, Put(Listed(s), Reporting(K.Synced, s.cluster.upstream[0], K.ReadTip), 1))
  {
    Wins(s);
    var nd := Reporting(K.Synced, s.cluster.upstream[0], K.ReadTip);
    var t := Put(Won(s), nd, 1);
    ClusterMoves(s, Put(Won(s), nd, 2), K.TakeToken, Rebuilding(t, K.ReadSynced(0, [], [])).cluster);
    ClusterMoves(s, Rebuilding(t, K.ReadSynced(0, [], [])), K.Scan, Rebuilding(t, K.ReadCatchup(0, [], [])).cluster);
    assert [] + [0] == [0];
    ClusterMoves(s, Rebuilding(t, K.ReadCatchup(0, [], [])), K.Scan, Rebuilding(t, K.ReadSynced(1, [0], [])).cluster);
    var n := |t.cluster.nodes|;
    ScansRest(s, t, n);
    Publishes(s, n);
  }

  lemma Publishes(s: State, n: nat)
    requires Init(s) && Has0(s) && n == |s.cluster.nodes|
    requires var t := Put(Won(s), Reporting(K.Synced, s.cluster.upstream[0], K.ReadTip), 1);
      To(s, Rebuilding(t, K.ReadSynced(n, [0], [])))
    ensures To(s, Put(Listed(s), Reporting(K.Synced, s.cluster.upstream[0], K.ReadTip), 1))
  {
    var nd := Reporting(K.Synced, s.cluster.upstream[0], K.ReadTip);
    var t, v := Rebuilding(Put(Won(s), nd, 1), K.ReadSynced(n, [0], [])), Put(Listed(s), nd, 1);
    var step := Step(C.Publish([0], []), K.Publish([0], []));
    assert C.Next(t.cache, step.cache).sources == {0};
    assert C.Next(t.cache, step.cache) == v.cache;
    assert K.Next(t.cluster, step.cluster) == v.cluster;
    Go(s, t, step, v, Catchup, 1000);
  }

  // ----- round 1000 is promised, and its load asks node 0

  const PROMISED :=
    Mem([Entry(1000, None, Some(0), None)], [Chan(0, false)], Cache(map[1000 := 0], 0), Cache(map[], 0))
  const BLOCK := BlockWrap(1000, 0, 0, None)
  const X := C.Choice(0, C.FetchFailed("", false), true, false)

  /** The cache with node 0 listed, the given memory, and further tasks. */
  function Cached(mem: Mem, tasks: seq<C.Task>): C.State {
    ZERO.(tip := TIP, catchupNodes := [0], mem := mem, tasks := ZERO.tasks + tasks)
  }

  function Promising(pc: C.PromisePc, mem: Mem): C.State {
    Cached(mem, [C.Promise(1000, pc)])
  }

  function Loading(pc: C.LoadPc): C.State {
    Cached(PROMISED, [C.Promise(1000, C.PDone), C.Load(1000, pc)])
  }

  function Fetching(pc: C.FetchPc): C.State {
    Cached(PROMISED, [C.Promise(1000, C.PDone), C.Load(1000, C.LAwaitFetch([], true, 4)), C.Fetch(0, 1000, pc)])
  }

  /** The state once node 0 is listed, but for the cache. */
  function Waiting(s: State, cache: C.State): State
    requires Has0(s)
  {
    Put(Listed(s), Reporting(K.Synced, s.cluster.upstream[0], K.ReadTip), 1).(cache := cache)
  }

  lemma CacheTurn(s: State, from: C.State, step: C.Step, to: C.State)
    requires Has0(s) && To(s, Waiting(s, from)) && C.Enabled(from, step) && to == C.Next(from, step)
    requires step.StartPromise? || (step.Run? && !from.tasks[step.t].Fetch?)
    requires LP.Cooperative(from, step, Catchup, 1000)
    ensures To(s, Waiting(s, to))
  {
    CacheMoves(s, Waiting(s, from), step, to);
  }

  lemma IsPromised(s: State)
    requires Init(s) && Has0(s)
    ensures To(s, Waiting(s, Loading(C.LStart)))
  {
    IsListed(s);
    assert ZERO.tasks + [] == ZERO.tasks;
    CacheTurn(s, Cached(EMPTY, []), C.StartPromise(1000), Promising(C.PRoute, EMPTY));
    CacheTurn(s, Promising(C.PRoute, EMPTY), C.Run(2, X), Promising(C.PFirst, EMPTY));
    CacheTurn(s, Promising(C.PFirst, EMPTY), C.Run(2, X), Promising(C.PPeek(Catchup), EMPTY));
    CacheTurn(s, Promising(C.PPeek(Catchup), EMPTY), C.Run(2, X), Promising(C.PSpawn, PROMISED));
    CacheTurn(s, Promising(C.PSpawn, PROMISED), C.Run(2, X), Loading(C.LStart));
  }

  lemma IsLoaded(s: State)
    requires Init(s) && Has0(s)
    ensures To(s, Waiting(s, Loading(C.LTry([0], true, false))))
  {
    IsPromised(s);
    CacheTurn(s, Loading(C.LStart), C.Run(3, X), Loading(C.LWindow));
    CacheTurn(s, Loading(C.LWindow), C.Run(3, X), Loading(C.LCatchup));
    CacheTurn(s, Loading(C.LCatchup), C.Run(3, X), Loading(C.LTry([0], true, false)));
  }

  lemma IsAsked(s: State)
    requires Init(s) && Has0(s)
    ensures To(s, Waiting(s, Fetching(C.FTry)))
  {
    IsLoaded(s);
    var rest: seq<nat> := [0][1..];
    assert rest == [];
    CacheTurn(s, Loading(C.LTry([0], true, false)), C.Run(3, X), Fetching(C.FTry));
  }

  /** The block comes. */
  lemma IsFetched(s: State)
    requires Init(s) && Has0(s)
    ensures To(s, Waiting(s, Fetching(C.FSubmit(BLOCK))))
  {
    IsAsked(s);
    CacheMoves(s, Waiting(s, Fetching(C.FTry)), C.Run(4, X.(fetched := C.FetchGot(1000, 0))), Fetching(C.FSubmit(BLOCK)));
  }

  // ----- the state changes of node 0 fill the channel

  /** Node 0 after it has reported that it is catching up. */
  function Syncing(genesis: string, pc: K.Pc): K.Node {
    K.Node(K.Syncing, 1001, Some(NEXT), true, genesis, false, 1001, pc)
  }

  /** Node 0 is at the start of its monitor loop, at round 1000 or 1001. */
  predicate Monitoring(t: State, nd: K.Node) {
    && Has0(t) && t.cluster.latest == 1000 && t.cluster.rebuild.Idle?
    && !nd.sending && !nd.state.Failing? && nd.pc.ReadTip?
    && nd.latestRound <= 1001 && nd.reported <= 1001 && nd.catchup
  }

  /** Its upstream fails to answer. */
  lemma Fails(s: State, t: State, nd: K.Node, k: nat)
    requires Monitoring(t, nd) && To(s, Put(t, nd, k)) && k < K.TOKENS
    ensures To(s, Put(t, nd.(state := K.Failing, pc := K.AskAfter(1000)), k + 1))
  {
    Turn(s, t, nd, k, OK);
    Turn(s, t, nd.(pc := K.AskAfter(1000)), k, FAIL);
    Send(s, t, nd.(state := K.Failing, sending := true), k);
    Turn(s, t, nd.(state := K.Failing), k + 1, OK);
  }

  /** Then it answers that it is catching up. */
  lemma Syncs(s: State, t: State, nd: K.Node, k: nat)
    requires Monitoring(t, nd) && k < K.TOKENS
    requires To(s, Put(t, nd.(state := K.Failing, pc := K.AskAfter(1000)), k))
    ensures To(s, Put(t, Syncing(nd.genesis, K.ReadTip), k + 1))
  {
    var after := Some(1000 as U64);
    var applying := nd.(state := K.Failing, reported := 1001, pc := K.Apply(NEXT, after));
    Turn(s, t, nd.(state := K.Failing, pc := K.AskAfter(1000)), k, OK.(st := NEXT));
    Turn(s, t, applying, k, OK);
    Send(s, t, applying.(state := K.Syncing, sending := true, pc := K.Record(NEXT, after)), k);
    Turn(s, t, applying.(state := K.Syncing, pc := K.Record(NEXT, after)), k + 1, OK);
    Turn(s, t, Syncing(nd.genesis, K.CheckState(1000)), k + 1, OK);
  }

  lemma {:induction false} Alternates(s: State, t: State, nd: K.Node, j: nat)
    requires Monitoring(t, nd) && To(s, Put(t, nd, 1)) && 1 <= j <= 49
    ensures To(s, Put(t, Syncing(nd.genesis, K.ReadTip), 2 * j + 1))
  {
    if j == 1 {
      Fails(s, t, nd, 1);
      Syncs(s, t, nd, 2);
    } else {
      Alternates(s, t, nd, j - 1);
      Fails(s, t, Syncing(nd.genesis, K.ReadTip), 2 * j - 1);
      Syncs(s, t, Syncing(nd.genesis, K.ReadTip), 2 * j);
    }
  }

  /** With the channel full the monitor takes a token, and node 0 fails and reboots before it is read. */
  lemma Stalls(s: State, t: State, nd: K.Node) returns (u: State)
    requires Monitoring(t, nd) && To(s, Put(t, nd, 1))
    ensures To(s, u) && u.cache == t.cache && KS.Stalled(u.cluster) && u.cluster.nodes[0].sending
  {
    Alternates(s, t, nd, 49);
    var g := nd.genesis;
    Fails(s, t, Syncing(g, K.ReadTip), 99);
    var asking := Syncing(g, K.AskAfter(1000)).(state := K.Failing);
    var r := Rebuilding(t, K.ReadSynced(0, [], []));
    ClusterMoves(s, Put(t, asking, 100), K.TakeToken, Put(r, asking, 99).cluster);
    assert Put(t, asking, 100).(cluster := Put(r, asking, 99).cluster) == Put(r, asking, 99);
    u := Reboots(s, r, g);
  }

  lemma Reboots(s: State, r: State, g: string) returns (u: State)
    requires Has0(r) && r.cluster.rebuild == K.ReadSynced(0, [], []) && r.cluster.latest == 1000
    requires To(s, Put(r, Syncing(g, K.AskAfter(1000)).(state := K.Failing), 99))
    ensures To(s, u) && u.cache == r.cache && KS.Stalled(u.cluster) && u.cluster.nodes[0].sending
  {
    var asking := Syncing(g, K.AskAfter(1000)).(state := K.Failing);
    var after := Some(1000 as U64);
    Turn(s, r, asking, 99, OK.(st := STOPPED));
    Turn(s, r, asking.(pc := K.Apply(STOPPED, after)), 99, OK);
    Send(s, r, asking.(state := K.Failed, sending := true, pc := K.Boot), 99);
    Turn(s, r, asking.(state := K.Failed, pc := K.Boot), 100, OK);
    u := Put(r, asking.(state := K.Booting, sending := true, pc := K.Reset), 100);
  }

  // ----- the result

  lemma NeverResolved(u: State, pc: C.FetchPc)
    requires u.cache == Fetching(pc) && (pc.FTry? || pc == C.FSubmit(BLOCK))
    requires KS.Stalled(u.cluster) && u.cluster.nodes[0].sending
    ensures Doomed(u, 4, Catchup, 1000, 0)
  {
  }

  /** From every start with a node a run all of whose steps cooperate leads to a promised entry that
      depends on a fetch alone which has its block but waits for the cluster mutex for good, and
      another one to an entry that depends on a fetch whose node holds its lock for good. */
  lemma StalledPromise(s: State, got: bool) returns (u: State)
    requires Init(s) && |s.cluster.nodes| > 0
    ensures Reaches(s, u, Catchup, 1000) && Doomed(u, 4, Catchup, 1000, 0)
    ensures u.cache.tasks[4].fpc.FSubmit? <==> got
  {
    var pc := if got then C.FSubmit(BLOCK) else C.FTry;
    if got {
      IsFetched(s);
    } else {
      IsAsked(s);
    }
    var nd := Reporting(K.Synced, s.cluster.upstream[0], K.ReadTip);
    var t := Listed(s).(cache := Fetching(pc));
    assert Put(t, nd, 1) == Waiting(s, Fetching(pc));
    u := Stalls(s, t, nd);
    NeverResolved(u, pc);
  }

  /** A promised entry can be doomed, although all steps cooperate, exactly if there is a node at all. */
  lemma StalledPromiseExactly(s: State)
    requires Init(s)
    ensures (exists u, t, c, round, e :: Reaches(s, u, c, round) && Doomed(u, t, c, round, e)) <==> |s.cluster.nodes| > 0
  {
    if |s.cluster.nodes| > 0 {
      var u := StalledPromise(s, true);
    }
    if u, t, c, round, e :| Reaches(s, u, c, round) && Doomed(u, t, c, round, e) {
      var ss, steps :| Cooperating(ss, steps, s, u, c, round);
      PartsRun(ss, steps);
      KS.RunInBounds(ClusterRun(ss), ClusterSteps(steps), |steps|);
    }
  }
}
