/**
  When a list rebuild, and with it everything that needs the cluster mutex, can
  go on, and how the cluster gets into the state in which it never will.
 */
module ClusterStall {
  import opened Basics
  import opened ClusterSystem

  /** The rebuild waits for the lock of a node whose setState waits for room in the full channel. */
  predicate Stalled(s: State) {
    && s.rebuild.ReadSynced? && s.rebuild.i < |s.nodes|
    && s.nodes[s.rebuild.i].sending && s.tokens >= TOKENS
  }

  /** The next node to read, or the publication, or the token that node is about to send can go on. */
  ghost predicate RebuildCanGoOn(s: State) {
    || Enabled(s, Scan)
    || (exists cs, as' :: Enabled(s, Publish(cs, as')))
    || (exists n: nat :: s.rebuild.ReadSynced? && n == s.rebuild.i && Enabled(s, SendToken(n)))
  }

  predicate InBounds(s: State) {
    s.rebuild.Idle? || (s.rebuild.i <= |s.nodes| && (s.rebuild.ReadCatchup? ==> s.rebuild.i < |s.nodes|))
  }

  lemma {:induction false} RunInBounds(ss: seq<State>, steps: seq<Step>, i: nat)
    requires IsRun(ss, steps) && i < |ss|
    ensures InBounds(ss[i]) && |ss[i].nodes| == |ss[0].nodes|
  {
    if i > 0 {
      RunInBounds(ss, steps, i - 1);
      assert StepAt(ss, steps, i - 1);
    }
  }

  /** A rebuild that is under way can go on exactly unless it is stalled. */
  lemma RebuildGoesOnUnlessStalled(s: State)
    requires InBounds(s) && !s.rebuild.Idle?
    ensures RebuildCanGoOn(s) <==> !Stalled(s)
  {
    if s.rebuild.ReadSynced? && s.rebuild.i == |s.nodes| {
      assert Enabled(s, Publish(s.rebuild.catchup, s.rebuild.arch));
    } else if s.rebuild.ReadSynced? && !Stalled(s) && s.nodes[s.rebuild.i].sending {
      assert Enabled(s, SendToken(s.rebuild.i));
    }
  }

  /** How many reads and publications a rebuild under way has left. */
  function RebuildRank(s: State): nat {
    match s.rebuild
    case Idle => 0
    case ReadSynced(i, _, _) => if i <= |s.nodes| then 2 * (|s.nodes| - i) + 1 else 0
    case ReadCatchup(i, _, _) => if i <= |s.nodes| then 2 * (|s.nodes| - i) else 0
  }

  predicate Advances(step: Step) {
    step.Scan? || step.Publish?
  }

  lemma RebuildRankFalls(s: State, step: Step)
    requires Enabled(s, step) && InBounds(s) && !s.rebuild.Idle?
    ensures RebuildRank(Next(s, step)) + (if Advances(step) then 1 else 0) <= RebuildRank(s) <= 2 * |s.nodes| + 1
    ensures Next(s, step).rebuild.Idle? <==> step.Publish?
  {
  }

  /** How many of the steps from i to j were reads or publications of the rebuild. */
  function Advanced(steps: seq<Step>, i: nat, j: nat): nat
    requires i <= j <= |steps|
  {
    if i == j then 0 else Advanced(steps, i, j - 1) + if Advances(steps[j - 1]) then 1 else 0
  }

  /** A rebuild under way at step i, and still under way before step j, has taken at most two reads for
      each node and a publication, whatever else happened meanwhile; with all of them it has ended, and
      it ends only by publishing. */
  lemma {:induction false} RebuildIsBounded(ss: seq<State>, steps: seq<Step>, i: nat, j: nat)
    requires IsRun(ss, steps) && i <= j < |ss| && !ss[i].rebuild.Idle?
    requires forall k {:trigger ss[k].rebuild} :: i <= k < j ==> !ss[k].rebuild.Idle?
    ensures Advanced(steps, i, j) + RebuildRank(ss[j]) <= RebuildRank(ss[i]) <= 2 * |ss[0].nodes| + 1
    ensures Advanced(steps, i, j) == 2 * |ss[0].nodes| + 1 ==> ss[j].rebuild.Idle?
    ensures i < j ==> (ss[j].rebuild.Idle? <==> steps[j - 1].Publish?)
    decreases j
  {
    RunInBounds(ss, steps, j);
    if i < j {
      RebuildIsBounded(ss, steps, i, j - 1);
      RunInBounds(ss, steps, j - 1);
      assert StepAt(ss, steps, j - 1);
      RebuildRankFalls(ss[j - 1], steps[j - 1]);
    }
  }

  // ----- a stall is final and within reach

  /** What the cluster shows to the rest of the program. */
  predicate Frozen(s: State, t: State) {
    && t.rebuild == s.rebuild && t.catchupNodes == s.catchupNodes && t.archNodes == s.archNodes
    && t.latest == s.latest && t.lastSrc == s.lastSrc && t.wins == s.wins
    && t.genesis == s.genesis && t.broadcasts == s.broadcasts
  }

  lemma StallPersists(s: State, step: Step)
    requires Enabled(s, step) && Stalled(s)
    ensures Stalled(Next(s, step)) && Frozen(s, Next(s, step))
  {
  }

  /** A stall is final: the monitor, which alone takes tokens, holds the cluster mutex for good, so that
      the lists, the tip, the genesis and the broadcasts never change again. */
  lemma {:induction false} StallIsFinal(ss: seq<State>, steps: seq<Step>, i: nat, j: nat)
    requires IsRun(ss, steps) && i <= j < |ss| && Stalled(ss[i])
    ensures Stalled(ss[j]) && Frozen(ss[i], ss[j])
    decreases j
  {
    if i < j {
      StallIsFinal(ss, steps, i, j - 1);
      assert StepAt(ss, steps, j - 1);
      StallPersists(ss[j - 1], steps[j - 1]);
    }
  }

  ghost predicate Reaches(s: State, t: State) {
    exists ss, steps :: IsRun(ss, steps) && ss[0] == s && ss[|steps|] == t
  }

  lemma ReachStep(s: State, t: State, step: Step)
    requires Reaches(s, t) && Enabled(t, step)
    ensures Reaches(s, Next(t, step))
  {
    var ss, steps :| IsRun(ss, steps) && ss[0] == s && ss[|steps|] == t;
    var ss', steps' := ss + [Next(t, step)], steps + [step];
    forall i | 0 <= i < |steps'| ensures StepAt(ss', steps', i) {
      assert i < |steps| ==> StepAt(ss, steps, i);
    }
    assert IsRun(ss', steps') && ss'[0] == s && ss'[|steps'|] == Next(t, step);
  }

  lemma ReachInit(s: State)
    requires Init(s)
    ensures Reaches(s, s)
  {
    assert IsRun([s], []);
  }

  /** The start s, but for node 0, the cluster genesis, the pending tokens and the rebuild. */
  function With(s: State, nd: Node, genesis: string, tokens: nat, rebuild: Rebuild): State
    requires |s.nodes| > 0
  {
    s.(nodes := s.nodes[0 := nd], genesis := genesis, tokens := tokens, rebuild := rebuild)
  }

  /** Node 0 of a starting cluster, before anything is recorded of its upstream's status. */
  function Early(state: NodeState, genesis: string, pc: Pc): Node {
    Node(state, 0, None, true, genesis, false, 0, pc)
  }

  /** Node 0 takes a turn. */
  lemma Turn(s: State, nd: Node, g: string, k: nat, rb: Rebuild, x: Choice)
    requires Init(s) && |s.nodes| > 0 && Reaches(s, With(s, nd, g, k, rb))
    requires NodeEnabled(With(s, nd, g, k, rb), 0, x) && Offer(nd) == 0
    ensures var g' := if nd.pc.Ensure? then Settled(g, s.upstream[0]) else g;
      Reaches(s, With(s, NodeNext(nd, x, s.upstream[0], g, 0), g', k, rb))
  {
    var t := With(s, nd, g, k, rb);
    ReachStep(s, t, NodeRuns(0, x));
    var g' := if nd.pc.Ensure? then Settled(g, s.upstream[0]) else g;
    assert NodeStep(t, 0, x) == With(s, NodeNext(nd, x, s.upstream[0], g, 0), g', k, rb);
  }

  /** Node 0 changes its state and sends the token. */
  lemma Send(s: State, nd: Node, g: string, k: nat, rb: Rebuild)
    requires Init(s) && |s.nodes| > 0 && Reaches(s, With(s, nd, g, k, rb)) && nd.sending && k < TOKENS
    ensures Reaches(s, With(s, nd.(sending := false), g, k + 1, rb))
  {
    ReachStep(s, With(s, nd, g, k, rb), SendToken(0));
    assert Next(With(s, nd, g, k, rb), SendToken(0)) == With(s, nd.(sending := false), g, k + 1, rb);
  }

  const ANSWER := Choice(true, false, false, Status(0, true, false))
  const FAILURE := Choice(false, false, false, Status(0, true, false))

  /** Node 0 boots up to its status request. */
  lemma BootOnce(s: State, state: NodeState, g: string, k: nat)
    requires Init(s) && |s.nodes| > 0 && (g == "" || g == s.upstream[0]) && !state.Booting? && k < TOKENS
    requires Reaches(s, With(s, Early(state, g, Boot), g, k, Idle))
    ensures Reaches(s, With(s, Early(Booting, s.upstream[0], AskStatus), s.upstream[0], k + 1, Idle))
  {
    Turn(s, Early(state, g, Boot), g, k, Idle, ANSWER);
    Send(s, Early(Booting, g, Reset).(sending := true), g, k, Idle);
    Turn(s, Early(Booting, g, Reset), g, k + 1, Idle, ANSWER);
    Turn(s, Early(Booting, g, Genesis), g, k + 1, Idle, ANSWER);
    Turn(s, Early(Booting, g, Ensure), g, k + 1, Idle, ANSWER);
    Turn(s, Early(Booting, g, Adopt), s.upstream[0], k + 1, Idle, ANSWER);
    Turn(s, Early(Booting, s.upstream[0], Zero), s.upstream[0], k + 1, Idle, FAILURE);
  }

  /** Its upstream answers that it has stopped at an unsupported round, and the node fails. */
  lemma StopOnce(s: State, state: NodeState, k: nat, rb: Rebuild)
    requires Init(s) && |s.nodes| > 0 && !state.Failed? && k < TOKENS
    requires Reaches(s, With(s, Early(state, s.upstream[0], AskStatus), s.upstream[0], k, rb))
    ensures Reaches(s, With(s, Early(Failed, s.upstream[0], Boot), s.upstream[0], k + 1, rb))
  {
    var g := s.upstream[0];
    Turn(s, Early(state, g, AskStatus), g, k, rb, ANSWER);
    Turn(s, Early(state, g, Apply(ANSWER.st, None)), g, k, rb, ANSWER);
    Send(s, Early(Failed, g, Boot).(sending := true), g, k, rb);
  }

  /** Rebooting j times fills the channel with 2j tokens, as long as the monitor takes none. */
  lemma {:induction false} BootOften(s: State, j: nat)
    requires Init(s) && |s.nodes| > 0 && 1 <= j <= 49
    ensures Reaches(s, With(s, Early(Failed, s.upstream[0], Boot), s.upstream[0], 2 * j, Idle))
  {
    if j == 1 {
      ReachInit(s);
      assert s == With(s, Early(Config, "", Boot), "", 0, Idle);
      BootOnce(s, Config, "", 0);
    } else {
      BootOften(s, j - 1);
      BootOnce(s, Failed, s.upstream[0], 2 * j - 2);
    }
    StopOnce(s, Booting, 2 * j - 1, Idle);
  }

  /** From every start with a node a run leads into a stall. */
  lemma StallIsReachable(s: State) returns (t: State)
    requires Init(s) && |s.nodes| > 0
    ensures Reaches(s, t) && Stalled(t)
  {
    var g, rb := s.upstream[0], ReadSynced(0, [], []);
    BootOften(s, 49);
    BootOnce(s, Failed, g, 98);
    Turn(s, Early(Booting, g, AskStatus), g, 99, Idle, FAILURE);
    Send(s, Early(Failing, g, AskStatus).(sending := true), g, 99, Idle);
    ReachStep(s, With(s, Early(Failing, g, AskStatus), g, 100, Idle), TakeToken);
    assert Next(With(s, Early(Failing, g, AskStatus), g, 100, Idle), TakeToken)
        == With(s, Early(Failing, g, AskStatus), g, 99, rb);
    StopOnce(s, Failing, 99, rb);
    Turn(s, Early(Failed, g, Boot), g, 100, rb, ANSWER);
    t := With(s, Early(Booting, g, Reset).(sending := true), g, 100, rb);
  }

  /** A cluster can stall exactly if it has a node at all. */
  lemma StallIsReachableExactly(s: State)
    requires Init(s)
    ensures (exists t :: Reaches(s, t) && Stalled(t)) <==> |s.nodes| > 0
  {
    if |s.nodes| > 0 {
      var t := StallIsReachable(s);
    }
    if t :| Reaches(s, t) && Stalled(t) {
      var ss, steps :| IsRun(ss, steps) && ss[0] == s && ss[|steps|] == t;
      RunInBounds(ss, steps, |steps|);
    }
  }
}
