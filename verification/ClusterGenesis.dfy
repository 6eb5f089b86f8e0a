/** The cluster serves one chain: whatever it uses comes from nodes of its one genesis. */
module ClusterGenesis {
  import opened Basics
  import opened ClusterSystem

  /** Node n has passed EnsureGenesis at least once. */
  predicate Vetted(s: State, n: nat) {
    n < |s.nodes| && s.nodes[n].genesis != ""
  }

  /** Program points a node reaches only after EnsureGenesis accepted it. */
  predicate PastEnsure(pc: Pc) {
    !(pc.Boot? || pc.Reset? || pc.Genesis? || pc.Ensure? || pc.Rejected? || pc.Adopt?)
  }

  predicate NodeOk(s: State, n: nat)
    requires n < |s.nodes| == |s.upstream|
  {
    ChainOk(s.nodes[n], s.upstream[n], s.genesis)
  }

  predicate ChainOk(nd: Node, upstream: string, genesis: string) {
    && (nd.genesis != "" ==> nd.genesis == upstream == genesis)
    && (nd.pc.Adopt? ==> upstream == genesis)
    && (PastEnsure(nd.pc) || nd.state.Synced? ==> nd.genesis != "")
  }

  predicate AllVetted(s: State, ns: seq<nat>) {
    forall n :: n in ns ==> Vetted(s, n)
  }

  predicate UsesOk(s: State) {
    && AllVetted(s, s.catchupNodes) && AllVetted(s, s.archNodes)
    && (s.rebuild.Idle? || (AllVetted(s, s.rebuild.catchup) && AllVetted(s, s.rebuild.arch)))
    && (s.rebuild.ReadCatchup? ==> Vetted(s, s.rebuild.i))
    && (forall l :: l in s.loads ==> Vetted(s, l.0))
    && (s.lastSrc.Some? ==> Vetted(s, s.lastSrc.value))
    && (forall i :: 0 <= i < |s.wins| ==> Vetted(s, s.wins[i].1))
  }

  predicate GenesisOk(s: State) {
    && |s.nodes| == |s.upstream|
    && (forall n :: 0 <= n < |s.upstream| ==> s.upstream[n] != "")
    && (forall n :: 0 <= n < |s.nodes| ==> NodeOk(s, n))
    && UsesOk(s)
  }

  /** The upstreams and a cluster genesis that is set never change, and vetted nodes stay vetted. */
  predicate Kept(s: State, t: State) {
    && t.upstream == s.upstream && |t.nodes| == |s.nodes|
    && (s.genesis != "" ==> t.genesis == s.genesis)
    && (forall n :: 0 <= n < |s.nodes| && s.nodes[n].genesis != "" ==> t.nodes[n].genesis != "")
  }

  /** A node adopts a genesis only after EnsureGenesis made it, or found it to be, the cluster's. */
  lemma NodeAdopts(nd: Node, x: Choice, upstream: string, genesis: string, latest: U64)
    requires upstream != "" && ChainOk(nd, upstream, genesis)
    ensures var t := NodeNext(nd, x, upstream, genesis, latest);
      && ChainOk(t, upstream, if nd.pc.Ensure? then Settled(genesis, upstream) else genesis)
      && (nd.genesis != "" ==> t.genesis != "")
  {
  }

  lemma NodeKeepsNodeOk(s: State, n: nat, x: Choice)
    requires NodeEnabled(s, n, x) && |s.nodes| == |s.upstream|
    requires forall k :: 0 <= k < |s.upstream| ==> s.upstream[k] != ""
    requires forall k :: 0 <= k < |s.nodes| ==> NodeOk(s, k)
    ensures var t := NodeStep(s, n, x);
      && |t.nodes| == |t.upstream| && Kept(s, t)
      && (forall k :: 0 <= k < |t.nodes| ==> NodeOk(t, k))
  {
    var t := NodeStep(s, n, x);
    assert NodeOk(s, n);
    NodeAdopts(s.nodes[n], x, s.upstream[n], s.genesis, s.latest);
    forall k | 0 <= k < |t.nodes| ensures NodeOk(t, k) {
      assert NodeOk(s, k);
    }
  }

  /** What a step adds to the nodes in use. */
  lemma NodeUses(s: State, n: nat, x: Choice)
    requires NodeEnabled(s, n, x)
    ensures var t := NodeStep(s, n, x);
      && t.catchupNodes == s.catchupNodes && t.archNodes == s.archNodes
      && t.rebuild == s.rebuild && t.loads == s.loads
      && (t.lastSrc == s.lastSrc || (t.lastSrc == Some(n) && PastEnsure(s.nodes[n].pc)))
      && (t.wins == s.wins || (t.wins == s.wins + [(t.latest, n)] && PastEnsure(s.nodes[n].pc)))
  {
  }

  lemma UsesStable(s: State, t: State, n: nat)
    requires Kept(s, t) && UsesOk(s)
    requires t.catchupNodes == s.catchupNodes && t.archNodes == s.archNodes && t.rebuild == s.rebuild && t.loads == s.loads
    requires t.lastSrc == s.lastSrc || (t.lastSrc == Some(n) && Vetted(t, n))
    requires t.wins == s.wins || (t.wins == s.wins + [(t.latest, n)] && Vetted(t, n))
    ensures UsesOk(t)
  {
    forall k | Vetted(s, k) ensures Vetted(t, k) {
    }
  }

  lemma NextKeepsGenesisOk(s: State, step: Step)
    requires GenesisOk(s) && Enabled(s, step)
    ensures GenesisOk(Next(s, step)) && Kept(s, Next(s, step))
  {
    var t := Next(s, step);
    match step
    case NodeRuns(n, x) =>
      assert NodeOk(s, n);
      NodeKeepsNodeOk(s, n, x);
      NodeUses(s, n, x);
      UsesStable(s, t, n);
    case LoadSinks(n, r) =>
      assert Vetted(s, n);
      SameNodes(s, t);
      UsesStable(s, t, n);
    case SendToken(n) =>
      assert NodeOk(s, n);
      SentNodes(s, t, n);
      UsesStable(s, t, n);
    case Scan => ScanKeepsUses(s);
    case Publish(cs, as') => PublishKeepsUses(s, cs, as');
    case _ => SameNodes(s, t);
  }

  lemma ScanKeepsUses(s: State)
    requires GenesisOk(s) && Enabled(s, Scan)
    ensures GenesisOk(Next(s, Scan)) && Kept(s, Next(s, Scan))
  {
    SameNodes(s, Next(s, Scan));
    assert s.rebuild.ReadSynced? ==> NodeOk(s, s.rebuild.i);
  }

  lemma PublishKeepsUses(s: State, cs: seq<nat>, as': seq<nat>)
    requires GenesisOk(s) && Enabled(s, Publish(cs, as'))
    ensures GenesisOk(Next(s, Publish(cs, as'))) && Kept(s, Next(s, Publish(cs, as')))
  {
    SameNodes(s, Next(s, Publish(cs, as')));
    forall n | n in cs ensures n in s.rebuild.catchup {
      assert n in multiset(cs);
    }
    forall n | n in as' ensures n in s.rebuild.arch {
      assert n in multiset(as');
    }
  }

  lemma SameNodes(s: State, t: State)
    requires |s.nodes| == |s.upstream| && t.upstream == s.upstream && t.nodes == s.nodes && t.genesis == s.genesis
    requires forall n :: 0 <= n < |s.nodes| ==> NodeOk(s, n)
    ensures Kept(s, t) && forall n :: 0 <= n < |t.nodes| ==> NodeOk(t, n)
  {
    forall n | 0 <= n < |t.nodes| ensures NodeOk(t, n) {
      assert NodeOk(s, n);
    }
  }

  lemma SentNodes(s: State, t: State, n: nat)
    requires |s.nodes| == |s.upstream| && n < |s.nodes| && t.upstream == s.upstream && t.genesis == s.genesis
    requires t.nodes == s.nodes[n := s.nodes[n].(sending := false)]
    requires forall k :: 0 <= k < |s.nodes| ==> NodeOk(s, k)
    ensures Kept(s, t) && forall k :: 0 <= k < |t.nodes| ==> NodeOk(t, k)
  {
    forall k | 0 <= k < |t.nodes| ensures NodeOk(t, k) {
      assert NodeOk(s, k);
    }
  }

  lemma {:induction false} RunGenesisOk(ss: seq<State>, steps: seq<Step>, i: nat)
    requires IsRun(ss, steps) && i < |ss|
    ensures GenesisOk(ss[i])
  {
    if i > 0 {
      RunGenesisOk(ss, steps, i - 1);
      assert StepAt(ss, steps, i - 1);
      NextKeepsGenesisOk(ss[i - 1], steps[i - 1]);
    }
  }

  /** The upstream of node n serves the cluster's genesis. */
  predicate OfTheChain(s: State, n: nat) {
    n < |s.nodes| && n < |s.upstream| && s.nodes[n].genesis == s.upstream[n] == s.genesis != ""
  }

  /** In every state of every run each node that is synced, listed, asked by a load or won the tip
      has an upstream of the cluster's genesis. */
  lemma GenesisSafety(ss: seq<State>, steps: seq<Step>, i: nat, n: nat)
    requires IsRun(ss, steps) && i < |ss|
    requires var s := ss[i];
      || (n < |s.nodes| && s.nodes[n].state.Synced?)
      || n in s.catchupNodes || n in s.archNodes
      || (exists r: U64 :: (n, r) in s.loads)
      || (exists k :: 0 <= k < |s.wins| && s.wins[k].1 == n)
    ensures OfTheChain(ss[i], n)
  {
    RunGenesisOk(ss, steps, i);
    var s := ss[i];
    if n < |s.nodes| {
      assert NodeOk(s, n);
    }
    assert Vetted(s, n);
  }

  /** Once set, the cluster genesis is the same in every later state. */
  lemma {:induction false} GenesisIsFinal(ss: seq<State>, steps: seq<Step>, i: nat, j: nat)
    requires IsRun(ss, steps) && i <= j < |ss| && ss[i].genesis != ""
    ensures ss[j].genesis == ss[i].genesis
    decreases j
  {
    if i < j {
      GenesisIsFinal(ss, steps, i, j - 1);
      RunGenesisOk(ss, steps, j - 1);
      assert StepAt(ss, steps, j - 1);
      NextKeepsGenesisOk(ss[j - 1], steps[j - 1]);
    }
  }
}
