/** Whenever the cluster is quiet, its node lists say exactly which nodes are synced. */
module ClusterLists {
  import opened Basics
  import opened ClusterSystem

  /** No state change is waiting to be noticed: no token pending and no setState about to send one. */
  predicate Quiet(s: State) {
    s.tokens == 0 && forall n :: 0 <= n < |s.nodes| ==> !s.nodes[n].sending
  }

  /** How often node n belongs in the list of the given kind, counting nodes below i only. */
  function Expected(nodes: seq<Node>, i: nat, n: nat, catchup: bool): nat {
    if n < i && n < |nodes| && nodes[n].state.Synced? && nodes[n].catchup == catchup then 1 else 0
  }

  /** The two lists name the synced nodes below i, each once, in the list its Catchup flag selects. */
  ghost predicate Agree(nodes: seq<Node>, i: nat, cs: seq<nat>, as': seq<nat>) {
    forall n: nat :: multiset(cs)[n] == Expected(nodes, i, n, true) && multiset(as')[n] == Expected(nodes, i, n, false)
  }

  /** Between setState(Booting) and the first status a node is in state Booting. */
  predicate InBoot(pc: Pc) {
    Boots(pc) && !pc.Boot?
  }

  predicate BootOk(s: State) {
    forall n :: 0 <= n < |s.nodes| && InBoot(s.nodes[n].pc) ==> s.nodes[n].state.Booting?
  }

  ghost predicate RebuildOk(s: State) {
    match s.rebuild
    case Idle => Agree(s.nodes, |s.nodes|, s.catchupNodes, s.archNodes)
    case ReadSynced(i, cs, as') => i <= |s.nodes| && Agree(s.nodes, i, cs, as')
    case ReadCatchup(i, cs, as') => i < |s.nodes| && s.nodes[i].state.Synced? && Agree(s.nodes, i, cs, as')
  }

  ghost predicate ListsOk(s: State) {
    BootOk(s) && (Quiet(s) ==> RebuildOk(s))
  }

  lemma NodeKeepsBootOk(s: State, n: nat, x: Choice)
    requires NodeEnabled(s, n, x) && BootOk(s)
    ensures BootOk(NodeStep(s, n, x))
  {
    QuietNode(s.nodes[n], x, s.upstream[n], s.genesis, s.latest);
  }

  /** A node stays Booting until its first status, and a step of it that sends no token changes neither
      its state nor, if it is synced, its Catchup flag. */
  lemma QuietNode(nd: Node, x: Choice, upstream: string, genesis: string, latest: U64)
    requires InBoot(nd.pc) ==> nd.state.Booting?
    ensures var t := NodeNext(nd, x, upstream, genesis, latest);
      && (InBoot(t.pc) ==> t.state.Booting?)
      && (!nd.sending && !t.sending ==> t.state == nd.state && (nd.state.Synced? ==> t.catchup == nd.catchup))
  {
    if Boots(nd.pc) {
      QuietBoot(nd, x, upstream, genesis);
    } else {
      QuietStatus(nd, x, latest);
    }
  }

  lemma QuietBoot(nd: Node, x: Choice, upstream: string, genesis: string)
    requires Boots(nd.pc) && (InBoot(nd.pc) ==> nd.state.Booting?)
    ensures var t := BootNext(nd, x, upstream, genesis);
      && (InBoot(t.pc) ==> t.state.Booting?)
      && (!nd.sending && !t.sending ==> t.state == nd.state && (nd.state.Synced? ==> t.catchup == nd.catchup))
  {
  }

  lemma QuietStatus(nd: Node, x: Choice, latest: U64)
    requires !Boots(nd.pc)
    ensures var t := StatusNext(nd, x, latest);
      && !InBoot(t.pc) && t.catchup == nd.catchup
      && (!nd.sending && !t.sending ==> t.state == nd.state)
  {
  }

  /** A node step that leaves the cluster quiet changes neither a state nor a synced node's flag. */
  lemma QuietNodeStep(s: State, n: nat, x: Choice)
    requires NodeEnabled(s, n, x) && BootOk(s) && !NodeStep(s, n, x).nodes[n].sending
    ensures var t := NodeStep(s, n, x);
      && t.nodes[n].state == s.nodes[n].state
      && (s.nodes[n].state.Synced? ==> t.nodes[n].catchup == s.nodes[n].catchup)
      && t.rebuild == s.rebuild && t.catchupNodes == s.catchupNodes && t.archNodes == s.archNodes
      && t.tokens == s.tokens && |t.nodes| == |s.nodes|
      && (forall k :: 0 <= k < |s.nodes| && k != n ==> t.nodes[k] == s.nodes[k])
  {
    QuietNode(s.nodes[n], x, s.upstream[n], s.genesis, s.latest);
  }

  lemma AgreeStable(nodes: seq<Node>, nodes': seq<Node>, i: nat, cs: seq<nat>, as': seq<nat>)
    requires Agree(nodes, i, cs, as') && |nodes'| == |nodes|
    requires forall n :: 0 <= n < |nodes| ==>
      && nodes'[n].state == nodes[n].state
      && (nodes[n].state.Synced? ==> nodes'[n].catchup == nodes[n].catchup)
    ensures Agree(nodes', i, cs, as')
  {
    forall n: nat
      ensures Expected(nodes', i, n, true) == Expected(nodes, i, n, true)
      ensures Expected(nodes', i, n, false) == Expected(nodes, i, n, false)
    {
    }
  }

  lemma NodeKeepsListsOk(s: State, n: nat, x: Choice)
    requires NodeEnabled(s, n, x) && ListsOk(s)
    ensures ListsOk(NodeStep(s, n, x))
  {
    NodeKeepsBootOk(s, n, x);
    var t := NodeStep(s, n, x);
    if Quiet(t) {
      QuietNodeStep(s, n, x);
      QuietBefore(s, t, n);
      match s.rebuild
      case Idle => AgreeStable(s.nodes, t.nodes, |s.nodes|, s.catchupNodes, s.archNodes);
      case ReadSynced(i, cs, as') => AgreeStable(s.nodes, t.nodes, i, cs, as');
      case ReadCatchup(i, cs, as') => AgreeStable(s.nodes, t.nodes, i, cs, as');
    }
  }

  lemma QuietBefore(s: State, t: State, n: nat)
    requires n < |s.nodes| == |t.nodes| && !s.nodes[n].sending && Quiet(t) && t.tokens == s.tokens
    requires forall k :: 0 <= k < |s.nodes| && k != n ==> t.nodes[k] == s.nodes[k]
    ensures Quiet(s)
  {
    forall k | 0 <= k < |s.nodes| ensures !s.nodes[k].sending {
      assert k != n ==> t.nodes[k] == s.nodes[k];
    }
  }

  /** Reading node i adds it to the list it belongs to, if any. */
  lemma AgreeExtends(nodes: seq<Node>, i: nat, cs: seq<nat>, as': seq<nat>, cs': seq<nat>, as'': seq<nat>)
    requires Agree(nodes, i, cs, as') && i < |nodes|
    requires cs' == if nodes[i].state.Synced? && nodes[i].catchup then cs + [i] else cs
    requires as'' == if nodes[i].state.Synced? && !nodes[i].catchup then as' + [i] else as'
    ensures Agree(nodes, i + 1, cs', as'')
  {
    forall n: nat
      ensures multiset(cs')[n] == Expected(nodes, i + 1, n, true)
      ensures multiset(as'')[n] == Expected(nodes, i + 1, n, false)
    {
      assert multiset(cs)[n] == Expected(nodes, i, n, true) && multiset(as')[n] == Expected(nodes, i, n, false);
    }
  }

  lemma ScanKeepsListsOk(s: State)
    requires ListsOk(s) && Enabled(s, Scan)
    ensures ListsOk(Next(s, Scan))
  {
    if Quiet(s) {
      match s.rebuild
      case ReadSynced(i, cs, as') =>
        if !s.nodes[i].state.Synced? {
          AgreeExtends(s.nodes, i, cs, as', cs, as');
        }
      case ReadCatchup(i, cs, as') =>
        if s.nodes[i].catchup {
          AgreeExtends(s.nodes, i, cs, as', cs + [i], as');
        } else {
          AgreeExtends(s.nodes, i, cs, as', cs, as' + [i]);
        }
    }
  }

  lemma NextKeepsListsOk(s: State, step: Step)
    requires ListsOk(s) && Enabled(s, step)
    ensures ListsOk(Next(s, step))
  {
    match step
    case NodeRuns(n, x) => NodeKeepsListsOk(s, n, x);
    case Scan => ScanKeepsListsOk(s);
    case _ =>
  }

  lemma {:induction false} RunListsOk(ss: seq<State>, steps: seq<Step>, i: nat)
    requires IsRun(ss, steps) && i < |ss|
    ensures ListsOk(ss[i])
  {
    if i > 0 {
      RunListsOk(ss, steps, i - 1);
      assert StepAt(ss, steps, i - 1);
      NextKeepsListsOk(ss[i - 1], steps[i - 1]);
    }
  }

  /** In every state of every run in which no token is pending, no setState is about to send one and
      no rebuild is under way, a node is in the catchup list exactly if it is synced with its Catchup
      flag set, in the archive list exactly if it is synced with the flag cleared, and never twice. */
  lemma QuiescentAgreement(ss: seq<State>, steps: seq<Step>, i: nat, n: nat)
    requires IsRun(ss, steps) && i < |ss|
    requires Quiet(ss[i]) && ss[i].rebuild.Idle?
    ensures var s := ss[i];
      && (n in s.catchupNodes <==> n < |s.nodes| && s.nodes[n].state.Synced? && s.nodes[n].catchup)
      && (n in s.archNodes <==> n < |s.nodes| && s.nodes[n].state.Synced? && !s.nodes[n].catchup)
      && multiset(s.catchupNodes)[n] + multiset(s.archNodes)[n] <= 1
  {
    RunListsOk(ss, steps, i);
    var s := ss[i];
    assert multiset(s.catchupNodes)[n] == Expected(s.nodes, |s.nodes|, n, true);
    assert multiset(s.archNodes)[n] == Expected(s.nodes, |s.nodes|, n, false);
    assert n in s.catchupNodes <==> n in multiset(s.catchupNodes);
    assert n in s.archNodes <==> n in multiset(s.archNodes);
  }
}
