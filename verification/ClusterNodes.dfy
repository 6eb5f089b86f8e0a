/** What the fields of a node tell about its upstream, and that a monitored node brings in new rounds. */
module ClusterNodes {
  import opened Basics
  import opened ClusterSystem
  import opened ClusterStatus

  lemma NextKeepsNode(s: State, step: Step, n: nat)
    requires Enabled(s, step) && n < |s.nodes|
    ensures n < |Next(s, step).nodes| && s.latest <= Next(s, step).latest
    ensures var was, now := s.nodes[n], Next(s, step).nodes[n];
      if step.NodeRuns? && step.n == n then
        n < |s.upstream| && now == NodeNext(was, step.x, s.upstream[n], s.genesis, s.latest)
      else now == was.(sending := now.sending)
  {
  }

  lemma {:induction false} NodeExisted(ss: seq<State>, steps: seq<Step>, i: nat, n: nat)
    requires IsRun(ss, steps) && i < |ss| && n < |ss[i].nodes|
    ensures forall k :: 0 <= k <= i ==> n < |ss[k].nodes|
  {
    if i > 0 {
      assert StepAt(ss, steps, i - 1);
      assert |ss[i - 1].nodes| == |ss[i].nodes|;
      NodeExisted(ss, steps, i - 1, n);
    }
  }

  // ----- the state follows the last status

  /** The status vouches for the state: neither stopped, and catching up exactly if the node is syncing. */
  predicate Vouches(st: Option<Status>, state: NodeState) {
    st.Some? && !st.value.stopped && (state == if st.value.catchingUp then Syncing else Synced)
  }

  predicate StateOk(nd: Node) {
    if nd.pc.Record? then Vouches(Some(nd.pc.st), nd.state)
    else nd.state.Synced? || nd.state.Syncing? ==> Vouches(nd.lastStatus, nd.state)
  }

  lemma NodeKeepsStateOk(nd: Node, x: Choice, upstream: string, genesis: string, latest: U64)
    requires StateOk(nd)
    ensures StateOk(NodeNext(nd, x, upstream, genesis, latest))
  {
    if Boots(nd.pc) {
      assert StateOk(BootNext(nd, x, upstream, genesis));
    } else {
      assert StateOk(StatusNext(nd, x, latest));
    }
  }

  lemma {:induction false} RunStateOk(ss: seq<State>, steps: seq<Step>, i: nat, n: nat)
    requires IsRun(ss, steps) && i < |ss| && n < |ss[i].nodes|
    ensures StateOk(ss[i].nodes[n])
  {
    if i > 0 {
      NodeExisted(ss, steps, i, n);
      RunStateOk(ss, steps, i - 1, n);
      assert StepAt(ss, steps, i - 1);
      NextKeepsNode(ss[i - 1], steps[i - 1], n);
      if steps[i - 1].NodeRuns? && steps[i - 1].n == n {
        NodeKeepsStateOk(ss[i - 1].nodes[n], steps[i - 1].x, ss[i - 1].upstream[n], ss[i - 1].genesis, ss[i - 1].latest);
      }
    }
  }

  /** In every reachable state a node is Synced or Syncing only on the word of its upstream: the status
      it holds, or is about to record, is of a running upstream, and that upstream is catching up exactly if
      the node is Syncing. */
  lemma StateFollowsStatus(ss: seq<State>, steps: seq<Step>, i: nat, n: nat)
    requires IsRun(ss, steps) && i < |ss| && n < |ss[i].nodes|
    requires ss[i].nodes[n].state.Synced? || ss[i].nodes[n].state.Syncing?
    ensures var nd := ss[i].nodes[n];
      var st := if nd.pc.Record? then Some(nd.pc.st) else nd.lastStatus;
      st.Some? && !st.value.stopped && (st.value.catchingUp <==> nd.state.Syncing?)
  {
    RunStateOk(ss, steps, i, n);
  }

  // ----- the catchup flag tells who has served block 0

  /** At step p the upstream of the node served block 0 while the node was booting. */
  ghost predicate ServesZero(ss: seq<State>, steps: seq<Step>, p: nat, n: nat)
    requires IsRun(ss, steps) && p < |steps|
  {
    steps[p].NodeRuns? && steps[p].n == n && n < |ss[p].nodes| && ss[p].nodes[n].pc.Zero? && steps[p].x.ok
  }

  ghost predicate ServedZero(ss: seq<State>, steps: seq<Step>, i: nat, n: nat)
    requires IsRun(ss, steps) && i < |ss|
  {
    exists p :: 0 <= p < i && ServesZero(ss, steps, p, n)
  }

  /** A node is taken for an archive node, or is about to be, exactly if its upstream has ever served
      block 0 to its boot. */
  lemma {:induction false} ArchiveMeansServedZero(ss: seq<State>, steps: seq<Step>, i: nat, n: nat)
    requires IsRun(ss, steps) && i < |ss| && n < |ss[i].nodes|
    ensures var nd := ss[i].nodes[n];
      !nd.catchup || nd.pc.ZeroSink? || nd.pc.Flag? <==> ServedZero(ss, steps, i, n)
  {
    if i > 0 {
      NodeExisted(ss, steps, i, n);
      ArchiveMeansServedZero(ss, steps, i - 1, n);
      assert StepAt(ss, steps, i - 1);
      NextKeepsNode(ss[i - 1], steps[i - 1], n);
      ZeroGrows(ss, steps, i - 1, n);
      if steps[i - 1].NodeRuns? && steps[i - 1].n == n {
        FlagMoves(ss[i - 1].nodes[n], steps[i - 1].x, ss[i - 1].upstream[n], ss[i - 1].genesis, ss[i - 1].latest);
      }
    }
  }

  lemma ZeroGrows(ss: seq<State>, steps: seq<Step>, i: nat, n: nat)
    requires IsRun(ss, steps) && i < |steps|
    ensures ServedZero(ss, steps, i + 1, n) <==> ServedZero(ss, steps, i, n) || ServesZero(ss, steps, i, n)
  {
    if ServedZero(ss, steps, i, n) {
      var p :| 0 <= p < i && ServesZero(ss, steps, p, n);
    }
  }

  predicate Flagged(nd: Node) {
    !nd.catchup || nd.pc.ZeroSink? || nd.pc.Flag?
  }

  lemma FlagMoves(nd: Node, x: Choice, upstream: string, genesis: string, latest: U64)
    ensures Flagged(NodeNext(nd, x, upstream, genesis, latest)) <==> Flagged(nd) || (nd.pc.Zero? && x.ok)
  {
    if Boots(nd.pc) {
      assert Flagged(BootNext(nd, x, upstream, genesis)) <==> Flagged(nd) || (nd.pc.Zero? && x.ok);
    }
  }

  // ----- a monitored node brings in the next round

  /** The node is about to see to it that round lr + 1 is fetched. */
  predicate SeesTo(pc: Pc, lr: U64) {
    pc == CheckTip(lr) || (lr + 1 < TWO64 && (pc == FetchNext(lr + 1) || pc == SinkNext(lr + 1)))
  }

  /** From the moment a synced node has learnt that its upstream is past round lr until it reboots, it is
      on its way to bring in round lr + 1, or the tip covers that round: so when it asks for the next
      status the cluster has moved on. */
  lemma {:induction false} MonitorMovesTip(ss: seq<State>, steps: seq<Step>, i: nat, j: nat, n: nat, lr: U64)
    requires IsRun(ss, steps) && i <= j < |ss| && n < |ss[i].nodes| && ss[i].nodes[n].pc == CheckTip(lr) && lr + 1 < TWO64
    requires forall k :: i <= k <= j && n < |ss[k].nodes| ==> !ss[k].nodes[n].pc.Boot?
    ensures n < |ss[j].nodes| && (SeesTo(ss[j].nodes[n].pc, lr) || ss[j].latest >= lr + 1)
    decreases j
  {
    if i < j {
      MonitorMovesTip(ss, steps, i, j - 1, n, lr);
      assert StepAt(ss, steps, j - 1);
      NextKeepsNode(ss[j - 1], steps[j - 1], n);
      var s, step := ss[j - 1], steps[j - 1];
      if step.NodeRuns? && step.n == n && SeesTo(s.nodes[n].pc, lr) {
        assert !ss[j].nodes[n].pc.Boot?;
        MonitorStep(s, step, n, lr);
      }
    }
  }

  lemma MonitorStep(s: State, step: Step, n: nat, lr: U64)
    requires Enabled(s, step) && step.NodeRuns? && step.n == n && n < |s.nodes| && lr + 1 < TWO64
    requires SeesTo(s.nodes[n].pc, lr) && !Next(s, step).nodes[n].pc.Boot?
    ensures SeesTo(Next(s, step).nodes[n].pc, lr) || Next(s, step).latest >= lr + 1
  {
  }
}
