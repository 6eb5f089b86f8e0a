/**
  The sequential parts of internal/algod in their own form: a node taking over
  a status, the node list rebuild over one snapshot, the candidate loop of a
  load, the racing tip and the set-once genesis.  A node is named by its
  position in the configuration.
 */
module ClusterObjects {
  import opened Basics
  import opened Routing
  import opened ClusterSystem

  class NodeObject {
    var state: NodeState
    var latestRound: U64
    var lastStatus: Option<Status>
    var catchup: bool
    var rttEwma: real

    /** setState: a token is sent exactly for a change. */
    method SetNodeState(st: NodeState) returns (sent: bool)
      modifies `state
      ensures state == st && (sent <==> old(state) != st)
    {
      sent := state != st;
      if sent {
        state := st;
      }
    }

    /** updateWithStatus: a stopped upstream fails the node and changes nothing else. */
    method UpdateWithStatus(st: Status) returns (ok: bool, sent: bool)
      modifies `state, `latestRound, `lastStatus
      ensures ok <==> !st.stopped
      ensures state == if st.stopped then Failed else if st.catchingUp then Syncing else Synced
      ensures sent <==> state != old(state)
      ensures latestRound == if ok then Max(old(latestRound), st.lastRound) else old(latestRound)
      ensures lastStatus == if ok then Some(st) else old(lastStatus)
    {
      if st.stopped {
        sent := SetNodeState(Failed);
        return false, sent;
      }
      if st.catchingUp {
        sent := SetNodeState(Syncing);
      } else {
        sent := SetNodeState(Synced);
      }
      if st.lastRound > latestRound {
        latestRound := st.lastRound;
      }
      lastStatus := Some(st);
      ok := true;
    }
  }

  /** What updateNodeLists reads of one node. */
  datatype Seen = Seen(synced: bool, catchup: bool, rtt: real)

  // ----- the lists a snapshot determines

  /** The synced nodes with the given Catchup flag, in configuration order. */
  function Collect(view: seq<Seen>, catchup: bool): seq<nat> {
    if view == [] then []
    else
      var n := |view| - 1;
      var rest := Collect(view[..n], catchup);
      if view[n].synced && view[n].catchup == catchup then rest + [n] else rest
  }

  function Rtt(view: seq<Seen>, n: nat): real {
    if n < |view| then view[n].rtt else 0.0
  }

  /** Stable sort by RTT: an element goes behind everything that is not slower than it. */
  function SortStable(view: seq<Seen>, ids: seq<nat>): seq<nat> {
    if ids == [] then []
    else InsertByRtt(view, SortStable(view, ids[..|ids| - 1]), ids[|ids| - 1])
  }

  function InsertByRtt(view: seq<Seen>, sorted: seq<nat>, n: nat): (r: seq<nat>)
    ensures multiset(r) == multiset(sorted) + multiset{n}
  {
    if sorted == [] || Rtt(view, sorted[|sorted| - 1]) <= Rtt(view, n) then
      sorted + [n]
    else
      var last := |sorted| - 1;
      assert sorted == sorted[..last] + [sorted[last]];
      InsertByRtt(view, sorted[..last], n) + [sorted[last]]
  }

  /** Faster first; among equally fast nodes, configuration order. */
  predicate Before(view: seq<Seen>, a: nat, b: nat) {
    Rtt(view, a) < Rtt(view, b) || (Rtt(view, a) == Rtt(view, b) && a < b)
  }

  predicate Ordered(view: seq<Seen>, ids: seq<nat>) {
    forall i, j :: 0 <= i < j < |ids| ==> Before(view, ids[i], ids[j])
  }

  lemma {:induction false} CollectSpec(view: seq<Seen>, catchup: bool)
    ensures forall i :: 0 <= i < |Collect(view, catchup)| ==> Collect(view, catchup)[i] < |view|
    ensures forall i, j :: 0 <= i < j < |Collect(view, catchup)| ==> Collect(view, catchup)[i] < Collect(view, catchup)[j]
    ensures forall n: nat :: multiset(Collect(view, catchup))[n] ==
              if n < |view| && view[n].synced && view[n].catchup == catchup then 1 else 0
  {
    if view != [] {
      CollectSpec(view[..|view| - 1], catchup);
    }
  }

  lemma {:induction false} InsertKeepsOrder(view: seq<Seen>, sorted: seq<nat>, n: nat)
    requires Ordered(view, sorted) && forall i :: i in sorted ==> i < n
    ensures Ordered(view, InsertByRtt(view, sorted, n))
  {
    if sorted == [] {
    } else if Rtt(view, sorted[|sorted| - 1]) <= Rtt(view, n) {
      forall i | 0 <= i < |sorted| ensures Before(view, sorted[i], n) {
        assert sorted[i] in sorted;
        assert i < |sorted| - 1 ==> Before(view, sorted[i], sorted[|sorted| - 1]);
      }
    } else {
      var last := |sorted| - 1;
      var rest := InsertByRtt(view, sorted[..last], n);
      assert forall i :: i in sorted[..last] ==> i in sorted;
      InsertKeepsOrder(view, sorted[..last], n);
      forall i | 0 <= i < |rest| ensures Before(view, rest[i], sorted[last]) {
        assert rest[i] in multiset(rest);
        if rest[i] != n {
          assert rest[i] in sorted[..last];
        }
      }
    }
  }

  /** Sorting keeps the nodes, and orders them by RTT with ties in configuration order. */
  lemma {:induction false} SortStableSpec(view: seq<Seen>, ids: seq<nat>)
    requires forall i, j :: 0 <= i < j < |ids| ==> ids[i] < ids[j]
    ensures multiset(SortStable(view, ids)) == multiset(ids)
    ensures Ordered(view, SortStable(view, ids))
  {
    if ids != [] {
      var n := |ids| - 1;
      SortStableSpec(view, ids[..n]);
      assert ids == ids[..n] + [ids[n]];
      var sorted := SortStable(view, ids[..n]);
      forall i | i in sorted ensures i < ids[n] {
        assert i in multiset(sorted);
        assert i in ids[..n];
      }
      InsertKeepsOrder(view, sorted, ids[n]);
    }
  }

  function ListOf(view: seq<Seen>, catchup: bool): seq<nat> {
    SortStable(view, Collect(view, catchup))
  }

  /** For every snapshot: each list is ordered by RTT with ties in configuration order, the two are
      disjoint, and together they name every synced node exactly once and nothing else. */
  lemma ListsPartitionTheSynced(view: seq<Seen>)
    ensures Ordered(view, ListOf(view, true)) && Ordered(view, ListOf(view, false))
    ensures forall n :: n in ListOf(view, true) ==> n !in ListOf(view, false) && n < |view| && view[n].catchup
    ensures forall n: nat :: multiset(ListOf(view, true) + ListOf(view, false))[n] ==
              if n < |view| && view[n].synced then 1 else 0
  {
    CollectSpec(view, true);
    CollectSpec(view, false);
    SortStableSpec(view, Collect(view, true));
    SortStableSpec(view, Collect(view, false));
    forall n | n in ListOf(view, true) ensures n !in ListOf(view, false) && n < |view| && view[n].catchup {
      assert n in multiset(ListOf(view, true));
      assert n !in multiset(ListOf(view, false));
    }
  }

  // ----- the cluster object

  class NodeCluster {
    const nodes: seq<NodeObject>
    var latestRound: U64
    var lastSrc: Option<nat>
    /** The statuses handed to the broadcaster, in order. */
    var broadcasts: seq<Option<Status>>
    var genesis: string
    var catchupNodes: seq<nat>
    var archNodes: seq<nat>

    constructor (nodes: seq<NodeObject>)
      ensures this.nodes == nodes && latestRound == 0 && lastSrc.None? && genesis == ""
      ensures catchupNodes == [] && archNodes == [] && broadcasts == []
    {
      this.nodes := nodes;
      broadcasts := [];
      latestRound, lastSrc, genesis, catchupNodes, archNodes := 0, None, "", [], [];
    }

    /** The first k nodes as updateNodeLists sees them. */
    ghost function View(k: nat): seq<Seen>
      requires k <= |nodes|
      reads nodes
    {
      if k == 0 then []
      else View(k - 1) + [Seen(nodes[k - 1].state.Synced?, nodes[k - 1].catchup, nodes[k - 1].rttEwma)]
    }

    /** SetLatestRound: the tip becomes the maximum, its source changes only with it, and a win, and
        nothing else, broadcasts the winner's last status. */
    method SetLatestRound(lr: U64, node: nat) returns (won: bool)
      requires node < |nodes|
      modifies `latestRound, `lastSrc, `broadcasts
      ensures won <==> lr > old(latestRound)
      ensures latestRound == Max(old(latestRound), lr)
      ensures lastSrc == if won then Some(node) else old(lastSrc)
      ensures broadcasts == old(broadcasts) + if won then [nodes[node].lastStatus] else []
    {
      won := lr > latestRound;
      if won {
        latestRound := lr;
        lastSrc := Some(node);
        broadcasts := broadcasts + [nodes[node].lastStatus];
      }
    }

    /** EnsureGenesis: accepted exactly if it is, or becomes, the one genesis. */
    method EnsureGenesis(g: string) returns (ok: bool)
      modifies `genesis
      ensures ok <==> genesis == g
      ensures old(genesis) != "" ==> genesis == old(genesis)
      ensures old(genesis) == "" ==> genesis == g
    {
      if genesis == "" {
        genesis := g;
        return true;
      }
      return genesis == g;
    }

    /** updateNodeLists over one snapshot. */
    method UpdateNodeLists()
      modifies `catchupNodes, `archNodes
      ensures catchupNodes == ListOf(View(|nodes|), true)
      ensures archNodes == ListOf(View(|nodes|), false)
    {
      var cs: seq<nat>, as': seq<nat> := [], [];
      var rtts: seq<Seen> := [];
      for i := 0 to |nodes|
        invariant rtts == View(i) && |rtts| == i
        invariant cs == Collect(rtts, true) && as' == Collect(rtts, false)
      {
        var n := nodes[i];
        if n.state.Synced? {
          if n.catchup {
            cs := cs + [i];
          } else {
            as' := as' + [i];
          }
        }
        ghost var before := rtts;
        rtts := rtts + [Seen(n.state.Synced?, n.catchup, n.rttEwma)];
        assert rtts[..i] == before;
      }
      catchupNodes := SortStable(rtts, cs);
      archNodes := SortStable(rtts, as');
    }

    /** GetSyncedNodesByRTT: catchup nodes first. */
    method GetSyncedNodesByRTT() returns (all: seq<nat>)
      ensures all == catchupNodes + archNodes
    {
      all := catchupNodes + archNodes;
    }

    /** LoadBlockSync when exactly the nodes in `serving` can serve the round.  It sinks an error itself
        only for a future round.  A round near the tip is asked of the catchup list, then of the archive
        list, any other round of the archive list alone; each list is asked in order, and the asking stops
        at the first node that serves. */
    method LoadBlockSync(round: U64, serving: set<nat>) returns (loaded: bool, asked: seq<nat>, sankError: bool)
      ensures sankError <==> round > latestRound
      ensures round > latestRound ==> !loaded && asked == []
      ensures round <= latestRound ==> (loaded <==>
        || (exists n :: n in archNodes && n in serving)
        || (NearTip(latestRound, round) && exists n :: n in catchupNodes && n in serving))
      ensures NearTip(latestRound, round) ==>
        && |asked| <= |catchupNodes| + |archNodes|
        && (forall i :: 0 <= i < |asked| ==>
              asked[i] == if i < |catchupNodes| then catchupNodes[i] else archNodes[i - |catchupNodes|])
        && (!loaded ==> |asked| == |catchupNodes| + |archNodes|)
      ensures round <= latestRound && !NearTip(latestRound, round) ==>
        && |asked| <= |archNodes| && (forall i :: 0 <= i < |asked| ==> asked[i] == archNodes[i])
        && (!loaded ==> |asked| == |archNodes|)
      ensures loaded ==> asked != [] && asked[|asked| - 1] in serving
      ensures forall i :: 0 <= i < |asked| && asked[i] in serving ==> i == |asked| - 1
    {
      if round > latestRound {
        return false, [], true;
      }
      loaded, asked, sankError := false, [], false;
      NearTipExact(latestRound, round);
      if StartsWithCatchup(latestRound, round) {
        loaded, asked := AskInOrder(catchupNodes, serving);
        if loaded {
          assert asked[|asked| - 1] in catchupNodes;
          return;
        }
      }
      var more;
      loaded, more := AskInOrder(archNodes, serving);
      assert loaded ==> more[|more| - 1] in archNodes;
      asked := asked + more;
    }
  }

  /** One loop of LoadBlockSync over a list of nodes. */
  method AskInOrder(nodes: seq<nat>, serving: set<nat>) returns (loaded: bool, asked: seq<nat>)
    ensures |asked| <= |nodes| && asked == nodes[..|asked|]
    ensures loaded ==> asked != [] && asked[|asked| - 1] in serving
    ensures !loaded ==> asked == nodes && forall n :: n in nodes ==> n !in serving
    ensures forall i :: 0 <= i < |asked| && asked[i] in serving ==> loaded && i == |asked| - 1
  {
    loaded, asked := false, [];
    for i := 0 to |nodes|
      invariant !loaded && asked == nodes[..i] && forall j :: 0 <= j < i ==> nodes[j] !in serving
    {
      asked := asked + [nodes[i]];
      if nodes[i] in serving {
        return true, asked;
      }
    }
  }
}
