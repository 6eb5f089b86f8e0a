/** The status a caller is given is always newer than the round it has seen. */
module ClusterStatus {
  import opened Basics
  import opened ClusterSystem

  predicate AtLeast(st: Option<Status>, round: int) {
    st.Some? && st.value.lastRound >= round
  }

  /** From the reset of boot to the first recorded status the node's own latestRound is 0. */
  predicate Fresh(pc: Pc) {
    || pc.Genesis? || pc.Ensure? || pc.Rejected? || pc.Adopt? || pc.Zero? || pc.ZeroSink? || pc.Flag? || pc.AskStatus?
    || (pc.Apply? && pc.after.None?) || (pc.Record? && pc.after.None?)
  }

  predicate NodeOk(nd: Node) {
    && (nd.lastStatus.Some? ==> nd.lastStatus.value.lastRound <= nd.reported)
    && (Fresh(nd.pc) ==> nd.latestRound == 0)
    && (match nd.pc
        case Apply(st, after) => st.lastRound == nd.reported && (after.Some? ==> st.lastRound > after.value)
        case Record(st, after) => st.lastRound == nd.reported && (after.Some? ==> st.lastRound > after.value)
        case SubmitStatus => nd.lastStatus.Some? && nd.lastStatus.value.lastRound == nd.latestRound
        case CheckState(lr) => AtLeast(nd.lastStatus, lr + 1)
        case CheckTip(lr) => AtLeast(nd.lastStatus, lr + 1)
        case FetchNext(r) => AtLeast(nd.lastStatus, r)
        case SinkNext(r) => AtLeast(nd.lastStatus, r)
        case _ => true)
  }

  predicate NodesOk(s: State) {
    forall n :: 0 <= n < |s.nodes| ==> NodeOk(s.nodes[n])
  }

  /** The source of the tip has reported a status that covers the tip. */
  predicate SourceOk(s: State) {
    && (s.latest > 0 ==> s.lastSrc.Some?)
    && (s.lastSrc.Some? ==> s.lastSrc.value < |s.nodes| && AtLeast(s.nodes[s.lastSrc.value].lastStatus, s.latest))
  }

  predicate TipOk(s: State) {
    && |s.broadcasts| == |s.wins|
    && (forall i :: 0 <= i < |s.wins| ==> s.wins[i].0 <= s.latest && AtLeast(s.broadcasts[i], s.wins[i].0))
    && (forall i, j :: 0 <= i < j < |s.wins| ==> s.wins[i].0 < s.wins[j].0)
    && (if s.wins == [] then s.latest == 0 else s.wins[|s.wins| - 1].0 == s.latest)
    && (forall l :: l in s.loads ==> l.1 <= s.latest)
  }

  predicate WaiterOk(w: Waiter) {
    w.Answered? && w.status.Some? ==> w.status.value.lastRound > w.round
  }

  predicate StatusOk(s: State) {
    NodesOk(s) && SourceOk(s) && TipOk(s) && forall i :: 0 <= i < |s.waiters| ==> WaiterOk(s.waiters[i])
  }

  /** A recorded status is never replaced by an older one. */
  predicate Newer(a: Option<Status>, b: Option<Status>) {
    a.Some? ==> AtLeast(b, a.value.lastRound)
  }

  /** A win is covered by the winner's last status. */
  lemma SetLatestKeeps(s: State, round: U64, n: nat)
    requires n < |s.nodes| && SourceOk(s) && TipOk(s)
    requires round > s.latest ==> AtLeast(s.nodes[n].lastStatus, round)
    ensures var t := SetLatest(s, round, n);
      SourceOk(t) && TipOk(t) && t.latest == Max(s.latest, round) && t.nodes == s.nodes && t.waiters == s.waiters
  {
  }

  /** A node never replaces its status by an older one, and what it goes on to submit or to fetch is
      covered by its status. */
  lemma NodeKeepsNodeOk(nd: Node, x: Choice, upstream: string, genesis: string, latest: U64)
    requires NodeOk(nd) && AnswerOk(nd, x)
    ensures var t := NodeNext(nd, x, upstream, genesis, latest); NodeOk(t) && Newer(nd.lastStatus, t.lastStatus)
    ensures Offer(nd) > 0 ==> AtLeast(nd.lastStatus, Offer(nd))
  {
    if Boots(nd.pc) {
      BootKeepsNodeOk(nd, x, upstream, genesis);
    } else if nd.pc.AskStatus? || nd.pc.AskAfter? || nd.pc.Apply? || nd.pc.Record? {
      StatusKeepsNodeOk(nd, x, latest);
    } else {
      MonitorKeepsNodeOk(nd, x, latest);
    }
  }

  predicate AnswerOk(nd: Node, x: Choice) {
    && ((nd.pc.AskStatus? || nd.pc.AskAfter?) && x.ok ==> Answerable(nd, x.st))
    && (nd.pc.AskAfter? && x.ok ==> x.st.lastRound > nd.pc.lr)
  }

  lemma BootKeepsNodeOk(nd: Node, x: Choice, upstream: string, genesis: string)
    requires NodeOk(nd) && Boots(nd.pc)
    ensures var t := BootNext(nd, x, upstream, genesis); NodeOk(t) && t.lastStatus == nd.lastStatus
  {
  }

  lemma StatusKeepsNodeOk(nd: Node, x: Choice, latest: U64)
    requires NodeOk(nd) && AnswerOk(nd, x) && (nd.pc.AskStatus? || nd.pc.AskAfter? || nd.pc.Apply? || nd.pc.Record?)
    ensures var t := StatusNext(nd, x, latest); NodeOk(t) && Newer(nd.lastStatus, t.lastStatus)
  {
  }

  lemma MonitorKeepsNodeOk(nd: Node, x: Choice, latest: U64)
    requires NodeOk(nd) && !Boots(nd.pc) && !(nd.pc.AskStatus? || nd.pc.AskAfter? || nd.pc.Apply? || nd.pc.Record?)
    ensures var t := StatusNext(nd, x, latest); NodeOk(t) && t.lastStatus == nd.lastStatus
  {
  }

  /** A node step is a SetLatestRound, or the one setting of the genesis, then a change of the node. */
  lemma NodeOffers(s: State, n: nat, x: Choice)
    requires NodeEnabled(s, n, x)
    ensures var t := NodeStep(s, n, x); var nd := s.nodes[n];
      && t == SetLatest(s, Offer(nd), n).(nodes := t.nodes, genesis := t.genesis)
      && t.nodes == s.nodes[n := NodeNext(nd, x, s.upstream[n], s.genesis, s.latest)]
  {
  }

  lemma ReplaceNode(s: State, t: State, n: nat)
    requires StatusOk(s) && n < |s.nodes| == |t.nodes|
    requires t == s.(nodes := s.nodes[n := t.nodes[n]], genesis := t.genesis)
    requires NodeOk(t.nodes[n]) && Newer(s.nodes[n].lastStatus, t.nodes[n].lastStatus)
    ensures StatusOk(t)
  {
  }

  lemma NodeKeepsStatusOk(s: State, n: nat, x: Choice)
    requires NodeEnabled(s, n, x) && StatusOk(s)
    ensures StatusOk(NodeStep(s, n, x))
  {
    assert NodeOk(s.nodes[n]);
    NodeKeepsNodeOk(s.nodes[n], x, s.upstream[n], s.genesis, s.latest);
    NodeOffers(s, n, x);
    var t := NodeStep(s, n, x);
    SetLatestKeeps(s, Offer(s.nodes[n]), n);
    ReplaceNode(SetLatest(s, Offer(s.nodes[n]), n), t, n);
  }

  /** Both ways in which a waiter can be answered give a newer status. */
  lemma WaitersKeepStatusOk(s: State, step: Step)
    requires StatusOk(s) && Enabled(s, step)
    requires step.StartWait? || step.WaiterReads? || step.WaiterHears? || step.WaiterCanceled?
    ensures StatusOk(Next(s, step))
  {
    var t := Next(s, step);
    forall i | 0 <= i < |t.waiters| ensures WaiterOk(t.waiters[i]) {
      assert i < |s.waiters| ==> WaiterOk(s.waiters[i]);
    }
    Frame(s, t);
  }

  /** Nothing else in the invariant mentions tokens, lists, rebuilds or waiters. */
  lemma Frame(s: State, t: State)
    requires StatusOk(s) && t.nodes == s.nodes && t.latest == s.latest && t.lastSrc == s.lastSrc
    requires t.wins == s.wins && t.broadcasts == s.broadcasts
    requires forall l :: l in t.loads ==> l in s.loads || l.1 <= s.latest
    requires forall i :: 0 <= i < |t.waiters| ==> WaiterOk(t.waiters[i])
    ensures StatusOk(t)
  {
  }

  lemma SendKeepsStatusOk(s: State, n: nat)
    requires StatusOk(s) && Enabled(s, SendToken(n))
    ensures StatusOk(Next(s, SendToken(n)))
  {
    Frame(s, s.(tokens := s.tokens + 1));
    ReplaceNode(s.(tokens := s.tokens + 1), Next(s, SendToken(n)), n);
  }

  lemma NextKeepsStatusOk(s: State, step: Step)
    requires StatusOk(s) && Enabled(s, step)
    ensures StatusOk(Next(s, step))
  {
    match step
    case Rest =>
    case NodeRuns(n, x) => NodeKeepsStatusOk(s, n, x);
    case LoadSinks(n, r) => SetLatestKeeps(s, r, n);
    case SendToken(n) => SendKeepsStatusOk(s, n);
    case TakeToken => Frame(s, Next(s, step));
    case Scan => Frame(s, Next(s, step));
    case Publish(_, _) => Frame(s, Next(s, step));
    case LoadReadsLists(_) => Frame(s, Next(s, step));
    case _ => WaitersKeepStatusOk(s, step);
  }

  lemma {:induction false} RunStatusOk(ss: seq<State>, steps: seq<Step>, i: nat)
    requires IsRun(ss, steps) && i < |ss|
    ensures StatusOk(ss[i])
  {
    if i > 0 {
      RunStatusOk(ss, steps, i - 1);
      assert StepAt(ss, steps, i - 1);
      NextKeepsStatusOk(ss[i - 1], steps[i - 1]);
    }
  }

  /** WaitForStatusAfter(round) returns nil or a status newer than the round, on either path. */
  lemma WaitReturnsNewerStatus(ss: seq<State>, steps: seq<Step>, i: nat, w: nat)
    requires IsRun(ss, steps) && i < |ss| && w < |ss[i].waiters| && ss[i].waiters[w].Answered?
    ensures ss[i].waiters[w].status.Some? ==> ss[i].waiters[w].status.value.lastRound > ss[i].waiters[w].round
  {
    RunStatusOk(ss, steps, i);
    assert WaiterOk(ss[i].waiters[w]);
  }

  /** The tip only moves up, its source's status covers it, and no broadcast is a nil status or
      older than the win it announces. */
  lemma TipIsCovered(ss: seq<State>, steps: seq<Step>, i: nat)
    requires IsRun(ss, steps) && i < |ss|
    ensures var s := ss[i];
      && (s.latest > 0 ==> s.wins != [] && s.wins[|s.wins| - 1].0 == s.latest)
      && (s.lastSrc.Some? ==> s.lastSrc.value < |s.nodes| && AtLeast(s.nodes[s.lastSrc.value].lastStatus, s.latest))
      && |s.broadcasts| == |s.wins|
      && (forall b :: 0 <= b < |s.broadcasts| ==> AtLeast(s.broadcasts[b], s.wins[b].0))
      && (forall j, k :: 0 <= j < k < |s.wins| ==> s.wins[j].0 < s.wins[k].0)
  {
    RunStatusOk(ss, steps, i);
  }

  /** A booted node submits the round of its first status, so that the tip covers it from then on. */
  lemma BootSubmitsStatus(ss: seq<State>, steps: seq<Step>, i: nat, n: nat)
    requires IsRun(ss, steps) && i < |steps| && steps[i].NodeRuns? && steps[i].n == n
    requires n < |ss[i].nodes| && ss[i].nodes[n].pc.SubmitStatus?
    ensures ss[i].nodes[n].lastStatus.Some? && ss[i + 1].latest >= ss[i].nodes[n].lastStatus.value.lastRound
  {
    RunStatusOk(ss, steps, i);
    assert StepAt(ss, steps, i);
    assert NodeOk(ss[i].nodes[n]);
    NodeOffers(ss[i], n, steps[i].x);
    SetLatestKeeps(ss[i], Offer(ss[i].nodes[n]), n);
  }

  // ----- when a waiter is answered, and with what

  /** The fast path: if the tip is past the round, the answer is at once the status of the tip's source,
      which covers the tip; otherwise the caller goes on to listen. */
  lemma FastPathAnswers(ss: seq<State>, steps: seq<Step>, i: nat, w: nat)
    requires IsRun(ss, steps) && i < |steps| && steps[i] == WaiterReads(w)
    ensures w < |ss[i].waiters| == |ss[i + 1].waiters|
    ensures var s, r := ss[i], ss[i].waiters[w].round;
      if s.latest > r then
        && s.lastSrc.Some? && s.lastSrc.value < |s.nodes|
        && ss[i + 1].waiters[w] == Answered(r, s.nodes[s.lastSrc.value].lastStatus)
        && AtLeast(s.nodes[s.lastSrc.value].lastStatus, s.latest)
      else ss[i + 1].waiters[w] == Listening(r)
  {
    RunStatusOk(ss, steps, i);
    assert StepAt(ss, steps, i);
  }

  /** The broadcast path: a listener that hears the broadcast of a win is answered with the broadcast
      status, which covers that win, or the status is no newer than its round and it listens on. */
  lemma BroadcastAnswers(ss: seq<State>, steps: seq<Step>, i: nat, w: nat, b: nat)
    requires IsRun(ss, steps) && i < |steps| && steps[i] == WaiterHears(w, b)
    ensures w < |ss[i].waiters| == |ss[i + 1].waiters| && b < |ss[i].broadcasts| == |ss[i].wins|
    ensures AtLeast(ss[i].broadcasts[b], ss[i].wins[b].0)
    ensures var st, r := ss[i].broadcasts[b].value, ss[i].waiters[w].round;
      ss[i + 1].waiters[w] == if st.lastRound > r then Answered(r, Some(st)) else Listening(r)
  {
    RunStatusOk(ss, steps, i);
    assert StepAt(ss, steps, i);
    assert AtLeast(ss[i].broadcasts[b], ss[i].wins[b].0);
  }

  /** A caller is given nil only if it was canceled while it listened. */
  lemma {:induction false} NilMeansCanceled(ss: seq<State>, steps: seq<Step>, i: nat, w: nat)
    requires IsRun(ss, steps) && i < |ss| && w < |ss[i].waiters|
    requires ss[i].waiters[w].Answered? && ss[i].waiters[w].status.None?
    ensures exists p :: 0 <= p < i && steps[p] == WaiterCanceled(w)
    decreases i
  {
    assert StepAt(ss, steps, i - 1);
    RunStatusOk(ss, steps, i - 1);
    if steps[i - 1] == WaiterCanceled(w) {
    } else {
      assert w < |ss[i - 1].waiters| && ss[i].waiters[w] == ss[i - 1].waiters[w];
      NilMeansCanceled(ss, steps, i - 1, w);
    }
  }
}
