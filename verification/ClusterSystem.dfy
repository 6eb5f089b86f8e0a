/**
  The node cluster as a transition system: the boot-monitor-reboot loop of every
  node, the shared tip and genesis, the state-change channel with the monitor
  that rebuilds the node lists one node at a time, and the callers that wait for
  a newer status.  Upstream answers are choices of the environment.
 */
module ClusterSystem {
  import opened Basics

  datatype NodeState = Config | Booting | Syncing | Synced | Failing | Failed

  /** A node status: its LastRound, StoppedAtUnsupportedRound and CatchupTime > 0. */
  datatype Status = Status(lastRound: U64, stopped: bool, catchingUp: bool)

  /** Where a node's main loop is.  `after` is the round a status was asked for, None during boot. */
  datatype Pc =
    | Boot | Reset | Genesis | Ensure | Rejected | Adopt
    | Zero | ZeroSink | Flag
    | AskStatus
    | Apply(st: Status, after: Option<U64>)
    | Record(st: Status, after: Option<U64>)
    | SubmitStatus
    | ReadTip
    | AskAfter(lr: U64)
    | CheckState(lr: U64)
    | CheckTip(lr: U64)
    | FetchNext(r: U64)
    | SinkNext(r: U64)

  /** A Node object.  `sending` is set while setState holds the node lock and sends its token;
      `reported` is the highest LastRound the upstream has answered so far. */
  datatype Node = Node(
    state: NodeState, latestRound: U64, lastStatus: Option<Status>, catchup: bool,
    genesis: string, sending: bool, reported: U64, pc: Pc)

  /** updateNodeLists under way: the next node to read, and the nodes collected so far. */
  datatype Rebuild =
    | Idle
    | ReadSynced(i: nat, catchup: seq<nat>, arch: seq<nat>)
    | ReadCatchup(i: nat, catchup: seq<nat>, arch: seq<nat>)

  /** WaitForStatusAfter(round). */
  datatype Waiter =
    | Starting(round: U64)
    | Listening(round: U64)
    | Answered(round: U64, status: Option<Status>)

  /** `upstream` is the genesis each upstream serves; `wins` the successful SetLatestRound calls;
      `loads` the nodes that some LoadBlockSync has read from the lists for a round. */
  datatype State = State(
    upstream: seq<string>, nodes: seq<Node>,
    latest: U64, lastSrc: Option<nat>, genesis: string,
    tokens: nat, rebuild: Rebuild, catchupNodes: seq<nat>, archNodes: seq<nat>,
    wins: seq<(U64, nat)>, broadcasts: seq<Option<Status>>,
    loads: set<(nat, U64)>, waiters: seq<Waiter>)

  /** Capacity of the cState channel. */
  const TOKENS := 100

  predicate Init(s: State) {
    && |s.nodes| == |s.upstream|
    && (forall n :: 0 <= n < |s.upstream| ==> s.upstream[n] != "")
    && (forall n :: 0 <= n < |s.nodes| ==> s.nodes[n] == Node(Config, 0, None, true, "", false, 0, Boot))
    && s.latest == 0 && s.lastSrc.None? && s.genesis == "" && s.tokens == 0 && s.rebuild.Idle?
    && s.catchupNodes == [] && s.archNodes == [] && s.wins == [] && s.broadcasts == []
    && s.loads == {} && s.waiters == []
  }

  /** setState: nothing if the state is the same, else change it and go on to send a token. */
  function SetState(nd: Node, st: NodeState): Node {
    if nd.state == st then nd else nd.(state := st, sending := true)
  }

  function Put(s: State, n: nat, nd: Node): State
    requires n < |s.nodes|
  {
    s.(nodes := s.nodes[n := nd])
  }

  /** SetLatestRound(round, node n), with the broadcast of that node's last status. */
  function SetLatest(s: State, round: U64, n: nat): State
    requires n < |s.nodes|
  {
    if round > s.latest then
      s.(latest := round, lastSrc := Some(n), wins := s.wins + [(round, n)],
         broadcasts := s.broadcasts + [s.nodes[n].lastStatus])
    else s
  }

  /** Answers of the outside world to one step of a node. */
  datatype Choice = Choice(ok: bool, retry: bool, canceled: bool, st: Status)

  /** An upstream's LastRound never falls. */
  predicate Answerable(nd: Node, st: Status) {
    nd.reported <= st.lastRound
  }

  /** The steps that take the cluster mutex wait for a list rebuild to finish. */
  predicate NodeEnabled(s: State, n: nat, x: Choice) {
    && n < |s.nodes| && n < |s.upstream| && !s.nodes[n].sending
    && (match s.nodes[n].pc
        case Ensure => s.rebuild.Idle?
        case ZeroSink => s.rebuild.Idle?
        case SubmitStatus => s.rebuild.Idle?
        case ReadTip => s.rebuild.Idle?
        case CheckTip(_) => s.rebuild.Idle?
        case SinkNext(_) => s.rebuild.Idle?
        case AskStatus => x.ok ==> Answerable(s.nodes[n], x.st)
        case AskAfter(lr) => x.ok ==> Answerable(s.nodes[n], x.st) && x.st.lastRound > lr
        case _ => true)
  }

  /** The node after its next step, given its upstream's genesis and the cluster's genesis and tip. */
  function NodeNext(nd: Node, x: Choice, upstream: string, genesis: string, latest: U64): Node {
    if Boots(nd.pc) then BootNext(nd, x, upstream, genesis) else StatusNext(nd, x, latest)
  }

  /** Up to its first status the node is in boot. */
  predicate Boots(pc: Pc) {
    || pc.Boot? || pc.Reset? || pc.Genesis? || pc.Ensure? || pc.Rejected? || pc.Adopt?
    || pc.Zero? || pc.ZeroSink? || pc.Flag?
  }

  /** boot. */
  function BootNext(nd: Node, x: Choice, upstream: string, genesis: string): Node
    requires Boots(nd.pc)
  {
    match nd.pc
    case Boot => SetState(nd, Booting).(pc := Reset)
    case Reset => nd.(latestRound := 0, pc := Genesis)
    case Genesis => nd.(pc := if x.ok then Ensure else Genesis)
    case Ensure => nd.(pc := if genesis == "" || genesis == upstream then Adopt else Rejected)
    case Rejected => nd.(pc := Boot)
    case Adopt => nd.(genesis := upstream, pc := Zero)
    case Zero => nd.(pc := if x.ok then ZeroSink else AskStatus)
    case ZeroSink => nd.(pc := Flag)
    case Flag => nd.(catchup := false, pc := AskStatus)
  }

  /** updateStatus, updateStatusAfter and the rest of Monitor. */
  function StatusNext(nd: Node, x: Choice, latest: U64): Node
    requires !Boots(nd.pc)
  {
    match nd.pc
    // updateStatus
    case AskStatus =>
      if x.ok then nd.(reported := x.st.lastRound, pc := Apply(x.st, None)) else SetState(nd, Failing)
    // updateWithStatus
    case Apply(st, after) =>
      if st.stopped then SetState(nd, Failed).(pc := Boot)
      else SetState(nd, if st.catchingUp then Syncing else Synced).(pc := Record(st, after))
    case Record(st, after) =>
      nd.(latestRound := Max(nd.latestRound, st.lastRound), lastStatus := Some(st),
          pc := if after.None? then SubmitStatus else if after.value == 0 then Boot else CheckState(after.value))
    case SubmitStatus => nd.(pc := ReadTip)
    // updateStatusAfter
    case ReadTip => nd.(pc := AskAfter(latest))
    case AskAfter(lr) =>
      if x.ok then nd.(reported := x.st.lastRound, pc := Apply(x.st, Some(lr)))
      else (if x.canceled then nd else SetState(nd, Failing)).(pc := if x.retry then ReadTip else Boot)
    // Monitor
    case CheckState(lr) => nd.(pc := if nd.state.Synced? then CheckTip(lr) else ReadTip)
    case CheckTip(lr) => nd.(pc := if latest < Wrap(lr + 1) then FetchNext(Wrap(lr + 1)) else ReadTip)
    case FetchNext(r) => nd.(pc := if x.ok then SinkNext(r) else Boot)
    case SinkNext(r) => nd.(pc := ReadTip)
  }

  /** The round the node's next step submits to SetLatestRound; 0, which never wins, if none. */
  function Offer(nd: Node): U64 {
    match nd.pc
    case SubmitStatus => nd.latestRound
    case SinkNext(r) => r
    case _ => 0
  }

  /** EnsureGenesis. */
  function Settled(genesis: string, upstream: string): string {
    if genesis == "" then upstream else genesis
  }

  function NodeStep(s: State, n: nat, x: Choice): State
    requires NodeEnabled(s, n, x)
  {
    var nd := s.nodes[n];
    var shared := if nd.pc.Ensure? then s.(genesis := Settled(s.genesis, s.upstream[n])) else SetLatest(s, Offer(nd), n);
    Put(shared, n, NodeNext(nd, x, s.upstream[n], s.genesis, s.latest))
  }

  /** Rest is the step of something outside the cluster. */
  datatype Step =
    | Rest
    | NodeRuns(n: nat, x: Choice)
    | SendToken(n: nat)
    | TakeToken
    | Scan
    | Publish(catchup: seq<nat>, arch: seq<nat>)
    | LoadReadsLists(r: U64)
    | LoadSinks(n: nat, r: U64)
    | StartWait(r: U64)
    | WaiterReads(w: nat)
    | WaiterHears(w: nat, b: nat)
    | WaiterCanceled(w: nat)

  predicate Enabled(s: State, step: Step) {
    match step
    case Rest => true
    case NodeRuns(n, x) => NodeEnabled(s, n, x)
    case SendToken(n) => n < |s.nodes| && s.nodes[n].sending && s.tokens < TOKENS
    case TakeToken => s.tokens > 0 && s.rebuild.Idle?
    case Scan => (
      match s.rebuild
      case Idle => false
      // Synced() takes the node lock
      case ReadSynced(i, _, _) => i < |s.nodes| && !s.nodes[i].sending
      case ReadCatchup(i, _, _) => i < |s.nodes|)
    // the RTT averages move during the sort, so any order of the collected nodes may come out
    case Publish(cs, as') =>
      && s.rebuild.ReadSynced? && s.rebuild.i == |s.nodes|
      && multiset(cs) == multiset(s.rebuild.catchup) && multiset(as') == multiset(s.rebuild.arch)
    case LoadReadsLists(r) => r <= s.latest
    case LoadSinks(n, r) => (n, r) in s.loads && n < |s.nodes| && s.rebuild.Idle?
    case StartWait(r) => true
    case WaiterReads(w) => w < |s.waiters| && s.waiters[w].Starting? && s.rebuild.Idle?
    // a nil status would be dereferenced here
    case WaiterHears(w, b) => w < |s.waiters| && s.waiters[w].Listening? && b < |s.broadcasts|
    case WaiterCanceled(w) => w < |s.waiters| && s.waiters[w].Listening?
  }

  function LastSrcStatus(s: State): Option<Status> {
    if s.lastSrc.Some? && s.lastSrc.value < |s.nodes| then s.nodes[s.lastSrc.value].lastStatus else None
  }

  function Next(s: State, step: Step): State
    requires Enabled(s, step)
  {
    match step
    case Rest => s
    case NodeRuns(n, x) => NodeStep(s, n, x)
    case SendToken(n) => Put(s, n, s.nodes[n].(sending := false)).(tokens := s.tokens + 1)
    case TakeToken => s.(tokens := s.tokens - 1, rebuild := ReadSynced(0, [], []))
    case Scan => (
      match s.rebuild
      case ReadSynced(i, cs, as') =>
        s.(rebuild := if s.nodes[i].state.Synced? then ReadCatchup(i, cs, as') else ReadSynced(i + 1, cs, as'))
      case ReadCatchup(i, cs, as') =>
        s.(rebuild := if s.nodes[i].catchup then ReadSynced(i + 1, cs + [i], as') else ReadSynced(i + 1, cs, as' + [i])))
    case Publish(cs, as') => s.(rebuild := Idle, catchupNodes := cs, archNodes := as')
    case LoadReadsLists(r) =>
      s.(loads := s.loads + (set n | n in s.catchupNodes :: (n, r)) + (set n | n in s.archNodes :: (n, r)))
    case LoadSinks(n, r) => SetLatest(s, r, n)
    case StartWait(r) => s.(waiters := s.waiters + [Starting(r)])
    case WaiterReads(w) =>
      var r := s.waiters[w].round;
      s.(waiters := s.waiters[w :=
        if LastSrcStatus(s).Some? && s.latest > r then Answered(r, LastSrcStatus(s)) else Listening(r)])
    case WaiterHears(w, b) =>
      var r := s.waiters[w].round;
      var st := s.broadcasts[b];
      s.(waiters := s.waiters[w :=
        if st.Some? && st.value.lastRound > r then Answered(r, st) else Listening(r)])
    case WaiterCanceled(w) => s.(waiters := s.waiters[w := Answered(s.waiters[w].round, None)])
  }

  ghost predicate StepAt(ss: seq<State>, steps: seq<Step>, i: nat)
    requires i < |steps| && |ss| == |steps| + 1
  {
    Enabled(ss[i], steps[i]) && ss[i + 1] == Next(ss[i], steps[i])
  }

  ghost predicate IsRun(ss: seq<State>, steps: seq<Step>) {
    && |ss| == |steps| + 1 && Init(ss[0])
    && forall i :: 0 <= i < |steps| ==> StepAt(ss, steps, i)
  }
}
