/**
  The promise cache, its block loader and its readers as one transition system.
  Every goroutine is a task with a program counter; every locked section, LRU
  call or racing read of a shared variable is one atomic step.  Tasks are never
  removed, so their identities are indices and a caller waits for the index of
  the call it made.
 */
module CacheSystem {
  import opened Basics
  import opened CacheModel
  import opened Routing

  // ----- the cluster tip

  /** latestRound, with the history of all submissions and of the winning ones. */
  datatype Tip = Tip(latest: U64, submitted: seq<U64>, wins: seq<U64>)

  /** SetLatestRound. */
  function Submit(tip: Tip, round: U64): Tip {
    if round > tip.latest
    then Tip(round, tip.submitted + [round], tip.wins + [round])
    else tip.(submitted := tip.submitted + [round])
  }

  // ----- tasks

  /** addBlock; started at ALock by UnifiedBlockCache.AddBlock, at APeek by a timed-out reader.  Only
      the holder of the cache lock writes `last`, so AWindow may read it twice in one step. */
  datatype AddPc =
    | ALock | ARoute | AWindow
    | APeek(c: CacheId)
    | ALocked(c: CacheId, e: nat)
    | ALast(c: CacheId)
    | ADone(c: CacheId)

  /** UnifiedBlockCache.PromiseBlock, which holds no lock: PFirst and PWindow are its two reads of `last`. */
  datatype PromisePc =
    | PRoute | PFirst | PWindow
    | PPeek(c: CacheId)
    | PLocked(c: CacheId, e: nat)
    | PSpawn
    | PDone

  /** LoadBlockSync: it reads the tip at LStart and LWindow, and a node list at LCatchup and LArchive;
      `tried` records whether a node has been asked yet. */
  datatype LoadPc =
    | LStart | LWindow
    | LCatchup
    | LArchive(tried: bool)
    | LTry(nodes: seq<nat>, fallback: bool, tried: bool)
    | LAwaitFetch(nodes: seq<nat>, fallback: bool, child: nat)
    | LAwaitSink(child: nat)
    | LDone

  /** fetchBlockRaw with its BlockSink or SinkError. */
  datatype FetchPc =
    | FTry
    | FSubmit(w: BlockWrap)
    | FCheck(c: CacheId, w: BlockWrap)
    | FCheckRead(c: CacheId, e: nat, w: BlockWrap)
    | FMake(w: BlockWrap)
    | FAwait(child: nat, ok: bool)
    | FDone(ok: bool)

  /** UnifiedBlockCache.GetBlock: getBlock calls number 0 and 1 precede the promise, 2 and 3 follow it. */
  datatype ReadPc =
    | Get(k: nat)
    | Read(k: nat, e: nat)
    | Wait(k: nat, e: nat, ch: nat)
    | Reread(k: nat, e: nat)
    | AwaitTimeout(k: nat, child: nat)
    | Ask
    | AwaitPromise(child: nat)
    | Returned(block: Option<BlockWrap>, error: Option<string>)

  datatype Task =
    | Add(w: BlockWrap, apc: AddPc)
    | Promise(round: U64, ppc: PromisePc)
    | Load(round: U64, lpc: LoadPc)
    | Fetch(node: nat, round: U64, fpc: FetchPc)
    | Reader(round: U64, rpc: ReadPc)

  /** `sunk` are the blocks handed to BlockSink, `delivered` those addBlock has stored or offered,
      `sources` the nodes that were ever listed or asked. */
  datatype State = State(
    mem: Mem, tasks: seq<Task>, lock: Option<nat>, tip: Tip,
    catchupNodes: seq<nat>, archNodes: seq<nat>,
    sunk: set<BlockWrap>, delivered: set<BlockWrap>, sources: set<nat>)

  const INIT := State(EMPTY, [], None, Tip(0, [], []), [], [], {}, {}, {})

  function CacheOf(k: nat): CacheId {
    if k % 2 == 0 then Catchup else Archive
  }

  const LEDGER_ERROR := "failed to retrieve information from the ledger"

  // ----- one step of one task

  /** What comes of asking an upstream for a block, retries included: an error, with whether any answer
      came that did not decode, or a block. */
  datatype FetchResult = FetchFailed(error: string, answered: bool) | FetchGot(round: U64, body: nat)

  /** The outside choices a step may depend on. */
  datatype Choice = Choice(victim: U64, fetched: FetchResult, wrapOk: bool, timeout: bool)

  function Set(s: State, t: nat, task: Task): State
    requires t < |s.tasks|
  {
    s.(tasks := s.tasks[t := task])
  }

  /** Task t calls `child` and goes on to `task`. */
  function Call(s: State, t: nat, task: Task, child: Task): State
    requires t < |s.tasks|
  {
    s.(tasks := s.tasks[t := task] + [child])
  }

  function Stored(delivered: set<BlockWrap>, w: BlockWrap): set<BlockWrap> {
    if w.error.None? then delivered + {w} else delivered
  }

  predicate AddEnabled(s: State, w: BlockWrap, pc: AddPc, x: Choice) {
    match pc
    case ALock => s.lock.None?
    case APeek(c) => w.round in s.mem.At(c).items || CanInsert(s.mem.At(c).items, x.victim)
    case ALocked(c, e) => e < |s.mem.entries|
    case ADone(_) => false
    case _ => true
  }

  function AddStep(s: State, t: nat, w: BlockWrap, pc: AddPc, x: Choice): State
    requires t < |s.tasks| && AddEnabled(s, w, pc, x)
  {
    match pc
    case ALock => Set(s, t, Add(w, ARoute)).(lock := Some(t))
    case ARoute =>
      Set(s, t, Add(w, if w.round == 0 || w.round in s.mem.arch.items then APeek(Archive) else AWindow))
    case AWindow =>
      Set(s, t, Add(w, APeek(if InWindow(s.mem.catchup.last, w.round) then Catchup else Archive)))
    case APeek(c) =>
      if w.round in s.mem.At(c).items then Set(s, t, Add(w, ALocked(c, s.mem.At(c).items[w.round])))
      else Set(s, t, Add(w, ALast(c))).(
        mem := AddInsert(s.mem, c, w, x.victim), delivered := Stored(s.delivered, w))
    case ALocked(c, e) =>
      Set(s, t, Add(w, ALast(c))).(mem := Deliver(s.mem, e, w), delivered := Stored(s.delivered, w))
    case ALast(c) =>
      Set(s, t, Add(w, ADone(c))).(
        mem := BumpLast(s.mem, c, w), lock := if s.lock == Some(t) then None else s.lock)
  }

  predicate PromiseEnabled(s: State, round: U64, pc: PromisePc, x: Choice) {
    match pc
    case PPeek(c) => round in s.mem.At(c).items || CanInsert(s.mem.At(c).items, x.victim)
    case PLocked(c, e) => e < |s.mem.entries|
    case PDone => false
    case _ => true
  }

  function PromiseStep(s: State, t: nat, round: U64, pc: PromisePc, x: Choice): State
    requires t < |s.tasks| && PromiseEnabled(s, round, pc, x)
  {
    match pc
    case PRoute =>
      Set(s, t, Promise(round, if round == 0 || round in s.mem.arch.items then PPeek(Archive) else PFirst))
    case PFirst =>
      Set(s, t, Promise(round, if s.mem.catchup.last == 0 then PPeek(Catchup) else PWindow))
    case PWindow =>
      Set(s, t, Promise(round, PPeek(if AboveWindow(s.mem.catchup.last, round) then Catchup else Archive)))
    case PPeek(c) =>
      if round in s.mem.At(c).items then Set(s, t, Promise(round, PLocked(c, s.mem.At(c).items[round])))
      else Set(s, t, Promise(round, PSpawn)).(mem := PromiseInsert(s.mem, c, round, x.victim))
    case PLocked(c, e) => Set(s, t, Promise(round, PSpawn)).(mem := Rearm(s.mem, e))
    case PSpawn => Call(s, t, Promise(round, PDone), Load(round, LStart))
  }

  predicate LoadEnabled(s: State, pc: LoadPc) {
    match pc
    case LAwaitFetch(nodes, fallback, child) =>
      child < |s.tasks| && s.tasks[child].Fetch? && s.tasks[child].fpc.FDone?
    case LAwaitSink(child) => child < |s.tasks| && s.tasks[child].Add? && s.tasks[child].apc.ADone?
    case LDone => false
    case _ => true
  }

  function LoadStep(s: State, t: nat, round: U64, pc: LoadPc): State
    requires t < |s.tasks| && LoadEnabled(s, pc)
  {
    match pc
    case LStart =>
      if round > s.tip.latest
      then Call(s, t, Load(round, LAwaitSink(|s.tasks|)), Add(BlockWrap(round, 0, 0, Some(LEDGER_ERROR)), ALock))
      else Set(s, t, Load(round, LWindow))
    case LWindow =>
      Set(s, t, Load(round, if StartsWithCatchup(s.tip.latest, round) then LCatchup else LArchive(false)))
    case LCatchup => Set(s, t, Load(round, LTry(s.catchupNodes, true, false)))
    case LArchive(tried) => Set(s, t, Load(round, LTry(s.archNodes, false, tried)))
    case LTry(nodes, fallback, tried) =>
      if nodes != [] then
        Call(s, t, Load(round, LAwaitFetch(nodes[1..], fallback, |s.tasks|)), Fetch(nodes[0], round, FTry))
      else Set(s, t, Load(round, if fallback then LArchive(tried) else LDone))
    case LAwaitFetch(nodes, fallback, child) =>
      Set(s, t, Load(round, if s.tasks[child].fpc.ok then LDone else LTry(nodes, fallback, true)))
    case LAwaitSink(child) => Set(s, t, Load(round, LDone))
  }

  predicate FetchEnabled(s: State, pc: FetchPc) {
    match pc
    case FCheckRead(c, e, w) => e < |s.mem.entries|
    case FAwait(child, ok) => child < |s.tasks| && s.tasks[child].Add? && s.tasks[child].apc.ADone?
    case FDone(ok) => false
    case _ => true
  }

  /** isBlockCached asks the catchup cache, then the archive cache, then answers no. */
  function NotCachedIn(c: CacheId, w: BlockWrap): FetchPc {
    if c.Catchup? then FCheck(Archive, w) else FMake(w)
  }

  function FetchStep(s: State, t: nat, node: nat, round: U64, pc: FetchPc, x: Choice): State
    requires t < |s.tasks| && FetchEnabled(s, pc)
  {
    match pc
    case FTry => (
      match x.fetched
      case FetchFailed(error, _) =>
        Call(s, t, Fetch(node, round, FAwait(|s.tasks|, false)), Add(BlockWrap(round, node, 0, Some(error)), ALock))
      case FetchGot(got, body) => Set(s, t, Fetch(node, round, FSubmit(BlockWrap(got, node, body, None)))))
    case FSubmit(w) =>
      Set(s, t, Fetch(node, round, if w.round > s.tip.latest then FMake(w) else FCheck(Catchup, w))).(
        tip := Submit(s.tip, w.round), sunk := s.sunk + {w})
    case FCheck(c, w) =>
      Set(s, t, Fetch(node, round,
        if w.round in s.mem.At(c).items then FCheckRead(c, s.mem.At(c).items[w.round], w) else NotCachedIn(c, w)))
    case FCheckRead(c, e, w) =>
      Set(s, t, Fetch(node, round, if s.mem.entries[e].block.Some? then FDone(true) else NotCachedIn(c, w)))
    case FMake(w) =>
      if x.wrapOk then Call(s, t, Fetch(node, round, FAwait(|s.tasks|, true)), Add(w, ALock))
      else Set(s, t, Fetch(node, round, FDone(true)))
    case FAwait(child, ok) => Set(s, t, Fetch(node, round, FDone(ok)))
  }

  /** What GetBlock does with the (block, error) of its k-th getBlock call. */
  function After(k: nat, block: Option<BlockWrap>, error: Option<string>): ReadPc {
    if k < 2 then
      if block.Some? then Returned(block, None) else if k == 0 then Get(1) else Ask
    else
      if block.Some? || error.Some? then Returned(block, error)
      else if k == 2 then Get(3) else Returned(None, Some("error getting block"))
  }

  predicate ReadEnabled(s: State, pc: ReadPc, x: Choice) {
    match pc
    case Read(k, e) => e < |s.mem.entries|
    case Wait(k, e, ch) => x.timeout || (ch < |s.mem.chans| && s.mem.chans[ch].closed)
    case Reread(k, e) => e < |s.mem.entries|
    case AwaitTimeout(k, child) => child < |s.tasks| && s.tasks[child].Add? && s.tasks[child].apc.ADone?
    case AwaitPromise(child) => child < |s.tasks| && s.tasks[child].Promise? && s.tasks[child].ppc.PDone?
    case Returned(b, err) => false
    case _ => true
  }

  function ReadStep(s: State, t: nat, round: U64, pc: ReadPc, x: Choice): State
    requires t < |s.tasks| && ReadEnabled(s, pc, x)
  {
    match pc
    case Get(k) =>
      var items := s.mem.At(CacheOf(k)).items;
      Set(s, t, Reader(round, if round in items then Read(k, items[round]) else After(k, None, None)))
    case Read(k, e) =>
      var be := s.mem.entries[e];
      Set(s, t, Reader(round,
        if be.error.Some? then After(k, None, be.error)
        else if be.block.Some? then After(k, be.block, None)
        else if be.waitFor.None? then After(k, None, Some("block not scheduled for load"))
        else Wait(k, e, be.waitFor.value)))
    case Wait(k, e, ch) =>
      if x.timeout then
        Call(s, t, Reader(round, AwaitTimeout(k, |s.tasks|)),
             Add(BlockWrap(round, 0, 0, Some("block timeout")), APeek(CacheOf(k))))
      else Set(s, t, Reader(round, Reread(k, e)))
    case Reread(k, e) =>
      var be := s.mem.entries[e];
      Set(s, t, Reader(round, if be.error.Some? then After(k, None, be.error) else After(k, be.block, None)))
    case AwaitTimeout(k, child) => Set(s, t, Reader(round, After(k, None, Some("context done"))))
    case Ask => Call(s, t, Reader(round, AwaitPromise(|s.tasks|)), Promise(round, PRoute))
    case AwaitPromise(child) => Set(s, t, Reader(round, Get(2)))
  }

  // ----- the transition system

  /** Besides task steps, the environment starts reads, promises (the prefetcher) and fetches (boot
      and monitor loops), submits rounds taken from node status, and publishes node lists.  Rest is
      the step of something outside the cache. */
  datatype Step =
    | Rest
    | StartRead(round: U64)
    | StartPromise(round: U64)
    | StartFetch(node: nat, round: U64)
    | SubmitStatus(round: U64)
    | Publish(catchupNodes: seq<nat>, archNodes: seq<nat>)
    | Run(t: nat, x: Choice)

  predicate Enabled(s: State, step: Step) {
    match step
    case Run(t, x) =>
      && t < |s.tasks|
      && (match s.tasks[t]
          case Add(w, pc) => AddEnabled(s, w, pc, x)
          case Promise(round, pc) => PromiseEnabled(s, round, pc, x)
          case Load(round, pc) => LoadEnabled(s, pc)
          case Fetch(node, round, pc) => FetchEnabled(s, pc)
          case Reader(round, pc) => ReadEnabled(s, pc, x))
    case _ => true
  }

  function Next(s: State, step: Step): State
    requires Enabled(s, step)
  {
    match step
    case Rest => s
    case StartRead(round) => s.(tasks := s.tasks + [Reader(round, Get(0))])
    case StartPromise(round) => s.(tasks := s.tasks + [Promise(round, PRoute)])
    case StartFetch(node, round) =>
      s.(tasks := s.tasks + [Fetch(node, round, FTry)], sources := s.sources + {node})
    case SubmitStatus(round) => s.(tip := Submit(s.tip, round))
    case Publish(cs, as') =>
      s.(catchupNodes := cs, archNodes := as', sources := s.sources + (set n | n in cs) + (set n | n in as'))
    case Run(t, x) =>
      match s.tasks[t]
      case Add(w, pc) => AddStep(s, t, w, pc, x)
      case Promise(round, pc) => PromiseStep(s, t, round, pc, x)
      case Load(round, pc) => LoadStep(s, t, round, pc)
      case Fetch(node, round, pc) => FetchStep(s, t, node, round, pc, x)
      case Reader(round, pc) => ReadStep(s, t, round, pc, x)
  }

  ghost predicate StepAt(ss: seq<State>, steps: seq<Step>, i: nat)
    requires i < |steps| && |ss| == |steps| + 1
  {
    Enabled(ss[i], steps[i]) && ss[i + 1] == Next(ss[i], steps[i])
  }

  /** A run: states joined by enabled steps. */
  ghost predicate IsRun(ss: seq<State>, steps: seq<Step>) {
    && |ss| == |steps| + 1
    && forall i :: 0 <= i < |steps| ==> StepAt(ss, steps, i)
  }
}
