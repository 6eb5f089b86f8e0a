/**
  The assumptions under which no promise is forgotten are exact, step by step,
  and each of the two that the program itself can break is broken by a run.
 */
module LoadExact {
  import opened Basics
  import opened CacheModel
  import opened Routing
  import opened CacheSystem
  import opened CacheInvariants
  import opened LoadProgress

  predicate OnlyBound(s: State, t: nat, c: CacheId, round: U64, e: nat) {
    t < |s.tasks| && forall u :: 0 <= u < |s.tasks| && u != t ==> !Bound(s.tasks[u], c, round, e)
  }

  lemma InFlightAmong(s: State, t: nat, n: State, c: CacheId, round: U64, e: nat)
    requires OnlyBound(s, t, c, round, e) && |s.tasks| <= |n.tasks| <= |s.tasks| + 1
    requires forall u :: 0 <= u < |s.tasks| && u != t ==> n.tasks[u] == s.tasks[u]
    ensures InFlight(n, c, round, e) <==> MoverBound(s, n, t, c, round, e)
  {
    if InFlight(n, c, round, e) {
      var u :| 0 <= u < |n.tasks| && Bound(n.tasks[u], c, round, e);
      assert u == t || u == |s.tasks|;
    }
  }

  /** In any state, a load on which alone an entry depends keeps its promise with its next turn exactly
      unless it takes up an empty archive list without having asked a node. */
  lemma LoadKeepsPromiseExactly(s: State, t: nat, x: Choice, c: CacheId, round: U64, e: nat)
    requires OnlyBound(s, t, c, round, e) && Enabled(s, Run(t, x))
    requires s.tasks[t].Load? && Bound(s.tasks[t], c, round, e)
    ensures InFlight(Next(s, Run(t, x)), c, round, e) <==> (s.tasks[t].lpc == LArchive(false) ==> s.archNodes != [])
  {
    InFlightAmong(s, t, Next(s, Run(t, x)), c, round, e);
  }

  /** In any state, a task on which alone an unresolved entry depends keeps it owed or resolves it with
      its next turn exactly if the turn cooperates: a load does not take up an empty archive list without
      having asked a node, addBlock routes to the cache that holds the entry, and a fetch gets, if
      anything, a block of the round, which wraps.  Of a fetch it is assumed that the other cache does
      not hold the round. */
  lemma KeepsPromiseExactly(s: State, t: nat, x: Choice, c: CacheId, round: U64, e: nat)
    requires OnlyBound(s, t, c, round, e) && Enabled(s, Run(t, x))
    requires Bound(s.tasks[t], c, round, e) && Unresolved(s.mem, c, round, e) && !s.tasks[t].Promise?
    requires s.tasks[t].Fetch? ==> round !in s.mem.At(Other(c)).items
    ensures var n := Next(s, Run(t, x));
      (Unresolved(n.mem, c, round, e) ==> InFlight(n, c, round, e)) <==> Cooperative(s, Run(t, x), c, round)
  {
    var n := Next(s, Run(t, x));
    NextKeepsTasks(s, Run(t, x));
    InFlightAmong(s, t, n, c, round, e);
    match s.tasks[t]
    case Add(w, pc) => AddKeepsExactly(s, t, x, c, round, e);
    case Load(r, pc) => LoadKeepsPromiseExactly(s, t, x, c, round, e);
    case Fetch(node, r, pc) => FetchKeepsExactly(s, t, x, c, round, e);
    case _ =>
  }

  lemma AddKeepsExactly(s: State, t: nat, x: Choice, c: CacheId, round: U64, e: nat)
    requires Enabled(s, Run(t, x)) && s.tasks[t].Add? && Bound(s.tasks[t], c, round, e) && Unresolved(s.mem, c, round, e)
    ensures var n := Next(s, Run(t, x));
      (Unresolved(n.mem, c, round, e) ==> MoverBound(s, n, t, c, round, e)) <==> Cooperative(s, Run(t, x), c, round)
  {
  }

  lemma FetchKeepsExactly(s: State, t: nat, x: Choice, c: CacheId, round: U64, e: nat)
    requires Enabled(s, Run(t, x)) && s.tasks[t].Fetch? && Bound(s.tasks[t], c, round, e) && Unresolved(s.mem, c, round, e)
    requires round !in s.mem.At(Other(c)).items
    ensures var n := Next(s, Run(t, x));
      MoverBound(s, n, t, c, round, e) <==> Cooperative(s, Run(t, x), c, round)
  {
  }

  /** A promise stays confined to cache c with its next turn exactly if the turn cooperates: another
      promise of the round would put a second entry into the other cache. */
  lemma PromiseConfinedExactly(s: State, t: nat, x: Choice, c: CacheId, round: U64)
    requires t < |s.tasks| && Enabled(s, Run(t, x)) && s.tasks[t].Promise? && s.tasks[t].round == round
    requires Confined(s.tasks[t], c, round)
    ensures Confined(Next(s, Run(t, x)).tasks[t], c, round) <==> Cooperative(s, Run(t, x), c, round)
  {
  }

  /** Task t takes up to k turns while nothing else moves. */
  function Alone(s: State, t: nat, k: nat): State
    requires t < |s.tasks|
    decreases k
  {
    var step := Run(t, Choice(0, FetchFailed("", false), true, false));
    if k == 0 || !Enabled(s, step) || |Next(s, step).tasks| <= t then s else Alone(Next(s, step), t, k - 1)
  }

  /** A fetch about to look into the other cache, on which alone an entry depends, goes on to deliver its
      block exactly unless it finds a block of the round there. */
  lemma OtherCacheDecides(s: State, t: nat, c: CacheId, round: U64, e: nat)
    requires OnlyBound(s, t, c, round, e) && Bound(s.tasks[t], c, round, e) && MemOk(s.mem)
    requires s.tasks[t].Fetch? && s.tasks[t].fpc.FCheck? && s.tasks[t].fpc.c == Other(c)
    ensures var items := s.mem.At(Other(c)).items;
      if round in items then
        InFlight(Alone(s, t, 2), c, round, e) <==> s.mem.entries[items[round]].block.None?
      else InFlight(Alone(s, t, 1), c, round, e)
  {
    var step := Run(t, Choice(0, FetchFailed("", false), true, false));
    var items := s.mem.At(Other(c)).items;
    assert CacheOk(s.mem, Other(c));
    var n := Next(s, step);
    assert Alone(n, t, 0) == n && Alone(s, t, 1) == n;
    InFlightAmong(s, t, n, c, round, e);
    if round in items {
      var m := Next(n, step);
      assert Alone(m, t, 0) == m && Alone(n, t, 1) == m && Alone(s, t, 2) == m;
      InFlightAmong(s, t, m, c, round, e);
    }
  }

  /** The nodes a load that is about to choose its first list can ask. */
  function Candidates(s: State, round: U64): seq<nat> {
    if StartsWithCatchup(s.tip.latest, round) then s.catchupNodes + s.archNodes else s.archNodes
  }

  /** A load about to choose its first list, on which alone an entry depends, still owes or has passed
      on its result after any number of its turns beyond four exactly if it has a candidate node. */
  lemma CandidatesDecide(s: State, t: nat, c: CacheId, round: U64, e: nat, k: nat)
    requires OnlyBound(s, t, c, round, e) && s.tasks[t] == Load(round, LWindow) && k >= 5
    ensures InFlight(Alone(s, t, k), c, round, e) <==> Candidates(s, round) != []
  {
    if StartsWithCatchup(s.tip.latest, round) {
      var u := s.(tasks := s.tasks[t := Load(round, LTry(s.catchupNodes, true, false))]);
      assert u.tasks == s.tasks[t := Load(round, LCatchup)][t := u.tasks[t]];
      assert Alone(s, t, k) == Alone(u, t, k - 2);
      if s.catchupNodes == [] {
        var v := s.(tasks := s.tasks[t := Load(round, LArchive(false))]);
        assert v.tasks == u.tasks[t := v.tasks[t]];
        assert Alone(u, t, k - 2) == Alone(v, t, k - 3);
        ArchiveDecides(v, t, c, round, e, k - 3);
      } else {
        FirstNodeIsAsked(u, t, c, round, e, k - 2);
      }
    } else {
      var v := s.(tasks := s.tasks[t := Load(round, LArchive(false))]);
      assert Alone(s, t, k) == Alone(v, t, k - 1);
      ArchiveDecides(v, t, c, round, e, k - 1);
    }
  }

  lemma ArchiveDecides(s: State, t: nat, c: CacheId, round: U64, e: nat, k: nat)
    requires OnlyBound(s, t, c, round, e) && s.tasks[t] == Load(round, LArchive(false)) && k >= 2
    ensures InFlight(Alone(s, t, k), c, round, e) <==> s.archNodes != []
  {
    var u := s.(tasks := s.tasks[t := Load(round, LTry(s.archNodes, false, false))]);
    assert Alone(s, t, k) == Alone(u, t, k - 1);
    if s.archNodes == [] {
      var v := s.(tasks := s.tasks[t := Load(round, LDone)]);
      assert v.tasks == u.tasks[t := v.tasks[t]];
      assert Alone(u, t, k - 1) == Alone(v, t, k - 2) == v;
      InFlightAmong(s, t, v, c, round, e);
    } else {
      FirstNodeIsAsked(u, t, c, round, e, k - 1);
    }
  }

  lemma FirstNodeIsAsked(s: State, t: nat, c: CacheId, round: U64, e: nat, k: nat)
    requires t < |s.tasks| && k >= 1 && s.tasks[t].Load? && s.tasks[t].round == round
    requires s.tasks[t].lpc.LTry? && s.tasks[t].lpc.nodes != []
    ensures InFlight(Alone(s, t, k), c, round, e)
  {
    var step := Run(t, Choice(0, FetchFailed("", false), true, false));
    var n := Next(s, step);
    assert Alone(s, t, k) == Alone(n, t, k - 1) == n;
    assert Bound(n.tasks[|s.tasks|], c, round, e);
  }

  /** The promise of round 0 and its load when no node is listed. */
  const STRANDED_STEPS: seq<Step> :=
    var x := Choice(0, FetchFailed("", false), true, false);
    [StartPromise(0), Run(0, x), Run(0, x), Run(0, x), Run(1, x), Run(1, x), Run(1, x), Run(1, x)]

  const STRANDED_MEM :=
    Mem([Entry(0, None, Some(0), None)], [Chan(0, false)], Cache(map[], 0), Cache(map[0 := 0], 0))

  const STRANDED: seq<State> := [
    INIT,
    INIT.(tasks := [Promise(0, PRoute)]),
    INIT.(tasks := [Promise(0, PPeek(Archive))]),
    INIT.(tasks := [Promise(0, PSpawn)], mem := STRANDED_MEM),
    INIT.(tasks := [Promise(0, PDone), Load(0, LStart)], mem := STRANDED_MEM),
    INIT.(tasks := [Promise(0, PDone), Load(0, LWindow)], mem := STRANDED_MEM),
    INIT.(tasks := [Promise(0, PDone), Load(0, LArchive(false))], mem := STRANDED_MEM),
    INIT.(tasks := [Promise(0, PDone), Load(0, LTry([], false, false))], mem := STRANDED_MEM),
    INIT.(tasks := [Promise(0, PDone), Load(0, LDone)], mem := STRANDED_MEM)]

  lemma StrandedRoute()
    ensures StepAt(STRANDED, STRANDED_STEPS, 0) && StepAt(STRANDED, STRANDED_STEPS, 1)
  {
  }

  lemma StrandedPromise()
    ensures StepAt(STRANDED, STRANDED_STEPS, 2) && StepAt(STRANDED, STRANDED_STEPS, 3)
  {
  }

  lemma StrandedChoice()
    ensures StepAt(STRANDED, STRANDED_STEPS, 4) && StepAt(STRANDED, STRANDED_STEPS, 5)
  {
  }

  lemma StrandedLoad()
    ensures StepAt(STRANDED, STRANDED_STEPS, 6) && StepAt(STRANDED, STRANDED_STEPS, 7)
  {
  }

  lemma StrandedRun()
    ensures IsRun(STRANDED, STRANDED_STEPS)
  {
    StrandedRoute();
    StrandedPromise();
    StrandedChoice();
    StrandedLoad();
    forall i | 0 <= i < |STRANDED_STEPS| ensures StepAt(STRANDED, STRANDED_STEPS, i) {
      assert i == 0 || i == 1 || i == 2 || i == 3 || i == 4 || i == 5 || i == 6 || i == 7;
    }
  }

  lemma StrandedCooperates(i: nat)
    requires IsRun(STRANDED, STRANDED_STEPS) && i < 6
    ensures CooperatesAt(STRANDED, STRANDED_STEPS, i, Archive, 0)
  {
    assert StepAt(STRANDED, STRANDED_STEPS, i);
  }

  /** Without a listed node the load ends without delivering anything: the promised entry stays
      unresolved in its cache and no task is left that could resolve it. */
  lemma StrandedWithoutNodes()
    ensures IsRun(STRANDED, STRANDED_STEPS) && STRANDED[0] == INIT
    ensures CooperativeUpTo(STRANDED, STRANDED_STEPS, 6, Archive, 0)
    ensures STRANDED[6].archNodes == [] && !NoneForgotten(STRANDED[8], Archive, 0)
  {
    StrandedRun();
    forall i | 0 <= i < 6 ensures CooperatesAt(STRANDED, STRANDED_STEPS, i, Archive, 0) {
      StrandedCooperates(i);
    }
    assert Unresolved(STRANDED[8].mem, Archive, 0, 0);
  }

  // ----- a delivery that goes to the other cache

  /** Some run from the empty caches, all of whose steps cooperate, ends in this state. */
  ghost predicate Reached(s: State, c: CacheId, round: U64) {
    exists ss, steps ::
      && IsRun(ss, steps) && ss[0] == INIT && ss[|steps|] == s
      && CooperativeUpTo(ss, steps, |steps|, c, round)
  }

  lemma ReachedInit(c: CacheId, round: U64)
    ensures Reached(INIT, c, round)
  {
    assert IsRun([INIT], []);
  }

  lemma ExtendRun(ss: seq<State>, steps: seq<Step>, step: Step, n: State)
    requires IsRun(ss, steps) && Enabled(ss[|steps|], step) && n == Next(ss[|steps|], step)
    ensures IsRun(ss + [n], steps + [step])
  {
    var ss', steps' := ss + [n], steps + [step];
    forall i | 0 <= i < |steps'| ensures StepAt(ss', steps', i) {
      assert i < |steps| ==> StepAt(ss, steps, i);
    }
  }

  lemma ExtendCooperation(ss: seq<State>, steps: seq<Step>, step: Step, n: State, i: nat, c: CacheId, round: U64)
    requires IsRun(ss, steps) && IsRun(ss + [n], steps + [step]) && i < |steps| && CooperatesAt(ss, steps, i, c, round)
    ensures CooperatesAt(ss + [n], steps + [step], i, c, round)
  {
    assert (ss + [n])[i] == ss[i] && (steps + [step])[i] == steps[i];
  }

  lemma ExtendCooperative(ss: seq<State>, steps: seq<Step>, step: Step, n: State, c: CacheId, round: U64)
    requires IsRun(ss, steps) && CooperativeUpTo(ss, steps, |steps|, c, round)
    requires Enabled(ss[|steps|], step) && Cooperative(ss[|steps|], step, c, round) && n == Next(ss[|steps|], step)
    ensures IsRun(ss + [n], steps + [step]) && CooperativeUpTo(ss + [n], steps + [step], |steps| + 1, c, round)
  {
    ExtendRun(ss, steps, step, n);
    var ss', steps' := ss + [n], steps + [step];
    forall i | 0 <= i < |steps'| ensures CooperatesAt(ss', steps', i, c, round) {
      if i < |steps| {
        assert CooperatesAt(ss, steps, i, c, round);
        ExtendCooperation(ss, steps, step, n, i, c, round);
      }
    }
  }

  lemma Go(s: State, step: Step, n: State, c: CacheId, round: U64)
    requires Reached(s, c, round) && Enabled(s, step) && Cooperative(s, step, c, round) && n == Next(s, step)
    ensures Reached(n, c, round)
  {
    var ss, steps :|
      && IsRun(ss, steps) && ss[0] == INIT && ss[|steps|] == s
      && CooperativeUpTo(ss, steps, |steps|, c, round);
    ExtendCooperative(ss, steps, step, n, c, round);
    assert (ss + [n])[0] == INIT && (ss + [n])[|steps + [step]|] == n;
  }

  const NEWEST := BlockWrap(2000, 7, 0, None)
  const OLD := BlockWrap(5, 7, 0, None)

  /** The state with the archive node 7 listed and the given rest. */
  function St(tasks: seq<Task>, mem: Mem, tip: Tip, lock: Option<nat>, sunk: set<BlockWrap>, delivered: set<BlockWrap>): State {
    State(mem, tasks, lock, tip, [], [7], sunk, delivered, {7})
  }

  const TIP := Tip(2000, [2000], [2000])
  const PROMISED := Mem([Entry(5, None, Some(0), None)], [Chan(0, false)], Cache(map[5 := 0], 0), Cache(map[], 0))
  const FILED := PROMISED.(
    entries := PROMISED.entries + [Entry(2000, Some(NEWEST), None, None)],
    catchup := Cache(map[5 := 0, 2000 := 1], 0))
  const MOVED := FILED.(catchup := Cache(map[5 := 0, 2000 := 1], 2000))

  const X := Choice(0, FetchFailed("", false), true, false)
  const FETCHED_NEWEST := Fetch(7, 2000, FAwait(1, true))

  function Early(f: FetchPc): seq<Task> {
    [Fetch(7, 2000, f)]
  }

  /** Node 7 is listed, and the fetch of block 2000 is about to deliver. */
  lemma NewestIsFetched()
    ensures Reached(St([FETCHED_NEWEST, Add(NEWEST, ALock)], EMPTY, TIP, None, {NEWEST}, {}), Catchup, 5)
  {
    var zero := Tip(0, [], []);
    ReachedInit(Catchup, 5);
    Go(INIT, Publish([], [7]), St([], EMPTY, zero, None, {}, {}), Catchup, 5);
    Go(St([], EMPTY, zero, None, {}, {}), StartFetch(7, 2000), St(Early(FTry), EMPTY, zero, None, {}, {}), Catchup, 5);
    Go(St(Early(FTry), EMPTY, zero, None, {}, {}), Run(0, X.(fetched := FetchGot(2000, 0))),
       St(Early(FSubmit(NEWEST)), EMPTY, zero, None, {}, {}), Catchup, 5);
    Go(St(Early(FSubmit(NEWEST)), EMPTY, zero, None, {}, {}), Run(0, X),
       St(Early(FMake(NEWEST)), EMPTY, TIP, None, {NEWEST}, {}), Catchup, 5);
    Go(St(Early(FMake(NEWEST)), EMPTY, TIP, None, {NEWEST}, {}), Run(0, X),
       St([FETCHED_NEWEST, Add(NEWEST, ALock)], EMPTY, TIP, None, {NEWEST}, {}), Catchup, 5);
  }

  function Promising(pc: PromisePc, mem: Mem): State {
    St([FETCHED_NEWEST, Add(NEWEST, ALock), Promise(5, pc)], mem, TIP, None, {NEWEST}, {})
  }

  function Loading(pc: LoadPc): State {
    St([FETCHED_NEWEST, Add(NEWEST, ALock), Promise(5, PDone), Load(5, pc)], PROMISED, TIP, None, {NEWEST}, {})
  }

  /** No block is stored yet, so that round 5 is promised in the catchup cache. */
  lemma OldIsPromised()
    ensures Reached(Loading(LStart), Catchup, 5)
  {
    NewestIsFetched();
    Go(St([FETCHED_NEWEST, Add(NEWEST, ALock)], EMPTY, TIP, None, {NEWEST}, {}), StartPromise(5),
       Promising(PRoute, EMPTY), Catchup, 5);
    Go(Promising(PRoute, EMPTY), Run(2, X), Promising(PFirst, EMPTY), Catchup, 5);
    Go(Promising(PFirst, EMPTY), Run(2, X), Promising(PPeek(Catchup), EMPTY), Catchup, 5);
    Go(Promising(PPeek(Catchup), EMPTY), Run(2, X), Promising(PSpawn, PROMISED), Catchup, 5);
    Go(Promising(PSpawn, PROMISED), Run(2, X), Loading(LStart), Catchup, 5);
  }

  function Loaded(add: AddPc, mem: Mem, lock: Option<nat>, delivered: set<BlockWrap>): State {
    St([FETCHED_NEWEST, Add(NEWEST, add), Promise(5, PDone), Load(5, LAwaitFetch([], false, 4)), Fetch(7, 5, FTry)],
       mem, TIP, lock, {NEWEST}, delivered)
  }

  lemma OldIsLoaded()
    ensures Reached(Loading(LTry([7], false, false)), Catchup, 5)
  {
    OldIsPromised();
    Go(Loading(LStart), Run(3, X), Loading(LWindow), Catchup, 5);
    Go(Loading(LWindow), Run(3, X), Loading(LArchive(false)), Catchup, 5);
    Go(Loading(LArchive(false)), Run(3, X), Loading(LTry([7], false, false)), Catchup, 5);
  }

  /** Its load asks node 7. */
  lemma OldIsAsked()
    ensures Reached(Loaded(ALock, PROMISED, None, {}), Catchup, 5)
  {
    OldIsLoaded();
    var rest: seq<nat> := [7][1..];
    assert rest == [];
    Go(Loading(LTry([7], false, false)), Run(3, X), Loaded(ALock, PROMISED, None, {}), Catchup, 5);
  }

  lemma NewestIsRouted()
    ensures Reached(Loaded(APeek(Catchup), PROMISED, Some(1), {}), Catchup, 5)
  {
    OldIsAsked();
    Go(Loaded(ALock, PROMISED, None, {}), Run(1, X), Loaded(ARoute, PROMISED, Some(1), {}), Catchup, 5);
    Go(Loaded(ARoute, PROMISED, Some(1), {}), Run(1, X), Loaded(AWindow, PROMISED, Some(1), {}), Catchup, 5);
    Go(Loaded(AWindow, PROMISED, Some(1), {}), Run(1, X), Loaded(APeek(Catchup), PROMISED, Some(1), {}), Catchup, 5);
  }

  /** Block 2000 is stored, and the window of the catchup cache leaves round 5 behind. */
  lemma NewestIsStored()
    ensures Reached(Loaded(ADone(Catchup), MOVED, None, {NEWEST}), Catchup, 5)
  {
    NewestIsRouted();
    Go(Loaded(APeek(Catchup), PROMISED, Some(1), {}), Run(1, X), Loaded(ALast(Catchup), FILED, Some(1), {NEWEST}), Catchup, 5);
    Go(Loaded(ALast(Catchup), FILED, Some(1), {NEWEST}), Run(1, X), Loaded(ADone(Catchup), MOVED, None, {NEWEST}), Catchup, 5);
  }

  function Arriving(f: FetchPc): State {
    St([FETCHED_NEWEST, Add(NEWEST, ADone(Catchup)), Promise(5, PDone), Load(5, LAwaitFetch([], false, 4)), Fetch(7, 5, f)],
       MOVED, Tip(2000, [2000, 5], [2000]), None, {NEWEST, OLD}, {NEWEST})
  }

  function Delivering(add: AddPc, lock: Option<nat>): State {
    Arriving(FAwait(5, true)).(tasks := Arriving(FAwait(5, true)).tasks + [Add(OLD, add)], lock := lock)
  }

  lemma OldIsChecked()
    ensures Reached(Arriving(FCheckRead(Catchup, 0, OLD)), Catchup, 5)
  {
    NewestIsStored();
    var got := Arriving(FSubmit(OLD)).(tip := TIP, sunk := {NEWEST});
    Go(Loaded(ADone(Catchup), MOVED, None, {NEWEST}), Run(4, X.(fetched := FetchGot(5, 0))), got, Catchup, 5);
    Go(got, Run(4, X), Arriving(FCheck(Catchup, OLD)), Catchup, 5);
    Go(Arriving(FCheck(Catchup, OLD)), Run(4, X), Arriving(FCheckRead(Catchup, 0, OLD)), Catchup, 5);
  }

  /** Block 5 arrives and is about to be delivered. */
  lemma OldArrives()
    ensures Reached(Delivering(ALock, None), Catchup, 5)
  {
    OldIsChecked();
    Go(Arriving(FCheckRead(Catchup, 0, OLD)), Run(4, X), Arriving(FCheck(Archive, OLD)), Catchup, 5);
    Go(Arriving(FCheck(Archive, OLD)), Run(4, X), Arriving(FMake(OLD)), Catchup, 5);
    Go(Arriving(FMake(OLD)), Run(4, X), Delivering(ALock, None), Catchup, 5);
  }

  /** A run in which all goes well until addBlock routes block 5 to the archive cache, because the window
      has moved on since the promise: the promised entry stays unresolved in the catchup cache and no
      task is left that could resolve it. */
  lemma StrandedByRouting() returns (s: State, n: State)
    ensures Reached(s, Catchup, 5) && Enabled(s, Run(5, X)) && n == Next(s, Run(5, X))
    ensures Route(s.mem, 5) == Archive && !Cooperative(s, Run(5, X), Catchup, 5)
    ensures Unresolved(n.mem, Catchup, 5, 0) && !InFlight(n, Catchup, 5, 0)
  {
    OldArrives();
    Go(Delivering(ALock, None), Run(5, X), Delivering(ARoute, Some(5)), Catchup, 5);
    Go(Delivering(ARoute, Some(5)), Run(5, X), Delivering(AWindow, Some(5)), Catchup, 5);
    s, n := Delivering(AWindow, Some(5)), Delivering(APeek(Archive), Some(5));
  }
}
