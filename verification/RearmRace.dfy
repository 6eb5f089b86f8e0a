/**
  The danger of re-arming that promiseBlock warns of: a run in which GetBlock
  fails although its context is not done and nobody has reported that failure.
 */
module RearmRace {
  import opened Basics
  import opened CacheModel
  import opened CacheSystem
  import opened CacheOutcomes
  import opened ReadOutcomes
  import LoadExact

  /** Some run from the empty caches ends in this state. */
  ghost predicate Reached(s: State) {
    exists ss, steps :: IsRun(ss, steps) && ss[0] == INIT && ss[|steps|] == s
  }

  lemma Go(s: State, step: Step, n: State)
    requires Reached(s) && Enabled(s, step) && n == Next(s, step)
    ensures Reached(n)
  {
    var ss, steps :| IsRun(ss, steps) && ss[0] == INIT && ss[|steps|] == s;
    LoadExact.ExtendRun(ss, steps, step, n);
    assert (ss + [n])[0] == INIT && (ss + [n])[|steps + [step]|] == n;
  }

  const X := Choice(0, FetchFailed("", false), true, false)
  const LATE := BlockWrap(5, 0, 0, Some(LEDGER_ERROR))
  const PROMISED := Mem([Entry(5, None, Some(0), None)], [Chan(0, false)], Cache(map[5 := 0], 0), Cache(map[], 0))
  const FAILED := PROMISED.(entries := [Entry(5, None, None, Some(LEDGER_ERROR))], chans := [Chan(0, true)])
  const REARMED := PROMISED.(entries := [Entry(5, None, Some(1), None)], chans := [Chan(0, true), Chan(0, false)])

  /** The state without listed nodes and with the given tasks, memory and cache lock. */
  function St(tasks: seq<Task>, mem: Mem, lock: Option<nat>): State {
    INIT.(tasks := tasks, mem := mem, lock := lock)
  }

  /** A reader of round 5 finds nothing and promises the round. */
  lemma Promises()
    ensures Reached(St([Reader(5, AwaitPromise(1)), Promise(5, PPeek(Catchup))], EMPTY, None))
  {
    assert IsRun([INIT], []);
    Go(INIT, StartRead(5), St([Reader(5, Get(0))], EMPTY, None));
    Go(St([Reader(5, Get(0))], EMPTY, None), Run(0, X), St([Reader(5, Get(1))], EMPTY, None));
    Go(St([Reader(5, Get(1))], EMPTY, None), Run(0, X), St([Reader(5, Ask)], EMPTY, None));
    var r := Reader(5, AwaitPromise(1));
    Go(St([Reader(5, Ask)], EMPTY, None), Run(0, X), St([r, Promise(5, PRoute)], EMPTY, None));
    Go(St([r, Promise(5, PRoute)], EMPTY, None), Run(1, X), St([r, Promise(5, PFirst)], EMPTY, None));
    Go(St([r, Promise(5, PFirst)], EMPTY, None), Run(1, X), St([r, Promise(5, PPeek(Catchup))], EMPTY, None));
  }

  function Rest(r: ReadPc, l: LoadPc): seq<Task> {
    [Reader(5, r), Promise(5, PDone), Load(5, l)]
  }

  /** It waits for the entry it has promised. */
  lemma Waits()
    ensures Reached(St(Rest(Wait(2, 0, 0), LStart), PROMISED, None))
  {
    Promises();
    var r := Reader(5, AwaitPromise(1));
    Go(St([r, Promise(5, PPeek(Catchup))], EMPTY, None), Run(1, X), St([r, Promise(5, PSpawn)], PROMISED, None));
    Go(St([r, Promise(5, PSpawn)], PROMISED, None), Run(1, X), St(Rest(AwaitPromise(1), LStart), PROMISED, None));
    Go(St(Rest(AwaitPromise(1), LStart), PROMISED, None), Run(0, X), St(Rest(Get(2), LStart), PROMISED, None));
    Go(St(Rest(Get(2), LStart), PROMISED, None), Run(0, X), St(Rest(Read(2, 0), LStart), PROMISED, None));
    Go(St(Rest(Read(2, 0), LStart), PROMISED, None), Run(0, X), St(Rest(Wait(2, 0, 0), LStart), PROMISED, None));
  }

  function Told(r: ReadPc, a: AddPc): seq<Task> {
    Rest(r, LAwaitSink(3)) + [Add(LATE, a)]
  }

  /** The load reports that the round is beyond the tip. */
  lemma IsTold()
    ensures Reached(St(Told(Wait(2, 0, 0), ALocked(Catchup, 0)), PROMISED, Some(3)))
  {
    Waits();
    var r := Wait(2, 0, 0);
    Go(St(Rest(r, LStart), PROMISED, None), Run(2, X), St(Told(r, ALock), PROMISED, None));
    Go(St(Told(r, ALock), PROMISED, None), Run(3, X), St(Told(r, ARoute), PROMISED, Some(3)));
    Go(St(Told(r, ARoute), PROMISED, Some(3)), Run(3, X), St(Told(r, AWindow), PROMISED, Some(3)));
    Go(St(Told(r, AWindow), PROMISED, Some(3)), Run(3, X), St(Told(r, APeek(Catchup)), PROMISED, Some(3)));
    Go(St(Told(r, APeek(Catchup)), PROMISED, Some(3)), Run(3, X), St(Told(r, ALocked(Catchup, 0)), PROMISED, Some(3)));
  }

  function Again(r: ReadPc, p: PromisePc): seq<Task> {
    Told(r, ALast(Catchup)) + [Promise(5, p)]
  }

  /** The reader wakes, and before it reads the entry again another caller promises the round. */
  lemma Wakes()
    ensures Reached(St(Again(Reread(2, 0), PPeek(Catchup)), FAILED, Some(3)))
  {
    IsTold();
    var r := Reread(2, 0);
    var told := Told(r, ALast(Catchup));
    Go(St(Told(Wait(2, 0, 0), ALocked(Catchup, 0)), PROMISED, Some(3)), Run(3, X),
       St(Told(Wait(2, 0, 0), ALast(Catchup)), FAILED, Some(3)));
    Go(St(Told(Wait(2, 0, 0), ALast(Catchup)), FAILED, Some(3)), Run(0, X), St(told, FAILED, Some(3)));
    Go(St(told, FAILED, Some(3)), StartPromise(5), St(Again(r, PRoute), FAILED, Some(3)));
    Go(St(Again(r, PRoute), FAILED, Some(3)), Run(4, X), St(Again(r, PFirst), FAILED, Some(3)));
    Go(St(Again(r, PFirst), FAILED, Some(3)), Run(4, X), St(Again(r, PPeek(Catchup)), FAILED, Some(3)));
  }

  /** Its entry is pending again, and its last look is into the other cache. */
  lemma FindsNothingTwice()
    ensures Reached(St(Again(Returned(None, Some(NO_BLOCK)), PSpawn), REARMED, Some(3)))
  {
    Wakes();
    var r := Reread(2, 0);
    var l := Some(3);
    Go(St(Again(r, PPeek(Catchup)), FAILED, l), Run(4, X), St(Again(r, PLocked(Catchup, 0)), FAILED, l));
    Go(St(Again(r, PLocked(Catchup, 0)), FAILED, l), Run(4, X), St(Again(r, PSpawn), REARMED, l));
    Go(St(Again(r, PSpawn), REARMED, l), Run(0, X), St(Again(Get(3), PSpawn), REARMED, l));
    Go(St(Again(Get(3), PSpawn), REARMED, l), Run(0, X), St(Again(Returned(None, Some(NO_BLOCK)), PSpawn), REARMED, l));
  }

  /** The reader has returned exactly what the entry has: its error, or else its block. */
  predicate ReturnsResultOf(pc: ReadPc, be: Entry) {
    && !be.Pending()
    && pc == if be.error.Some? then Returned(None, be.error) else Returned(be.block, None)
  }

  /** In every reachable state, a reader that is awake in one of its last two looks returns what its entry
      has with its next turn exactly if the entry has not been re-armed without a result meanwhile. */
  lemma RereadExact(ss: seq<State>, steps: seq<Step>, i: nat, t: nat)
    requires IsRun(ss, steps) && ss[0] == INIT && i < |steps| && steps[i].Run? && steps[i].t == t && IsReader(ss[i], t)
    requires ss[i].tasks[t].rpc.Reread? && ss[i].tasks[t].rpc.k >= 2
    ensures IsReader(ss[i + 1], t) && ss[i].tasks[t].rpc.e < |ss[i].mem.entries|
    ensures var be := ss[i].mem.entries[ss[i].tasks[t].rpc.e];
      ReturnsResultOf(ss[i + 1].tasks[t].rpc, be) <==> !be.Pending()
  {
    assert StepAt(ss, steps, i);
  }

  /** There is a run in which GetBlock(5) fails with an error that no addBlock call has delivered, although
      its context is not done and the cache holds a promised entry for the round: the failure it was woken
      for was taken back by a re-arm. */
  lemma RearmHidesTheResult()
    ensures exists s, t: nat ::
      && Reached(s) && IsReader(s, t) && s.tasks[t] == Reader(5, Returned(None, Some(NO_BLOCK)))
      && !Reported(s, 5, NO_BLOCK) && 5 in s.mem.catchup.items && Live(s.mem, s.mem.catchup.items[5])
  {
    FindsNothingTwice();
    var s := St(Again(Returned(None, Some(NO_BLOCK)), PSpawn), REARMED, Some(3));
    assert IsReader(s, 0);
    forall u: nat ensures !Reports(s, u, 5, NO_BLOCK) {
      assert u < |s.tasks| && s.tasks[u].Add? ==> u == 3;
    }
  }
}
