/**
  A block that is in the cache its round routes to is what GetBlock returns,
  even when an older failure is still recorded beside it.
 */
module ResidentReads {
  import opened Basics
  import opened CacheModel
  import opened Routing
  import opened CacheSystem
  import opened CacheInvariants
  import opened LoadDelivery

  /** Cache c, to which the round routes, holds entry e with block b; the other cache has no entry. */
  predicate Holds(m: Mem, c: CacheId, round: U64, e: nat, b: BlockWrap) {
    && Route(m, round) == c
    && round in m.At(c).items && m.At(c).items[round] == e && e < |m.entries|
    && m.entries[e].block == Some(b)
    && round !in m.At(Other(c)).items
  }

  predicate PromiseOnTrack(m: Mem, c: CacheId, e: nat, pc: PromisePc) {
    e < |m.entries| &&
    match pc
    case PRoute => true
    case PFirst => c == Catchup
    case PWindow => c == Catchup && m.catchup.last != 0
    case PPeek(d) => d == c
    case PLocked(d, f) => f == e
    case _ => m.entries[e].error.None?
  }

  /** How far a reader can have come while the block is held: it has not failed, and once its
      promise is made the old error is gone. */
  predicate OnTrack(s: State, t: nat, c: CacheId, round: U64, e: nat, b: BlockWrap)
  {
    && e < |s.mem.entries|
    && t < |s.tasks| && s.tasks[t].Reader? && s.tasks[t].round == round
    && (match s.tasks[t].rpc
        case Get(k) => k < 2 || (s.mem.entries[e].error.None? && (k == 2 || (k == 3 && c == Archive)))
        case Read(k, f) => k < 4 && f == e && (k >= 2 ==> s.mem.entries[e].error.None?)
        case Ask => true
        case AwaitPromise(child) =>
          && child < |s.tasks| && s.tasks[child].Promise? && s.tasks[child].round == round
          && PromiseOnTrack(s.mem, c, e, s.tasks[child].ppc)
        case Returned(block, error) => block == Some(b) && error.None?
        case _ => false)
  }

  lemma PromiseStaysOnTrack(s: State, step: Step, c: CacheId, round: U64, e: nat, b: BlockWrap, p: nat)
    requires Enabled(s, step) && Moves(step, p) && s.tasks[p].Promise? && s.tasks[p].round == round
    requires Holds(s.mem, c, round, e, b) && PromiseOnTrack(s.mem, c, e, s.tasks[p].ppc)
    ensures PromiseOnTrack(Next(s, step).mem, c, e, Next(s, step).tasks[p].ppc)
  {
  }

  lemma ReaderStaysOnTrack(s: State, step: Step, c: CacheId, round: U64, e: nat, b: BlockWrap, t: nat)
    requires Enabled(s, step) && Moves(step, t)
    requires Holds(s.mem, c, round, e, b) && OnTrack(s, t, c, round, e, b)
    ensures Next(s, step).mem == s.mem && OnTrack(Next(s, step), t, c, round, e, b)
  {
  }

  lemma NextStaysOnTrack(s: State, step: Step, c: CacheId, round: U64, e: nat, b: BlockWrap, t: nat)
    requires Enabled(s, step) && t < |s.tasks|
    requires step.Run? ==> TaskOk(s, s.tasks[step.t])
    requires Holds(s.mem, c, round, e, b) && OnTrack(s, t, c, round, e, b)
    ensures OnTrack(Next(s, step), t, c, round, e, b)
  {
    if Moves(step, t) {
      ReaderStaysOnTrack(s, step, c, round, e, b, t);
    } else {
      NextKeepsTasks(s, step);
      NextPerforms(s, step);
      PerformKeepsHistory(s.mem, OpOf(s, step));
      assert EntryStep(s.mem.entries[e], Next(s, step).mem.entries[e]);
      var pc := s.tasks[t].rpc;
      if pc.AwaitPromise? && Moves(step, pc.child) {
        PromiseStaysOnTrack(s, step, c, round, e, b, pc.child);
      }
    }
  }

  lemma RunStaysOnTrack(ss: seq<State>, steps: seq<Step>, i: nat,
                        c: CacheId, round: U64, e: nat, b: BlockWrap, t: nat)
    requires IsRun(ss, steps) && ss[0] == INIT && i < |steps|
    requires Holds(ss[i].mem, c, round, e, b) && OnTrack(ss[i], t, c, round, e, b)
    ensures OnTrack(ss[i + 1], t, c, round, e, b)
  {
    RunOk(ss, steps, i);
    assert StepAt(ss, steps, i);
    assert steps[i].Run? ==> TaskOk(ss[i], ss[i].tasks[steps[i].t]);
    NextStaysOnTrack(ss[i], steps[i], c, round, e, b, t);
  }

  /** A read that starts at step i and runs while the block is held, under any interleaving, has at
      step j either returned exactly that block or not returned yet. */
  lemma {:induction false} HeldBlockIsReturned(ss: seq<State>, steps: seq<Step>, i: nat, j: nat, t: nat,
                                               c: CacheId, round: U64, e: nat, b: BlockWrap)
    requires IsRun(ss, steps) && ss[0] == INIT && i <= j < |ss|
    requires t < |ss[i].tasks| && ss[i].tasks[t] == Reader(round, Get(0))
    requires forall k {:trigger Holds(ss[k].mem, c, round, e, b)} :: i <= k <= j ==> Holds(ss[k].mem, c, round, e, b)
    ensures OnTrack(ss[j], t, c, round, e, b)
    ensures ss[j].tasks[t].rpc.Returned? ==> ss[j].tasks[t].rpc == Returned(Some(b), None)
    decreases j
  {
    assert Holds(ss[j].mem, c, round, e, b);
    if i < j {
      HeldBlockIsReturned(ss, steps, i, j - 1, t, c, round, e, b);
      assert Holds(ss[j - 1].mem, c, round, e, b);
      RunStaysOnTrack(ss, steps, j - 1, c, round, e, b, t);
    }
  }

  // ----- such a read also comes to its end

  function PromiseRank(pc: PromisePc): nat {
    match pc
    case PRoute => 6 case PFirst => 5 case PWindow => 4 case PPeek(_) => 3 case PLocked(_, _) => 2 case PSpawn => 1 case PDone => 0
  }

  /** An upper bound on the turns of the reader and of the promise it waits for. */
  function ReadRank(s: State, t: nat): nat {
    if t >= |s.tasks| || !s.tasks[t].Reader? then 0 else
    match s.tasks[t].rpc
    case Get(k) => if k == 0 then 16 else if k == 1 then 14 else if k == 2 then 4 else 2
    case Read(k, _) => if k == 0 then 15 else if k == 1 then 13 else if k == 2 then 3 else 1
    case Ask => 12
    case AwaitPromise(p) => 5 + if p < |s.tasks| && s.tasks[p].Promise? then PromiseRank(s.tasks[p].ppc) else 0
    case _ => 0
  }

  /** The step is a turn of the reader or of the promise it waits for. */
  predicate Serves(s: State, step: Step, t: nat)
    requires t < |s.tasks|
  {
    Moves(step, t) || (s.tasks[t].Reader? && s.tasks[t].rpc.AwaitPromise? && Moves(step, s.tasks[t].rpc.child))
  }

  lemma ReadRankFalls(s: State, step: Step, c: CacheId, round: U64, e: nat, b: BlockWrap, t: nat)
    requires Enabled(s, step)
    requires Holds(s.mem, c, round, e, b) && OnTrack(s, t, c, round, e, b)
    ensures ReadRank(Next(s, step), t) + (if Serves(s, step, t) then 1 else 0) <= ReadRank(s, t)
  {
    NextKeepsTasks(s, step);
  }

  /** How many of the steps from i to j served the reader. */
  function Served(ss: seq<State>, steps: seq<Step>, i: nat, j: nat, t: nat): nat
    requires |ss| == |steps| + 1 && i <= j < |ss|
    decreases j
  {
    if i == j then 0
    else Served(ss, steps, i, j - 1, t) + if t < |ss[j - 1].tasks| && Serves(ss[j - 1], steps[j - 1], t) then 1 else 0
  }

  lemma {:induction false} HeldReadIsBounded(ss: seq<State>, steps: seq<Step>, i: nat, j: nat, t: nat,
                                             c: CacheId, round: U64, e: nat, b: BlockWrap)
    requires IsRun(ss, steps) && ss[0] == INIT && i <= j < |ss|
    requires t < |ss[i].tasks| && ss[i].tasks[t] == Reader(round, Get(0))
    requires forall k {:trigger Holds(ss[k].mem, c, round, e, b)} :: i <= k <= j ==> Holds(ss[k].mem, c, round, e, b)
    ensures Served(ss, steps, i, j, t) + ReadRank(ss[j], t) <= 16
    decreases j
  {
    if i < j {
      assert Holds(ss[j - 1].mem, c, round, e, b);
      HeldReadIsBounded(ss, steps, i, j - 1, t, c, round, e, b);
      HeldBlockIsReturned(ss, steps, i, j - 1, t, c, round, e, b);
      assert StepAt(ss, steps, j - 1);
      ReadRankFalls(ss[j - 1], steps[j - 1], c, round, e, b, t);
    }
  }

  /** A read of a held block is served at most 16 times; with 16 it has returned the block, and until
      it has returned the reader, or the promise it waits for, can take a turn at once. */
  lemma HeldReadEnds(ss: seq<State>, steps: seq<Step>, i: nat, j: nat, t: nat,
                     c: CacheId, round: U64, e: nat, b: BlockWrap)
    requires IsRun(ss, steps) && ss[0] == INIT && i <= j < |ss|
    requires t < |ss[i].tasks| && ss[i].tasks[t] == Reader(round, Get(0))
    requires forall k {:trigger Holds(ss[k].mem, c, round, e, b)} :: i <= k <= j ==> Holds(ss[k].mem, c, round, e, b)
    ensures Served(ss, steps, i, j, t) <= 16
    ensures t < |ss[j].tasks| && ss[j].tasks[t].Reader?
    ensures Served(ss, steps, i, j, t) == 16 ==> ss[j].tasks[t].rpc == Returned(Some(b), None)
    ensures var pc := ss[j].tasks[t].rpc;
      pc == Returned(Some(b), None) || CanRun(ss[j], t) || (pc.AwaitPromise? && CanRun(ss[j], pc.child))
  {
    HeldReadIsBounded(ss, steps, i, j, t, c, round, e, b);
    HeldBlockIsReturned(ss, steps, i, j, t, c, round, e, b);
    RunOk(ss, steps, j);
    ReaderCanGoOn(ss[j], t, c, round, e, b);
  }

  lemma ReaderCanGoOn(s: State, t: nat, c: CacheId, round: U64, e: nat, b: BlockWrap)
    requires OnTrack(s, t, c, round, e, b)
    requires forall u :: 0 <= u < |s.tasks| ==> TaskOk(s, s.tasks[u])
    ensures var pc := s.tasks[t].rpc;
      pc == Returned(Some(b), None) || CanRun(s, t) || (pc.AwaitPromise? && CanRun(s, pc.child))
  {
    var pc := s.tasks[t].rpc;
    if pc.AwaitPromise? && !s.tasks[pc.child].ppc.PDone? {
      PromiseCanRun(s, pc.child);
    } else if !pc.Returned? {
      assert Enabled(s, Run(t, Choice(0, FetchFailed("", false), true, false)));
    }
  }
}
