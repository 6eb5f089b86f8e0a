/**
  How fetches and loads end: a fetch reports what its upstream answered, and a
  load asks the listed nodes one after another until one has served it.
 */
module LoadOutcomes {
  import opened Basics
  import opened CacheModel
  import opened Routing
  import opened CacheSystem
  import opened CacheInvariants
  import opened CacheTheorems
  import opened CacheOutcomes
  import opened ReadOutcomes

  // ----- fetchBlockRaw

  predicate IsFetch(s: State, f: nat, node: nat, round: U64) {
    f < |s.tasks| && s.tasks[f].Fetch? && s.tasks[f].node == node && s.tasks[f].round == round
  }

  /** The upstream answered fetch f in this way. */
  ghost predicate Answered(ss: seq<State>, steps: seq<Step>, p: nat, f: nat, answer: FetchResult)
    requires IsRun(ss, steps) && p < |steps|
  {
    Moves(steps[p], f) && f < |ss[p].tasks| && ss[p].tasks[f].Fetch? && ss[p].tasks[f].fpc.FTry? && steps[p].x.fetched == answer
  }

  ghost predicate AnsweredBefore(ss: seq<State>, steps: seq<Step>, i: nat, f: nat, answer: FetchResult)
    requires IsRun(ss, steps) && i < |ss|
  {
    exists p :: 0 <= p < i && Answered(ss, steps, p, f, answer)
  }

  /** The block that fetch f got could not be wrapped. */
  ghost predicate Unwrapped(ss: seq<State>, steps: seq<Step>, p: nat, f: nat)
    requires IsRun(ss, steps) && p < |steps|
  {
    Moves(steps[p], f) && f < |ss[p].tasks| && ss[p].tasks[f].Fetch? && ss[p].tasks[f].fpc.FMake? && !steps[p].x.wrapOk
  }

  ghost predicate UnwrappedBefore(ss: seq<State>, steps: seq<Step>, i: nat, f: nat)
    requires IsRun(ss, steps) && i < |ss|
  {
    exists p :: 0 <= p < i && Unwrapped(ss, steps, p, f)
  }

  lemma HistoryGrows(ss: seq<State>, steps: seq<Step>, i: nat, f: nat, answer: FetchResult)
    requires IsRun(ss, steps) && i < |steps|
    ensures AnsweredBefore(ss, steps, i, f, answer) || Answered(ss, steps, i, f, answer) ==>
              AnsweredBefore(ss, steps, i + 1, f, answer)
    ensures UnwrappedBefore(ss, steps, i, f) || Unwrapped(ss, steps, i, f) ==> UnwrappedBefore(ss, steps, i + 1, f)
  {
    if AnsweredBefore(ss, steps, i, f, answer) {
      var p :| 0 <= p < i && Answered(ss, steps, p, f, answer);
    }
    if UnwrappedBefore(ss, steps, i, f) {
      var p :| 0 <= p < i && Unwrapped(ss, steps, p, f);
    }
  }

  /** Some entry of the round has been given a block. */
  ghost predicate Stored(m: Mem, round: U64) {
    exists e: nat :: HasRound(m, e, round) && m.entries[e].block.Some?
  }

  lemma StoredStays(s: State, step: Step, round: U64)
    requires StateOk(s) && Enabled(s, step) && Stored(s.mem, round)
    ensures Stored(Next(s, step).mem, round)
  {
    var e: nat :| HasRound(s.mem, e, round) && s.mem.entries[e].block.Some?;
    StepKeepsEntry(s, step, e);
    assert HasRound(Next(s, step).mem, e, round);
  }

  /** The block that the upstream's answer gives the fetch. */
  function GotBlock(node: nat, answer: FetchResult): BlockWrap
    requires answer.FetchGot?
  {
    BlockWrap(answer.round, node, answer.body, None)
  }

  /** What a fetch has to show for the upstream's answer: it holds the block until it is sunk, has
      sunk it, or has reported the error. */
  ghost predicate Account(ss: seq<State>, steps: seq<Step>, i: nat, f: nat, answer: FetchResult)
    requires IsRun(ss, steps) && i < |ss| && f < |ss[i].tasks| && ss[i].tasks[f].Fetch?
  {
    var s := ss[i];
    var node, round, pc := s.tasks[f].node, s.tasks[f].round, s.tasks[f].fpc;
    match pc
    case FTry => false
    case FSubmit(w) => answer.FetchGot? && w == GotBlock(node, answer)
    case FCheck(_, w) => answer.FetchGot? && w == GotBlock(node, answer) && w in s.sunk
    case FCheckRead(_, _, w) => answer.FetchGot? && w == GotBlock(node, answer) && w in s.sunk
    case FMake(w) => answer.FetchGot? && w == GotBlock(node, answer) && w in s.sunk
    case FAwait(child, ok) =>
      && (ok <==> answer.FetchGot?) && child < |s.tasks| && s.tasks[child].Add?
      && s.tasks[child].w == (if answer.FetchGot? then GotBlock(node, answer) else BlockWrap(round, node, 0, Some(answer.error)))
      && (ok ==> GotBlock(node, answer) in s.sunk)
    case FDone(ok) =>
      && (ok <==> answer.FetchGot?)
      && (ok ==> GotBlock(node, answer) in s.sunk && (Stored(s.mem, answer.round) || UnwrappedBefore(ss, steps, i, f)))
      && (!ok ==> Reported(s, round, answer.error))
  }

  ghost predicate Accounted(ss: seq<State>, steps: seq<Step>, i: nat, f: nat, answer: FetchResult)
    requires IsRun(ss, steps) && i < |ss| && f < |ss[i].tasks| && ss[i].tasks[f].Fetch?
  {
    AnsweredBefore(ss, steps, i, f, answer) && Account(ss, steps, i, f, answer)
  }

  lemma AccountStays(ss: seq<State>, steps: seq<Step>, i: nat, f: nat, answer: FetchResult)
    requires IsRun(ss, steps) && ss[0] == INIT && i < |steps| && !Moves(steps[i], f)
    requires f < |ss[i].tasks| && ss[i].tasks[f].Fetch? && Accounted(ss, steps, i, f, answer)
    ensures f < |ss[i + 1].tasks| && ss[i + 1].tasks[f] == ss[i].tasks[f] && Accounted(ss, steps, i + 1, f, answer)
  {
    assert StepAt(ss, steps, i);
    RunOk(ss, steps, i);
    var s, step := ss[i], steps[i];
    NextKeepsTasks(s, step);
    assert step.Run? ==> TaskOk(s, s.tasks[step.t]);
    NextGrows(s, step);
    HistoryGrows(ss, steps, i, f, answer);
    var pc := s.tasks[f].fpc;
    if pc.FAwait? {
      AddStays(s, step, pc.child);
    } else if pc.FDone? {
      if Stored(s.mem, if answer.FetchGot? then answer.round else 0) {
        StoredStays(s, step, if answer.FetchGot? then answer.round else 0);
      }
      if !pc.ok {
        ReportsStay(s, step, s.tasks[f].round, answer.error);
      }
    }
  }

  /** The call that a fetch waits for has ended: its block is stored, or its error reported. */
  lemma AwaitedAddEnded(ss: seq<State>, steps: seq<Step>, i: nat, u: nat)
    requires IsRun(ss, steps) && ss[0] == INIT && i < |steps| && u < |ss[i].tasks|
    requires Enabled(ss[i], steps[i]) && ss[i + 1] == Next(ss[i], steps[i])
    requires ss[i].tasks[u].Add? && ss[i].tasks[u].apc.ADone?
    ensures var w := ss[i].tasks[u].w;
      if w.error.None? then Stored(ss[i + 1].mem, w.round) else Reported(ss[i + 1], w.round, w.error.value)
  {
    RunOk(ss, steps, i);
    var w := ss[i].tasks[u].w;
    if w.error.None? {
      var p, e := EndedAddIsStored(ss, steps, i, u);
      assert HasRound(ss[i].mem, e, w.round);
      StoredStays(ss[i], steps[i], w.round);
    } else {
      assert Reports(ss[i], u, w.round, w.error.value);
      ReportsStay(ss[i], steps[i], w.round, w.error.value);
    }
  }

  lemma AccountGoesOn(ss: seq<State>, steps: seq<Step>, i: nat, f: nat, answer: FetchResult)
    requires IsRun(ss, steps) && ss[0] == INIT && i < |steps| && Moves(steps[i], f)
    requires f < |ss[i].tasks| && ss[i].tasks[f].Fetch? && !ss[i].tasks[f].fpc.FTry? && Accounted(ss, steps, i, f, answer)
    ensures f < |ss[i + 1].tasks| && ss[i + 1].tasks[f].Fetch? && Accounted(ss, steps, i + 1, f, answer)
    ensures IsFetch(ss[i + 1], f, ss[i].tasks[f].node, ss[i].tasks[f].round)
  {
    assert StepAt(ss, steps, i);
    RunOk(ss, steps, i);
    var s := ss[i];
    assert TaskOk(s, s.tasks[f]);
    HistoryGrows(ss, steps, i, f, answer);
    var pc := s.tasks[f].fpc;
    if pc.FAwait? {
      AwaitedAddEnded(ss, steps, i, pc.child);
    } else if pc.FCheckRead? && s.mem.entries[pc.e].block.Some? {
      assert HasRound(s.mem, pc.e, pc.w.round);
      StoredStays(s, steps[i], pc.w.round);
    }
  }

  lemma FetchBefore(s: State, step: Step, f: nat)
    requires Enabled(s, step) && f < |Next(s, step).tasks| && Next(s, step).tasks[f].Fetch?
    ensures f < |s.tasks| ==> IsFetch(s, f, Next(s, step).tasks[f].node, Next(s, step).tasks[f].round)
    ensures f < |s.tasks| && !Moves(step, f) ==> s.tasks[f] == Next(s, step).tasks[f]
    ensures f >= |s.tasks| ==> Next(s, step).tasks[f].fpc.FTry?
  {
    NextKeepsTasks(s, step);
  }

  lemma {:induction false} FetchAccounts(ss: seq<State>, steps: seq<Step>, i: nat, f: nat) returns (answer: FetchResult)
    requires IsRun(ss, steps) && ss[0] == INIT && i < |ss|
    requires f < |ss[i].tasks| && ss[i].tasks[f].Fetch? && !ss[i].tasks[f].fpc.FTry?
    ensures Accounted(ss, steps, i, f, answer)
    decreases i
  {
    assert StepAt(ss, steps, i - 1);
    FetchBefore(ss[i - 1], steps[i - 1], f);
    if ss[i - 1].tasks[f].fpc.FTry? {
      answer := steps[i - 1].x.fetched;
      HistoryGrows(ss, steps, i - 1, f, answer);
    } else {
      answer := FetchAccounts(ss, steps, i - 1, f);
      if Moves(steps[i - 1], f) {
        AccountGoesOn(ss, steps, i - 1, f, answer);
      } else {
        AccountStays(ss, steps, i - 1, f, answer);
      }
    }
  }

  /** A fetch that has ended was answered once.  It succeeds exactly if the answer was a block; that
      block is then submitted to the tip, and the cache has been given a block of its round unless
      it could not be wrapped.  It fails exactly if the answer was an error, which is then reported. */
  lemma FetchReportsAnswer(ss: seq<State>, steps: seq<Step>, i: nat, f: nat) returns (answer: FetchResult)
    requires IsRun(ss, steps) && ss[0] == INIT && i < |ss|
    requires f < |ss[i].tasks| && ss[i].tasks[f].Fetch? && ss[i].tasks[f].fpc.FDone?
    ensures AnsweredBefore(ss, steps, i, f, answer)
    ensures ss[i].tasks[f].fpc.ok <==> answer.FetchGot?
    ensures answer.FetchGot? ==>
      && GotBlock(ss[i].tasks[f].node, answer) in ss[i].sunk && answer.round <= ss[i].tip.latest
      && (Stored(ss[i].mem, answer.round) || UnwrappedBefore(ss, steps, i, f))
    ensures answer.FetchFailed? ==> Reported(ss[i], ss[i].tasks[f].round, answer.error)
  {
    answer := FetchAccounts(ss, steps, i, f);
    RunOk(ss, steps, i);
  }

  // ----- BlockSink

  /** At step p the fetch looks for its block in cache c and does not find it. */
  ghost predicate Misses(ss: seq<State>, steps: seq<Step>, p: nat, f: nat, c: CacheId)
    requires IsRun(ss, steps) && p < |steps|
  {
    && Moves(steps[p], f) && f < |ss[p].tasks| && ss[p].tasks[f].Fetch?
    && var pc, m := ss[p].tasks[f].fpc, ss[p].mem;
       || (pc.FCheck? && pc.c == c && pc.w.round !in m.At(c).items)
       || (pc.FCheckRead? && pc.c == c && HasRound(m, pc.e, pc.w.round) && m.entries[pc.e].block.None?)
  }

  ghost predicate MissedBefore(ss: seq<State>, steps: seq<Step>, i: nat, f: nat, c: CacheId)
    requires IsRun(ss, steps) && i < |ss|
  {
    exists p :: 0 <= p < i && Misses(ss, steps, p, f, c)
  }

  /** At step p the fetch wins the race for the tip with its block. */
  ghost predicate Wins(ss: seq<State>, steps: seq<Step>, p: nat, f: nat)
    requires IsRun(ss, steps) && p < |steps|
  {
    && Moves(steps[p], f) && f < |ss[p].tasks| && ss[p].tasks[f].Fetch? && ss[p].tasks[f].fpc.FSubmit?
    && ss[p].tasks[f].fpc.w.round > ss[p].tip.latest
  }

  ghost predicate WonBefore(ss: seq<State>, steps: seq<Step>, i: nat, f: nat)
    requires IsRun(ss, steps) && i < |ss|
  {
    exists p :: 0 <= p < i && Wins(ss, steps, p, f)
  }

  lemma SinkingGrows(ss: seq<State>, steps: seq<Step>, i: nat, f: nat, c: CacheId)
    requires IsRun(ss, steps) && i < |steps|
    ensures MissedBefore(ss, steps, i, f, c) || Misses(ss, steps, i, f, c) ==> MissedBefore(ss, steps, i + 1, f, c)
    ensures WonBefore(ss, steps, i, f) || Wins(ss, steps, i, f) ==> WonBefore(ss, steps, i + 1, f)
  {
    if MissedBefore(ss, steps, i, f, c) {
      var p :| 0 <= p < i && Misses(ss, steps, p, f, c);
    }
    if WonBefore(ss, steps, i, f) {
      var p :| 0 <= p < i && Wins(ss, steps, p, f);
    }
  }

  predicate Sinks(pc: FetchPc) {
    pc.FMake? || (pc.FAwait? && pc.ok)
  }

  predicate InArchive(pc: FetchPc) {
    (pc.FCheck? || pc.FCheckRead?) && pc.c == Archive
  }

  /** BlockSink hands a block to addBlock only if it has won the race for the tip with it, or has looked
      for the block in the catchup cache and then in the archive cache and has found it in neither. */
  lemma {:induction false} SinksOnlyWhatIsMissing(ss: seq<State>, steps: seq<Step>, i: nat, f: nat)
    requires IsRun(ss, steps) && ss[0] == INIT && i < |ss| && f < |ss[i].tasks| && ss[i].tasks[f].Fetch?
    ensures Sinks(ss[i].tasks[f].fpc) ==>
      WonBefore(ss, steps, i, f) || (MissedBefore(ss, steps, i, f, Catchup) && MissedBefore(ss, steps, i, f, Archive))
    ensures InArchive(ss[i].tasks[f].fpc) ==> MissedBefore(ss, steps, i, f, Catchup)
    decreases i
  {
    assert StepAt(ss, steps, i - 1);
    FetchBefore(ss[i - 1], steps[i - 1], f);
    if f < |ss[i - 1].tasks| {
      SinksOnlyWhatIsMissing(ss, steps, i - 1, f);
      SinkingGrows(ss, steps, i - 1, f, Catchup);
      SinkingGrows(ss, steps, i - 1, f, Archive);
      if Moves(steps[i - 1], f) {
        SinkTurns(ss, steps, i - 1, f);
      }
    }
  }

  lemma SinkTurns(ss: seq<State>, steps: seq<Step>, i: nat, f: nat)
    requires IsRun(ss, steps) && ss[0] == INIT && i < |steps| && Moves(steps[i], f) && f < |ss[i].tasks| && ss[i].tasks[f].Fetch?
    requires f < |ss[i + 1].tasks| && ss[i + 1].tasks[f].Fetch?
    ensures var was, now := ss[i].tasks[f].fpc, ss[i + 1].tasks[f].fpc;
      && (Sinks(now) ==> Sinks(was) || Wins(ss, steps, i, f) || (InArchive(was) && Misses(ss, steps, i, f, Archive)))
      && (InArchive(now) ==> InArchive(was) || Misses(ss, steps, i, f, Catchup))
  {
    assert StepAt(ss, steps, i);
    RunOk(ss, steps, i);
    assert TaskOk(ss[i], ss[i].tasks[f]);
  }

  // ----- LoadBlockSync

  predicate IsLoad(s: State, t: nat, round: U64) {
    t < |s.tasks| && s.tasks[t].Load? && s.tasks[t].round == round
  }

  /** At step q the load takes up a list of nodes: the catchup list, or the archive list. */
  ghost predicate Takes(ss: seq<State>, steps: seq<Step>, q: nat, t: nat, catchup: bool, list: seq<nat>)
    requires IsRun(ss, steps) && q < |steps|
  {
    && Moves(steps[q], t) && t < |ss[q].tasks| && ss[q].tasks[t].Load?
    && (if catchup then ss[q].tasks[t].lpc.LCatchup? && list == ss[q].catchupNodes
        else ss[q].tasks[t].lpc.LArchive? && list == ss[q].archNodes)
  }

  ghost predicate TakenBefore(ss: seq<State>, steps: seq<Step>, i: nat, t: nat, catchup: bool, list: seq<nat>)
    requires IsRun(ss, steps) && i < |ss|
  {
    exists q :: 0 <= q < i && Takes(ss, steps, q, t, catchup, list)
  }

  /** At step q the load finds whether the round is near enough to the tip for catchup nodes. */
  ghost predicate Judges(ss: seq<State>, steps: seq<Step>, q: nat, t: nat, near: bool)
    requires IsRun(ss, steps) && q < |steps|
  {
    && Moves(steps[q], t) && t < |ss[q].tasks| && ss[q].tasks[t].Load? && ss[q].tasks[t].lpc.LWindow?
    && (near <==> NearTip(ss[q].tip.latest, ss[q].tasks[t].round))
  }

  ghost predicate JudgedBefore(ss: seq<State>, steps: seq<Step>, i: nat, t: nat, near: bool)
    requires IsRun(ss, steps) && i < |ss|
  {
    exists q :: 0 <= q < i && Judges(ss, steps, q, t, near)
  }

  /** At step q the load finds that its round is beyond the tip. */
  ghost predicate TurnsAway(ss: seq<State>, steps: seq<Step>, q: nat, t: nat)
    requires IsRun(ss, steps) && q < |steps|
  {
    && Moves(steps[q], t) && t < |ss[q].tasks| && ss[q].tasks[t].Load? && ss[q].tasks[t].lpc.LStart?
    && ss[q].tasks[t].round > ss[q].tip.latest
  }

  ghost predicate TurnedAwayBefore(ss: seq<State>, steps: seq<Step>, i: nat, t: nat)
    requires IsRun(ss, steps) && i < |ss|
  {
    exists q :: 0 <= q < i && TurnsAway(ss, steps, q, t)
  }

  lemma TakingGrows(ss: seq<State>, steps: seq<Step>, i: nat, t: nat, b: bool, list: seq<nat>)
    requires IsRun(ss, steps) && i < |steps|
    ensures TakenBefore(ss, steps, i, t, b, list) || Takes(ss, steps, i, t, b, list) ==> TakenBefore(ss, steps, i + 1, t, b, list)
    ensures JudgedBefore(ss, steps, i, t, b) || Judges(ss, steps, i, t, b) ==> JudgedBefore(ss, steps, i + 1, t, b)
    ensures TurnedAwayBefore(ss, steps, i, t) || TurnsAway(ss, steps, i, t) ==> TurnedAwayBefore(ss, steps, i + 1, t)
  {
    if TurnedAwayBefore(ss, steps, i, t) {
      var q :| 0 <= q < i && TurnsAway(ss, steps, q, t);
    }
    if TakenBefore(ss, steps, i, t, b, list) {
      var q :| 0 <= q < i && Takes(ss, steps, q, t, b, list);
    }
    if JudgedBefore(ss, steps, i, t, b) {
      var q :| 0 <= q < i && Judges(ss, steps, q, t, b);
    }
  }

  /** A fetch of the round from this node has ended, with or without success. */
  ghost predicate Fetched(s: State, node: nat, round: U64, ok: bool) {
    exists f: nat :: IsFetch(s, f, node, round) && s.tasks[f].fpc == FDone(ok)
  }

  /** The first k nodes of the list have been asked and have failed. */
  ghost predicate Refused(s: State, round: U64, list: seq<nat>, k: nat) {
    k <= |list| && forall j :: 0 <= j < k ==> Fetched(s, list[j], round, false)
  }

  lemma FetchedStays(s: State, step: Step, node: nat, round: U64, ok: bool)
    requires Enabled(s, step) && Fetched(s, node, round, ok)
    ensures Fetched(Next(s, step), node, round, ok)
  {
    var f: nat :| IsFetch(s, f, node, round) && s.tasks[f].fpc == FDone(ok);
    NextKeepsTasks(s, step);
    assert IsFetch(Next(s, step), f, node, round);
  }

  lemma RefusedStays(s: State, step: Step, round: U64, list: seq<nat>, k: nat)
    requires Enabled(s, step) && Refused(s, round, list, k)
    ensures Refused(Next(s, step), round, list, k)
  {
    forall j | 0 <= j < k ensures Fetched(Next(s, step), list[j], round, false) {
      FetchedStays(s, step, list[j], round, false);
    }
  }

  /** The catchup nodes are behind the load: the round was not near the tip when it was judged, or all
      of the catchup list has failed. */
  ghost predicate CatchupBehind(ss: seq<State>, steps: seq<Step>, i: nat, t: nat, round: U64, catchup: seq<nat>)
    requires IsRun(ss, steps) && i < |ss|
  {
    || JudgedBefore(ss, steps, i, t, false)
    || (&& JudgedBefore(ss, steps, i, t, true) && TakenBefore(ss, steps, i, t, true, catchup)
        && Refused(ss[i], round, catchup, |catchup|))
  }

  /** The lists that a load takes up. */
  datatype Lists = Lists(catchup: seq<nat>, arch: seq<nat>) {
    function Of(fallback: bool): seq<nat> {
      if fallback then catchup else arch
    }
  }

  /** The load has taken up a list, the catchup list or the archive list, of which the first k nodes
      have failed; the archive list comes after the catchup list. */
  ghost predicate InList(ss: seq<State>, steps: seq<Step>, i: nat, t: nat, round: U64, fallback: bool, lists: Lists, k: nat)
    requires IsRun(ss, steps) && i < |ss|
  {
    && TakenBefore(ss, steps, i, t, fallback, lists.Of(fallback)) && Refused(ss[i], round, lists.Of(fallback), k)
    && (if fallback then JudgedBefore(ss, steps, i, t, true) else CatchupBehind(ss, steps, i, t, round, lists.catchup))
  }

  /** Node k of the list has served the round, after all earlier ones had failed. */
  ghost predicate ServedBy(ss: seq<State>, steps: seq<Step>, i: nat, t: nat, round: U64, fallback: bool, lists: Lists, k: nat)
    requires IsRun(ss, steps) && i < |ss|
  {
    && k < |lists.Of(fallback)| && InList(ss, steps, i, t, round, fallback, lists, k)
    && Fetched(ss[i], lists.Of(fallback)[k], round, true)
  }

  /** What a load has behind it. */
  ghost predicate LoadStory(ss: seq<State>, steps: seq<Step>, i: nat, t: nat, round: U64, lists: Lists, k: nat)
    requires IsRun(ss, steps) && i < |ss| && IsLoad(ss[i], t, round)
  {
    match ss[i].tasks[t].lpc
    case LStart => true
    case LWindow => round <= ss[i].tip.latest
    case LCatchup => JudgedBefore(ss, steps, i, t, true)
    case LArchive(_) => CatchupBehind(ss, steps, i, t, round, lists.catchup)
    case LTry(nodes, fallback, _) =>
      InList(ss, steps, i, t, round, fallback, lists, k) && nodes == lists.Of(fallback)[k..]
    case LAwaitFetch(nodes, fallback, child) =>
      && k < |lists.Of(fallback)| && InList(ss, steps, i, t, round, fallback, lists, k)
      && nodes == lists.Of(fallback)[k + 1..] && IsFetch(ss[i], child, lists.Of(fallback)[k], round)
    case LAwaitSink(child) =>
      && TurnedAwayBefore(ss, steps, i, t)
      && child < |ss[i].tasks| && ss[i].tasks[child].Add? && ss[i].tasks[child].w == BlockWrap(round, 0, 0, Some(LEDGER_ERROR))
    case LDone =>
      || (TurnedAwayBefore(ss, steps, i, t) && Reported(ss[i], round, LEDGER_ERROR))
      || ServedBy(ss, steps, i, t, round, true, lists, k) || ServedBy(ss, steps, i, t, round, false, lists, k)
      || InList(ss, steps, i, t, round, false, lists, |lists.arch|)
  }

  lemma InListStays(ss: seq<State>, steps: seq<Step>, i: nat, t: nat, round: U64, fallback: bool, lists: Lists, k: nat)
    requires IsRun(ss, steps) && i < |steps|
    ensures CatchupBehind(ss, steps, i, t, round, lists.catchup) ==> CatchupBehind(ss, steps, i + 1, t, round, lists.catchup)
    ensures InList(ss, steps, i, t, round, fallback, lists, k) ==> InList(ss, steps, i + 1, t, round, fallback, lists, k)
  {
    assert StepAt(ss, steps, i);
    TakingGrows(ss, steps, i, t, true, lists.catchup);
    TakingGrows(ss, steps, i, t, false, lists.arch);
    if Refused(ss[i], round, lists.catchup, |lists.catchup|) {
      RefusedStays(ss[i], steps[i], round, lists.catchup, |lists.catchup|);
    }
    if Refused(ss[i], round, lists.Of(fallback), k) {
      RefusedStays(ss[i], steps[i], round, lists.Of(fallback), k);
    }
  }

  lemma ServedByStays(ss: seq<State>, steps: seq<Step>, i: nat, t: nat, round: U64, fallback: bool, lists: Lists, k: nat)
    requires IsRun(ss, steps) && i < |steps| && ServedBy(ss, steps, i, t, round, fallback, lists, k)
    ensures ServedBy(ss, steps, i + 1, t, round, fallback, lists, k)
  {
    assert StepAt(ss, steps, i);
    InListStays(ss, steps, i, t, round, fallback, lists, k);
    FetchedStays(ss[i], steps[i], lists.Of(fallback)[k], round, true);
  }

  lemma FetchStays(s: State, step: Step, f: nat, node: nat, round: U64)
    requires Enabled(s, step) && IsFetch(s, f, node, round)
    ensures IsFetch(Next(s, step), f, node, round)
  {
    NextKeepsTasks(s, step);
  }

  lemma LoadStoryStays(ss: seq<State>, steps: seq<Step>, i: nat, t: nat, round: U64, lists: Lists, k: nat)
    requires IsRun(ss, steps) && ss[0] == INIT && i < |steps| && !Moves(steps[i], t)
    requires IsLoad(ss[i], t, round) && LoadStory(ss, steps, i, t, round, lists, k)
    ensures IsLoad(ss[i + 1], t, round) && LoadStory(ss, steps, i + 1, t, round, lists, k)
  {
    assert StepAt(ss, steps, i);
    RunOk(ss, steps, i);
    var s, step := ss[i], steps[i];
    NextKeepsTasks(s, step);
    NextKeepsTip(s, step);
    match s.tasks[t].lpc
    case LStart =>
    case LWindow =>
    case LCatchup => TakingGrows(ss, steps, i, t, true, []);
    case LArchive(_) => InListStays(ss, steps, i, t, round, false, lists, 0);
    case LTry(_, fallback, _) => InListStays(ss, steps, i, t, round, fallback, lists, k);
    case LAwaitFetch(_, fallback, child) =>
      InListStays(ss, steps, i, t, round, fallback, lists, k);
      FetchStays(s, step, child, lists.Of(fallback)[k], round);
    case LAwaitSink(child) =>
      TakingGrows(ss, steps, i, t, true, []);
      AddStays(s, step, child);
    case LDone => EndStays(ss, steps, i, t, round, lists, k);
  }

  lemma EndStays(ss: seq<State>, steps: seq<Step>, i: nat, t: nat, round: U64, lists: Lists, k: nat)
    requires IsRun(ss, steps) && i < |steps| && IsLoad(ss[i], t, round) && ss[i].tasks[t].lpc.LDone?
    requires LoadStory(ss, steps, i, t, round, lists, k)
    requires IsLoad(ss[i + 1], t, round) && ss[i + 1].tasks[t].lpc.LDone?
    ensures LoadStory(ss, steps, i + 1, t, round, lists, k)
  {
    assert StepAt(ss, steps, i);
    TakingGrows(ss, steps, i, t, true, []);
    if TurnedAwayBefore(ss, steps, i, t) && Reported(ss[i], round, LEDGER_ERROR) {
      ReportsStay(ss[i], steps[i], round, LEDGER_ERROR);
    } else if ServedBy(ss, steps, i, t, round, true, lists, k) {
      ServedByStays(ss, steps, i, t, round, true, lists, k);
    } else if ServedBy(ss, steps, i, t, round, false, lists, k) {
      ServedByStays(ss, steps, i, t, round, false, lists, k);
    } else {
      InListStays(ss, steps, i, t, round, false, lists, |lists.arch|);
    }
  }

  /** The fetch that a load waits for has ended: the node has served the round, or is one more that failed. */
  lemma AwaitedFetchEnded(ss: seq<State>, steps: seq<Step>, i: nat, t: nat, round: U64,
                          fallback: bool, lists: Lists, k: nat, child: nat)
    requires IsRun(ss, steps) && i < |steps| && k < |lists.Of(fallback)| && InList(ss, steps, i, t, round, fallback, lists, k)
    requires IsFetch(ss[i], child, lists.Of(fallback)[k], round) && ss[i].tasks[child].fpc.FDone?
    ensures if ss[i].tasks[child].fpc.ok then ServedBy(ss, steps, i + 1, t, round, fallback, lists, k)
            else InList(ss, steps, i + 1, t, round, fallback, lists, k + 1)
  {
    assert StepAt(ss, steps, i);
    var list, ok := lists.Of(fallback), ss[i].tasks[child].fpc.ok;
    assert Fetched(ss[i], list[k], round, ok);
    FetchedStays(ss[i], steps[i], list[k], round, ok);
    InListStays(ss, steps, i, t, round, fallback, lists, k);
  }

  lemma LoadStoryGoesOn(ss: seq<State>, steps: seq<Step>, i: nat, t: nat, round: U64, lists: Lists, k: nat)
    returns (lists': Lists, k': nat)
    requires IsRun(ss, steps) && ss[0] == INIT && i < |steps| && Moves(steps[i], t)
    requires IsLoad(ss[i], t, round) && LoadStory(ss, steps, i, t, round, lists, k)
    ensures IsLoad(ss[i + 1], t, round) && LoadStory(ss, steps, i + 1, t, round, lists', k')
  {
    assert StepAt(ss, steps, i);
    var s := ss[i];
    lists', k' := lists, k;
    match s.tasks[t].lpc
    case LStart => TakingGrows(ss, steps, i, t, true, []);
    case LWindow =>
      NearTipExact(s.tip.latest, round);
      TakingGrows(ss, steps, i, t, true, []);
      TakingGrows(ss, steps, i, t, false, []);
    case LCatchup =>
      lists', k' := Lists(s.catchupNodes, []), 0;
      TakingGrows(ss, steps, i, t, true, s.catchupNodes);
    case LArchive(_) =>
      lists', k' := Lists(lists.catchup, s.archNodes), 0;
      TakingGrows(ss, steps, i, t, false, s.archNodes);
      InListStays(ss, steps, i, t, round, false, lists, 0);
    case LTry(nodes, fallback, _) => InListStays(ss, steps, i, t, round, fallback, lists, k);
    case LAwaitFetch(nodes, fallback, child) =>
      AwaitedFetchEnded(ss, steps, i, t, round, fallback, lists, k, child);
      if !s.tasks[child].fpc.ok {
        k' := k + 1;
      }
    case LAwaitSink(child) =>
      TakingGrows(ss, steps, i, t, true, []);
      assert Reports(s, child, round, LEDGER_ERROR);
      ReportsStay(s, steps[i], round, LEDGER_ERROR);
  }

  lemma LoadBefore(s: State, step: Step, t: nat, round: U64)
    requires Enabled(s, step) && IsLoad(Next(s, step), t, round)
    ensures if t < |s.tasks| then IsLoad(s, t, round) else Next(s, step).tasks[t].lpc.LStart?
  {
    NextKeepsTasks(s, step);
  }

  lemma {:induction false} RunTellsLoadStory(ss: seq<State>, steps: seq<Step>, i: nat, t: nat, round: U64)
    returns (lists: Lists, k: nat)
    requires IsRun(ss, steps) && ss[0] == INIT && i < |ss| && IsLoad(ss[i], t, round)
    ensures LoadStory(ss, steps, i, t, round, lists, k)
    decreases i
  {
    lists, k := Lists([], []), 0;
    assert StepAt(ss, steps, i - 1);
    LoadBefore(ss[i - 1], steps[i - 1], t, round);
    if t < |ss[i - 1].tasks| {
      lists, k := RunTellsLoadStory(ss, steps, i - 1, t, round);
      if Moves(steps[i - 1], t) {
        lists, k := LoadStoryGoesOn(ss, steps, i - 1, t, round, lists, k);
      } else {
        LoadStoryStays(ss, steps, i - 1, t, round, lists, k);
      }
    }
  }

  /** A load that has ended had found its round beyond the tip and has reported that; or node k of a list it took up
      has served it after all nodes before it had failed, which for an archive node includes the whole
      catchup list if the round was near the tip; or all nodes of these lists have failed. */
  lemma LoadAsksInOrder(ss: seq<State>, steps: seq<Step>, i: nat, t: nat, round: U64) returns (lists: Lists, k: nat)
    requires IsRun(ss, steps) && ss[0] == INIT && i < |ss| && IsLoad(ss[i], t, round) && ss[i].tasks[t].lpc.LDone?
    ensures
      || (TurnedAwayBefore(ss, steps, i, t) && Reported(ss[i], round, LEDGER_ERROR))
      || ServedBy(ss, steps, i, t, round, true, lists, k) || ServedBy(ss, steps, i, t, round, false, lists, k)
      || InList(ss, steps, i, t, round, false, lists, |lists.arch|)
  {
    lists, k := RunTellsLoadStory(ss, steps, i, t, round);
  }
}
