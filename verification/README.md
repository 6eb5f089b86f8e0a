# AlgoVNode: a verified model of the promise cache, the cluster, the prefetcher and the block converter

AlgoVNode is a virtual Algorand node. It watches several upstream nodes, tracks the newest round, and
serves blocks from a cache in which a round can be *promised* before it is loaded. This project models its
four hardest parts in Dafny and proves what their callers rely on.

`dafny verify dfyconfig.toml` checks the whole project.

## What is modelled

**The promise cache, its loader and its readers** (`internal/blockcache`, with `LoadBlockSync`,
`fetchBlockRaw`, `BlockSink`, `SinkError`).
`CacheModel.dfy` holds the memory: entry objects, wait channels with an identity and an owner, and two LRU
maps, with one function for each locked section. `CacheSystem.dfy` turns every goroutine into a task with a
program counter; every locked section, LRU call or racing read of a shared variable is one step, and a run is
any interleaving of steps (two reads of a variable that only the holder of the reader's lock writes are one). A promise takes no lock, a timed-out reader calls `addBlock` without the cache
lock, and a re-arm may fall between a wake-up and the re-read, as in the code. `CacheInvariants.dfy` proves
the invariant of every run, and `CacheTheorems.dfy`, `LoadProgress.dfy`, `LoadDelivery.dfy` and
`ResidentReads.dfy` what follows from it; `LoadExact.dfy` shows that the assumptions made there are exact.
`CacheOutcomes.dfy`, `ReadOutcomes.dfy` and `LoadOutcomes.dfy` prove how each kind of call ends: what `addBlock`
and `PromiseBlock` leave in their entry, what `GetBlock` returns and why it fails, what a fetch reports and whom a load
has asked; `RearmRace.dfy` exhibits what a re-arm can do to a woken reader. `Routing.dfy` compares the two `uint64` window tests with the
windows in true integers. `CacheObjects.dfy` has the entry, cache and unified cache as mutable objects that
share the update functions of the transition system.

**The cluster and its nodes** (`internal/algod/cluster.go`, `internal/algod/node.go`).
`ClusterSystem.dfy` is the boot, monitor and reboot loop of every node, the racing tip, the set-once genesis,
the token channel of capacity 100, a list rebuild that reads one node after another while they change, and the
callers of `WaitForStatusAfter`. `ClusterLists.dfy`, `ClusterGenesis.dfy` and `ClusterStatus.dfy` prove one
invariant each over all runs, `ClusterNodes.dfy` what a node's own fields and steps mean, and `ClusterStall.dfy` when a list rebuild, which holds the cluster mutex, can go
on. `ClusterObjects.dfy` has the sequential parts as mutable objects.

**Both together.** `WholeNode.dfy` runs cache and cluster side by side: they share the tip, the node lists and
the locks of the cluster and of its nodes, and a node's own fetches are tasks of the cache that the node waits for. Each part of a joint
run is a run of that part, so that all theorems about the parts hold in joint runs. `WholeDelivery.dfy` says what
a promised block can wait for, and `WholeStall.dfy` exhibits the runs in which it waits for good.

**The prefetcher** (`internal/algod/prefetch.go`): `Prefetch.dfy`, on values and as objects updated in place.

**The converter** (`internal/utils/convert_block.go`, `internal/utils/convert_stxn.go`): `Convert.dfy` for the
recursion with its threaded counter, `Deltas.dfy` for state deltas, over `SortedKeys.dfy` (sorting the keys of
a map met in any order) and `Base64.dfy` (section 4 of RFC 4648).

**Retrying** (`internal/utils/utils.go`): `Backoff.dfy`.

## Assumptions and readings

- Upstream answers, timeouts, evictions and scheduling are free choices of the environment. Of an upstream it
  is assumed that its `LastRound` never falls, that a status asked for after round r exceeds r, that it serves
  one fixed non-empty genesis, and, for the cluster and for the delivery of a load, that block r carries round r.
- `promiseBlock` carries the comment "under ubc lock", but its caller takes no lock; the model follows the code.
- `prefetchDetect` asks `IsBlockCached` for the requested round and not for the round it is about to promise;
  the answers are therefore a parameter, one for each turn of the loop.
- The prefetch loop does not end when its last round is the largest `uint64`, and ends in all other cases, also
  when that round has wrapped; the object methods demand exactly that it ends.
- The history fields (submissions, wins, delivered blocks, matched and considered rounds, nodes in use) are
  there to state properties; no step depends on them.

Where a natural property does not hold of the code without a condition, the condition is proved exact and a
failing run is exhibited wherever the program itself can break it:

- An unresolved entry that one task owes a result stays owed, or is resolved, by the next turn of that task exactly
  if the turn cooperates (`LoadExact.KeepsPromiseExactly`). A load fails it by taking up an empty archive list
  without having asked a node (`LoadExact.StrandedWithoutNodes`), `addBlock` by routing the result to the other cache
  because the window has moved since the promise (`LoadExact.StrandedByRouting`), and a fetch by what the upstream
  serves. A fetch also gives up when the other cache has the block (`LoadExact.OtherCacheDecides`), which needs a
  second promise that was routed there (`LoadExact.PromiseConfinedExactly`).
- A reader that has been woken returns what its entry has exactly if the entry has not been re-armed before the
  reader's turn (`RearmRace.RereadExact`); `RearmRace.RearmHidesTheResult` is a run in which GetBlock therefore fails
  with an error that nobody reported, without a timeout. The source marks the re-arm "FIXME: danger".
- A fetch waits for its node's lock or for the cluster mutex, which come free exactly unless a list rebuild stalls.
  A cluster can stall, and a promise made under all assumptions above can wait for good, exactly if there is a node:
  `WholeDelivery.CarrierProgresses`, `WholeDelivery.StalledFetchIsStuck`, `ClusterStall.StallIsReachableExactly`,
  `WholeStall.StalledPromiseExactly`.
- The window tests, the prefetch bounds, the delays of a retry and the ids taken from the transaction counter are
  right exactly under the conditions of `Routing.CacheWindowExact`, `Routing.LoaderWindowExact`,
  `Prefetch.StreamsKeepTheirBounds`, `Backoff.DelaysExact` and `Convert.CounterIdIsPositional`.

## Model

| member | source | states |
|---|---|---|
| `CacheModel.PerformKeepsMemOk` | internal/blockcache/cache.go:28-98 | Every locked section keeps the discipline of all entries, channels and both bounded maps: an error excludes a channel, an unresolved entry has one, a channel is open exactly while attached to its one owner |
| `CacheModel.PerformKeepsCache` | internal/blockcache/cache.go:35-65 | One operation keeps each cache within 1000 keys, each key naming an entry of that round |
| `CacheModel.InsertKeepsBound` | internal/blockcache/cache.go:35-65 | An insertion keeps the size bound, files the new entry and changes no other key it keeps |
| `CacheModel.PerformKeepsHistory` | internal/blockcache/cache.go:35-97 | Identities persist, `last` never falls, a block is write-once, and beside a block an error can only be cleared |
| `CacheModel.ChannelConservation` | internal/blockcache/cache.go:42-91 | A channel keeps its owner, stays closed, and is closed only by the delivery to its owner that detaches it in the same step |
| `CacheInvariants.NextPerforms` | internal/blockcache/cache.go:28-98 | Every step of every task changes the memory by at most one locked section |
| `CacheInvariants.NextKeepsStateOk` | internal/blockcache/unified.go:61-99 | Every step of any task or of the environment keeps the invariant of the whole system |
| `CacheInvariants.RunOk` | internal/blockcache/unified.go:61-99 | The invariant holds in every state of every run from the empty caches |
| `CacheTheorems.EntryDiscipline` | internal/blockcache/cache.go:128-133 | In every reachable state an entry with an error has no channel and one with neither block nor error has an open one of its own, so the "not scheduled for load" branch is unreachable |
| `CacheTheorems.ChannelsConserved` | internal/blockcache/cache.go:28-98 | Over any stretch of a run a channel belongs to one entry for good, closes at most once, and is attached to that entry and to no other exactly while it is open |
| `CacheTheorems.StepKeepsChannel` | internal/blockcache/cache.go:85-90 | The only step that closes a channel is a delivery to the entry that owns it |
| `CacheTheorems.WaitersNeverOrphaned` | internal/blockcache/cache.go:128-148 | A waiting reader's channel is closed or still attached to its entry, and any delivery to that entry leaves it closed, even after re-arming |
| `CacheTheorems.BlocksAreWriteOnce` | internal/blockcache/cache.go:65-91 | Between any two states of a run an entry keeps its round and block, and its error beside a block can only have been cleared |
| `CacheTheorems.GetBlockAnswers` | internal/blockcache/unified.go:84-99 | Under every interleaving GetBlock returns exactly one of a block and an error; the block is of the asked round, was delivered without error and came from a node that was listed or asked |
| `CacheTheorems.TipIsMaximum` | internal/algod/cluster.go:61-72 | `latestRound` is the maximum of all rounds submitted, and winning submissions strictly increase |
| `CacheTheorems.FutureCheckHidesNothing` | internal/algod/cluster.go:157-165 | No cached block is newer than `latestRound` and neither is any `last`, so the future-round check hides no cached block |
| `CacheTheorems.FinishedAddIsCovered` | internal/blockcache/cache.go:95-97 | After addBlock of a block has ended, the `last` of the cache it went to covers its round and is itself covered by the tip |
| `CacheTheorems.CachesStayBounded` | internal/blockcache/unified.go:31-34 | In every reachable state each cache holds at most 1000 rounds, each with an entry of that round |
| `CacheOutcomes.DeliveryExact` | internal/blockcache/cache.go:65-91 | A delivery fills an entry without a block and leaves its error as it was, an error is recorded only by an entry with neither, all else leaves both fields alone; the channel is closed and detached and nothing else changes |
| `CacheOutcomes.EndedAddIsStored` | internal/blockcache/cache.go:55-98 | In every run an addBlock call that has ended gave its result to an entry of its round, found there or filed in the cache it was sent to, which then had a result and no waiters; a carried block means a block for good, the carried one unless the entry had one |
| `CacheOutcomes.MadePromiseIsLive` | internal/blockcache/cache.go:28-53 | In every run a promise leaves an entry of its round, found there or filed in the cache it was sent to, without an error, with the block it had or an open channel, and ends with a load of the round started |
| `ReadOutcomes.WaitersWaitForResults` | internal/blockcache/cache.go:126-148 | While the channel a reader waits for is open its entry has neither block nor error, so that a waiter can wake as soon as there is a result |
| `ReadOutcomes.WaitingReaderGetsBlock` | internal/blockcache/cache.go:116-157 | A reader that waits for an entry, or is about to read it, when the entry has a block and no error, returns exactly that block unless it times out: it can go on at once and needs two turns, or one if it is not waiting, under every interleaving |
| `ReadOutcomes.EntryErrorsAreReported` | internal/blockcache/cache.go:75-81 | In every reachable state the error of an entry was delivered for its round by an addBlock call |
| `ReadOutcomes.GetBlockErrorsHaveACause` | internal/blockcache/unified.go:84-99 | GetBlock fails only after it has promised the round, and only with an error that an addBlock call delivered for the round, with its own timeout, which it has reported, or because both looks after the promise found the round unfiled or re-armed before the re-read |
| `RearmRace.RereadExact` | internal/blockcache/cache.go:149-154 | In every reachable state a woken reader in one of its last two looks returns the error, else the block, of its entry with its next turn if and only if the entry has not been re-armed without a result |
| `RearmRace.RearmHidesTheResult` | internal/blockcache/cache.go:37-45 | A run in which a re-arm takes back the failure a reader was woken for, and GetBlock fails with an error nobody reported and without a timeout |
| `LoadOutcomes.FetchReportsAnswer` | internal/algod/node.go:243-275 | A fetch that has ended succeeded exactly if its upstream answered with a block, which is then submitted to the tip and, unless it did not wrap, some entry of its round has a block; it failed exactly if the answer was an error, which is then reported |
| `LoadOutcomes.SinksOnlyWhatIsMissing` | internal/algod/node.go:357-391 | BlockSink hands a block to the cache only if it won the race for the tip with it, or looked into the catchup and then the archive cache and found no block of the round in either |
| `LoadOutcomes.LoadAsksInOrder` | internal/algod/cluster.go:219-250 | A load that has ended found its round beyond the tip and reported it, or a node of a list it took up served the round after all nodes before it had failed, the whole catchup list included if the round was among the last 996, or all nodes of these lists failed |
| `Routing.CacheWindowExact` | internal/blockcache/unified.go:50-58 | Below 2^63 the wrapping test is the true 1000-round window if and only if `last` is 0 or at least 1000 |
| `Routing.LoaderWindowExact` | internal/algod/cluster.go:223-242 | Below 2^63 the loader's wrapping test is the true 996-round window if and only if `latestRound` is at least 996 |
| `Routing.NearTipExact` | internal/algod/cluster.go:223-227 | For every round up to the tip the loader's wrapping test holds exactly for the last 996 rounds of a tip of at least 996 |
| `Routing.OfferedToCatchupRoutesToCatchup` | internal/algod/cluster.go:227-233 | With `last` at least 1000, a round the loader offers to catchup nodes routes to the catchup cache unless the archive cache holds it |
| `LoadProgress.BoundMoves` | internal/algod/cluster.go:219-250 | Whatever a task that owes a result does next, the entry is resolved or evicted, or that task or the one it called still owes it |
| `LoadProgress.NewlyUnresolved` | internal/blockcache/cache.go:28-53 | Only a new promise or a re-arm makes an entry unresolved, and a task then owes it a result |
| `LoadProgress.NextKeepsConfined` | internal/blockcache/unified.go:61-77 | While the round keeps routing to one cache, no task touches it in the other |
| `LoadProgress.NoPromiseForgotten` | internal/blockcache/unified.go:61-77 | In every interleaving, if the archive list is not empty when a load of the round that has asked nobody takes it up, fetches end in an error or a wrapped block of the asked round and the round keeps routing to one cache, each unresolved resident entry has a task in flight that owes it a result |
| `LoadDelivery.BoundRankFalls` | internal/algod/node.go:243-275 | Each turn of the task that owes the result brings the delivery nearer |
| `LoadDelivery.DeliveryIsBounded` | internal/algod/cluster.go:219-250 | While the entry is unresolved the obligation is carried on, and it is carried for at most 31 turns |
| `LoadDelivery.CarrierRunsOrAwaitsLock` | internal/blockcache/unified.go:61-66 | Inside the cache the task that owes the result, unless it is about to take the cluster mutex, can run at once or waits for the cache lock whose holder can |
| `LoadExact.LoadKeepsPromiseExactly` | internal/algod/cluster.go:227-249 | In any state, the next turn of a load on which alone an entry depends keeps the entry owed if and only if it does not take up an empty archive list without having asked a node |
| `LoadExact.KeepsPromiseExactly` | internal/blockcache/unified.go:50-66 | In any state, the next turn of a load, an addBlock call or a fetch on which alone an unresolved entry depends keeps it owed or resolves it if and only if the archive list taken up is not empty, the delivery routes to the cache of the entry, or the fetch gets an error or a block of the round that wraps |
| `LoadExact.PromiseConfinedExactly` | internal/blockcache/unified.go:68-71 | A promise leaves the other cache alone if and only if each test it makes routes to the cache of the entry |
| `LoadExact.OtherCacheDecides` | internal/algod/node.go:375-390 | A fetch about to look into the other cache goes on to deliver if and only if it finds no block of the round there |
| `LoadExact.CandidatesDecide` | internal/algod/cluster.go:227-249 | A load about to choose its first list, on which alone an entry depends, passes its obligation on if and only if the catchup list (inside the window) or the archive list is not empty |
| `LoadExact.StrandedWithoutNodes` | internal/algod/cluster.go:243-249 | A run without listed nodes, cooperative up to the step that takes up the empty archive list, that ends with an unresolved entry nobody owes a result |
| `LoadExact.StrandedByRouting` | internal/blockcache/unified.go:50-58 | A run, cooperative up to its last step, in which round 5 is promised before any block is stored, block 2000 moves the window, and block 5 is delivered to the archive cache: the promised entry is left unresolved and nobody owes it a result |
| `ResidentReads.NextStaysOnTrack` | internal/blockcache/unified.go:84-99 | While a block is held, no step of any task makes a read of its round fail or wait for a channel |
| `ResidentReads.HeldBlockIsReturned` | internal/blockcache/unified.go:84-99 | A read that runs while the cache its round routes to holds the block returns exactly that block, even beside an older recorded error |
| `ResidentReads.HeldReadEnds` | internal/blockcache/unified.go:84-99 | Such a read ends within 16 turns of itself and its promise, one of which can always be taken |
| `CacheObjects.BlockEntry.Rearm` | internal/blockcache/cache.go:37-47 | Exactly a failed entry gets a new open channel and loses its error; it had no channel to lose |
| `CacheObjects.BlockEntry.Deliver` | internal/blockcache/cache.go:67-91 | A block fills an entry without one and keeps its error, an error is recorded only by an entry with neither, all else changes neither field; the channel is closed and detached |
| `CacheObjects.BlockEntry.Inspect` | internal/blockcache/cache.go:119-133 | The first read gives the error, else the block, else an open channel, which is never missing |
| `CacheObjects.BlockCache.PromiseBlock` | internal/blockcache/cache.go:28-53 | The round ends up filed without an error; an existing entry keeps its identity and block, other entries are untouched |
| `CacheObjects.BlockCache.AddBlock` | internal/blockcache/cache.go:55-98 | The round ends up filed; an entry found there is changed as by Deliver, a new one has exactly the result; its waiters are notified, `last` moves up exactly by a newer block, and other entries are untouched |
| `CacheObjects.UnifiedBlockCache.AddBlock` | internal/blockcache/unified.go:61-66 | The same in the cache that getCacheWithPeek selects |
| `CacheObjects.UnifiedBlockCache.GetCacheWithPeek` | internal/blockcache/unified.go:50-58 | The archive cache for round 0 and for its own rounds; else, with `last` 0 or at least 1000, the catchup cache exactly for the rounds above last - 1000 in true integers |
| `CacheObjects.UnifiedBlockCache.RoutesAlike` | internal/blockcache/unified.go:50-58 | The object and the transition system route every round alike |
| `CacheObjects.UnifiedBlockCache.PromiseBlock` | internal/blockcache/unified.go:68-77 | The round is promised in the cache it routes to, and only there, and exactly one load of it is started |
| `CacheObjects.UnifiedBlockCache.IsBlockCached` | internal/blockcache/unified.go:79-81 | True exactly if either cache holds a block for the round |
| `ClusterLists.NextKeepsListsOk` | internal/algod/cluster.go:171-210 | Every step keeps: with no state change waiting to be noticed, the lists, or the part of a rebuild done so far, agree with the nodes |
| `ClusterLists.QuietNodeStep` | internal/algod/node.go:151-185 | A node step that sends no token changes no state, and no Catchup flag of a synced node |
| `ClusterLists.QuiescentAgreement` | internal/algod/cluster.go:175-210 | In every reachable quiet state the lists hold exactly the synced nodes, each once, in the list its Catchup flag selects |
| `ClusterStall.RunInBounds` | internal/algod/cluster.go:180-188 | In every reachable state a rebuild reads an existing node or is about to publish |
| `ClusterStall.RebuildGoesOnUnlessStalled` | internal/algod/cluster.go:171-197 | A rebuild under way can go on if and only if it is not waiting for a node that is blocked on a full token channel |
| `ClusterStall.RebuildIsBounded` | internal/algod/cluster.go:175-197 | Over any stretch of a run, whatever else happens, a rebuild takes at most two reads for each node and one publication, and ends exactly by publishing |
| `ClusterStall.StallIsFinal` | internal/algod/node.go:393-405 | From such a stall on the rebuild, both lists, the tip, its source, the genesis and the broadcasts never change again |
| `ClusterStall.StallIsReachable` | internal/algod/node.go:104-185 | From every start with a node, a run in which one upstream keeps reporting that it has stopped leads into a stall |
| `ClusterStall.StallIsReachableExactly` | internal/algod/cluster.go:171-210 | A start leads into a stall by some run if and only if it has a node |
| `ClusterGenesis.NextKeepsGenesisOk` | internal/algod/node.go:151-185 | Every step keeps all nodes in use vetted, and a set genesis unchanged |
| `ClusterGenesis.GenesisSafety` | internal/algod/cluster.go:116-127 | In every reachable state each node that is synced, listed, asked by a load or won the tip has an upstream of the one cluster genesis |
| `ClusterGenesis.GenesisIsFinal` | internal/algod/cluster.go:116-127 | Once set, the cluster genesis is the same in every later state |
| `ClusterStatus.SetLatestKeeps` | internal/algod/cluster.go:61-72 | A submission covered by its source's last status keeps the tip covered by its source, and the tip becomes the maximum |
| `ClusterStatus.NodeKeepsNodeOk` | internal/algod/node.go:104-149 | A node never replaces its status by an older one, and every round it goes on to submit or fetch is covered by that status |
| `ClusterStatus.NextKeepsStatusOk` | internal/algod/node.go:196-225 | Every step of a node, load or waiter keeps the tip and all broadcasts covered |
| `ClusterStatus.WaitReturnsNewerStatus` | internal/algod/cluster.go:88-113 | WaitForStatusAfter(r) returns nil or a status with LastRound above r, on its fast path and on its broadcast path |
| `ClusterStatus.FastPathAnswers` | internal/algod/cluster.go:88-98 | In every run, if the tip is past the round the fast path answers at once with the status of the tip's source, which covers the tip; otherwise the caller listens |
| `ClusterStatus.BroadcastAnswers` | internal/algod/cluster.go:99-112 | A listener that hears a win is answered with the broadcast status, which covers the win, exactly if that is newer than its round |
| `ClusterStatus.NilMeansCanceled` | internal/algod/cluster.go:104-105 | A caller is given nil only if it was canceled |
| `ClusterStatus.TipIsCovered` | internal/algod/cluster.go:61-72 | The status of the last source is at least `latestRound`, winning rounds strictly increase, and no broadcast is nil or older than its win |
| `ClusterStatus.BootSubmitsStatus` | internal/algod/node.go:144-146 | A booted node submits the round of its first status, which the tip covers from then on |
| `ClusterNodes.StateFollowsStatus` | internal/algod/node.go:104-124 | In every reachable state a node is Synced or Syncing only by a status of a running upstream, which is catching up exactly if the node is Syncing |
| `ClusterNodes.ArchiveMeansServedZero` | internal/algod/node.go:179-182 | A node is taken for an archive node, or is about to be, exactly if its upstream has served block 0 to one of its boots |
| `ClusterNodes.MonitorMovesTip` | internal/algod/node.go:277-308 | From the moment a synced node has learnt that its upstream is past round lr until it reboots, it is on its way to fetch round lr+1 or the tip covers that round |
| `ClusterObjects.NodeObject.SetNodeState` | internal/algod/node.go:393-405 | The state is taken over, and a token is sent exactly for a change |
| `ClusterObjects.NodeObject.UpdateWithStatus` | internal/algod/node.go:104-124 | The node fails, syncs or is synced as the status says; its round moves to the maximum unless the upstream has stopped |
| `ClusterObjects.CollectSpec` | internal/algod/cluster.go:180-188 | Collecting names each synced node of the given flag once, in configuration order |
| `ClusterObjects.SortStableSpec` | internal/algod/cluster.go:189-194 | Sorting permutes the nodes into RTT order with ties in configuration order |
| `ClusterObjects.ListsPartitionTheSynced` | internal/algod/cluster.go:147-197 | For every snapshot both lists are so ordered and disjoint, and their concatenation names each synced node exactly once and nothing else |
| `ClusterObjects.NodeCluster.SetLatestRound` | internal/algod/cluster.go:61-72 | The tip becomes the maximum; its source changes, and the last status of the source is broadcast, exactly with a win |
| `ClusterObjects.NodeCluster.EnsureGenesis` | internal/algod/cluster.go:116-127 | Accepted exactly if the genesis is or becomes the one of the cluster; a set genesis stays |
| `ClusterObjects.NodeCluster.UpdateNodeLists` | internal/algod/cluster.go:175-197 | The rebuilt lists are those the snapshot determines |
| `ClusterObjects.NodeCluster.LoadBlockSync` | internal/algod/cluster.go:219-250 | A future round is answered by an error only. Another round is loaded exactly if some archive node, or for one of the last 996 rounds some catchup node, serves it; the catchup list, for those rounds only, then the archive list are asked in order up to the first node that serves, and completely if none does |
| `ClusterObjects.AskInOrder` | internal/algod/cluster.go:229-233 | One list is asked in order up to and including the first node that serves the round |
| `WholeNode.PartsRun` | internal/algod/node.go:243-275 | The cache part of a joint run is a run of the cache, the cluster part a run of the cluster |
| `WholeNode.SubmitsAlike` | internal/algod/node.go:357-366 | The tip and the lists that the cache and the cluster see are the same after every joint step, and the tip never falls |
| `WholeNode.NextKeepsOwn` | internal/algod/node.go:179-185 | The fetch a node waits for is always where the node itself is: before, or just after, the block has come |
| `WholeNode.NextKeepsOk` | internal/algod/node.go:357-391 | A joint step keeps the parts in step, every load covered by the tip, and every node the cache has to do with vetted |
| `WholeNode.ServedBlocksAreGenuine` | internal/algod/node.go:357-391 | In every reachable joint state each block stored or returned by GetBlock is of its round, comes from a node of the cluster genesis and is not newer than `latestRound` |
| `WholeDelivery.FetchCanTakeExactly` | internal/algod/node.go:243-275 | Whatever comes of asking the upstream, a fetch can take its turn if and only if the node lock, for an answer, and the cluster mutex, for its block, are free |
| `WholeDelivery.RebuildMovesUnlessStalled` | internal/algod/cluster.go:171-197 | In joint states too a rebuild can go on if and only if it is not stalled |
| `WholeDelivery.SenderGoesOn` | internal/algod/node.go:393-405 | A node that holds its lock can send its token, or the monitor can take one, or a rebuild is under way that can go on if and only if it is not stalled |
| `WholeDelivery.CarrierProgresses` | internal/algod/node.go:243-275 | In every reachable joint state a task that owes a result can run, or waits for the cache lock whose holder can; if it is a fetch, it can take every outcome of asking its upstream, or waits for the lock of its node, or has its block and waits for the cluster mutex, and these come free unless a rebuild is stalled |
| `WholeDelivery.PromisesProgress` | internal/blockcache/unified.go:61-77 | In joint runs, under the assumptions of NoPromiseForgotten, each unresolved resident entry is owed a result by a task that so progresses |
| `WholeDelivery.JointDelivery` | internal/algod/cluster.go:219-250 | In joint runs the obligation is carried for at most 31 turns by tasks that so progress |
| `WholeDelivery.StalledFetchIsStuck` | internal/algod/node.go:243-275 | From a stall on, a fetch that has its block never takes another turn, and a fetch whose node is sending never gets a block |
| `WholeStall.StalledPromise` | internal/algod/node.go:277-308 | From every start with a node a joint run all of whose steps cooperate leads to a promised, unresolved entry whose only carrier waits behind a stalled rebuild, with its block in hand or for the lock of its node |
| `WholeStall.StalledPromiseExactly` | internal/algod/cluster.go:171-210 | A start leads to such an entry by some cooperative run if and only if it has a node |
| `Prefetch.TouchTiles` | internal/algod/prefetch.go:77-103 | The windows a stream considers tile (FirstReq, LastPre] without gap or overlap |
| `Prefetch.TouchIdle` | internal/algod/prefetch.go:77-89 | A stream is idle up to two hits and arms at exactly the third |
| `Prefetch.TouchArmed` | internal/algod/prefetch.go:90-102 | An armed stream keeps NextPre+13 <= LastPre <= NextPre+15, matched rounds at most NextPre, and LastPre at most 30 past a matched round |
| `Prefetch.TouchExact` | internal/algod/prefetch.go:74-103 | Taking a matching round keeps all these bounds if and only if the end of the window it adds is a uint64 |
| `Prefetch.WrapBreaksTiling` | internal/algod/prefetch.go:79-98 | A window that ends beyond the uint64 range leaves LastPre behind the rounds already considered |
| `Prefetch.WindowFits` | internal/algod/prefetch.go:79-97 | For every stream within its bounds and rounds up to 2^64-32 the window fits and the prefetch loop ends |
| `Prefetch.FirstMatch` | internal/algod/prefetch.go:62-67 | The search finds the first stream that matches, or none if none does |
| `Prefetch.RequestExact` | internal/algod/prefetch.go:59-107 | One request, pruning included, keeps all streams within their bounds if and only if the window it adds fits in the uint64 range |
| `Prefetch.StreamsKeepTheirBounds` | internal/algod/prefetch.go:59-107 | All along any sequence of requests every stream is within its bounds if and only if no request opens a window that ends beyond the uint64 range |
| `Prefetch.SafeRequestsFit` | internal/algod/prefetch.go:59-107 | Along any sequence of requests for rounds up to 2^64-32 every window fits and every prefetch loop ends |
| `Prefetch.WindowCanWrap` | internal/algod/prefetch.go:77-89 | Three requests for round 2^64-5 wrap LastPre to 25 and break the bounds |
| `Prefetch.PromiseUncached` | internal/algod/prefetch.go:82-86 | The arming loop, with its wrapping counter, promises exactly the rounds from preFrom to preTo whose IsBlockCached call answered no, in ascending order |
| `Prefetch.UncachedExact` | internal/algod/prefetch.go:82-86 | Of a window of consecutive rounds a round is promised exactly if its answer was no, in window order and each once |
| `Prefetch.PromiseAll` | internal/algod/prefetch.go:95-97 | The advancing loop promises exactly the rounds of its window |
| `Prefetch.PromisesAreDue` | internal/algod/prefetch.go:77-103 | Nothing up to the second hit; on the third, of the next 30 rounds after LastPre those whose answer was no, so all 30 or none for uniform answers; later all of the next 15 exactly when the round is past NextPre |
| `Prefetch.BlockPrefetch.Take` | internal/algod/prefetch.go:74-103 | The counters move as stated for each case, by 30 on the third hit and by 15 past NextPre, the update is the one the bounds are proved of, and the rounds promised are exactly those that are due |
| `Prefetch.Prefetcher.PrefetchPrune` | internal/algod/prefetch.go:39-57 | Exactly the streams whose last prefetch is at most a minute old stay |
| `Prefetch.PruneExact` | internal/algod/prefetch.go:39-57 | The streams that stay are those of exactly the positions that have not expired, in order |
| `Prefetch.Prefetcher.PrefetchDetect` | internal/algod/prefetch.go:59-107 | The first matching stream or a new one takes the round, the others are untouched, expired streams go, and the rounds promised are exactly those due to the stream that took the round |
| `Convert.CounterCountsNodes` | internal/utils/convert_stxn.go:224-248 | Converting a tree moves the counter on by the number of its nodes, modulo 2^64 |
| `Convert.SignedTxnWithAdToTransaction` | internal/utils/convert_stxn.go:179-296 | The recursive conversion with its threaded counter is the specified one |
| `Convert.ConvertInners` | internal/utils/convert_stxn.go:226-248 | The loop over inner transactions converts each with its root's row but its own created id and closing amount |
| `Convert.TreeIsNumberedByItsRoot` | internal/utils/convert_stxn.go:224-279 | The output tree has the input's shape, every node carries its root's offset, round and time, and each inner transaction has the created id and closing amount of its own apply data and the canonical form of its own deltas |
| `Convert.GenTransactions` | internal/utils/convert_block.go:61-118 | There is a root for every payset element, with its shape, offset, round, time, created ids, results and deltas as stated by RootOf, and the counter is the total node count; or the error of the first element that does not decode |
| `Convert.IntraRoundNumbering` | internal/utils/convert_block.go:61-118 | Root i and every inner transaction below it carry the node count of all earlier trees; shapes are kept and the counter ends at the total node count |
| `Convert.RootCreatesOwn` | internal/utils/convert_stxn.go:281-327 | For every block, inner transactions or not, a root without an id of its own creates the id of its apply data, or by counter if that has none; any other root creates none |
| `Convert.CounterIdIsPositional` | internal/utils/convert_stxn.go:307-327 | The counter formula gives the id of the payset position if and only if no earlier transaction has inner ones |
| `Convert.CounterIsPosition` | internal/utils/convert_block.go:61-118 | Without inner transactions the counter equals the payset position |
| `Convert.CreatedIdsByCounter` | internal/utils/convert_stxn.go:298-335 | Without inner transactions and with TxnCounter >= n, the id created at position i is TxnCounter - n + i + 1: it never wraps, increases with i and lies in (TxnCounter - n, TxnCounter] |
| `Base64.RoundTrip` | internal/utils/convert_stxn.go:48-51 | Decoding an encoded byte string gives it back |
| `Base64.EncodedShape` | internal/utils/convert_stxn.go:48-51 | Four characters for every three bytes begun, digits of the alphabet but for the padding at the end, empty for no bytes only |
| `Base64.QuadIsTheNumber` | internal/utils/convert_stxn.go:48-51 | Four digits are the base-64 digits of the 24-bit number of three bytes, most significant first |
| `Base64.TestVectors` | internal/utils/convert_stxn.go:48-51 | Test vectors of section 10 of RFC 4648 and one for the last two digits |
| `SortedKeys.SortSpec` | internal/utils/convert_stxn.go:44-44 | Sorting distinct keys gives the same keys strictly ascending |
| `SortedKeys.AscendingUnique` | internal/utils/convert_stxn.go:33-44 | There is only one strictly ascending sequence of a set of keys |
| `SortedKeys.KeysInSomeOrder` | internal/utils/convert_stxn.go:40-43 | Iterating over a map meets every key once, in an order that is left open |
| `SortedKeys.SortedByteKeys` | internal/utils/convert_stxn.go:40-44 | Whatever order the iteration had, the sorted keys depend on the map only |
| `SortedKeys.SortedIndexKeys` | internal/utils/convert_stxn.go:185-201 | The same for account indices |
| `Deltas.StateDeltaToStateDelta` | internal/utils/convert_stxn.go:35-57 | The output depends on the map only, not on its iteration order |
| `Deltas.RenderRoundTrip` | internal/utils/convert_stxn.go:47-54 | Key and value can be read back from one rendered entry; the byte value is nil exactly if it is empty, else base64 |
| `Deltas.DeltaIsCanonicalAndLossless` | internal/utils/convert_stxn.go:35-57 | The output is nil exactly for the empty map, lists every key once in strictly ascending raw order, and the map can be rebuilt from it exactly |
| `Deltas.LocalDeltas` | internal/utils/convert_stxn.go:179-214 | The local output depends on the maps only, not on their iteration order |
| `Deltas.LocalsAreCanonical` | internal/utils/convert_stxn.go:179-214 | It lists exactly the indices with a non-empty delta in ascending order, index 0 as the sender and k as Accounts[k-1], each with a delta that can be rebuilt |
| `Backoff.Retry` | internal/utils/utils.go:35-72 | It calls at most `tries` times, only after retriable errors, never once cancelled; returns nil exactly if the last call succeeded; stops for no reason but success, a fatal error, the limit or cancellation; and sleeps the planned delays |
| `Backoff.DelayIsCappedDoubling` | internal/utils/utils.go:64-68 | The k-th delay is min(wait * 2^k, maxwait) for maxwait below 2^62 |
| `Backoff.DelaysExact` | internal/utils/utils.go:64-68 | That holds for every k if and only if 2 * maxwait fits in an int64 |
| `Backoff.SleepIsBounded` | internal/utils/utils.go:59-70 | With n tries at most (n-1) * maxwait of sleep is planned |

## Left out

- HTTP servers, handlers, authentication, proxying and logging (`internal/httpsrv`, `internal/algod/proxy.go`).
- Configuration, `main.go`, the JSON and msgpack encoders, hashing and the upstream algod client; answers of upstreams are choices.
- Recency in the LRU: the evicted key is any resident key, which includes the least recently used one.
- `promiseBlock` makes an entry and a channel before it knows whether the round is filed; the unused ones are not modelled.
- Deployments without a cache (`ucache` nil) and the end of the main context, after which every loop stops.
- The instant between the monitor's receive from the token channel and its taking of the cluster mutex: the two are one step, so a received token counts as pending until the mutex is taken.
- The single attempts of a fetch: its retries are one step with the final outcome, which records whether any answer came.
- Real time, tickers and the averaging of RTTs; a timeout is a step that may happen at any moment and an RTT is a real number.
- CacheObjects: its methods are sequential; the interleavings are in the transition system, which uses the same update functions. The wait loop of `getBlock` exists in the transition system only.
- ClusterObjects.NodeCluster.UpdateNodeLists: reads all nodes at once; the rebuild that reads them while they change is in the transition system, where RTTs may move during the sort and any order may come out.
- ClusterObjects.NodeCluster.LoadBlockSync: the nodes that can serve the round are a parameter, and the lists do not change during the call; both are free in the transition system.
- LoadProgress.NoPromiseForgotten: holds under the assumptions on the archive list, fetches and routing; the code itself breaks the first and the last, in the runs of `LoadExact.StrandedWithoutNodes` and `LoadExact.StrandedByRouting`.
- LoadExact.KeepsPromiseExactly: speaks of a task on which alone the entry depends, and of a fetch only while the other cache does not hold the round; the other case is `LoadExact.OtherCacheDecides`.
- WholeNode.ServedBlocksAreGenuine: joint runs assume that an upstream serves the block of the round it is asked for.
- WholeNode.NextKeepsOk: a node moves on when its own fetch has failed or submitted its block, a little before the fetch has filed the result; this adds runs and takes none away.
- WholeDelivery.JointDelivery: counts turns and says who can take the next one; that the scheduler lets it is not part of the model.
- Prefetch.StreamsKeepTheirBounds: the hit counter is unbounded, and a window that ends at 2^64-1 exactly, whose loop never ends, counts as fitting.
- Prefetch.Prefetcher.PrefetchDetect: demands that the window of the stream that takes the round does not end at 2^64-1, since the loop of the code would not end.
- Convert.GenTransactions: demands account indices in range, on others the code panics, and also returns the counter, a local variable of the code. `uint` is taken as 64 bits wide.
- Convert.SignedTxnWithAdToTransaction: fields copied as they are, logs, signatures and transaction ids are not in the model.
- Liveness of `WaitForStatusAfter`: a broadcast between the unlock and `Register` can be missed and `TrySubmit` may drop one.
- Waking the waiters of an evicted entry: after the eviction only their own timeout ends the wait.
- `internal/utils/indexer_block.go`, `PrintableUTF8OrEmpty` and `DecodeTxnId`: fields are copied or one string is scanned; no state or counter of the parts above depends on them.
