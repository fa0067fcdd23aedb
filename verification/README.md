# llm-bridge: a verified model of routing, queueing, discovery and configuration stripping

llm-bridge is a gateway in front of several LLM servers. It polls each server for the models
it has, routes a request to the nearest server of its model with a free slot, and either
rejects, overloads or queues requests when none is free. This project models that core in
Dafny and proves what it keeps, over all inputs and all runs.

The code is modelled in two ways.

* **One call at a time**, as classes whose fields change in place (`Backend.Pool`,
  `Discovery.Discovery`, `Routing.Router`, `Routing.QueueManager`, `Server.Server`). Every
  method is proved equal to a function on values (`Selection.RouteStep`, `Passes.LoadAt`,
  `Index.Poll`, ...), and the properties are proved about those functions.
* **As transition systems**, where callers, contexts, the queue's goroutine and other holders
  of connections take their atomic steps in any order (`Lookups`, `Overshoot`, `Handoff`,
  `Stranding`, `Deadlines`, `Waiting`), for what must hold over every interleaving.

| file | subject |
|---|---|
| `Backend.dfy`, `Drift.dfy` | the pool, and what a counter means over a run with re-adds |
| `Lookups.dfy` | the same when lookups and counter moves are separate steps |
| `Index.dfy`, `Discovery.dfy` | the model index as a value, and the object that edits it in place |
| `Selection.dfy` | snapshot, sort, tiers, rotating scan, best effort, one call of `route` |
| `Rounding.dfy` | load ratios as rounded numbers |
| `Fairness.dfy`, `Balance.dfy` | runs of `route`: round robin, and best effort |
| `Turns.dfy` | round robin inside a pass over the queue |
| `Order.dfy` | runs of the queue: who is served before whom |
| `Passes.dfy`, `Routing.dfy` | one pass over the queue; the router and the queue as objects |
| `Overshoot.dfy` | overlapping `route` calls: by how much a limit is exceeded |
| `Handoff.dfy`, `Stranding.dfy`, `Deadlines.dfy` | the queue's handoff of connections, step by step |
| `Waiting.dfy` | the same: nobody is forgotten, overtaken or stuck |
| `Jsonc.dfy`, `Literals.dfy` | the comment stripper, against a lexer and against a grammar |
| `OpenCode.dfy`, `Posted.dfy` | generating a configuration; what a posted one is reduced to |
| `JsonReader.dfy`, `Layout.dfy` | a JSON parser reads the generated text back; its indentation and characters |
| `Server.dfy` | `syncServers`, and a proxied request from its body to its reply |

`Common.dfy` holds the shared types and two counting lemmas.

## Where the code does less than it seems to promise

Seven plausible statements are false of the code. Each is replaced by the exact statement, with a
run or a text that shows the difference.

* *A server at capacity is skipped* (docs/api.md:487). The check looks at a counter read
  earlier and the increment is unconditional. With at most T overlapping calls a limit is
  exceeded by at most T - 1 (`OvershootBound`), and for every limit and T some run reaches
  that (`OvershootBoundIsReached`). The limit holds over all runs if and only if T is 1
  (`LimitHoldsIffOneCallAtATime`).
* *The counter is the number of open connections.* `AddServer` starts a new counter at zero
  and `syncServers` adds every server again. The counter is the number of open connections
  minus those open at the last add (`CounterIsLiveMinusBase`); they are equal if and only if
  the server was added idle (`CounterIsExactIffAddedIdle`).
* *A move of a counter reaches the counter that is read.* `Acquire` and `Release` look the client
  up first and move its counter later, and an `AddServer` may fall in between. The counter is then
  off by the increments and decrements that went to a replaced client (`CounterLaw`), and none does
  if the server is added while no call on it is under way (`QuietAddMissesNothing`).
* *Round robin takes every server in turn.* A `route` whose context is done moves the rotation on
  without taking a server. As many consecutive grants as there are servers take each once if and only
  if no call is done (`OncePerTurnIffNoDoneCall`), and with two servers and a done call after every
  live one the second server is never taken (`DoneCallsStarve`).
* *Requests of one model are served in order of arrival.* Those in the queue are
  (`FirstComeFirstServed`). A fresh request gets past them if and only if some candidate has room
  at that moment (`FreshRequestServedIffRoom`), which is never so directly after a pass
  (`NoOvertakingAfterPass`) but may be so later (`FreshRequestOvertakes`).
* *A queued request never loses a slot.* It does if and only if its caller's inner `default`
  falls between the acquire and the send of a pass (`StrandedIffDefaultedInWindow`).
* *The stripper works like a JSONC lexer.* It restarts on every line, so a string that spans
  a newline can lose text (`SpanningStringIsCut`). Stripper and lexer agree if and only if each
  line that begins inside a string is cut at the same place whether it is read from inside a
  string or from outside (`StripIsLexerIffCutAlike`); in a text without backslashes, if and only
  if no such line contains two slashes in a row (`StripIsLexerIffNoSlashes`). There is no such
  line when no string spans a newline, which RFC 8259 section 7 demands (`StripIsLexer`).

## Assumptions

* `sort.Slice` is not stable but looks only at comparisons of distances, so the permutation it
  applies is a function of the sequence of distances (`Sorter`, `IsSorter`). Everything holds
  for every such function, and there is one (`StableOrderIsSorter`).
* The clock, upstream replies, contexts and the outcome of the proxied call are parameters. A
  reply is classified as the code does: request not made or not answered, body not decodable, or a
  list of entries; the HTTP status is not looked at.
* Load ratios are compared exactly, by cross-multiplication. Rounded to double precision they
  select the same server as long as the two cross-products of any two candidates add up to less
  than 2^53 (`RoundedBestIsBest`); that each of them is below 2^53 is not enough
  (`OneNumberForTwoRatios`).

## Model

| member | source | states |
|---|---|---|
| Backend.Pool.Acquire | backend/backend.go:52-73 | A connection comes only from a pooled server and a live context, and costs exactly one slot there; both failures leave every counter where it was |
| Backend.Pool.Release | backend/backend.go:76-84 | Gives one slot back to the connection's server if it is still pooled, and does nothing otherwise |
| Backend.Pool.Inflight | backend/backend.go:87-95 | Reads the counter; a server outside the pool has none |
| Backend.Pool.GetServer | backend/backend.go:169-177 | Returns the stored configuration exactly when the server is pooled |
| Backend.Pool.AddServer | backend/backend.go:98-112 | Replaces the server's entry by one with a zero counter and touches no other server |
| Backend.Pool.RemoveServer | backend/backend.go:115-119 | Removes one server and keeps the counters of all others |
| Backend.InstallAllResets | server/server.go:134-136 | Adding a list of servers zeroes the counter of each of them, under one of the listed configurations, and leaves the rest alone |
| Backend.LastConfigStands | server/server.go:134-136 | Of several configurations with one URL the last one stands, with a zero counter |
| Drift.StepKeepsDrift | backend/backend.go:52-84 | Any pool operation except adding a server moves its counter and its open connections by the same amount |
| Drift.CounterIsLiveMinusBase | backend/backend.go:52-119 | Over every run with each connection released once, a pooled server's counter is its open connections minus those open at its last add |
| Drift.CounterIsExactIffAddedIdle | backend/backend.go:98-112 | The counter equals the open connections if and only if the server had none when last added |
| Drift.RoutedRunsStayWithinLimit | router/router.go:103-107 | Over every run whose connections are granted by sequential `route` calls without best effort, the counter stays within the limit, and open connections exceed it by no more than those open at the last add |
| Drift.RouteExtendsRun | router/router.go:101-107 | A granted `route` is one more step of such a run, with the counters that `route` leaves |
| Drift.ReAddDoublesTheLimit | server/server.go:132-136 | A run in which a re-added server of limit 1 has two checked connections open, and its counter ends at -1 |
| Lookups.CounterLaw | backend/backend.go:52-112 | Over every interleaving of lookups, counter moves, adds and removals, a pooled server's counter is its live connections minus those live at its last add, minus the increments and plus the decrements that went to a replaced client since |
| Lookups.CounterIsLiveMinusBaseIffMissesBalance | backend/backend.go:52-112 | It is live minus base if and only if as many decrements as increments have missed it |
| Lookups.QuietAddMissesNothing | backend/backend.go:53-60 | Nothing misses if no call on the server was between its lookup and its end when it was last added |
| Lookups.AcquireAcrossAdd | backend/backend.go:53-60 | A run in which a connection is never counted |
| Lookups.ReleaseAcrossAdd | backend/backend.go:77-83 | A run after which the counter is above live minus base |
| Selection.StableOrderIsSorter | router/router.go:81-83 | The assumption made of the sort can be met |
| Selection.StableOrderKeepsTies | router/router.go:81-83 | A sort that keeps equal distances in list order is one of those covered |
| Selection.SnapshotInOrder | router/router.go:64-76 | The candidates are the pooled servers of the list, all of them, at increasing positions of the list |
| Selection.SortedFollowsSorter | router/router.go:81-83 | The sorted list is the snapshot permuted as the sort permutes its distances |
| Selection.SortedIsAscendingPermutation | router/router.go:81-83 | Sorting keeps the candidates and orders them by distance |
| Selection.GroupsPartition | router/router.go:85-93 | The tiers concatenate to the sorted list; each has one distance, and distances increase strictly from tier to tier |
| Selection.FirstRoomMissesNobody | router/router.go:101-103 | The rotating scan of a tier fails if and only if nobody in it has room |
| Selection.ScanFindsFirst | router/router.go:95-110 | The scan takes the first server with room in cyclic order from its tier's start, all earlier tiers being full, and moves the start on by one |
| Selection.StartsInTurn | router/router.go:96-98 | Each tier the scan comes to begins one past the start of the tier before, taken round the tier's size |
| Selection.EmptyScanLeaves | router/router.go:96-98 | A scan that takes nobody, because all are full or the context is done, leaves the number one past the start of the last tier |
| Selection.ScanPicksNearestWithRoom | router/router.go:81-110 | Sort, tiers and scan together find a server with room at the least distance, or nothing if and only if nobody has room |
| Selection.BestIsFirstMinimum | router/router.go:119-126 | The running minimum is a least inflight/maxConn, the earliest one among equals |
| Rounding.RoundedComparisonIsExact | router/router.go:120-121 | Ratios rounded to double precision compare as the exact ones while the two cross-products add up to less than 2^53 |
| Rounding.RoundedBestIsBest | router/router.go:115-126 | Then the loop over rounded ratios selects the same server as the exact minimum |
| Rounding.OneNumberForTwoRatios | router/router.go:120-121 | Two different ratios, each cross-product below 2^53, that one rounded number stands for |
| Selection.RouteRefinesNearest | router/router.go:57-141 | A live `route` grants the nearest healthy pooled server with room; the fallback is reached if and only if no candidate has room, and parking, no-servers and best effort each have their exact condition |
| Selection.RouteDecides | router/router.go:57-141 | The decision on every request, live or done, by its candidates, the strategy and leave to queue: parking against all-busy, no-servers and a grant each have their exact condition |
| Selection.RouteWithoutCandidates | router/router.go:58-79 | Without candidates nothing changes, the round-robin numbers included |
| Selection.RouteMovesNumber | router/router.go:95-110 | A request that is done or finds all candidates full moves its model's number one past the start of the last tier and no other number |
| Selection.RouteTakesFirstInCyclicOrder | router/router.go:95-110 | Which of the nearest servers wins, and the round-robin number that is stored |
| Selection.FirstRequestStartsInFront | router/router.go:95-107 | The first request for a model takes the front server of the sorted list if that has room, and leaves the number 1 |
| Selection.DoneContextTakesNothing | router/router.go:103-133 | With a done context `route` takes no slot under any strategy |
| Selection.FallbackDoesNotMatter | router/router.go:95-110 | While some candidate has room, a live `route` does the same under every strategy, whether or not it may queue |
| Selection.RouteMovesOneCounter | router/router.go:57-141 | A grant is one slot of one candidate; every other outcome leaves all counters alone; without best effort the counter was below its limit |
| Fairness.NearestFixed | router/router.go:81-93 | While candidates and distances stay the same the nearest tier holds the same servers in the same order, whatever the loads |
| Fairness.NearestDistinct | router/router.go:81-93 | A list without repetitions gives a nearest tier without repetitions |
| Fairness.EveryRoomyServerIsPicked | router/router.go:95-110 | Of any n consecutive live calls, n the size of the nearest tier, one picks a given server of it that keeps room, whatever strategy each call runs under |
| Fairness.EachServerOncePerTurn | router/router.go:95-110 | If all keep room, n consecutive live calls pick each of the n servers exactly once |
| Fairness.PickCountsDifferByAtMostOne | router/router.go:95-110 | Over any stretch of live calls the pick counts of two servers differ by at most one, if all keep room |
| Fairness.OncePerTurnIffNoDoneCall | router/router.go:95-110 | In a single tier of n >= 2 servers that keep room, over all runs with at most c calls whose context is done, n consecutive grants pick each server exactly once if and only if c is 0 |
| Fairness.DoneCallsStarve | router/router.go:96-108 | Runs of any length in which the second of two servers with room is never picked, because a done call follows every live one |
| Turns.ServedMovesNumber | router/queue.go:127-137 | In a pass, a live request in time that finds room gets the first server with room in cyclic order, and its model's number is then one past the start of that server's tier; no other number moves |
| Turns.UnservedMovesNumber | router/queue.go:127-140 | A request in time that is done or finds all candidates full moves the number past the last tier |
| Turns.NoCandidateMovesNothing | router/queue.go:127-140 | A request without candidates moves neither counters nor numbers |
| Turns.PassNeverParks | router/queue.go:133 | A pass never parks a request a second time |
| Turns.RoundsAreRun | router/queue.go:127-140 | The consecutive live requests in time of one model are a run of `route` calls as in module Fairness, whatever else the pass does in between |
| Turns.PassTakesTurns | router/queue.go:127-140 | While a nearest tier of n servers keeps room, any n consecutive live requests in time of the model take each of its servers exactly once in a pass |
| Balance.FullGrantIsLeastLoaded | router/router.go:114-134 | With nobody below capacity, best effort grants a least loaded candidate, the first in distance order among equals |
| Balance.ExactlyFullIsLevel | router/router.go:114-134 | Everybody exactly at the limit is a level state |
| Balance.FullGrantKeepsLevel | router/router.go:114-134 | A best-effort grant keeps (inflight_i - 1) * max_j <= inflight_j * max_i for all pairs of candidates |
| Balance.RunsStayLevel | router/router.go:95-134 | Over any run of grants without releases, from within the limits or from a level full state, loads are level whenever everybody is full |
| Routing.Router.Choose | router/router.go:57-141 | The in-place router computes the selection on values: same decision, same counters, same round-robin numbers |
| Routing.Router.TakeSnapshot | router/router.go:64-76 | The snapshot holds exactly the pooled candidates, with their limits and counters, at increasing positions of the list |
| Routing.Router.MakeGroups | router/router.go:85-93 | The two nested loops cut the list into its tiers |
| Routing.Router.ScanGroups | router/router.go:95-110 | The loop over tiers takes at most one slot and leaves the model's round-robin number as the scan on values does |
| Routing.Router.PickBest | router/router.go:115-126 | The loop finds the position of the first least loaded candidate |
| Routing.QueueManager.Enqueue | router/queue.go:40-65 | The item goes to the end of the queue with an empty channel, and a wake-up is pending; its deadline is the earlier of the queue timeout and the context's deadline |
| Routing.QueueManager.Notify | router/queue.go:145-150 | Afterwards a wake-up is pending, whether or not one was before |
| Routing.QueueManager.Receive | router/queue.go:67-69 | The result comes out of the item's channel and leaves it empty; the item is not in the queue |
| Routing.QueueManager.Route | router/router.go:53-55 | The answer is that of the selection, and the queue grows only when the decision is to park: by one item at its end, for this model and context, due at the earlier of the queue timeout and the context's deadline, and a wake-up is pending |
| Routing.QueueManager.RemoveItem | router/queue.go:84-93 | Exactly the item leaves the queue and the others keep their order |
| Routing.QueueManager.Abandon | router/queue.go:70-81 | After cancellation a connection already in the channel is released and the queue stays; otherwise exactly the item leaves the queue, the others keep their order, and no counter moves |
| Routing.QueueManager.ProcessQueue | router/queue.go:120-143 | A pass tries the items in arrival order, sends each served or late one its result, and leaves exactly the kept ones in the queue; the queue stays free of repetitions and of items already answered |
| Routing.QueueManager.Drain | router/queue.go:152-160 | Everyone in the queue is told of the cancellation and the queue is empty |
| Routing.DeliveredOnce | router/queue.go:127-140 | A pass writes to each item's channel its own result, writes to no kept item and to no other channel |
| Routing.CanceledOnce | router/queue.go:156-159 | A drain writes one cancellation to each queued item, in a channel that was empty, and nothing elsewhere |
| Routing.KeptStillWaits | router/queue.go:127-142 | What a pass keeps is again a queue of distinct items with empty channels |
| Passes.GrantsArePrefixPerModel | router/queue.go:127-140 | If an item is served in a pass, so is every earlier live, unexpired item of its model |
| Order.ServedInOrderOfArrival | router/queue.go:62-142 | Over whole runs of joins, withdrawals and passes, with anything happening to discovery and the pool between passes: when a pass serves a request, an earlier one of its model that is still queued, live and in time is served by the same pass |
| Order.GoneMeansSettled | router/queue.go:84-142 | A request that is no longer queued was served, timed out or withdrawn at some step |
| Order.FirstComeFirstServed | router/queue.go:62-142 | Hence, when a request is served, every earlier one of its model was settled before, or is served by the same pass, or is cancelled or late in it |
| Order.FreshRequestServedIffRoom | router/router.go:95-140 | Without best effort a fresh live request is served past those waiting if and only if some candidate has room |
| Order.NoOvertakingAfterPass | router/queue.go:127-142 | Directly after a pass that leaves a live request waiting, no fresh request of its model is served |
| Order.FreshRequestOvertakes | router/queue.go:127-142 | A run in which, after a release and before the next pass, one is |
| Passes.PassIsWorkConserving | router/queue.go:127-142 | At the end of a pass a live item that remains has no candidate with room |
| Passes.ServedMeansOnTime | router/queue.go:128-137 | An item is timed out if and only if its deadline is past; a served one was live and got a candidate of its model |
| Passes.PassAccountsForSlots | router/queue.go:120-143 | Every counter rises by exactly the connections handed out on that server |
| Passes.PassRespectsLimits | router/queue.go:133 | Without best effort a pass takes no counter from within its limit to above it |
| Passes.KeptIsSubsequence | router/queue.go:125-142 | The remaining queue is the old one at increasing positions |
| Passes.KeptPositionsComplete | router/queue.go:139 | No kept item is missing from those positions |
| Overshoot.ReachableInv | router/router.go:64-110 | In every reachable state, inflight plus the calls holding an unused reading below capacity is at most maxConn - 1 + T |
| Overshoot.OvershootBound | router/router.go:64-110 | With at most T overlapping calls inflight never exceeds maxConn + T - 1, and it counts the held connections when no call is under way |
| Overshoot.OneCallAtATimeKeepsLimit | router/router.go:103-107 | One call at a time never exceeds a limit |
| Overshoot.LimitHoldsIffOneCallAtATime | router/router.go:74-104 | inflight stays within maxConn over all runs if and only if calls never overlap |
| Overshoot.OvershootBoundIsReached | router/router.go:74-104 | For every limit and every T, a run after which maxConn + T - 1 connections are held |
| Handoff.ReachableInv | router/queue.go:40-93 | Over every interleaving, items that can still be sent a result are distinct and have never been sent one |
| Handoff.AtMostOneResult | router/queue.go:52-63 | Each item gets at most one result over any run, and a pending one has an empty channel |
| Handoff.SendsNeverBlock | router/queue.go:127-137 | Whenever a pass or a drain is about to send while holding the mutex, the channel has room |
| Handoff.SlotsAreConserved | router/queue.go:61-81 | Over every interleaving, adds and removals of servers included, a pooled server's inflight is the connections held outside the queue, by callers of `enqueue`, in channels and in the hand of a pass, minus those held at its last add |
| Handoff.NeverAddedAgain | backend/backend.go:98-112 | There is nothing to subtract for a server that is not added during the run |
| Waiting.NobodyIsForgotten | router/queue.go:40-160 | In every reachable state, in the middle of a pass or a drain too, an item can still be sent a result if and only if it was enqueued, has had none, and its `enqueue` has not returned |
| Waiting.PendingInOrderOfArrival | router/queue.go:62-142 | Those items stand in the order in which they were enqueued |
| Waiting.EarlierHadTheirTurn | router/queue.go:127-140 | While a pass is at an item, it has kept exactly the unanswered items enqueued before it |
| Waiting.LockCanBeFreed | router/queue.go:120-160 | A pass or a drain under way can always go on by itself and comes to its end |
| Waiting.NobodyIsStuck | router/queue.go:67-82 | From every reachable state every `enqueue` can return, by steps of the pass or drain under way, its own caller and its own context |
| Stranding.StrandedIffDefaultedInWindow | router/queue.go:72-80 | Once the caller has returned, its slot is stranded if and only if the inner default fell between the acquire and the send |
| Stranding.QuietCounterIsLostSlots | router/queue.go:61-81 | With all callers gone and nothing held, a counter is exactly the number of slots lost that way, minus the connections held at its server's last add |
| Stranding.TogetherLeavesNoChannelFull | router/queue.go:68-80 | If acquire and send are one step, an item's channel holds no connection once its `enqueue` has returned |
| Stranding.TogetherLosesNothing | router/queue.go:133-135 | Then, with everybody gone, a counter is back at zero, or below it by exactly the connections held at its server's last add |
| Stranding.CancelledInWindowLosesSlot | router/queue.go:133-135 | A run in which one cancelled request costs a slot for good |
| Deadlines.PassSettlesDeadlines | router/queue.go:124-142 | When a pass ends, an item it began with has been timed out if and only if its deadline was before the pass; no late item remains, and one that left in time got a connection |
| Deadlines.NoLateGrant | router/queue.go:128-135 | A pass never holds a connection for an item whose deadline is before the pass |
| Deadlines.GrantedWhileLive | router/queue.go:127-137 | Whoever was sent a connection was next in the pass, live and in time when it was acquired |
| Deadlines.DeadlineIsMinimum | router/queue.go:45-50 | The deadline worked out in `enqueue`, the earlier of the queue timeout and the context's deadline, stands for the rest of the run |
| Discovery.Discovery.SetServers | discovery/discovery.go:50-55 | Replaces the polling list and nothing that polls have recorded |
| Discovery.Discovery.UpdateModels | discovery/discovery.go:235-266 | Whatever order the map is visited in while it is edited, the server ends up in exactly the lists of the named models, at their end, and emptied models lose list and metadata |
| Discovery.Discovery.Discover | discovery/discovery.go:138-201 | A pass performs the polls up to the first cancellation, in order, and its result is that of those polls; it reports completion if and only if there is no cancellation before, between or within them |
| Discovery.Discovery.CollectIds | discovery/discovery.go:179-194 | Entries without an id are skipped, and metadata is stored for a model's first encounter only |
| Index.NamedIds | discovery/discovery.go:179-186 | A reply names exactly the non-empty ids of its entries |
| Index.PerformedIsPrefix | discovery/discovery.go:138-176 | The polls performed are those before the first cancellation, each server with its own reply |
| Discovery.Discovery.ServersForModel | discovery/discovery.go:211-227 | The healthy part of the model's list, in list order |
| Index.OnlyHealthyMembers | discovery/discovery.go:220-225 | The filter keeps exactly the healthy servers, and all of a healthy list |
| Index.OnlyHealthyInOrder | discovery/discovery.go:220-225 | The filter keeps them at increasing positions of the list |
| Index.ListNormalForm | discovery/discovery.go:244-265 | After any run of polls a list is its old entries not successfully polled, in old order, then the servers whose last successful poll names the model, in the order of those polls |
| Index.PassNormalForm | discovery/discovery.go:138-201 | After a pass over distinct servers: untouched old entries, then the advertisers in polling order; the model is absent if and only if that is empty |
| Index.ListedIffLastPollAdvertises | discovery/discovery.go:235-266 | A server is in a model's list if and only if the model has a name and some entry of the server's most recent successful reply has it as its id |
| Index.CandidatesAreLastAdvertisers | discovery/discovery.go:211-227 | After any run `ServersForModel` repeats nobody and consists of the servers whose last poll brought a list with an entry for the model |
| Index.HealthyIffLastPollSucceeded | discovery/discovery.go:229-233 | A server is healthy if and only if its last poll succeeded |
| Index.RunKeepsConsistent | discovery/discovery.go:244-265 | Lists are never empty and repeat no server, and metadata exists for exactly the listed models |
| Index.MetadataFixedWhileListed | discovery/discovery.go:188-192 | Metadata does not change as long as the model stays listed |
| Index.MetadataIsFirstEncounter | discovery/discovery.go:188-192 | The metadata of a newly listed model is the raw text of the first entry of the reply with its id |
| Index.RepeatKeepsLists | discovery/discovery.go:235-266 | Performing the same polls again leaves every list and its order as they were, failed polls and repeated servers included |
| Index.RepeatedPassChangesNothing | discovery/discovery.go:138-201 | An identical second pass over distinct servers changes neither lists nor metadata nor health |
| Jsonc.StripLineComment | server/opencode.go:206-228 | The loop over flags keeps of a line what a scan in three states keeps |
| Literals.KeptUpToFirstComment | server/opencode.go:204-228 | That is everything up to the first `//` that has only whole string literals and characters outside them before it, and the whole line if there is none |
| Literals.CodeIffWholeLiterals | server/opencode.go:206-222 | The two flags are both down behind a text if and only if it consists of whole string literals and other characters |
| Jsonc.StripJsonc | server/opencode.go:194-202 | Splitting, stripping and joining is a scan of the document in which every newline starts afresh, less trailing newlines |
| Jsonc.OnlyNewlinesGo | server/opencode.go:201 | The final trim takes all newlines off the end and nothing else |
| Jsonc.StripIsLexerIffCutAlike | server/opencode.go:191-202 | Stripping is a lexer of the whole document, apart from trailing newlines, if and only if every line that begins inside a string is cut at the same place read from inside and from outside a string |
| Jsonc.StripIsLexerIffNoSlashes | server/opencode.go:191-202 | In a text without backslashes, if and only if no such line contains two slashes in a row |
| Jsonc.StripIsLexer | server/opencode.go:191-202 | So it is on every text in which no string spans a newline |
| Jsonc.SpanningStringIsCut | server/opencode.go:206-210 | A text with a string over two lines whose stripped form is not what the lexer gives |
| Jsonc.StripIsIdempotent | server/opencode.go:194-202 | Stripping twice is stripping once, on every text |
| OpenCode.EscapeRoundTrip | server/opencode.go:177 | Decoding an escaped JSON string gives the string back, whatever it contains |
| OpenCode.PrintIsTransparent | server/opencode.go:177 | The scanner keeps printed JSON whole and is outside any string after it, even when strings contain quotes, backslashes or slashes |
| JsonReader.PrintRoundTrip | server/opencode.go:177 | A parser of JSON recovers every value from its printed text |
| Layout.PrintIsLaidOut | server/opencode.go:177 | Every line of a printed text is indented by two spaces for each bracket open around it, and all brackets are closed |
| Layout.PrintIsSafe | server/opencode.go:177 | No control character but the newline, no character that HTML reads and no Unicode line separator is printed, whatever the strings contain |
| OpenCode.HeaderVanishes | server/opencode.go:182-187 | Of the comment header only four newlines survive stripping |
| OpenCode.Reduce | server/opencode.go:259-267 | Whatever was posted, what goes to the decoder is not empty, has no white space at its ends and no comment left in it |
| OpenCode.ReducedIsBare | server/opencode.go:259-267 | The same of the reduced text: trimming at either end keeps a stripped text stripped |
| OpenCode.ReduceTwice | server/opencode.go:259-267 | Posting a reduced text again changes nothing more |
| Posted.TrimSpaceCutsWhite | server/opencode.go:259 | The trims take off both ends exactly the 25 characters Unicode lists as white space |
| Posted.BlankIsEmptyObject | server/opencode.go:259-267 | A body of nothing but those characters is reduced to `{}` |
| Posted.WithoutSlashesOnlyEndsGo | server/opencode.go:259-267 | A body without two slashes in a row loses the white space at its ends and nothing else |
| Posted.ReducedIsLexed | server/opencode.go:259-267 | A body whose strings stay on their lines is reduced to what the lexer of whole documents leaves of it, without white space at the ends, or to `{}` |
| OpenCode.GenerateThenReduce | server/opencode.go:177-267 | Posting a generated configuration back recovers exactly the printed JSON, for all model names and base URLs |
| OpenCode.GenerateConfig | server/opencode.go:158-189 | Returns the printed configuration and a commented text that reduces to it |
| JsonReader.GeneratedReadsBack | server/opencode.go:158-267 | Parsing the reduced text of a generated configuration gives the configuration back |
| JsonReader.OnlyBridgeIsEnabled | server/opencode.go:161-175 | A reader of the generated text finds the schema, a single provider, and that one enabled |
| JsonReader.ProviderIsReachable | server/opencode.go:164-172 | It finds the provider's api, name, base URL and key under their names, and no other fields |
| JsonReader.ModelsAreNamed | server/opencode.go:171-172 | It finds the models by name, in the given order |
| JsonReader.ModelIsListed | server/opencode.go:143-151 | It finds each model's id and its three limits, each under its own name |
| Server.Server.SyncServers | server/server.go:132-142 | A sync adds every configured server again and hands discovery their URLs in order, leaving what polls have recorded |
| Server.Server.HandleProxy | server/server.go:174-238 | Which reply every request gets, by its candidates, the strategy and the state of its context; every slot is as it was before; the round-robin numbers move as one `route` moves them; the success and error counters record exactly the two proxied outcomes; a parked item is at the end of the queue with the request's model, context and deadline |
| Server.Server.Resume | server/server.go:193-237 | A parked request that gets a connection gives the slot back after use and counts its outcome; a timeout or a drain answers 503 and moves no counter |
| Server.Server.GiveUp | server/server.go:194-208 | When the context of a parked request ends, exactly that request leaves the queue, or none if a result was already on its way, in which case a connection is given back; the answer is 503 if cancelled and 500 past its deadline |
| Server.SyncIsAdds | server/server.go:132-136 | In a run of pool operations a sync resets counters but closes no connection |
| Server.SyncShiftsCounters | server/server.go:132-136 | After a sync, until the server is added again, its counter is short by exactly the connections that were open at the sync |

## Left out

- Overshoot.OvershootBound: a call may try its readings in any order, of which the tier scan is one; the bound holds for all. Best effort and edits of the pool during a run are excluded.
- Handoff.SlotsAreConserved: a pass may be granted any pooled server or none, and an acquire or a release is one step here; their lookups are separate steps in module Lookups.
- Routing.QueueManager.ProcessQueue: the contexts, discovery and other callers stand still during one sequential pass; the interleavings are in module Handoff.
- Order.FirstComeFirstServed: joins, withdrawals and passes are whole steps; their interleavings are in module Handoff.
- Drift.CounterIsLiveMinusBase: acquires and releases are single steps; the gap between a lookup and its counter move, into which an `AddServer` may fall, is in Lookups.CounterLaw.
- Balance.RunsStayLevel: assumes the positive limits that saving a configuration enforces (config/config.go:227-232); ratios are exact; rounded to double precision they compare alike while the two cross-products of any two candidates add up to less than 2^53.
- Balance.FullGrantIsLeastLoaded: exact ratios, as in Balance.RunsStayLevel.
- Balance.FullGrantKeepsLevel: exact ratios, as in Balance.RunsStayLevel.
- Selection.BestIsFirstMinimum: exact ratios, as in Balance.RunsStayLevel.
- Routing.Router.PickBest: exact ratios, as in Balance.RunsStayLevel.
- OpenCode.EscapeRoundTrip: strings are sequences of Unicode scalar values; the replacement of invalid UTF-8 bytes is not modelled.
- OpenCode.GenerateConfig: the entries are an argument, in the order encoding/json writes a map's keys; the clamps that compute their limits (server/opencode.go:58-85, 119-141) are simple arithmetic.
- JsonReader.PrintRoundTrip: the parser reads strings, integers, arrays and objects, which is what is printed; fractions, exponents, surrogate pairs and the literals true, false and null are not part of it.
- Server.Server.HandleProxy: a parked request is returned as parked, and goes on in Resume or GiveUp; that one of them happens is up to the scheduler. Header copying, streaming and the upstream call are I/O.
- Server.Server.SyncServers: the metrics collector, which is told the same URLs, is not part of this model.
- Routing.QueueManager.Route: returns the parked item where the source blocks; the wait is Receive or Abandon here, and its interleavings are in module Handoff.
- Overlapping calls of `Discover`: one poller is modelled.
- Stopping the queue goroutine and starting it again; the ticker and the signal that trigger passes appear only as passes that may begin at any time.
- The admin handlers, persistence, defaults and environment of the configuration, the metrics collector and the web UI.
