# Goverse: a verified model

Goverse is a virtual-actor runtime. This project models its hardest parts in Dafny and proves what they
guarantee over every run, every input and every interleaving. Where a promise does not hold of the code
as written, there is a concrete run that breaks it and a theorem that says exactly when it does hold.

- **Reliable calls** (`Waiters`, `CallEngine`, `CallWaiters`, `CallSafety`, `CallFlag`,
  `CallGuarantees`, `CallSweeps`, `CallProgress`, `CallRaces`, `CallEviction`, `CallEvictionAnswers`,
  `CallEvictionRace`, `BaseObject`). One persistent object, its call table and its object row, its live
  instance with any number of processing loops, and its callers. Every critical section and every
  unlocked read of the marker is one step; crashes, evictions and reactivations may fall between any
  two. Waiter accounting holds for all interleavings, and so does what a loop gets done: whom it answers
  and closes, that a pass executes exactly what it fetched, and that no loop is stuck. Exactly-once
  effect holds in a run if and only if no loop executes a call that lies below the object's own marker,
  a test the code does not make. A cleanup that clears another loop's flag can lead there
  (`OverlapRunsACallTwice` is a run with a double effect and two different answers) but need not
  (`HarmlessClobber`); if exit and cleanup were one critical section, it never would
  (`AtomicExitIsExactlyOnce`). Evictions that a busy loop outlives and saves whose errors the code drops
  are covered too. Then exactly-once effect, including that no answered call is lost from the saved
  state, holds if and only if nobody executes out of turn, saves a state without a decided call or
  records an outcome that the saved state does not have (`EffectIffUnharmed`; `EvictionLosesAnEffect`
  and `DroppedSaveLosesAnEffect` are runs that lose an answered call). Callers agree if and only if no
  status write changes a decided row (`AgreeIffNotOverwritten`; in `EvictedLoopRepeatsACall` one does).
  Evicted instances that write nothing do no harm (`QuietEvictionsAreSafe`).
- **Shard ownership and leadership** (`Shards`, `ClusterProtocol`, `ClusterSafety`, `ClusterGuarantees`,
  `ClusterProgress`, `ClusterRaces`). etcd as a log of writes, members with lagging caches,
  compare-and-swap transactions that can be lost, land late, or be reported as failed although they
  committed. A running node that believes it holds a shard is right, except while its own release has
  committed and not reached its cache: `TwoBelievers` is such a run, `PromptBeliefIsTrue` shows that
  caching a release with its commit would rule it out, and `BeliefIsTrueUnlessSent` gives a node a test
  of its own. A member in step with etcd claims, releases and takes over exactly what it should, and
  undisturbed succeeds.
- **Leader planners** (`Rebalance`, `RoundRobin`, `Reassign`, `StuckShards`). The loops as the source
  has them, tied to what they promise: batches that help whichever part of them commits, fair and
  idempotent reassignment, an exact account of when a stuck shard loses its target.
- **Ticks and convergence** (`Ticks`, `Convergence`, `Routing`). The management tick of a node, and the
  proof that ticks in any order, whatever part of the leader's plans is stored, lead to every shard
  being held by its live target and every shard-routed ID being routable.
- **Locks** (`KeyLocks`, `ShardLocks`). The reference-counted per-key locks under every interleaving,
  exclusion in terms of the calls made, and deadlock freedom of ordered acquisition.
- **Codecs** (`ShardCodec`, `Decimals`, `ObjectIds`). The shard value's parser and printer, and the two
  readers of object IDs.

`Options` and `Sets` hold small shared definitions.

## Assumptions

Reliable calls: there is one live instance per object; the object is persistent and never deleted; only
reliable calls change its state; an INSERT that fails leaves no row; writing a call's status either
succeeds or the process dies (the code drops its error, object/object.go:716); call IDs are not shared
between objects, and sequence numbers used by other objects appear as gaps. What a method does is an
arbitrary relation between state, request, new state and outcome. In `CallEngine` an eviction is one
step, after which the instance does nothing, and saving the object also succeeds or the process dies.
`CallEviction` drops both assumptions: the loops of evicted instances go on, and a loop whose save fails
goes on too (the code drops that error, object/object.go:710). An evicted instance has no callers: they
hold the object's lifecycle lock, which an eviction waits for.

Ownership: all shard writes go through `storeShardMapping` and keys are never deleted; a node's key
disappears only after the node has stopped, and addresses are not reused; a reload and its assignment
are one step. Shard values are kept as records; `ShardCodec.RoundTripIffWellFormed` says which records
survive the trip through etcd.

Convergence: the live nodes and the leader do not change, every view is in step with etcd, the cluster
state counts as stable, claims, releases and evictions succeed, and no stuck-shard timeout fires. Of the
leader's writes in a tick any part may fail; ticks in which all of them fail do not count as leader
ticks. The shuffle, the starting offset, the hash function and the objects on a node are arbitrary.

Arithmetic on floating-point numbers (the imbalance threshold) is over reals. Go's 64-bit `int` is
unbounded except where numbers are read from text.

## Model

| member | source | states |
|---|---|---|
| CallWaiters.EveryWaiterIsAnsweredOnce | object/object.go:466-643 | In every state of every run, with any number of overlapping loops: each registered channel has had at most one value and then at most one close, the value is the decided call of the channel's own number, a non-empty waiter list means some loop is left to empty it, and once no loop is left every channel is closed. |
| CallSweeps.SweepTakesExactlyThoseBelow | object/object.go:524-545 | Over every run: a sweep leaves a waiter on the list if and only if its number is at or above the marker as the loop last read it, and puts exactly the channels of the others into the loop's hands. |
| CallSweeps.QueryLeavesNobodyBehind | object/object.go:569-573 | Over every run: when a loop queries, everyone who was on the list at its sweep below the marker it had read has been closed, and whoever is on the list below it has registered since. |
| CallSweeps.NotifyTakesExactlyThoseDue | object/object.go:524-538 | Over every run: a notification leaves a waiter on the list if and only if it waits for a later call than the one the loop has just executed, and takes up exactly those waiting for that call, to send it, and exactly the earlier ones, to close them. |
| CallSweeps.NextCallLeavesNobodyBehind | object/object.go:545-553 | Over every run: when a loop goes on to its next call, everyone who was on the list for the last one at its notification has been sent exactly that call with its outcome and closed, the earlier ones have been closed, and whoever is on the list for either has registered since. |
| CallSweeps.ClosedForAReason | object/object.go:466-475 | Over every run: a channel closed without a value belongs to a call that the instance's marker has passed, or to a caller who was waiting when a loop cleaned up. |
| CallProgress.PassRunsWhatItFetched | object/object.go:573-592 | Over every run, with any overlap of loops: a pass that comes to its end has executed exactly the calls that were pending at its query, at or above the marker the loop had read, each once and in order. |
| CallProgress.ExitLeavesNothingPending | object/object.go:594-617 | A loop decides to exit if and only if nobody waits, and goes round again otherwise; in runs without stale executions every call that was in the table at its last query, unless that failed, has been executed. |
| CallProgress.LoopCanMove | object/object.go:561-643 | Over every run, if every method returns: no loop is stuck; it can take a step, or it waits for the state lock and the loop that holds it can. |
| CallProgress.ReactivationResumes | node/node.go:877-920 | Over every run: the first activation after an eviction has exactly the state and marker that the evicted object had, and after a crash those last saved. |
| CallGuarantees.ExactlyOnceIffNoneStale | object/object.go:561-745 | In every run, with any overlap of loops, crashes, evictions and reactivations: the saved object and the object in memory are, in all states, each the result of executing exactly the inserted calls below their marker, once each, in order, if and only if no step executes a call below the executing object's marker. |
| CallGuarantees.AtomicExitIsExactlyOnce | object/object.go:605-643 | If nothing but a crash came between a loop's exit decision and its cleanup, the effect would be exactly-once in every state. |
| CallGuarantees.SavedStateIsFold | object/object.go:561-745 | In runs without such a stale execution, for methods that depend only on state and request, the saved state is the fold of the calls below the saved marker. |
| CallGuarantees.InOrderIffNoneStale | object/object.go:561-603 | Every instance executes calls in strictly increasing order, even as calls are inserted during a drain, if and only if no execution is stale. |
| CallGuarantees.ResultAgreement | node/node.go:494-595 | In runs without stale executions, all callers that get a terminal status for one call ID, from a channel, a cached row or a poll, now or later, get the same one: that of the one execution in the saved history. |
| CallGuarantees.StatusMeans | object/object.go:723-745 | In runs without stale executions a decided call is skipped if and only if its request does not decode, and then left the object as it was; success carries no error and failure no result. |
| CallFlag.OrderlyIsFresh | object/object.go:561-643 | A run in which no loop that has decided to exit cleans up while another one is alive has no stale execution. |
| CallFlag.FlagExactIffNoClobber | object/object.go:478-643 | The processing flag is up exactly while one loop is alive, in every state of a run, if and only if no loop that has decided to exit cleans up while another one is alive. |
| CallFlag.AtomicExitIsOrderly | object/object.go:605-643 | If nothing but a crash came between the exit decision and the cleanup, no cleanup would take another loop's flag, and the flag would be exact in every state. |
| CallRaces.OverlapRunsACallTwice | object/object.go:605-643 | A reachable state, by two callers of one call after an activation drain, in which the call has been executed twice, its effect is saved twice, and the caller who polled and the caller who waited were told different outcomes. |
| CallRaces.HarmlessClobber | object/object.go:629-643 | A reachable state in which a cleanup takes another loop's flag and exactly-once holds before and after it. |
| CallEviction.EffectIffUnharmed | node/node.go:883-920 | With evicted instances still taking loop steps beside the live one and failing saves ignored, over every run: the saved state and every instance's memory replay exactly the calls below their markers, and every decided call is in the saved state with the outcome its row tells, in all states, if and only if nobody executes a call other than the first inserted one at or above its own marker, saves a snapshot that lacks a decided call, or records an outcome that the saved history does not have. |
| CallEvictionAnswers.AgreeIffNotOverwritten | util/postgres/persistence.go:227-256 | Over every such run: all callers of a call, by channel, cached row or poll, now or later, are told the same outcome if and only if no status write, by a live or an evicted loop, changes a row that is decided already. |
| CallEvictionAnswers.UnharmedAgree | node/node.go:494-595 | In runs without one of those three harmful steps all callers agree, and from an answer on the saved state has the execution it comes from. |
| CallEvictionAnswers.QuietIsEngineRun | node/node.go:883-920 | If no evicted instance saves or records and no save of the live one fails, the tables, the live instance and the callers go through a run of the engine in which every eviction is a crash. |
| CallEvictionAnswers.QuietEvictionsAreSafe | node/node.go:883-920 | In such runs exactly-once effect of the saved and the live object holds in all states if and only if no step of the live instance is stale, and then every decided call is in the saved state and callers agree. |
| CallEvictionRace.EvictedLoopRepeatsACall | node/node.go:908-917 | A reachable state in which an evicted instance and its successor both executed one call and two callers were told different outcomes, although the saved state is an exact replay. |
| CallEvictionRace.EvictionLosesAnEffect | node/node.go:908-917 | A reachable state in which a caller was told that a call succeeded, the saved object has not executed it, no instance is live, no evicted loop has it in hand and no fetch will find it again. |
| CallEvictionRace.DroppedSaveLosesAnEffect | object/object.go:704-721 | A reachable state of a single instance whose save failed: a caller was told that the call succeeded, the saved object has not executed it, and no fetch will find it again. |
| CallGuarantees.StrandedIffDiedOwing | object/object.go:704-721 | In every run without stale executions, a call's effect is saved while its row is pending and owed by no loop if and only if the process died at some point between saving that call's effect and writing its status. |
| CallGuarantees.StrandedForever | node/node.go:540-595 | A call stranded that way stays pending in every later state, and nobody who asks for it ever gets an answer. |
| CallRaces.CrashLosesTheAnswer | object/object.go:704-721 | A reachable state, by a caller who registers during the activation drain, in which the call's effect is saved and its row is stranded. |
| Waiters.InsertSorted | object/object.go:512-519 | Inserting a waiter keeps the list sorted. |
| Waiters.PopBySeq | object/object.go:524-537 | In a sorted list the popped prefix is exactly those waiting for the given call or an earlier one, and the two groups are told apart by number. |
| Waiters.PopLosesNobody | object/object.go:524-537 | A pop splits the list into missed, matched and remaining, in order and without losing anyone. |
| BaseObjects.BaseObject.InsertWaiterSorted | object/object.go:512-519 | Bubbling up puts the waiter behind everyone waiting for the same or an earlier call and before all others, and the list is the old one with this waiter added. |
| BaseObjects.BaseObject.PopDue | object/object.go:524-538 | The pop loop returns the missed and the matched channels and leaves the rest. |
| BaseObjects.BaseObject.Register | object/object.go:478-485 | Registering inserts the waiter, raises the flag, and tells the caller to start a loop exactly if the flag was down. |
| BaseObjects.BaseObject.TryExitIfNoWaiters | object/object.go:607-617 | The loop may exit exactly if nobody waits, and only then is the flag lowered. |
| BaseObjects.BaseObject.CleanupProcessingLoop | object/object.go:629-643 | All remaining channels are closed, the list is emptied and the flag lowered, whoever's it is. |
| BaseObjects.BaseObject.ProcessReliableCall | object/object.go:699-745 | One call is executed or skipped, the marker moves past it, state and marker are saved together, and the row gets the outcome. |
| BaseObjects.BaseObject.DrainPending | object/object.go:573-592 | From a consistent object and table, one pass, up to a shutdown noticed after any number of calls, leaves them consistent with so many more rows executed, in order, each holding its own execution's outcome; everyone on the list who waits for one of them is sent its decided row, exactly once, everyone else up to the last of them is closed without a value, exactly once, and nobody else is touched. |
| BaseObjects.CallTable.InsertOrGet | util/postgres/persistence.go:167-224 | A new call ID gets the next number and a pending row; a known one gets its row back and nothing else changes; IDs stay unique and numbers increasing. |
| BaseObjects.CallTable.GetPending | util/postgres/persistence.go:260-322 | The rows that are pending and at or above the marker, exactly these, in order. |
| BaseObjects.CallTable.UpdateStatus | util/postgres/persistence.go:227-256 | Exactly the row of that number gets the outcome, and the caller learns whether there was one. |
| BaseObjects.CallTable.SaveObject | util/postgres/persistence.go:24-49 | State and marker replace the object row together; the calls are untouched. |
| ClusterGuarantees.CacheIsHistory | cluster/consensusmanager/consensusmanager.go:839-878 | In every reachable state each cached entry is what etcd held at the entry's revision, and every shard's history is made of legal claims, releases and changes of target or flags. |
| ClusterGuarantees.CommittedOnTruth | cluster/consensusmanager/consensusmanager.go:1330-1376 | A shard write that commits was decided on the value etcd holds at that moment. |
| ClusterGuarantees.BeliefIsTrueUnlessReleased | cluster/consensusmanager/consensusmanager.go:1416-1508 | For a running node whose cache names it as the current node, etcd agrees if and only if the log has no release by that node beyond its cache. |
| ClusterGuarantees.SingleOwner | cluster/consensusmanager/consensusmanager.go:1416-1508 | Two running nodes that both believe they hold a shard, neither with an unseen release of its own, are the same node, however late watch events arrive. |
| ClusterGuarantees.PromptBeliefIsTrue | cluster/consensusmanager/consensusmanager.go:1364-1376 | If each release by a running node were cached in the step after its commit, then in every other state a running node that believes it holds a shard would be right, and it would be the only one. |
| ClusterGuarantees.BeliefIsTrueUnlessSent | cluster/consensusmanager/consensusmanager.go:1515-1566 | A running node that believes it holds a shard and has sent no release of it since it cached the entry is right, and every other running node that believes so has sent one. |
| ClusterProgress.ClaimSucceeds | cluster/consensusmanager/consensusmanager.go:1416-1472 | In every reachable state a running member in step with etcd claims a shard if and only if it is the target and no live node holds it, and undisturbed the claim makes it the holder in etcd and in its cache. |
| ClusterProgress.ReleaseSucceeds | cluster/consensusmanager/consensusmanager.go:1479-1566 | In every reachable state a running member in step with etcd releases a shard if and only if it holds it, another node is the target and no local object is left on it, and undisturbed the shard is then free in etcd and in its cache. |
| ClusterProgress.RetargetSucceeds | cluster/consensusmanager/consensusmanager.go:1330-1376 | What a planner in step with etcd decides about a shard takes effect, target and flags, and leaves the holder alone. |
| ClusterProgress.TakeoverSucceeds | cluster/consensusmanager/consensusmanager.go:1072-1128 | In every reachable state a running member in step with etcd bids for leadership if and only if the leader is nobody or has lost its key and is not itself, and undisturbed it becomes the leader in etcd and in its cache. |
| ClusterRaces.TwoBelievers | cluster/consensusmanager/consensusmanager.go:1364-1376 | A reachable state with two running nodes that both believe they hold a shard, one of them with its own release committed and not yet cached. |
| ClusterGuarantees.SingleLeader | cluster/consensusmanager/consensusmanager.go:1072-1128 | A running node that takes itself for the leader is the leader in etcd. |
| ClusterGuarantees.OneTakeoverPerRevision | cluster/consensusmanager/consensusmanager.go:1106-1120 | Each takeover replaces a later revision than the one before, so one revision is replaced at most once, and its holder was nobody or had lost its key. |
| Rebalance.PlanRebalance | cluster/consensusmanager/consensusmanager.go:1665-1777 | The batch is bounded, moves shards without the pinned flag between live nodes, each at most once, changes only targets, has no node both giving and receiving, and leaves givers no lighter than receivers; nothing is planned without nodes or with a shard that has no target; a batch that stops short stops because planning is settled, and anything is planned only if it was not settled at the start. |
| Rebalance.SettledIff | cluster/consensusmanager/consensusmanager.go:1739-1768 | Planning is settled if and only if under the plan any two live nodes are at most one shard apart, or their gap times the number of nodes is at most the threshold times the number of shards, or the first of the most loaded nodes has only pinned and already moved shards. |
| Rebalance.ImbalancedPlainly | cluster/consensusmanager/consensusmanager.go:1739-1748 | The imbalance test holds exactly for a gap of two or more that, times the number of nodes, exceeds the threshold times the number of shards. |
| Rebalance.PartialCommitImproves | cluster/consensusmanager/consensusmanager.go:1720-1794 | Whatever part of such a batch commits, the sum of squared loads of the live nodes falls by at least two per committed move. |
| Rebalance.PartialCommitKeepsGap | cluster/consensusmanager/consensusmanager.go:1720-1794 | Whatever part of such a batch commits, the gap between the most and the least loaded live node does not widen. |
| Rebalance.PartialCommitConserves | cluster/consensusmanager/consensusmanager.go:1720-1794 | Whatever part of such a batch commits, the total number of shards targeted at live nodes stays the same. |
| Rebalance.CountTargets | cluster/consensusmanager/consensusmanager.go:1682-1711 | All shards are assigned exactly if the pass says so, and then every live node's list holds exactly its shards, once each, with their number. |
| Rebalance.PickExtremes | cluster/consensusmanager/consensusmanager.go:1722-1737 | The first of the most loaded and the first of the least loaded nodes. |
| Rebalance.FindMovable | cluster/consensusmanager/consensusmanager.go:1750-1764 | A listed shard that is neither pinned nor selected, or the certainty that there is none. |
| Reassign.PlanReassign | cluster/consensusmanager/consensusmanager.go:1571-1631 | For every mapping, shuffle and offset: shards with a live target or pinned to a named one are left alone, a shard without target goes to its live holder, every other one to a live node, nothing but targets changes, and each node gets the anchorless shards' number over the nodes' number, rounded down or up. |
| Reassign.ReassignSettlesTargets | cluster/consensusmanager/consensusmanager.go:1592-1624 | Afterwards every shard has a live target or is pinned to a named one; exactly the shards that had neither change, nothing but targets does, and a shard without a target goes to its holder if that is live. |
| Reassign.ReassignIsIdempotent | cluster/consensusmanager/consensusmanager.go:1571-1631 | A second reassignment finds nothing to do, whatever it draws. |
| Reassign.Collect | cluster/consensusmanager/consensusmanager.go:1592-1614 | The first pass settles exactly the anchored shards and lists exactly the anchorless ones. |
| RoundRobin.FairShare | cluster/consensusmanager/consensusmanager.go:1620-1624 | Dealing k items to n places in turn from any start gives each place k over n, rounded down or up. |
| StuckShards.StuckShardTracker.Check | cluster/consensusmanager/consensusmanager.go:406-466 | One check takes the target from exactly the unpinned, unclaimed shards with a live target that have been tracked for the timeout, and then tracks exactly the other such shards, each since it was first seen. |
| StuckShards.ClearedIffWaitedOut | cluster/consensusmanager/consensusmanager.go:426-455 | Over any sequence of checks, a check clears a shard if and only if it sees it stuck and the shard has been waiting, through every check since, from one at least the timeout ago. |
| StuckShards.TrackedIffWaiting | cluster/consensusmanager/consensusmanager.go:426-462 | A shard is tracked after a sequence of checks if and only if it is waiting, and the time kept is that of the check its wait began with. |
| StuckShards.TrackedAreStuckUncleared | cluster/consensusmanager/consensusmanager.go:457-462 | After each check the tracked shards are exactly the stuck ones that it did not clear. |
| Ticks.ClusterMember.StoreShardMapping | cluster/consensusmanager/consensusmanager.go:1282-1411 | For every set of writes that succeed: exactly those are stored, their number is returned, and an error exactly if one failed. |
| Ticks.ClusterMember.LeaderShardManagement | cluster/cluster.go:1795-1848 | The leader reassigns if some shard lacks a target, otherwise rebalances if it can, and otherwise changes nothing; whatever part of its plan lands is stored, and it reports a change exactly if something landed and was not just a part of a rebalancing batch. |
| Ticks.ClusterMember.ClaimShardOwnership | cluster/consensusmanager/consensusmanager.go:1416-1472 | Exactly the shards targeted at the node and held by nobody alive become held by it. |
| Ticks.ClusterMember.RemoveMisplacedObjects | cluster/cluster.go:1753-1790 | An object is still there afterwards if and only if it was before and it contains a slash or its shard is mapped with this node as both current and target. |
| Ticks.ClusterMember.ReleaseShardOwnership | cluster/cluster.go:1724-1748 | Exactly the shards held by the node, targeted elsewhere and without local slash-free objects are given up. |
| Ticks.ClusterMember.HandleShardMappingCheck | cluster/cluster.go:1544-1576 | Whatever objects a node hosts, a tick is the leader's part and, unless that reports a change, the one-shard rule `Settle` on every shard; then an object is still there if and only if it was before and it contains a slash or its shard is held by and targeted at this node; after a reported change all objects are. |
| Convergence.LeaderChangesAreBounded | cluster/cluster.go:1795-1848 | In every run of ticks in any order, with any non-empty part of each plan stored, the leader changes targets in at most N*N/2 + N ticks for N shards. |
| Convergence.QuietForever | cluster/cluster.go:1795-1848 | Once the leader finds nothing to change, it never changes anything again. |
| Convergence.QuietIsBalanced | cluster/cluster.go:1795-1848 | From then on any two live nodes are at most one shard apart or within the threshold share, unless all shards of the first of the most loaded nodes are pinned. |
| Convergence.TwoRoundsConverge | cluster/cluster.go:1544-1576 | After that, two rounds of ticks by all nodes, in any order and mixed with others, bring every shard to its live target for good. |
| Convergence.Converges | cluster/cluster.go:1544-1576 | A run with enough leader ticks and two rounds after them ends with every shard held by its live target if and only if no shard was pinned to a node that is not live. |
| Routing.ConvergedRoutes | cluster/consensusmanager/consensusmanager.go:1161-1207 | In a converged run every shard-routed ID reaches the live target of its shard. |
| Routing.RoutesIff | cluster/consensusmanager/consensusmanager.go:1161-1207 | On every ID and map: a node-addressed ID goes to its node, any other valid ID to the holder of its shard if and only if that holder is live and the shard is not targeted elsewhere, and no other ID goes anywhere. |
| KeyLocks.CountIsUsers | util/keylock/keylock.go:49-105 | Under every interleaving a key is mapped exactly while it has holders, askers or leavers, all of them refer to the one mapped entry, and the entry's count is their number. |
| KeyLocks.Exclusion | util/keylock/keylock.go:49-105 | Two holders of one key are both readers, although entries are deleted and created again. |
| KeyLocks.TokenIsRequest | util/keylock/keylock.go:49-88 | Every acquisition has the key and the mode of the call that began it. |
| KeyLocks.RequestIsToken | util/keylock/keylock.go:49-88 | Every call that was made and not ended is an acquisition with its key and mode. |
| KeyLocks.LockExcludes | util/keylock/keylock.go:49-105 | Of two calls for one key that were made and not ended, one of them to Lock, at most one is through. |
| KeyLocks.WriterBlockedBy | util/keylock/keylock.go:59-60 | A writer can claim a key's mutex if and only if no writer holds or has claimed it, and having claimed it gets the lock if and only if nobody holds the key; claiming and getting it are what these steps do. |
| KeyLocks.ReaderBlockedBy | util/keylock/keylock.go:81-82 | A reader gets in at once if and only if no writer holds or has claimed the key; a blocked reader always has such a writer, whose unlock lets it in. |
| KeyLocks.EnterCounts | util/keylock/keylock.go:50-57 | The machine's first critical section adds one user to its key and none to any other. |
| KeyLocks.ReleaseCounts | util/keylock/keylock.go:92-105 | The machine's last critical section takes one user from its key and none from any other. |
| KeyLocks.KeyLock.Acquire | util/keylock/keylock.go:50-57 | Every user of a key gets the mapped entry, created if need be, and exactly that key's count grows by one. |
| KeyLocks.KeyLock.Release | util/keylock/keylock.go:92-105 | Exactly that key's count falls by one, and the entry goes with its last user. |
| ShardLocks.NoDeadlockIffDistinct | cluster/shardlock/shardlock.go:29-74 | For any number of threads with single or multiple requests, whenever nobody can move everybody is done, if and only if every multiple request names distinct shards. |
| ShardLocks.WriteExcludes | cluster/shardlock/shardlock.go:29-74 | In every reachable state a thread holds only shards its request names, all of them in its critical section, and a shard held by a request to write is held by no other. |
| ShardLocks.SomebodyCanMove | cluster/shardlock/shardlock.go:45-74 | In every reachable state of threads that lock in strictly ascending order, some thread can move until all are done, whether or not waiting writers bar readers. |
| ShardLocks.RunsAreBounded | cluster/shardlock/shardlock.go:45-74 | Every move brings the end one step closer, so every run is finite. |
| ShardLocks.DuplicateBlocksItself | cluster/shardlock/shardlock.go:51-65 | A writer whose list repeats a shard never gets past it, whatever the others do. |
| ShardLocks.LockKeys | cluster/shardlock/shardlock.go:55-65 | The keys are the sorted shards' decimal numbers, and they are distinct exactly if the shards are. |
| ShardLocks.SortAscendsIffDistinct | cluster/shardlock/shardlock.go:55-58 | The sorted copy is strictly ascending exactly if the shards are distinct. |
| ShardCodec.RoundTripIffWellFormed | cluster/consensusmanager/consensusmanager.go:915-972 | Parsing what was formatted gives the value back if and only if its nodes are trimmed, comma-free and do not start with `f=`, and its flags are trimmed, comma-free and not empty. |
| ShardCodec.FormatOfParseIsIdempotent | cluster/consensusmanager/consensusmanager.go:915-972 | For every string, parsing and formatting settles it: doing so again changes nothing. |
| ShardCodec.ParseShardInfo | cluster/consensusmanager/consensusmanager.go:915-956 | The loop over the parts yields the first two non-flag parts and all non-empty flags in order. |
| ShardCodec.ParseReadsNodes | cluster/consensusmanager/consensusmanager.go:915-956 | On every string the target is the first trimmed part that is not a flag and the current node the second, or empty where there is none. |
| ShardCodec.ParseReadsFlags | cluster/consensusmanager/consensusmanager.go:923-932 | On every string the flags are exactly the non-empty ones that some trimmed part spells after `f=`. |
| ShardCodec.SplitJoins | cluster/consensusmanager/consensusmanager.go:917 | The parts of a value, put together with commas, are the value. |
| ShardCodec.TrimExactly | cluster/consensusmanager/consensusmanager.go:924 | Trimming takes off spaces at both ends, all of them and nothing else. |
| ShardCodec.FormatShardInfo | cluster/consensusmanager/consensusmanager.go:960-972 | The loop over the flags appends exactly the trimmed non-empty ones. |
| ObjectIds.ReadersAgree | cluster/sharding/sharding.go:14-37 | On every string the shard function reads the number exactly when the validator accepts the ID as fixed-shard, gets the same number, and hashes otherwise. |
| ObjectIds.AcceptedIff | util/objectid/parser.go:48-106 | On every string the parser accepts exactly the three forms, regular, fixed-node and fixed-shard, each with exactly its parts. |
| ObjectIds.ShardInRange | cluster/sharding/sharding.go:14-37 | For a positive number of shards the shard is always in range. |
| ObjectIds.PrintedIdReadsBack | cluster/cluster.go:1683 | A printed per-shard ID, with any name, is accepted with that shard and name, and both readers give the shard back. |
| ObjectIds.ShardIdReassembles | util/objectid/parser.go:66-86 | An accepted fixed-shard ID is the prefix, digits of its shard, a slash and the object part. |
| ObjectIds.NodeIdReassembles | util/objectid/parser.go:88-95 | An accepted fixed-node ID is its non-empty slash-free node, a slash and the object part. |
| Decimals.AtoiOfItoa | cluster/cluster.go:1908 | A number in the range of `int` that is printed reads back as itself. |
| Decimals.AtoiIff | util/objectid/parser.go:76-79 | What is read as a number is exactly digits with or without a sign whose value is in the range of `int`. |

## Left out

- BaseObjects.CallTable.InsertOrGet: object ID and type are fixed, since the table is that of one object, and timestamps are not kept.
- BaseObjects.BaseObject.ProcessReliableCall: the text of a deserialization error is a fixed string here and arbitrary in the step system; a failed save is a step of the step system only, and a failed status write is not modelled.
- BaseObjects.BaseObject.DrainPending: one goroutine only; interleavings are the subject of the step system. A fetch that fails is a step there too.
- Ticks.ClusterMember.StoreShardMapping: writes are made one after the other; parallel workers, and commits reported as errors, are the subject of `ClusterProtocol`.
- KeyLocks.KeyLock.Acquire: blocking on the entry's mutex is a step of the interleaving machine, not of the class.
- ShardLocks.LockKeys: sorting is an insertion sort in place of the library's, and the acquisitions are steps of the machine.
- ShardCodec.ParseShardInfo: text is a sequence of Unicode characters, so byte sequences that are not UTF-8 are not covered.
- CallEviction.EffectIffUnharmed: an evicted loop may make more steps here than the shutdown tests of the code allow, and a detach need not follow a save.
- Object IDs that contain a slash are skipped by eviction, release and shard locks in the source, and so here.
- gRPC, HTTP, gates, client libraries and node connections: transport with little state.
- Inspector, web interface and demos: display only; one demo writes shard keys without compare-and-swap and is outside the protocol.
- Lease keep-alive: only its outcome appears, a node key coming and going.
- Reflection, protobuf and JSON marshalling, SQL text, metrics and logging.
- The FNV hash: an arbitrary function into 32 bits.
- Non-reliable calls and lock cycles through nested user calls: they depend on user methods.
- Access rules, lifecycle rules, configuration, backoff and worker pools would add only easy members.
- Real time, except as the clock of stuck-shard tracking.
