/** Batched rebalancing (RebalanceShards of cluster/consensusmanager/consensusmanager.go).

    The leader plans a batch of shard moves from the most to the least loaded nodes and stores them
    with independent compare-and-swap writes, any of which may fail. The planner is given as the
    source writes it; what it plans is then shown to be safe whichever part of it commits. */
module Rebalance {
  import opened Sets
  import opened Shards

  // ----- Counting targets -----

  /** The shards below `numShards` that are targeted at node `n`. */
  function TargetSet(shards: ShardMap, numShards: nat, n: string): set<int> {
    set s | 0 <= s < numShards && s in shards && shards[s].target == n
  }

  function Count(shards: ShardMap, numShards: nat, n: string): nat {
    |TargetSet(shards, numShards, n)|
  }

  /** The part of a batch that committed. */
  function Part(updates: ShardMap, done: set<int>): ShardMap {
    map s | s in updates && s in done :: updates[s]
  }

  /** It, laid over the mapping it was planned on. */
  function Committed(shards: ShardMap, updates: ShardMap, done: set<int>): ShardMap {
    shards + Part(updates, done)
  }

  function SumOfSquares(shards: ShardMap, numShards: nat, nodes: seq<string>): int {
    if nodes == [] then 0
    else
      Count(shards, numShards, nodes[0]) * Count(shards, numShards, nodes[0])
      + SumOfSquares(shards, numShards, nodes[1..])
  }

  // ----- What a batch promises -----

  /** A move takes an unpinned shard from one live node to another and changes nothing but its target. */
  predicate IsMove(nodes: seq<string>, before: ShardInfo, after: ShardInfo) {
    && !Pinned(before) && after == before.(target := after.target)
    && before.target in nodes && after.target in nodes && before.target != after.target
  }

  ghost predicate AllMoves(nodes: seq<string>, numShards: nat, shards: ShardMap, updates: ShardMap) {
    forall s :: s in updates ==> 0 <= s < numShards && s in shards && IsMove(nodes, shards[s], updates[s])
  }

  /** No node both gives and receives, and once the whole batch is in, every giver still has at least
      as many shards as every receiver. */
  ghost predicate OneWay(numShards: nat, shards: ShardMap, updates: ShardMap) {
    forall s, t :: s in updates && s in shards && t in updates ==>
      && shards[s].target != updates[t].target
      && Count(shards + updates, numShards, shards[s].target) >= Count(shards + updates, numShards, updates[t].target)
  }

  ghost predicate GoodBatch(nodes: seq<string>, numShards: nat, shards: ShardMap, updates: ShardMap) {
    AllMoves(nodes, numShards, shards, updates) && OneWay(numShards, shards, updates)
  }

  // ----- Any part of a good batch is an improvement -----

  /** With `s` still to come, its giver has one more and its receiver one less than at the end. */
  lemma RoomToMove(nodes: seq<string>, numShards: nat, shards: ShardMap, updates: ShardMap, done: set<int>, s: int)
    requires GoodBatch(nodes, numShards, shards, updates) && s in updates && s !in done
    ensures var m, p := Committed(shards, updates, done), shards + updates;
            && Count(m, numShards, shards[s].target) >= Count(p, numShards, shards[s].target) + 1
            && Count(m, numShards, updates[s].target) + 1 <= Count(p, numShards, updates[s].target)
  {
    var m, p := Committed(shards, updates, done), shards + updates;
    var a, b := shards[s].target, updates[s].target;
    assert forall x :: x in updates ==> shards[s].target != updates[x].target && shards[x].target != updates[s].target;
    assert TargetSet(p, numShards, a) <= TargetSet(m, numShards, a);
    StrictSubsetSize(TargetSet(p, numShards, a), TargetSet(m, numShards, a), s);
    assert TargetSet(m, numShards, b) <= TargetSet(p, numShards, b);
    StrictSubsetSize(TargetSet(m, numShards, b), TargetSet(p, numShards, b), s);
  }

  /** Moving one shard changes exactly two counts. */
  lemma MoveCounts(shards: ShardMap, numShards: nat, s: int, v: ShardInfo, n: string)
    requires 0 <= s < numShards && s in shards && shards[s].target != v.target
    ensures Count(shards[s := v], numShards, n)
         == Count(shards, numShards, n) + (if n == v.target then 1 else 0) - (if n == shards[s].target then 1 else 0)
  {
    var before, after := TargetSet(shards, numShards, n), TargetSet(shards[s := v], numShards, n);
    if n == v.target {
      assert after == before + {s};
    } else if n == shards[s].target {
      assert after == before - {s};
    } else {
      assert after == before;
    }
  }

  lemma {:induction false} MoveSquares(shards: ShardMap, numShards: nat, s: int, v: ShardInfo, nodes: seq<string>)
    requires 0 <= s < numShards && s in shards && shards[s].target != v.target && NoDup(nodes)
    ensures SumOfSquares(shards[s := v], numShards, nodes) == SumOfSquares(shards, numShards, nodes)
              + (if shards[s].target in nodes then 1 - 2 * Count(shards, numShards, shards[s].target) else 0)
              + (if v.target in nodes then 1 + 2 * Count(shards, numShards, v.target) else 0)
  {
    if nodes != [] {
      MoveSquares(shards, numShards, s, v, nodes[1..]);
      MoveCounts(shards, numShards, s, v, nodes[0]);
      assert nodes == [nodes[0]] + nodes[1..];
    }
  }

  lemma CommitOneMore(shards: ShardMap, updates: ShardMap, done: set<int>, s: int)
    requires s in updates && s !in done && s in shards
    ensures Committed(shards, updates, done + {s}) == Committed(shards, updates, done)[s := updates[s]]
    ensures s in Committed(shards, updates, done) && Committed(shards, updates, done)[s] == shards[s]
  {
  }

  lemma OneMoveImproves(nodes: seq<string>, numShards: nat, shards: ShardMap, updates: ShardMap, done: set<int>, s: int)
    requires GoodBatch(nodes, numShards, shards, updates) && NoDup(nodes) && s in updates && s !in done
    ensures SumOfSquares(Committed(shards, updates, done + {s}), numShards, nodes) + 2
         <= SumOfSquares(Committed(shards, updates, done), numShards, nodes)
  {
    var m, p := Committed(shards, updates, done), shards + updates;
    var a, b := shards[s].target, updates[s].target;
    CommitOneMore(shards, updates, done, s);
    MoveSquares(m, numShards, s, updates[s], nodes);
    RoomToMove(nodes, numShards, shards, updates, done, s);
    assert Count(p, numShards, a) >= Count(p, numShards, b);
    assert Count(m, numShards, a) >= Count(m, numShards, b) + 2;
  }

  /** Whatever part of a planned batch commits, every committed move lowers the sum of squared
      loads of the live nodes by at least two. */
  lemma {:induction false} PartialCommitImproves(nodes: seq<string>, numShards: nat, shards: ShardMap,
                                                 updates: ShardMap, done: set<int>)
    requires GoodBatch(nodes, numShards, shards, updates) && NoDup(nodes) && done <= updates.Keys
    ensures SumOfSquares(Committed(shards, updates, done), numShards, nodes) + 2 * |done|
         <= SumOfSquares(shards, numShards, nodes)
    decreases |done|
  {
    if |done| == 0 {
      assert done == {};
      NothingCommitted(shards, updates);
    } else {
      var s := Member(done);
      var rest := done - {s};
      PartialCommitImproves(nodes, numShards, shards, updates, rest);
      OneMoveImproves(nodes, numShards, shards, updates, rest, s);
      assert rest + {s} == done;
    }
  }

  lemma NothingCommitted(shards: ShardMap, updates: ShardMap)
    ensures Committed(shards, updates, {}) == shards
  {
  }

  ghost predicate Receives(updates: ShardMap, done: set<int>, n: string) {
    exists s :: s in updates && s in done && updates[s].target == n
  }

  ghost predicate Gives(shards: ShardMap, updates: ShardMap, done: set<int>, n: string) {
    exists s :: s in updates && s in done && s in shards && shards[s].target == n
  }

  /** Loads move monotonically: only receivers gain, only givers lose, and never beyond the full batch. */
  lemma LoadBounds(nodes: seq<string>, numShards: nat, shards: ShardMap, updates: ShardMap, done: set<int>, n: string)
    requires GoodBatch(nodes, numShards, shards, updates) && done <= updates.Keys
    ensures !Receives(updates, done, n) ==>
      Count(Committed(shards, updates, done), numShards, n) <= Count(shards, numShards, n)
    ensures !Gives(shards, updates, done, n) ==>
      Count(shards, numShards, n) <= Count(Committed(shards, updates, done), numShards, n)
    ensures Receives(updates, done, n) ==>
      Count(Committed(shards, updates, done), numShards, n) <= Count(shards + updates, numShards, n)
    ensures Gives(shards, updates, done, n) ==>
      Count(shards + updates, numShards, n) <= Count(Committed(shards, updates, done), numShards, n)
  {
    var m, p := Committed(shards, updates, done), shards + updates;
    if !Receives(updates, done, n) { SubsetSize(TargetSet(m, numShards, n), TargetSet(shards, numShards, n)); }
    else {
      var t :| t in updates && t in done && updates[t].target == n;
      assert forall x :: x in updates ==> shards[x].target != updates[t].target;
      SubsetSize(TargetSet(m, numShards, n), TargetSet(p, numShards, n));
    }
    if !Gives(shards, updates, done, n) { SubsetSize(TargetSet(shards, numShards, n), TargetSet(m, numShards, n)); }
    else {
      var t :| t in updates && t in done && t in shards && shards[t].target == n;
      assert forall x :: x in updates ==> shards[t].target != updates[x].target;
      SubsetSize(TargetSet(p, numShards, n), TargetSet(m, numShards, n));
    }
  }

  lemma GiverLoses(nodes: seq<string>, numShards: nat, shards: ShardMap, updates: ShardMap, s: int)
    requires GoodBatch(nodes, numShards, shards, updates) && s in updates
    ensures Count(shards + updates, numShards, shards[s].target) <= Count(shards, numShards, shards[s].target)
    ensures Count(shards, numShards, updates[s].target) <= Count(shards + updates, numShards, updates[s].target)
  {
    assert forall x :: x in updates ==> shards[s].target != updates[x].target && shards[x].target != updates[s].target;
    SubsetSize(TargetSet(shards + updates, numShards, shards[s].target),
               TargetSet(shards, numShards, shards[s].target));
    SubsetSize(TargetSet(shards, numShards, updates[s].target),
               TargetSet(shards + updates, numShards, updates[s].target));
  }

  lemma NobodyAboveOldMax(nodes: seq<string>, numShards: nat, shards: ShardMap, updates: ShardMap, done: set<int>,
                          n: string)
      returns (x: string)
    requires GoodBatch(nodes, numShards, shards, updates) && done <= updates.Keys && n in nodes
    ensures x in nodes && Count(Committed(shards, updates, done), numShards, n) <= Count(shards, numShards, x)
  {
    LoadBounds(nodes, numShards, shards, updates, done, n);
    x := n;
    if Receives(updates, done, n) {
      var s :| s in updates && s in done && updates[s].target == n;
      GiverLoses(nodes, numShards, shards, updates, s);
      x := shards[s].target;
    }
  }

  lemma NobodyBelowOldMin(nodes: seq<string>, numShards: nat, shards: ShardMap, updates: ShardMap, done: set<int>,
                          n: string)
      returns (x: string)
    requires GoodBatch(nodes, numShards, shards, updates) && done <= updates.Keys && n in nodes
    ensures x in nodes && Count(shards, numShards, x) <= Count(Committed(shards, updates, done), numShards, n)
  {
    LoadBounds(nodes, numShards, shards, updates, done, n);
    x := n;
    if Gives(shards, updates, done, n) {
      var s :| s in updates && s in done && s in shards && shards[s].target == n;
      GiverLoses(nodes, numShards, shards, updates, s);
      x := updates[s].target;
    }
  }

  /** Whatever part commits, no two live nodes end up further apart than some two were before. */
  lemma PartialCommitKeepsGap(nodes: seq<string>, numShards: nat, shards: ShardMap,
                              updates: ShardMap, done: set<int>, n: string, m: string)
    requires GoodBatch(nodes, numShards, shards, updates) && done <= updates.Keys && n in nodes && m in nodes
    ensures var after := Committed(shards, updates, done);
            exists x, y :: x in nodes && y in nodes
              && Count(after, numShards, n) - Count(after, numShards, m)
                 <= Count(shards, numShards, x) - Count(shards, numShards, y)
  {
    var x := NobodyAboveOldMax(nodes, numShards, shards, updates, done, n);
    var y := NobodyBelowOldMin(nodes, numShards, shards, updates, done, m);
  }

  function TotalLoad(shards: ShardMap, numShards: nat, nodes: seq<string>): int {
    if nodes == [] then 0 else Count(shards, numShards, nodes[0]) + TotalLoad(shards, numShards, nodes[1..])
  }

  lemma {:induction false} MoveTotal(shards: ShardMap, numShards: nat, s: int, v: ShardInfo, nodes: seq<string>)
    requires 0 <= s < numShards && s in shards && shards[s].target != v.target && NoDup(nodes)
    ensures TotalLoad(shards[s := v], numShards, nodes) == TotalLoad(shards, numShards, nodes)
              - (if shards[s].target in nodes then 1 else 0) + (if v.target in nodes then 1 else 0)
  {
    if nodes != [] {
      MoveTotal(shards, numShards, s, v, nodes[1..]);
      MoveCounts(shards, numShards, s, v, nodes[0]);
      assert nodes == [nodes[0]] + nodes[1..];
    }
  }

  /** Whatever part commits, the live nodes together are targeted by as many shards as before. */
  lemma {:induction false} PartialCommitConserves(nodes: seq<string>, numShards: nat, shards: ShardMap,
                                                  updates: ShardMap, done: set<int>)
    requires GoodBatch(nodes, numShards, shards, updates) && NoDup(nodes) && done <= updates.Keys
    ensures TotalLoad(Committed(shards, updates, done), numShards, nodes) == TotalLoad(shards, numShards, nodes)
    decreases |done|
  {
    if |done| == 0 {
      assert done == {};
      NothingCommitted(shards, updates);
    } else {
      var s := Member(done);
      var rest := done - {s};
      PartialCommitConserves(nodes, numShards, shards, updates, rest);
      CommitOneMore(shards, updates, rest, s);
      MoveTotal(Committed(shards, updates, rest), numShards, s, updates[s], nodes);
      assert rest + {s} == done;
    }
  }

  // ----- The planner -----

  /** The planner's tallies: per node, the shards targeted at it and how many there are. */
  ghost predicate Tallied(numShards: nat, shards: ShardMap, counts: map<string, int>, lists: map<string, seq<int>>,
                          n: string)
  {
    n in counts && n in lists && counts[n] == |lists[n]| && Lists(lists[n], TargetSet(shards, numShards, n))
  }

  ghost predicate Tracks(nodes: seq<string>, numShards: nat, shards: ShardMap, counts: map<string, int>,
                         lists: map<string, seq<int>>)
  {
    forall n :: n in nodes ==> Tallied(numShards, shards, counts, lists, n)
  }

  lemma TalliedCount(numShards: nat, shards: ShardMap, counts: map<string, int>, lists: map<string, seq<int>>,
                     n: string)
    requires Tallied(numShards, shards, counts, lists, n)
    ensures counts[n] == Count(shards, numShards, n)
  {
    ListSize(lists[n], TargetSet(shards, numShards, n));
  }

  predicate AllAssigned(shards: ShardMap, numShards: nat) {
    forall s :: 0 <= s < numShards ==> s in shards && shards[s].target != ""
  }

  /** Counting one more shard. */
  lemma TallyOne(k: nat, shards: ShardMap, counts: map<string, int>, lists: map<string, seq<int>>,
                 counts': map<string, int>, lists': map<string, seq<int>>, n: string)
    requires Tallied(k, shards, counts, lists, n) && k in shards && n in counts' && n in lists'
    requires n == shards[k].target ==> counts'[n] == counts[n] + 1 && lists'[n] == lists[n] + [k]
    requires n != shards[k].target ==> counts'[n] == counts[n] && lists'[n] == lists[n]
    ensures Tallied(k + 1, shards, counts', lists', n)
  {
    var before, after := TargetSet(shards, k, n), TargetSet(shards, k + 1, n);
    if n == shards[k].target {
      assert after == before + {k};
      ListAppend(lists[n], before, k);
    } else {
      assert after == before;
    }
  }

  method CountTargets(nodes: seq<string>, numShards: nat, shards: ShardMap)
      returns (allAssigned: bool, counts: map<string, int>, lists: map<string, seq<int>>)
    ensures allAssigned <==> AllAssigned(shards, numShards)
    ensures allAssigned ==> Tracks(nodes, numShards, shards, counts, lists)
  {
    counts, lists := map n | n in nodes :: 0, map n | n in nodes :: [];
    var k := 0;
    while k < numShards
      invariant 0 <= k <= numShards && counts.Keys == lists.Keys == set n | n in nodes
      invariant AllAssigned(shards, k)
      invariant Tracks(nodes, k, shards, counts, lists)
    {
      if k !in shards || shards[k].target == "" { return false, counts, lists; }
      var t := shards[k].target;
      ghost var counts0, lists0 := counts, lists;
      if t in counts {
        counts := counts[t := counts[t] + 1];
        lists := lists[t := lists[t] + [k]];
      }
      forall n | n in nodes ensures Tallied(k + 1, shards, counts, lists, n) {
        TallyOne(k, shards, counts0, lists0, counts, lists, n);
      }
      k := k + 1;
    }
    allAssigned := true;
  }

  /** `a` is the first of the most loaded nodes. */
  predicate IsFirstMax(nodes: seq<string>, counts: map<string, int>, a: string) {
    exists i :: 0 <= i < |nodes| && nodes[i] == a && a in counts
                && (forall j :: 0 <= j < |nodes| ==> nodes[j] in counts && counts[nodes[j]] <= counts[a])
                && (forall j :: 0 <= j < i ==> counts[nodes[j]] < counts[a])
  }

  predicate IsFirstMin(nodes: seq<string>, counts: map<string, int>, b: string) {
    exists i :: 0 <= i < |nodes| && nodes[i] == b && b in counts
                && (forall j :: 0 <= j < |nodes| ==> nodes[j] in counts && counts[b] <= counts[nodes[j]])
                && (forall j :: 0 <= j < i ==> counts[b] < counts[nodes[j]])
  }

  method PickExtremes(nodes: seq<string>, numShards: nat, counts: map<string, int>)
      returns (maxNode: string, minNode: string)
    requires nodes != [] && forall n :: n in nodes ==> n in counts && 0 <= counts[n] <= numShards
    ensures IsFirstMax(nodes, counts, maxNode) && IsFirstMin(nodes, counts, minNode)
  {
    maxNode, minNode := "", "";
    var maxCount, minCount := -1, numShards + 1;
    ghost var p, q := 0, 0;
    var i := 0;
    while i < |nodes|
      invariant 0 <= i <= |nodes|
      invariant i == 0 ==> maxCount == -1 && minCount == numShards + 1
      invariant i > 0 ==> 0 <= p < i && nodes[p] == maxNode && counts[maxNode] == maxCount
      invariant i > 0 ==> 0 <= q < i && nodes[q] == minNode && counts[minNode] == minCount
      invariant forall j :: 0 <= j < i ==> minCount <= counts[nodes[j]] <= maxCount
      invariant forall j :: 0 <= j < p && j < i ==> counts[nodes[j]] < maxCount
      invariant forall j :: 0 <= j < q && j < i ==> minCount < counts[nodes[j]]
    {
      var count := counts[nodes[i]];
      if maxCount == -1 || count > maxCount { maxNode, maxCount, p := nodes[i], count, i; }
      if count < minCount { minNode, minCount, q := nodes[i], count, i; }
      i := i + 1;
    }
  }

  method FindMovable(list: seq<int>, shards: ShardMap, selected: set<int>) returns (found: bool, s: int)
    requires forall j :: 0 <= j < |list| ==> list[j] in shards
    ensures found ==> s in list && s !in selected && !Pinned(shards[s])
    ensures !found ==> forall j :: 0 <= j < |list| ==> list[j] in selected || Pinned(shards[list[j]])
  {
    found, s := false, 0;
    var i := 0;
    while i < |list|
      invariant 0 <= i <= |list|
      invariant forall j :: 0 <= j < i ==> list[j] in selected || Pinned(shards[list[j]])
    {
      if list[i] !in selected && !Pinned(shards[list[i]]) { return true, list[i]; }
      i := i + 1;
    }
  }

  /** `r` is the list without its entry `s`. */
  ghost predicate Without(list: seq<int>, s: int, r: seq<int>) {
    exists i :: 0 <= i < |list| && list[i] == s && r == list[..i] + list[i + 1..]
  }

  method Remove(list: seq<int>, s: int) returns (r: seq<int>)
    requires s in list
    ensures Without(list, s, r)
  {
    var i := 0;
    while list[i] != s
      invariant 0 <= i < |list| && s in list[i..]
      decreases |list| - i
    {
      i := i + 1;
    }
    r := list[..i] + list[i + 1..];
  }

  // ----- Growing the batch -----

  /** Givers are still within one of the most loaded node, receivers within one of the least loaded. */
  ghost predicate Steep(nodes: seq<string>, numShards: nat, shards: ShardMap, updates: ShardMap) {
    forall s, n :: s in updates && s in shards && n in nodes ==>
      && Count(shards + updates, numShards, n) <= Count(shards + updates, numShards, shards[s].target) + 1
      && Count(shards + updates, numShards, updates[s].target) <= Count(shards + updates, numShards, n) + 1
  }

  /** `a` is among the most and `b` among the least loaded nodes under the plan so far, two or more apart. */
  ghost predicate Extremes(nodes: seq<string>, numShards: nat, planned: ShardMap, a: string, b: string) {
    && a in nodes && b in nodes
    && (forall n :: n in nodes ==>
          Count(planned, numShards, b) <= Count(planned, numShards, n) <= Count(planned, numShards, a))
    && Count(planned, numShards, b) + 2 <= Count(planned, numShards, a)
  }

  lemma NewLoads(nodes: seq<string>, numShards: nat, planned: ShardMap, s: int, v: ShardInfo, a: string, b: string)
    requires Extremes(nodes, numShards, planned, a, b) && 0 <= s < numShards && s in planned && planned[s].target == a
    requires v.target == b
    ensures var hi, lo := Count(planned, numShards, a), Count(planned, numShards, b);
            && Count(planned[s := v], numShards, a) == hi - 1 && Count(planned[s := v], numShards, b) == lo + 1
            && (forall n :: n in nodes ==> lo <= Count(planned[s := v], numShards, n) <= hi)
    ensures forall n :: n != a && n != b ==> Count(planned[s := v], numShards, n) == Count(planned, numShards, n)
  {
    forall n ensures Count(planned[s := v], numShards, n)
                  == Count(planned, numShards, n) + (if n == b then 1 else 0) - (if n == a then 1 else 0)
    {
      MoveCounts(planned, numShards, s, v, n);
    }
  }

  lemma ExtendBatch(nodes: seq<string>, numShards: nat, shards: ShardMap, updates: ShardMap, s: int, a: string,
                    b: string)
    requires GoodBatch(nodes, numShards, shards, updates) && Steep(nodes, numShards, shards, updates)
    requires Extremes(nodes, numShards, shards + updates, a, b)
    requires 0 <= s < numShards && s in shards && s !in updates && shards[s].target == a && !Pinned(shards[s])
    ensures var more := updates[s := shards[s].(target := b)];
            GoodBatch(nodes, numShards, shards, more) && Steep(nodes, numShards, shards, more)
  {
    var v := shards[s].(target := b);
    var more := updates[s := v];
    var p := shards + updates;
    assert shards + more == p[s := v];
    NewLoads(nodes, numShards, p, s, v, a, b);
    GiversAndReceivers(nodes, numShards, shards, updates, a, b);
    forall x | x in more ensures Count(p[s := v], numShards, shards[x].target) >= Count(p, numShards, a) - 1
                                 && Count(p[s := v], numShards, more[x].target) <= Count(p, numShards, b) + 1
                                 && shards[x].target != b && more[x].target != a
    {
    }
  }

  /** The most loaded node is no receiver and the least loaded one no giver. */
  lemma GiversAndReceivers(nodes: seq<string>, numShards: nat, shards: ShardMap, updates: ShardMap, a: string,
                           b: string)
    requires AllMoves(nodes, numShards, shards, updates) && Steep(nodes, numShards, shards, updates)
    requires Extremes(nodes, numShards, shards + updates, a, b)
    ensures forall x :: x in updates ==>
      && updates[x].target != a && shards[x].target != b
      && Count(shards + updates, numShards, shards[x].target) >= Count(shards + updates, numShards, a) - 1
      && Count(shards + updates, numShards, updates[x].target) <= Count(shards + updates, numShards, b) + 1
  {
  }

  // ----- The whole planner -----

  /** The imbalance test, over reals: two or more apart, and further apart than the threshold share of
      the ideal load. */
  predicate Imbalanced(numShards: nat, nodeCount: nat, threshold: real, hi: int, lo: int)
    requires nodeCount > 0
  {
    hi >= lo + 2 && (hi - lo) as real > threshold * (numShards as real / nodeCount as real)
  }

  /** The same without a division: the gap, times the number of nodes, against the threshold share of all
      shards. */
  lemma ImbalancedPlainly(numShards: nat, nodeCount: nat, threshold: real, hi: int, lo: int)
    requires nodeCount > 0
    ensures Imbalanced(numShards, nodeCount, threshold, hi, lo)
       <==> hi - lo >= 2 && (nodeCount * (hi - lo)) as real > threshold * numShards as real
  {
    var k, gap, share := nodeCount as real, (hi - lo) as real, threshold * (numShards as real / nodeCount as real);
    ShareTimes(threshold, numShards as real, k);
    assert (nodeCount * (hi - lo)) as real == k * gap;
    TimesPositive(k, gap, share);
  }

  lemma ShareTimes(threshold: real, n: real, k: real)
    requires k > 0.0
    ensures k * (threshold * (n / k)) == threshold * n
  {
    assert k * (n / k) == n;
    calc {
      k * (threshold * (n / k));
      threshold * (k * (n / k));
      threshold * n;
    }
  }

  lemma TimesPositive(k: real, x: real, y: real)
    requires k > 0.0
    ensures x > y <==> k * x > k * y
  {
    if x > y { assert k * (x - y) > 0.0; }
    if x <= y { assert k * (y - x) >= 0.0; }
  }

  /** Why planning stopped: the loads of the most and least loaded nodes are close enough, or the first
      of the most loaded ones has no shard left that is neither pinned nor already moved. */
  ghost predicate Settled(nodes: seq<string>, numShards: nat, shards: ShardMap, updates: ShardMap, threshold: real) {
    exists a, b :: a in nodes && b in nodes && StopsAt(nodes, numShards, shards, updates, threshold, a, b)
  }

  ghost predicate FirstMost(nodes: seq<string>, numShards: nat, p: ShardMap, a: string) {
    exists i :: 0 <= i < |nodes| && nodes[i] == a
                && (forall j :: 0 <= j < |nodes| ==> Count(p, numShards, nodes[j]) <= Count(p, numShards, a))
                && (forall j :: 0 <= j < i ==> Count(p, numShards, nodes[j]) < Count(p, numShards, a))
  }

  ghost predicate Least(nodes: seq<string>, numShards: nat, p: ShardMap, b: string) {
    b in nodes && forall n :: n in nodes ==> Count(p, numShards, b) <= Count(p, numShards, n)
  }

  lemma FirstMostIsUnique(nodes: seq<string>, numShards: nat, p: ShardMap, a: string, a': string)
    requires FirstMost(nodes, numShards, p, a) && FirstMost(nodes, numShards, p, a')
    ensures a == a'
  {
  }

  ghost predicate StopsAt(nodes: seq<string>, numShards: nat, shards: ShardMap, updates: ShardMap, threshold: real,
                          a: string, b: string)
    requires nodes != []
  {
    var p := shards + updates;
    && FirstMost(nodes, numShards, p, a) && Least(nodes, numShards, p, b)
    && (|| !Imbalanced(numShards, |nodes|, threshold, Count(p, numShards, a), Count(p, numShards, b))
        || forall s :: s in TargetSet(p, numShards, a) ==> s in updates || Pinned(p[s]))
  }

  /** Under this plan any two nodes are close enough: at most one shard apart, or no further apart than the
      threshold share of the ideal load. */
  ghost predicate AllClose(nodes: seq<string>, numShards: nat, p: ShardMap, threshold: real) {
    forall n, m :: n in nodes && m in nodes ==>
      var gap := Count(p, numShards, n) - Count(p, numShards, m);
      gap <= 1 || (|nodes| * gap) as real <= threshold * numShards as real
  }

  /** The first of the most loaded nodes has a shard that is neither pinned nor already moved. */
  ghost predicate CanGive(nodes: seq<string>, numShards: nat, shards: ShardMap, updates: ShardMap) {
    exists a, s :: FirstMost(nodes, numShards, shards + updates, a)
      && s in TargetSet(shards + updates, numShards, a) && s !in updates && !Pinned((shards + updates)[s])
  }

  lemma {:induction false} MostExists(nodes: seq<string>, numShards: nat, p: ShardMap) returns (i: nat)
    requires nodes != []
    ensures i < |nodes|
    ensures forall j :: 0 <= j < |nodes| ==> Count(p, numShards, nodes[j]) <= Count(p, numShards, nodes[i])
    ensures forall j :: 0 <= j < i ==> Count(p, numShards, nodes[j]) < Count(p, numShards, nodes[i])
  {
    i := 0;
    var k := |nodes| - 1;
    if k > 0 {
      i := MostExists(nodes[..k], numShards, p);
      assert forall j :: 0 <= j < k ==> nodes[..k][j] == nodes[j];
      if Count(p, numShards, nodes[i]) < Count(p, numShards, nodes[k]) { i := k; }
    }
  }

  lemma {:induction false} LeastExists(nodes: seq<string>, numShards: nat, p: ShardMap) returns (b: string)
    requires nodes != []
    ensures Least(nodes, numShards, p, b)
  {
    var k := |nodes| - 1;
    b := nodes[k];
    if k > 0 {
      var c := LeastExists(nodes[..k], numShards, p);
      assert nodes == nodes[..k] + [nodes[k]];
      if Count(p, numShards, c) < Count(p, numShards, b) { b := c; }
    }
  }

  /** The test of the two extremes speaks for all pairs. */
  lemma ExtremesDecide(nodes: seq<string>, numShards: nat, p: ShardMap, threshold: real, a: string, b: string)
    requires a in nodes && FirstMost(nodes, numShards, p, a) && Least(nodes, numShards, p, b)
    ensures AllClose(nodes, numShards, p, threshold)
       <==> !Imbalanced(numShards, |nodes|, threshold, Count(p, numShards, a), Count(p, numShards, b))
  {
    var hi, lo := Count(p, numShards, a), Count(p, numShards, b);
    ImbalancedPlainly(numShards, |nodes|, threshold, hi, lo);
    if !Imbalanced(numShards, |nodes|, threshold, hi, lo) {
      forall n, m | n in nodes && m in nodes
        ensures var gap := Count(p, numShards, n) - Count(p, numShards, m);
                gap <= 1 || (|nodes| * gap) as real <= threshold * numShards as real
      {
        GapBelow(|nodes|, Count(p, numShards, n) - Count(p, numShards, m), hi - lo);
      }
    }
  }

  lemma GapBelow(k: nat, gap: int, widest: int)
    requires gap <= widest
    ensures k * gap <= k * widest
  {
  }

  /** Planning stops, in plain counts: any two live nodes are close enough under the plan, or the first of
      the most loaded ones has nothing left to give. */
  lemma SettledIff(nodes: seq<string>, numShards: nat, shards: ShardMap, updates: ShardMap, threshold: real)
    requires nodes != []
    ensures Settled(nodes, numShards, shards, updates, threshold)
       <==> AllClose(nodes, numShards, shards + updates, threshold) || !CanGive(nodes, numShards, shards, updates)
  {
    var p := shards + updates;
    var i := MostExists(nodes, numShards, p);
    var b := LeastExists(nodes, numShards, p);
    var a := nodes[i];
    assert FirstMost(nodes, numShards, p, a);
    ExtremesDecide(nodes, numShards, p, threshold, a, b);
    StopsAtIff(nodes, numShards, shards, updates, threshold, a, b);
  }

  lemma StopsAtIff(nodes: seq<string>, numShards: nat, shards: ShardMap, updates: ShardMap, threshold: real,
                   a: string, b: string)
    requires a in nodes && FirstMost(nodes, numShards, shards + updates, a)
    requires Least(nodes, numShards, shards + updates, b)
    ensures Settled(nodes, numShards, shards, updates, threshold)
       <==> !CanGive(nodes, numShards, shards, updates)
            || !Imbalanced(numShards, |nodes|, threshold,
                           Count(shards + updates, numShards, a), Count(shards + updates, numShards, b))
  {
    var p := shards + updates;
    forall a' | FirstMost(nodes, numShards, p, a') ensures a' == a { FirstMostIsUnique(nodes, numShards, p, a, a'); }
    if Settled(nodes, numShards, shards, updates, threshold) {
      var x, y :| x in nodes && y in nodes && StopsAt(nodes, numShards, shards, updates, threshold, x, y);
      assert x == a && Count(p, numShards, y) == Count(p, numShards, b);
    } else {
      assert !StopsAt(nodes, numShards, shards, updates, threshold, a, b);
    }
  }

  lemma CountBound(shards: ShardMap, numShards: nat, n: string)
    ensures Count(shards, numShards, n) <= numShards
  {
    BelowSize(TargetSet(shards, numShards, n), numShards);
  }

  /** One move carried over into the tallies. */
  lemma TallyMove(numShards: nat, p: ShardMap, s: int, v: ShardInfo, counts: map<string, int>,
                  lists: map<string, seq<int>>,
                  counts': map<string, int>, lists': map<string, seq<int>>, a: string, b: string, n: string)
    requires Tallied(numShards, p, counts, lists, n) && 0 <= s < numShards && s in p && p[s].target == a
    requires v.target == b && a != b
    requires n in counts' && n in lists'
    requires n == a ==> counts'[n] == counts[n] - 1 && Without(lists[n], s, lists'[n])
    requires n == b ==> counts'[n] == counts[n] + 1 && lists'[n] == lists[n] + [s]
    requires n != a && n != b ==> counts'[n] == counts[n] && lists'[n] == lists[n]
    ensures Tallied(numShards, p[s := v], counts', lists', n)
  {
    var before, after := TargetSet(p, numShards, n), TargetSet(p[s := v], numShards, n);
    if n == a {
      assert after == before - {s};
      var i :| 0 <= i < |lists[n]| && lists[n][i] == s && lists'[n] == lists[n][..i] + lists[n][i + 1..];
      ListDrop(lists[n], before, i);
    } else if n == b {
      assert after == before + {s};
      ListAppend(lists[n], before, s);
    } else {
      assert after == before;
    }
  }

  /** What the planner's loop maintains. */
  ghost predicate Planning(nodes: seq<string>, numShards: nat, shards: ShardMap, updates: ShardMap,
                           counts: map<string, int>, lists: map<string, seq<int>>)
  {
    && GoodBatch(nodes, numShards, shards, updates) && Steep(nodes, numShards, shards, updates)
    && Tracks(nodes, numShards, shards + updates, counts, lists)
  }

  lemma CountsAreLoads(nodes: seq<string>, numShards: nat, p: ShardMap, counts: map<string, int>,
                       lists: map<string, seq<int>>)
    requires Tracks(nodes, numShards, p, counts, lists)
    ensures forall n :: n in nodes ==> n in counts && counts[n] == Count(p, numShards, n) && 0 <= counts[n] <= numShards
  {
    forall n | n in nodes ensures n in counts && counts[n] == Count(p, numShards, n) && 0 <= counts[n] <= numShards {
      assert Tallied(numShards, p, counts, lists, n);
      TalliedCount(numShards, p, counts, lists, n);
      CountBound(p, numShards, n);
    }
  }

  lemma ListedIsTargeted(nodes: seq<string>, numShards: nat, p: ShardMap, counts: map<string, int>,
                         lists: map<string, seq<int>>, n: string)
    requires Tracks(nodes, numShards, p, counts, lists) && n in nodes
    ensures n in lists && NoDup(lists[n]) && n in counts
    ensures forall j :: 0 <= j < |lists[n]| ==> lists[n][j] in TargetSet(p, numShards, n)
    ensures forall s :: s in TargetSet(p, numShards, n) ==> s in lists[n]
  {
    assert Tallied(numShards, p, counts, lists, n);
  }

  lemma MovePlanned(nodes: seq<string>, numShards: nat, shards: ShardMap, updates: ShardMap,
                    counts: map<string, int>, lists: map<string, seq<int>>,
                    counts': map<string, int>, lists': map<string, seq<int>>,
                    s: int, a: string, b: string, trimmed: seq<int>)
    requires Planning(nodes, numShards, shards, updates, counts, lists)
    requires Extremes(nodes, numShards, shards + updates, a, b)
    requires 0 <= s < numShards && s in shards && s !in updates && shards[s].target == a && !Pinned(shards[s])
    requires a in counts && b in counts && a in lists && b in lists
    requires counts' == counts[a := counts[a] - 1][b := counts[b] + 1]
    requires lists' == lists[a := trimmed][b := lists[b] + [s]]
    requires Without(lists[a], s, trimmed)
    ensures Planning(nodes, numShards, shards, updates[s := shards[s].(target := b)], counts', lists')
  {
    var v := shards[s].(target := b);
    ExtendBatch(nodes, numShards, shards, updates, s, a, b);
    assert shards + updates[s := v] == (shards + updates)[s := v];
    forall n | n in nodes ensures Tallied(numShards, (shards + updates)[s := v], counts', lists', n) {
      assert Tallied(numShards, shards + updates, counts, lists, n);
      TallyMove(numShards, shards + updates, s, v, counts, lists, counts', lists', a, b, n);
    }
  }

  /** One round of the selection loop: pick the extremes, test them, find a shard and move it. */
  method PlanMove(nodes: seq<string>, numShards: nat, shards: ShardMap, threshold: real, updates: ShardMap,
                  counts: map<string, int>, lists: map<string, seq<int>>)
      returns (moved: bool, updates': ShardMap, counts': map<string, int>, lists': map<string, seq<int>>)
    requires nodes != [] && Planning(nodes, numShards, shards, updates, counts, lists)
    ensures Planning(nodes, numShards, shards, updates', counts', lists')
    ensures moved ==> |updates'| == |updates| + 1 && !Settled(nodes, numShards, shards, updates, threshold)
    ensures !moved ==> updates' == updates && Settled(nodes, numShards, shards, updates, threshold)
  {
    moved, updates', counts', lists' := false, updates, counts, lists;
    ghost var p := shards + updates;
    CountsAreLoads(nodes, numShards, p, counts, lists);
    var maxNode, minNode := PickExtremes(nodes, numShards, counts);
    ExtremesAreLoads(nodes, numShards, p, counts, maxNode, minNode);
    if !Imbalanced(numShards, |nodes|, threshold, counts[maxNode], counts[minNode]) {
      assert StopsAt(nodes, numShards, shards, updates, threshold, maxNode, minNode);
      return;
    }
    ListedIsTargeted(nodes, numShards, p, counts, lists, maxNode);
    ListedIsTargeted(nodes, numShards, p, counts, lists, minNode);
    var found, s := FindMovable(lists[maxNode], shards + updates, updates.Keys);
    if !found {
      assert StopsAt(nodes, numShards, shards, updates, threshold, maxNode, minNode);
      return;
    }
    NotSettled(nodes, numShards, shards, updates, threshold, maxNode, minNode, s);
    var trimmed := Remove(lists[maxNode], s);
    moved := true;
    updates' := updates[s := shards[s].(target := minNode)];
    counts' := counts[maxNode := counts[maxNode] - 1][minNode := counts[minNode] + 1];
    lists' := lists[maxNode := trimmed][minNode := lists[minNode] + [s]];
    MovePlanned(nodes, numShards, shards, updates, counts, lists, counts', lists', s, maxNode, minNode, trimmed);
  }

  lemma NotSettled(nodes: seq<string>, numShards: nat, shards: ShardMap, updates: ShardMap, threshold: real, a: string,
                   b: string, s: int)
    requires FirstMost(nodes, numShards, shards + updates, a) && Least(nodes, numShards, shards + updates, b)
    requires Imbalanced(numShards, |nodes|, threshold,
                        Count(shards + updates, numShards, a), Count(shards + updates, numShards, b))
    requires s in TargetSet(shards + updates, numShards, a) && s !in updates && !Pinned((shards + updates)[s])
    ensures !Settled(nodes, numShards, shards, updates, threshold)
  {
    forall a', b' | a' in nodes && b' in nodes ensures !StopsAt(nodes, numShards, shards, updates, threshold, a', b') {
      if FirstMost(nodes, numShards, shards + updates, a') {
        FirstMostIsUnique(nodes, numShards, shards + updates, a, a');
      }
    }
  }

  /** RebalanceShards up to the store: the batch it would write. `nodes` are the live nodes in order. What
      `Settled` means in plain counts is said by `SettledIff`. */
  method PlanRebalance(nodes: seq<string>, numShards: nat, shards: ShardMap, batchSize: nat, threshold: real)
      returns (updates: ShardMap)
    ensures GoodBatch(nodes, numShards, shards, updates) && |updates| <= batchSize
    ensures forall s :: s in updates ==> s in shards && "pinned" !in shards[s].flags
    ensures nodes == [] || (exists s :: 0 <= s < numShards && Lookup(shards, s).target == "") ==> updates == map[]
    ensures nodes != [] && AllAssigned(shards, numShards) && |updates| < batchSize ==>
      Settled(nodes, numShards, shards, updates, threshold)
    ensures updates != map[] ==> !Settled(nodes, numShards, shards, map[], threshold)
  {
    updates := map[];
    if |nodes| == 0 { return; }
    var allAssigned, counts, lists := CountTargets(nodes, numShards, shards);
    if !allAssigned { return; }
    assert shards + updates == shards;
    var batchCount := 0;
    while batchCount < batchSize
      invariant 0 <= batchCount <= batchSize && |updates| == batchCount
      invariant Planning(nodes, numShards, shards, updates, counts, lists)
      invariant batchCount == 0 ==> updates == map[]
      invariant batchCount > 0 ==> !Settled(nodes, numShards, shards, map[], threshold)
    {
      var moved;
      moved, updates, counts, lists := PlanMove(nodes, numShards, shards, threshold, updates, counts, lists);
      if !moved { return; }
      batchCount := batchCount + 1;
    }
  }

  lemma ExtremesAreLoads(nodes: seq<string>, numShards: nat, p: ShardMap, counts: map<string, int>, a: string,
                         b: string)
    requires forall n :: n in nodes ==> n in counts && counts[n] == Count(p, numShards, n)
    requires IsFirstMax(nodes, counts, a) && IsFirstMin(nodes, counts, b)
    ensures a in nodes && b in nodes && a in counts && b in counts
    ensures FirstMost(nodes, numShards, p, a) && Least(nodes, numShards, p, b)
    ensures forall n :: n in nodes ==> Count(p, numShards, b) <= Count(p, numShards, n) <= Count(p, numShards, a)
    ensures counts[a] == Count(p, numShards, a) && counts[b] == Count(p, numShards, b)
  {
  }
}
