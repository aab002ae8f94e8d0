/** Target reassignment (calcReassignShardTargetNodes of cluster/consensusmanager/consensusmanager.go):
    every shard without a live target gets one. */
module Reassign {
  import opened Sets
  import opened Shards
  import opened RoundRobin

  /** The shard has no live target and is not pinned to one. */
  predicate NeedsTarget(nodes: seq<string>, info: ShardInfo) {
    !(Pinned(info) && info.target != "") && info.target !in nodes
  }

  /** A live node already holds the shard, so the shard can stay there. */
  predicate Anchored(nodes: seq<string>, info: ShardInfo) {
    info.target == "" && info.current != "" && info.current in nodes
  }

  predicate Anchorless(nodes: seq<string>, info: ShardInfo) {
    NeedsTarget(nodes, info) && !Anchored(nodes, info)
  }

  /** The anchorless shards below `numShards`. */
  function Loose(nodes: seq<string>, numShards: nat, shards: ShardMap): set<int> {
    set s | 0 <= s < numShards && Anchorless(nodes, Lookup(shards, s))
  }

  /** The anchorless shards the update gives to node `n`. */
  function Share(nodes: seq<string>, numShards: nat, shards: ShardMap, updates: ShardMap, n: string): set<int> {
    set s | 0 <= s < numShards && Anchorless(nodes, Lookup(shards, s)) && Lookup(updates, s).target == n
  }

  /** What the update has to be for one shard: nothing if it needs no target, its live holder if it has
      one, some live node otherwise; and never a change to anything but the target. */
  predicate UpdateOk(nodes: seq<string>, updates: ShardMap, s: int, info: ShardInfo) {
    if !NeedsTarget(nodes, info) then s !in updates
    else
      && s in updates && updates[s] == info.(target := updates[s].target) && updates[s].target in nodes
      && (Anchored(nodes, info) ==> updates[s].target == info.current)
  }

  ghost predicate Reassigns(nodes: seq<string>, numShards: nat, shards: ShardMap, updates: ShardMap) {
    && (forall s :: 0 <= s < numShards ==> UpdateOk(nodes, updates, s, Lookup(shards, s)))
    && (forall s :: s in updates ==> 0 <= s < numShards)
  }

  /** Afterwards every shard has a live target or is pinned to a named one. Exactly the shards without a live
      target change, pinned ones with a named target aside; a shard without any target goes to its holder if
      that is live; and nothing but targets changes. */
  lemma ReassignSettlesTargets(nodes: seq<string>, numShards: nat, shards: ShardMap, updates: ShardMap, s: int)
    requires Reassigns(nodes, numShards, shards, updates) && 0 <= s < numShards
    ensures var before, after := Lookup(shards, s), Lookup(shards + updates, s);
            && (after.target in nodes || ("pinned" in after.flags && after.target != ""))
            && after == before.(target := after.target) && (s !in updates ==> after == before)
            && (before.target in nodes || ("pinned" in before.flags && before.target != "") <==> s !in updates)
            && (before.target == "" && before.target !in nodes && before.current != "" && before.current in nodes ==>
                  after.target == before.current)
  {
    assert UpdateOk(nodes, updates, s, Lookup(shards, s));
  }

  /** A second run finds nothing to do, whatever it draws. */
  lemma ReassignIsIdempotent(nodes: seq<string>, numShards: nat, shards: ShardMap, first: ShardMap, second: ShardMap)
    requires Reassigns(nodes, numShards, shards, first) && Reassigns(nodes, numShards, shards + first, second)
    ensures second == map[]
  {
    forall s ensures s !in second {
      if 0 <= s < numShards {
        ReassignSettlesTargets(nodes, numShards, shards, first, s);
        assert UpdateOk(nodes, second, s, Lookup(shards + first, s));
      }
    }
  }

  // ----- Dealing the anchorless shards -----

  /** The items dealt to place j among the first k of xs. */
  function DealtTo<T>(xs: seq<T>, offset: nat, n: nat, k: nat, j: nat): set<T>
    requires n > 0 && k <= |xs|
  {
    set i | 0 <= i < k && Slot(offset, i, n) == j :: xs[i]
  }

  lemma {:induction false} DealtSize<T>(xs: seq<T>, offset: nat, n: nat, k: nat, j: nat)
    requires n > 0 && k <= |xs| && NoDup(xs)
    ensures |DealtTo(xs, offset, n, k, j)| == Hits(offset, k, n, j)
  {
    if k > 0 {
      DealtSize(xs, offset, n, k - 1, j);
      var before, after := DealtTo(xs, offset, n, k - 1, j), DealtTo(xs, offset, n, k, j);
      if Slot(offset, k - 1, n) == j {
        assert after == before + {xs[k - 1]};
        assert xs[k - 1] !in before;
      } else {
        assert after == before;
      }
    }
  }

  // ----- The planner -----

  /** First pass: settle the anchored shards, collect the anchorless ones. */
  method Collect(nodes: seq<string>, numShards: nat, shards: ShardMap) returns (updates: ShardMap, toAssign: seq<int>)
    ensures Lists(toAssign, Loose(nodes, numShards, shards))
    ensures forall s :: s in updates <==>
      0 <= s < numShards && NeedsTarget(nodes, Lookup(shards, s)) && Anchored(nodes, Lookup(shards, s))
    ensures forall s :: s in updates ==> updates[s] == Lookup(shards, s).(target := Lookup(shards, s).current)
  {
    updates, toAssign := map[], [];
    var k := 0;
    while k < numShards
      invariant 0 <= k <= numShards
      invariant Lists(toAssign, Loose(nodes, k, shards))
      invariant forall s :: s in updates <==>
        0 <= s < k && NeedsTarget(nodes, Lookup(shards, s)) && Anchored(nodes, Lookup(shards, s))
      invariant forall s :: s in updates ==> updates[s] == Lookup(shards, s).(target := Lookup(shards, s).current)
    {
      var info := Lookup(shards, k);
      ghost var loose := Loose(nodes, k, shards);
      if Pinned(info) && info.target != "" {
        assert Loose(nodes, k + 1, shards) == loose;
      } else if info.target in nodes {
        assert Loose(nodes, k + 1, shards) == loose;
      } else if info.target == "" && info.current != "" && info.current in nodes {
        assert Loose(nodes, k + 1, shards) == loose;
        updates := updates[k := info.(target := info.current)];
      } else {
        assert Loose(nodes, k + 1, shards) == loose + {k};
        ListAppend(toAssign, loose, k);
        toAssign := toAssign + [k];
      }
      k := k + 1;
    }
  }

  /** Second pass: deal the shuffled shards to the nodes in turn. */
  method Assign(nodes: seq<string>, shards: ShardMap, base: ShardMap, toAssign: seq<int>, offset: nat)
      returns (updates: ShardMap)
    requires nodes != [] && offset < |nodes| && NoDup(toAssign) && forall s :: s in toAssign ==> s !in base
    ensures forall s :: s in updates <==> s in base || s in toAssign
    ensures forall s :: s in base ==> s in updates && updates[s] == base[s]
    ensures forall i :: 0 <= i < |toAssign| ==>
      toAssign[i] in updates
      && updates[toAssign[i]] == Lookup(shards, toAssign[i]).(target := nodes[Slot(offset, i, |nodes|)])
  {
    updates := base;
    var i := 0;
    while i < |toAssign|
      invariant 0 <= i <= |toAssign|
      invariant forall s :: s in updates <==> s in base || s in toAssign[..i]
      invariant forall s :: s in base ==> updates[s] == base[s]
      invariant forall j :: 0 <= j < i ==>
        toAssign[j] in updates
        && updates[toAssign[j]] == Lookup(shards, toAssign[j]).(target := nodes[Slot(offset, j, |nodes|)])
    {
      var s := toAssign[i];
      assert s in toAssign;
      updates := updates[s := Lookup(shards, s).(target := nodes[Slot(offset, i, |nodes|)])];
      assert toAssign[..i + 1] == toAssign[..i] + [s];
      i := i + 1;
    }
    assert toAssign[..i] == toAssign;
  }

  lemma ShareIsDealt(nodes: seq<string>, numShards: nat, shards: ShardMap, updates: ShardMap, xs: seq<int>, offset: nat,
                     j: nat)
    requires NoDup(nodes) && nodes != [] && j < |nodes|
    requires Lists(xs, Loose(nodes, numShards, shards))
    requires forall i :: 0 <= i < |xs| ==> xs[i] in updates && updates[xs[i]].target == nodes[Slot(offset, i, |nodes|)]
    ensures Share(nodes, numShards, shards, updates, nodes[j]) == DealtTo(xs, offset, |nodes|, |xs|, j)
  {
    var share, dealt := Share(nodes, numShards, shards, updates, nodes[j]), DealtTo(xs, offset, |nodes|, |xs|, j);
    forall s | s in share ensures s in dealt {
      assert s in Loose(nodes, numShards, shards);
      assert s in xs;
      var i :| 0 <= i < |xs| && xs[i] == s;
      assert Slot(offset, i, |nodes|) == j;
    }
    forall s | s in dealt ensures s in share {
      var i :| 0 <= i < |xs| && Slot(offset, i, |nodes|) == j && xs[i] == s;
      assert xs[i] in Loose(nodes, numShards, shards);
    }
  }

  /** Every node's share of the anchorless shards is their number over the number of nodes, rounded
      down or up. */
  ghost predicate Fair(nodes: seq<string>, numShards: nat, shards: ShardMap, updates: ShardMap) {
    var k, n := |Loose(nodes, numShards, shards)|, |nodes|;
    forall j :: 0 <= j < n ==>
      && k / n <= |Share(nodes, numShards, shards, updates, nodes[j])| <= k / n + 1
      && (k % n == 0 ==> |Share(nodes, numShards, shards, updates, nodes[j])| == k / n)
  }

  lemma DealIsFair(nodes: seq<string>, numShards: nat, shards: ShardMap, updates: ShardMap, xs: seq<int>, offset: nat)
    requires NoDup(nodes) && nodes != [] && offset < |nodes| && Lists(xs, Loose(nodes, numShards, shards))
    requires forall i :: 0 <= i < |xs| ==> xs[i] in updates && updates[xs[i]].target == nodes[Slot(offset, i, |nodes|)]
    ensures Fair(nodes, numShards, shards, updates)
  {
    ListSize(xs, Loose(nodes, numShards, shards));
    forall j | 0 <= j < |nodes|
      ensures var k, n := |Loose(nodes, numShards, shards)|, |nodes|;
              && k / n <= |Share(nodes, numShards, shards, updates, nodes[j])| <= k / n + 1
              && (k % n == 0 ==> |Share(nodes, numShards, shards, updates, nodes[j])| == k / n)
    {
      ShareIsDealt(nodes, numShards, shards, updates, xs, offset, j);
      DealtSize(xs, offset, |nodes|, |xs|, j);
      FairShare(offset, |xs|, |nodes|, j);
    }
  }

  /** calcReassignShardTargetNodes for the live nodes in order, an arbitrary shuffle and an arbitrary
      starting node. */
  method PlanReassign(nodes: seq<string>, numShards: nat, shards: ShardMap, shuffle: seq<int> -> seq<int>, offset: nat)
      returns (updates: ShardMap)
    requires NoDup(nodes) && (nodes != [] ==> offset < |nodes|)
    requires forall xs :: multiset(shuffle(xs)) == multiset(xs)
    ensures nodes == [] ==> updates == map[]
    ensures nodes != [] ==> Reassigns(nodes, numShards, shards, updates) && Fair(nodes, numShards, shards, updates)
  {
    if |nodes| == 0 { return map[]; }
    var base, collected := Collect(nodes, numShards, shards);
    var toAssign := shuffle(collected);
    ListShuffle(collected, toAssign, Loose(nodes, numShards, shards));
    assert forall s :: s in toAssign ==> s in Loose(nodes, numShards, shards);
    updates := Assign(nodes, shards, base, toAssign, offset);
    DealIsFair(nodes, numShards, shards, updates, toAssign, offset);
    DealReassigns(nodes, numShards, shards, base, updates, toAssign, offset);
  }

  lemma DealReassigns(nodes: seq<string>, numShards: nat, shards: ShardMap, base: ShardMap,
                      updates: ShardMap, xs: seq<int>, offset: nat)
    requires nodes != [] && Lists(xs, Loose(nodes, numShards, shards))
    requires forall s :: s in base <==>
      0 <= s < numShards && NeedsTarget(nodes, Lookup(shards, s)) && Anchored(nodes, Lookup(shards, s))
    requires forall s :: s in base ==> base[s] == Lookup(shards, s).(target := Lookup(shards, s).current)
    requires forall s :: s in updates <==> s in base || s in xs
    requires forall s :: s in base ==> s in updates && updates[s] == base[s]
    requires forall i :: 0 <= i < |xs| ==>
      xs[i] in updates && updates[xs[i]] == Lookup(shards, xs[i]).(target := nodes[Slot(offset, i, |nodes|)])
    ensures Reassigns(nodes, numShards, shards, updates)
  {
    forall s | 0 <= s < numShards ensures UpdateOk(nodes, updates, s, Lookup(shards, s)) {
      if Anchorless(nodes, Lookup(shards, s)) {
        assert s in Loose(nodes, numShards, shards);
        assert s in xs;
        var i :| 0 <= i < |xs| && xs[i] == s;
        assert updates[s].target == nodes[Slot(offset, i, |nodes|)];
      }
    }
    forall s | s in updates ensures 0 <= s < numShards {
      if s !in base {
        var i :| 0 <= i < |xs| && xs[i] == s;
        assert xs[i] in Loose(nodes, numShards, shards);
      }
    }
  }
}
