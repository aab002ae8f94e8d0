/** One management tick of one node (handleShardMappingCheck of cluster/cluster.go) on a synced view:
    the leader first plans targets, of which any part may be stored, and whoever reports no change claims,
    evicts and releases. */
module Ticks {
  import opened Shards
  import opened Rebalance
  import opened Reassign
  import opened Sets
  import ObjectIds

  /** The fixed surroundings of a run: the live nodes in order, their leader, and the settings. */
  datatype Config = Config(nodes: seq<string>, leader: string, numShards: nat, batchSize: nat, threshold: real)

  ghost predicate Sane(cfg: Config) {
    NoDup(cfg.nodes) && "" !in cfg.nodes && cfg.leader in cfg.nodes && cfg.batchSize > 0
  }

  /** Equal up to the revision the value was written at. */
  predicate Alike(a: ShardInfo, b: ShardInfo) {
    a == b.(modRevision := a.modRevision)
  }

  /** Every update was written, and nothing else. */
  ghost predicate Stored(before: ShardMap, updates: ShardMap, after: ShardMap) {
    && after.Keys == before.Keys + updates.Keys
    && forall s :: s in after ==> if s in updates then Alike(after[s], updates[s]) else after[s] == before[s]
  }

  lemma StoreNothing(shards: ShardMap, updates: ShardMap)
    ensures Stored(shards, Part(updates, {}), shards)
  {
  }

  lemma NothingStored(before: ShardMap, after: ShardMap)
    requires Stored(before, map[], after)
    ensures after == before
  {
    assert after.Keys == before.Keys;
    forall s | s in before ensures after[s] == before[s] { assert s in after; }
  }

  lemma StoreOneMore(before: ShardMap, updates: ShardMap, done: set<int>,
                     now: ShardMap, s: int, info: ShardInfo)
    requires Stored(before, Part(updates, done), now) && s in updates && Alike(info, updates[s])
    ensures Stored(before, Part(updates, done + {s}), now[s := info])
  {
    assert Part(updates, done + {s}) == Part(updates, done)[s := updates[s]];
  }

  lemma PartLands(updates: ShardMap, lands: set<int>)
    ensures Part(updates, updates.Keys * lands) == Part(updates, lands)
  {
  }

  lemma OneMoreTried(tried: set<int>, lands: set<int>, s: int)
    requires s !in tried
    ensures (tried + {s}) * lands == if s in lands then tried * lands + {s} else tried * lands
    ensures s in lands ==> |tried * lands + {s}| == |tried * lands| + 1
    ensures tried + {s} <= lands <==> tried <= lands && s in lands
  {
  }

  // ----- The leader's part -----

  /** No shard is left without a live target, pinned ones aside. */
  ghost predicate AllTargeted(cfg: Config, shards: ShardMap) {
    forall s :: 0 <= s < cfg.numShards ==> !NeedsTarget(cfg.nodes, Lookup(shards, s))
  }

  ghost predicate Balanced(cfg: Config, shards: ShardMap) {
    Settled(cfg.nodes, cfg.numShards, shards, map[], cfg.threshold)
  }

  /** What the leader wants stored: a reassignment if any shard lacks a target, else a rebalancing batch. */
  ghost predicate Plans(cfg: Config, shards: ShardMap, updates: ShardMap) {
    if !AllTargeted(cfg, shards) then Reassigns(cfg.nodes, cfg.numShards, shards, updates)
    else GoodBatch(cfg.nodes, cfg.numShards, shards, updates) && updates != map[] && !Balanced(cfg, shards)
  }

  /** Some of it, or the whole of it, is stored. */
  ghost predicate LeaderStep(cfg: Config, before: ShardMap, after: ShardMap, whole: bool) {
    exists updates, done :: Plans(cfg, before, updates) && Lands(before, updates, done, after, whole)
  }

  ghost predicate Lands(before: ShardMap, updates: ShardMap, done: set<int>,
                        after: ShardMap, whole: bool)
  {
    && done != {} && done <= updates.Keys && (whole <==> done == updates.Keys)
    && Stored(before, Part(updates, done), after)
  }

  /** What became of the leader's plan in a tick: there was nothing to plan, some or all of it was stored,
      or none of it was. */
  datatype Fate = Nothing | Landed(whole: bool) | Failed

  // ----- Every node's part -----

  /** What a tick of node `n` makes of one shard. */
  function Settle(n: string, nodes: seq<string>, info: ShardInfo): ShardInfo {
    if Claimable(n, info, info.current in nodes) then info.(current := n)
    else if Leaving(n, info) then info.(current := "")
    else info
  }

  ghost predicate NodeStep(n: string, nodes: seq<string>, before: ShardMap, after: ShardMap) {
    && after.Keys == before.Keys
    && forall s :: s in before ==> Alike(after[s], Settle(n, nodes, before[s]))
  }

  /** The tick goes on to the node's own part unless the leader reports a change, which it does not for a
      rebalancing batch that was stored in part. */
  ghost predicate GoesOn(cfg: Config, before: ShardMap, fate: Fate) {
    fate.Landed? ==> AllTargeted(cfg, before) && !fate.whole
  }

  /** The leader's part of a tick. */
  ghost predicate Led(cfg: Config, n: string, before: ShardMap, mid: ShardMap, fate: Fate) {
    match fate
    case Nothing => mid == before && (n == cfg.leader ==> AllTargeted(cfg, before) && Balanced(cfg, before))
    case Landed(whole) => n == cfg.leader && LeaderStep(cfg, before, mid, whole)
    case Failed => mid == before && n == cfg.leader
  }

  /** One tick of node `n`. */
  ghost predicate Tick(cfg: Config, n: string, before: ShardMap, after: ShardMap, fate: Fate) {
    exists mid :: Led(cfg, n, before, mid, fate)
      && if GoesOn(cfg, before, fate) then NodeStep(n, cfg.nodes, mid, after) else after == mid
  }

  // ----- The tick as the source runs it -----

  /** A node's view of the cluster, in step with etcd, and the objects it hosts. */
  class ClusterMember {
    const cfg: Config
    const addr: string
    const hash: string -> ObjectIds.Uint32
    var shards: ShardMap
    var revision: nat
    var objects: set<string>

    constructor (cfg: Config, addr: string, hash: string -> ObjectIds.Uint32, shards: ShardMap, revision: nat)
      ensures this.cfg == cfg && this.addr == addr && this.shards == shards && objects == {}
    {
      this.cfg, this.addr, this.hash, this.shards, this.revision, this.objects := cfg, addr, hash, shards, revision, {};
    }

    /** storeShardMapping when exactly the compare-and-swaps for the shards in `lands` succeed. */
    method StoreShardMapping(updates: ShardMap, lands: set<int>) returns (stored: nat, failed: bool)
      modifies `shards, `revision
      ensures Stored(old(shards), Part(updates, lands), shards)
      ensures stored == |updates.Keys * lands| && (failed <==> !(updates.Keys <= lands))
    {
      stored, failed := 0, false;
      var todo := updates.Keys;
      ghost var tried, done := {}, {};
      StoreNothing(shards, updates);
      while todo != {}
        invariant tried + todo == updates.Keys && tried !! todo
        invariant done == tried * lands && stored == |done| && (failed <==> !(tried <= lands))
        invariant Stored(old(shards), Part(updates, done), shards)
        decreases todo
      {
        var s;
        s, todo := Pick(todo);
        OneMoreTried(tried, lands, s);
        tried := tried + {s};
        if s in lands {
          revision := revision + 1;
          StoreOneMore(old(shards), updates, done, shards, s, updates[s].(modRevision := revision));
          shards := shards[s := updates[s].(modRevision := revision)];
          stored, done := stored + 1, done + {s};
        } else {
          failed := true;
        }
      }
      assert tried == updates.Keys;
      PartLands(updates, lands);
    }

    /** storeShardMapping when every write succeeds. */
    method StoreAll(updates: ShardMap)
      modifies `shards, `revision
      ensures Stored(old(shards), updates, shards)
    {
      var _, _ := StoreShardMapping(updates, updates.Keys);
      assert Part(updates, updates.Keys) == updates;
    }

    /** ClaimShardsForNode. */
    method ClaimShardOwnership()
      modifies `shards, `revision
      ensures shards.Keys == old(shards).Keys
      ensures forall s :: s in shards ==>
        var info := old(shards)[s];
        if Claimable(addr, info, info.current in cfg.nodes) then Alike(shards[s], info.(current := addr))
        else shards[s] == info
    {
      var updates, todo := map[], shards.Keys;
      while todo != {}
        invariant shards == old(shards) && todo <= shards.Keys
        invariant updates == map s |
          s in shards && s !in todo && Claimable(addr, shards[s], shards[s].current in cfg.nodes)
          :: shards[s].(current := addr)
        decreases todo
      {
        var s;
        s, todo := Pick(todo);
        var info := shards[s];
        if info.target == addr && (info.current == "" || info.current !in cfg.nodes) {
          updates := updates[s := info.(current := addr)];
        }
      }
      StoreAll(updates);
    }

    /** GetObjectsToEvict followed by the evictions. */
    method RemoveMisplacedObjects()
      requires cfg.numShards > 0 && addr in cfg.nodes
      modifies `objects
      ensures forall id :: id in objects <==>
        && id in old(objects)
        && ('/' in id || var s := ObjectIds.GetShardId(id, cfg.numShards, hash);
                         s in shards && shards[s].current == addr && shards[s].target == addr)
    {
      var todo := objects;
      while todo != {}
        invariant todo <= old(objects)
        invariant forall id :: id in objects <==>
          && id in old(objects)
          && (id in todo || '/' in id || var s := ObjectIds.GetShardId(id, cfg.numShards, hash);
                                         s in shards && shards[s].current == addr && shards[s].target == addr)
        decreases todo
      {
        var id;
        id, todo := Pick(todo);
        if '/' !in id {
          var s := ObjectIds.GetShardId(id, cfg.numShards, hash);
          if s !in shards || shards[s].current != addr || shards[s].target != addr {
            objects := objects - {id};
          }
        }
      }
    }

    /** The per-shard count of local objects. */
    method CountObjects() returns (counts: map<int, nat>)
      requires cfg.numShards > 0
      ensures forall s :: s in counts <==>
        exists id :: id in objects && '/' !in id && ObjectIds.GetShardId(id, cfg.numShards, hash) == s
      ensures forall s :: s in counts ==> counts[s] > 0
    {
      counts := map[];
      var todo := objects;
      while todo != {}
        invariant todo <= objects
        invariant forall s :: s in counts ==>
          && counts[s] > 0
          && exists id :: id in objects && '/' !in id && ObjectIds.GetShardId(id, cfg.numShards, hash) == s
        invariant forall id :: id in objects && id !in todo && '/' !in id ==>
          ObjectIds.GetShardId(id, cfg.numShards, hash) in counts
        decreases todo
      {
        var id;
        id, todo := Pick(todo);
        if '/' !in id {
          var s := ObjectIds.GetShardId(id, cfg.numShards, hash);
          counts := counts[s := (if s in counts then counts[s] else 0) + 1];
        }
      }
    }

    /** ReleaseShardsForNode: give up the shards that are to go elsewhere and hold no object any more. */
    method ReleaseShardOwnership()
      requires cfg.numShards > 0
      modifies `shards, `revision
      ensures shards.Keys == old(shards).Keys
      ensures forall s :: s in shards ==>
        var info := old(shards)[s];
        if Leaving(addr, info)
           && !(exists id :: id in objects && '/' !in id && ObjectIds.GetShardId(id, cfg.numShards, hash) == s)
        then Alike(shards[s], info.(current := "")) else shards[s] == info
    {
      var counts := CountObjects();
      var updates, todo := map[], shards.Keys;
      while todo != {}
        invariant shards == old(shards) && todo <= shards.Keys
        invariant updates == map s |
          s in shards && s !in todo && Leaving(addr, shards[s]) && s !in counts
          :: shards[s].(current := "")
        decreases todo
      {
        var s;
        s, todo := Pick(todo);
        var info := shards[s];
        var count := if s in counts then counts[s] else 0;
        if info.current == addr && info.target != "" && info.target != addr && count == 0 {
          updates := updates[s := info.(current := "")];
        }
      }
      StoreAll(updates);
    }

    /** leaderShardManagementLogic without a due stuck-shard check, for an arbitrary shuffle and offset, when
        the writes for the shards in `lands` succeed. */
    method LeaderShardManagement(shuffle: seq<int> -> seq<int>, offset: nat, lands: set<int>)
        returns (changed: bool, ghost fate: Fate)
      requires Sane(cfg) && offset < |cfg.nodes| && forall xs :: multiset(shuffle(xs)) == multiset(xs)
      modifies `shards, `revision
      ensures Led(cfg, cfg.leader, old(shards), shards, fate)
      ensures changed <==> fate.Landed? && (!AllTargeted(cfg, old(shards)) || fate.whole)
    {
      var updates := PlanReassign(cfg.nodes, cfg.numShards, shards, shuffle, offset);
      ReassignsOnlyIfNeeded(cfg, shards, updates);
      if |updates| > 0 {
        var n, _ := StoreShardMapping(updates, lands);
        fate := FateOf(cfg, old(shards), updates, lands, shards);
        return n > 0, fate;
      }
      TargetedIsAssigned(cfg, shards);
      var batch := PlanRebalance(cfg.nodes, cfg.numShards, shards, cfg.batchSize, cfg.threshold);
      if |batch| == 0 { return false, Nothing; }
      var n, failed := StoreShardMapping(batch, lands);
      fate := FateOf(cfg, old(shards), batch, lands, shards);
      return !failed && n > 0, fate;
    }

    /** handleShardMappingCheck: whatever objects the node hosts, the tick does what `Tick` says. */
    method HandleShardMappingCheck(shuffle: seq<int> -> seq<int>, offset: nat, lands: set<int>)
        returns (changed: bool, ghost fate: Fate)
      requires Sane(cfg) && addr in cfg.nodes && cfg.numShards > 0
      requires offset < |cfg.nodes| && forall xs :: multiset(shuffle(xs)) == multiset(xs)
      modifies `shards, `revision, `objects
      ensures Tick(cfg, addr, old(shards), shards, fate) && (changed <==> !GoesOn(cfg, old(shards), fate))
      ensures changed ==> objects == old(objects)
      ensures !changed ==> forall id :: id in objects <==>
        && id in old(objects)
        && ('/' in id || var s := ObjectIds.GetShardId(id, cfg.numShards, hash);
                         s in shards && shards[s].current == addr && shards[s].target == addr)
    {
      changed, fate := false, Nothing;
      if addr == cfg.leader { changed, fate := LeaderShardManagement(shuffle, offset, lands); }
      ghost var mid := shards;
      if changed { return; }
      ClaimShardOwnership();
      RemoveMisplacedObjects();
      ReleaseShardOwnership();
      assert NodeStep(addr, cfg.nodes, mid, shards);
    }
  }

  /** How a plan ends whose writes for the shards in `lands` succeed. */
  lemma FateOf(cfg: Config, before: ShardMap, updates: ShardMap, lands: set<int>,
               after: ShardMap) returns (fate: Fate)
    requires Plans(cfg, before, updates) && Stored(before, Part(updates, lands), after)
    ensures fate == if updates.Keys * lands == {} then Failed else Landed(updates.Keys <= lands)
    ensures Led(cfg, cfg.leader, before, after, fate)
  {
    var done := updates.Keys * lands;
    PartLands(updates, lands);
    if done == {} {
      fate := Failed;
      assert Part(updates, lands) == map[];
      NothingStored(before, after);
    } else {
      fate := Landed(updates.Keys <= lands);
      assert Lands(before, updates, done, after, fate.whole);
    }
  }

  lemma ReassignsOnlyIfNeeded(cfg: Config, shards: ShardMap, updates: ShardMap)
    requires Reassigns(cfg.nodes, cfg.numShards, shards, updates)
    ensures AllTargeted(cfg, shards) <==> |updates| == 0
  {
    if AllTargeted(cfg, shards) {
      forall s ensures s !in updates {
        if 0 <= s < cfg.numShards { assert UpdateOk(cfg.nodes, updates, s, Lookup(shards, s)); }
      }
      assert updates == map[];
    } else {
      var s :| 0 <= s < cfg.numShards && NeedsTarget(cfg.nodes, Lookup(shards, s));
      assert UpdateOk(cfg.nodes, updates, s, Lookup(shards, s));
      assert s in updates;
    }
  }

  lemma TargetedIsAssigned(cfg: Config, shards: ShardMap)
    requires "" !in cfg.nodes && AllTargeted(cfg, shards)
    ensures AllAssigned(shards, cfg.numShards)
  {
    forall s | 0 <= s < cfg.numShards ensures s in shards && shards[s].target != "" {
      assert !NeedsTarget(cfg.nodes, Lookup(shards, s));
    }
  }
}
