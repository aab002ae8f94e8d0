/** Stuck-shard reallocation (calcReallocateStuckShards of cluster/consensusmanager/consensusmanager.go).

    The leader remembers when it first saw a shard assigned to a live node that does not claim it, and
    takes the target away once that has lasted for the timeout. */
module StuckShards {
  import opened Sets
  import opened Shards

  /** What one check looks at. */
  datatype Observation = Observation(now: int, nodes: set<string>, shards: ShardMap)

  /** Assigned to a live node, claimed by nobody, and free to go elsewhere. */
  predicate Stuck(o: Observation, s: int) {
    && s in o.shards
    && var info := o.shards[s];
       info.target != "" && info.current == "" && info.target in o.nodes && !Pinned(info)
  }

  /** The shard has been tracked for the timeout. */
  predicate Expired(seen: map<int, int>, o: Observation, timeout: int, s: int) {
    Stuck(o, s) && s in seen && o.now - seen[s] >= timeout
  }

  /** The targets a check takes away. */
  function Cleared(seen: map<int, int>, o: Observation, timeout: int): ShardMap {
    map s | s in o.shards && Expired(seen, o, timeout, s) :: o.shards[s].(target := "")
  }

  /** The tracking map after a check: the stuck shards that were not just cleared, each with the time
      it was first seen. */
  function Tracked(seen: map<int, int>, o: Observation, timeout: int): map<int, int> {
    map s | s in o.shards && Stuck(o, s) && !Expired(seen, o, timeout, s) :: if s in seen then seen[s] else o.now
  }

  class StuckShardTracker {
    var firstSeen: map<int, int>

    /** One shard of a check: forget it if it is not stuck or has been stuck for the timeout, otherwise
        remember when it was first seen. */
    method Visit(o: Observation, timeout: int, s: int) returns (stuck: bool, expired: bool)
      requires s in o.shards
      modifies this
      ensures stuck == Stuck(o, s) && expired == Expired(old(firstSeen), o, timeout, s)
      ensures firstSeen == if !stuck || expired then old(firstSeen) - {s}
                           else if s in old(firstSeen) then old(firstSeen)
                           else old(firstSeen)[s := o.now]
    {
      stuck, expired := false, false;
      var info := o.shards[s];
      if info.target == "" || info.current != "" || info.target !in o.nodes || Pinned(info) {
        firstSeen := firstSeen - {s};
        return;
      }
      stuck := true;
      if s !in firstSeen {
        firstSeen := firstSeen[s := o.now];
      } else if o.now - firstSeen[s] >= timeout {
        expired := true;
        firstSeen := firstSeen - {s};
      }
    }

    /** One check, as a walk over the mapping that updates the tracking map, followed by pruning. */
    method Check(o: Observation, timeout: int) returns (updates: ShardMap)
      modifies this
      ensures updates == Cleared(old(firstSeen), o, timeout)
      ensures firstSeen == Tracked(old(firstSeen), o, timeout)
      ensures forall s :: s in updates <==>
        && s in o.shards && o.shards[s].current == "" && o.shards[s].target != "" && o.shards[s].target in o.nodes
        && "pinned" !in o.shards[s].flags && s in old(firstSeen) && o.now - old(firstSeen)[s] >= timeout
      ensures forall s :: s in updates ==> updates[s] == o.shards[s].(target := "")
      ensures forall s :: s in firstSeen <==>
        && s in o.shards && o.shards[s].current == "" && o.shards[s].target != "" && o.shards[s].target in o.nodes
        && "pinned" !in o.shards[s].flags && (s in old(firstSeen) ==> o.now - old(firstSeen)[s] < timeout)
      ensures forall s :: s in firstSeen ==> firstSeen[s] == if s in old(firstSeen) then old(firstSeen)[s] else o.now
    {
      ghost var seen := firstSeen;
      updates := map[];
      if o.nodes == {} {
        firstSeen := map[];
        return;
      }
      var active, todo := {}, o.shards.Keys;
      while todo != {}
        invariant todo <= o.shards.Keys && active == StuckBut(o, todo)
        invariant firstSeen == Halfway(seen, o, timeout, todo)
        invariant updates == ClearedBut(seen, o, timeout, todo)
        decreases todo
      {
        ghost var before := todo;
        var s;
        s, todo := Pick(todo);
        OneVisited(seen, o, timeout, before, s);
        var stuck, expired := Visit(o, timeout, s);
        if stuck { active := active + {s}; }
        if expired { updates := updates[s := o.shards[s].(target := "")]; }
      }
      AllVisited(seen, o, timeout);
      firstSeen := map s | s in firstSeen && s in active :: firstSeen[s];
    }
  }

  /** The tracking map when all but the shards in `todo` have been visited. */
  ghost function Halfway(seen: map<int, int>, o: Observation, timeout: int, todo: set<int>): map<int, int> {
    map s | s in seen.Keys + o.shards.Keys
            && (if s in o.shards && s !in todo then Stuck(o, s) && !Expired(seen, o, timeout, s) else s in seen)
         :: if s in seen then seen[s] else o.now
  }

  ghost function StuckBut(o: Observation, todo: set<int>): set<int> {
    set s | s in o.shards && s !in todo && Stuck(o, s)
  }

  ghost function ClearedBut(seen: map<int, int>, o: Observation, timeout: int, todo: set<int>): ShardMap {
    map s | s in o.shards && s !in todo && Expired(seen, o, timeout, s) :: o.shards[s].(target := "")
  }

  lemma AllVisited(seen: map<int, int>, o: Observation, timeout: int)
    ensures var f := Halfway(seen, o, timeout, {});
            (map s | s in f && s in StuckBut(o, {}) :: f[s]) == Tracked(seen, o, timeout)
    ensures ClearedBut(seen, o, timeout, {}) == Cleared(seen, o, timeout)
  {
  }

  lemma OneVisited(seen: map<int, int>, o: Observation, timeout: int, todo: set<int>, s: int)
    requires s in todo && todo <= o.shards.Keys
    ensures var f := Halfway(seen, o, timeout, todo);
            && (Expired(f, o, timeout, s) <==> Expired(seen, o, timeout, s))
            && Halfway(seen, o, timeout, todo - {s})
            == if Stuck(o, s) && !Expired(seen, o, timeout, s) then (if s in f then f else f[s := o.now]) else f - {s}
    ensures StuckBut(o, todo - {s}) == StuckBut(o, todo) + (if Stuck(o, s) then {s} else {})
    ensures var c := ClearedBut(seen, o, timeout, todo);
            ClearedBut(seen, o, timeout, todo - {s})
              == if Expired(seen, o, timeout, s) then c[s := o.shards[s].(target := "")] else c
  {
  }

  // ----- Whole runs of checks -----

  /** The tracking map after the first k checks. */
  function SeenAfter(obs: seq<Observation>, timeout: int, k: nat): map<int, int>
    requires k <= |obs|
  {
    if k == 0 then map[] else Tracked(SeenAfter(obs, timeout, k - 1), obs[k - 1], timeout)
  }

  /** Check k takes the shard's target away. */
  predicate ClearsAt(obs: seq<Observation>, timeout: int, k: nat, s: int)
    requires k < |obs|
  {
    s in Cleared(SeenAfter(obs, timeout, k), obs[k], timeout)
  }

  /** The checks from i up to, not including, k all saw the shard stuck and none took its target away;
      the check before i, if there is one, did not see it stuck or took its target away. */
  ghost predicate WaitsSince(obs: seq<Observation>, timeout: int, s: int, i: nat, k: nat)
    requires k <= |obs|
  {
    && i < k
    && (forall j :: i <= j < k ==> Stuck(obs[j], s) && !ClearsAt(obs, timeout, j, s))
    && (i > 0 ==> !Stuck(obs[i - 1], s) || ClearsAt(obs, timeout, i - 1, s))
  }

  lemma {:induction false} TrackedIffWaiting(obs: seq<Observation>, timeout: int, s: int, k: nat)
    requires k <= |obs|
    ensures s in SeenAfter(obs, timeout, k) <==> exists i :: 0 <= i < k && WaitsSince(obs, timeout, s, i, k)
    ensures forall i :: 0 <= i < k && WaitsSince(obs, timeout, s, i, k) ==> SeenAfter(obs, timeout, k)[s] == obs[i].now
  {
    if k > 0 {
      TrackedIffWaiting(obs, timeout, s, k - 1);
      var seen := SeenAfter(obs, timeout, k - 1);
      if s in SeenAfter(obs, timeout, k) {
        if s in seen {
          var i :| 0 <= i < k - 1 && WaitsSince(obs, timeout, s, i, k - 1);
          assert WaitsSince(obs, timeout, s, i, k);
        } else {
          FreshStart(obs, timeout, s, k);
        }
      }
      forall i | 0 <= i < k && WaitsSince(obs, timeout, s, i, k)
        ensures s in SeenAfter(obs, timeout, k) && SeenAfter(obs, timeout, k)[s] == obs[i].now
      {
        assert Stuck(obs[k - 1], s) && !ClearsAt(obs, timeout, k - 1, s);
        if i < k - 1 {
          assert WaitsSince(obs, timeout, s, i, k - 1);
        } else {
          NotYetTracked(obs, timeout, s, k - 1);
        }
      }
    }
  }

  /** A shard that is tracked now and was not before starts waiting at this check. */
  lemma FreshStart(obs: seq<Observation>, timeout: int, s: int, k: nat)
    requires 0 < k <= |obs| && s in SeenAfter(obs, timeout, k) && s !in SeenAfter(obs, timeout, k - 1)
    ensures WaitsSince(obs, timeout, s, k - 1, k)
  {
  }

  lemma NotYetTracked(obs: seq<Observation>, timeout: int, s: int, k: nat)
    requires k <= |obs| && (k > 0 ==> !Stuck(obs[k - 1], s) || ClearsAt(obs, timeout, k - 1, s))
    ensures s !in SeenAfter(obs, timeout, k)
  {
  }

  /** After each check exactly the stuck shards that it did not clear are tracked. */
  lemma TrackedAreStuckUncleared(obs: seq<Observation>, timeout: int, k: nat)
    requires k < |obs|
    ensures SeenAfter(obs, timeout, k + 1).Keys
         == set s | s in obs[k].shards && Stuck(obs[k], s) && !ClearsAt(obs, timeout, k, s)
  {
    assert SeenAfter(obs, timeout, k + 1) == Tracked(SeenAfter(obs, timeout, k), obs[k], timeout);
  }

  /** A check takes a shard's target away if and only if it sees the shard stuck and the shard has been
      waiting, through every check in between, since one that was at least the timeout ago. */
  lemma ClearedIffWaitedOut(obs: seq<Observation>, timeout: int, s: int, k: nat)
    requires k < |obs|
    ensures ClearsAt(obs, timeout, k, s) <==>
      && Stuck(obs[k], s)
      && exists i :: 0 <= i < k && WaitsSince(obs, timeout, s, i, k) && obs[k].now - obs[i].now >= timeout
  {
    TrackedIffWaiting(obs, timeout, s, k);
    if ClearsAt(obs, timeout, k, s) {
      var i :| 0 <= i < k && WaitsSince(obs, timeout, s, i, k);
      assert obs[k].now - obs[i].now >= timeout;
    }
  }
}
