/** What the ownership protocol can do, in every reachable state: a running member whose view has caught up
    with etcd claims, releases and takes over exactly what it should, and if nobody interferes each of these
    takes three steps, after which etcd and the member agree on the result. */
module ClusterProgress {
  import opened Options
  import opened Shards
  import opened ClusterProtocol
  import opened ClusterSafety

  /** The member is running, has seen every write, and is in the cluster. */
  ghost predicate Synced(st: State, n: string) {
    && n != "" && Active(st, n) && st.members[n].seen == |st.log| && n in LiveAt(st.log, |st.log|)
  }

  lemma SyncedShard(log: seq<Event>, s: int, e: ShardInfo)
    requires EntryOk(log, s, e) && LastRev(log, s, |log|) <= e.modRevision
    ensures e == ShardAt(log, s, |log|) && e.modRevision == LastRev(log, s, |log|)
  {
  }

  /** Its cache is then what etcd holds. */
  lemma SyncedSees(acts: seq<Action>, states: seq<State>, k: nat, n: string, s: int)
    requires IsRun(acts, states) && k < |states| && Synced(states[k], n)
    ensures var st := states[k];
            var m, e := st.members[n], ShardAt(st.log, s, |st.log|);
            && Lookup(m.shards, s) == e && e.modRevision == LastRev(st.log, s, |st.log|)
            && m.nodes == LiveAt(st.log, |st.log|)
            && m.leader == LeaderAt(st.log, |st.log|) && m.leaderRev == LastLeaderRev(st.log, |st.log|)
  {
    RunInv(acts, states, k);
    var st := states[k];
    assert MemberOk(st.log, n, st.members[n]);
    MemberSees(st.log, n, st.members[n], s);
    MemberSeesLeader(st.log, n, st.members[n]);
  }

  lemma MemberSees(log: seq<Event>, n: string, m: Member, s: int)
    requires ShardCacheOk(log, n, m) && m.seen == |log|
    ensures Lookup(m.shards, s) == ShardAt(log, s, |log|) && Lookup(m.shards, s).modRevision == LastRev(log, s, |log|)
  {
    assert CacheEntryOk(log, n, m.seen, s, Lookup(m.shards, s));
    SyncedShard(log, s, Lookup(m.shards, s));
  }

  lemma MemberSeesLeader(log: seq<Event>, n: string, m: Member)
    requires NodeCacheOk(log, n, m) && m.seen == |log|
    ensures m.leader == LeaderAt(log, |log|) && m.leaderRev == LastLeaderRev(log, |log|)
  {
  }

  /** A key that etcd has is in the cache. */
  lemma LookupIsThere(shards: ShardMap, s: int)
    requires Lookup(shards, s) != UNASSIGNED
    ensures s in shards && shards[s] == Lookup(shards, s)
  {
  }

  // ----- One transaction, undisturbed -----

  /** The transaction is sent, commits, and reaches its sender's cache; `a` is the step that sends it. */
  ghost predicate Lands(st: State, a: Action, n: string, s: int, t: Txn) {
    && t.ShardTxn? && Enabled(st, a)
    && var st1 := Apply(st, a);
       && Enabled(st1, Commit(t))
       && var st2 := Apply(st1, Commit(t));
          && Enabled(st2, CacheOwn(n, s))
          && var st3 := Apply(st2, CacheOwn(n, s));
             && n in st3.members && Lookup(st3.members[n].shards, s) == ShardAt(st3.log, s, |st3.log|)
             && ShardAt(st3.log, s, |st3.log|) == t.after.(modRevision := |st3.log|)
  }

  lemma WrittenIsLast(log: seq<Event>, t: Txn)
    requires t.ShardTxn?
    ensures var log' := log + [Written(log, t)];
            ShardAt(log', t.shard, |log'|) == t.after.(modRevision := |log'|)
  {
  }

  lemma SentLands(st: State, a: Action, n: string, s: int, txns: map<int, Txn>)
    requires Active(st, n) && Enabled(st, a) && Apply(st, a) == Sent(st, n, txns) && s in txns
    requires txns[s].ShardTxn? && txns[s].sender == n && txns[s].shard == s
    requires txns[s].after.modRevision == LastRev(st.log, s, |st.log|)
    requires Lookup(st.members[n].shards, s).modRevision <= |st.log|
    ensures Lands(st, a, n, s, txns[s])
  {
    var t := txns[s];
    var st1 := Apply(st, a);
    assert t in txns.Values && t in st1.flying && st1.members[n].jobs[s] == Job(t, 0);
    var st2 := Apply(st1, Commit(t));
    assert st2.members[n].jobs[s] == Job(t, |st.log| + 1);
    WrittenIsLast(st.log, t);
  }

  // ----- Claims, releases and changes of target -----

  /** A member in step with etcd claims a shard if and only if it is the target and no live node holds it; and
      undisturbed, the claim makes it the holder, in etcd and in its own view. */
  lemma ClaimSucceeds(acts: seq<Action>, states: seq<State>, k: nat, n: string, s: int)
    requires IsRun(acts, states) && k < |states| && Synced(states[k], n) && states[k].members[n].jobs == map[]
    ensures var st := states[k];
            var e, txns := ShardAt(st.log, s, |st.log|), ClaimTxns(st.members[n], n);
            && Enabled(st, PlanClaim(n)) && Apply(st, PlanClaim(n)) == Sent(st, n, txns)
            && (s in txns <==> e.target == n && (e.current == "" || e.current !in LiveAt(st.log, |st.log|)))
            && (s in txns ==>
                  && txns[s].ShardTxn? && txns[s].after == e.(current := n)
                  && Lands(st, PlanClaim(n), n, s, txns[s]))
  {
    SyncedSees(acts, states, k, n, s);
    var st := states[k];
    var txns := ClaimTxns(st.members[n], n);
    var e := ShardAt(st.log, s, |st.log|);
    if e.target == n { LookupIsThere(st.members[n].shards, s); }
    if s in txns { SentLands(st, PlanClaim(n), n, s, txns); }
  }

  /** A member in step with etcd releases a shard if and only if it holds it, another node is the target and
      no local object is left on it; and undisturbed, the shard is then free. */
  lemma ReleaseSucceeds(acts: seq<Action>, states: seq<State>, k: nat, n: string, s: int, busy: set<int>)
    requires IsRun(acts, states) && k < |states| && Synced(states[k], n) && states[k].members[n].jobs == map[]
    ensures var st := states[k];
            var e, txns := ShardAt(st.log, s, |st.log|), ReleaseTxns(st.members[n], n, busy);
            && Enabled(st, PlanRelease(n, busy)) && Apply(st, PlanRelease(n, busy)) == Sent(st, n, txns)
            && (s in txns <==> e.current == n && e.target != "" && e.target != n && s !in busy)
            && (s in txns ==>
                  && txns[s].ShardTxn? && txns[s].after == e.(current := "")
                  && Lands(st, PlanRelease(n, busy), n, s, txns[s]))
  {
    SyncedSees(acts, states, k, n, s);
    var st := states[k];
    var txns := ReleaseTxns(st.members[n], n, busy);
    var e := ShardAt(st.log, s, |st.log|);
    if e.current == n { LookupIsThere(st.members[n].shards, s); }
    if s in txns { SentLands(st, PlanRelease(n, busy), n, s, txns); }
  }

  /** What a planner in step with etcd decides about a shard takes effect, and leaves its holder alone. */
  lemma RetargetSucceeds(acts: seq<Action>, states: seq<State>, k: nat, n: string, s: int, plan: map<int, Placement>)
    requires IsRun(acts, states) && k < |states| && Synced(states[k], n) && states[k].members[n].jobs == map[]
    requires s in plan
    ensures var st := states[k];
            var e, txns := ShardAt(st.log, s, |st.log|), RetargetTxns(st.members[n], n, plan);
            && s in txns && txns[s].ShardTxn? && txns[s].after == e.(target := plan[s].target, flags := plan[s].flags)
            && Lands(st, PlanRetarget(n, plan), n, s, txns[s])
  {
    SyncedSees(acts, states, k, n, s);
    SentLands(states[k], PlanRetarget(n, plan), n, s, RetargetTxns(states[k].members[n], n, plan));
  }

  // ----- Leadership -----

  lemma LeaderWrittenIsLast(log: seq<Event>, t: Txn)
    requires t.LeaderTxn?
    ensures var log' := log + [Written(log, t)]; LeaderAt(log', |log'|) == t.sender
  {
  }

  /** A member in step with etcd bids for leadership if and only if the leader is nobody or has lost its key,
      and is not the member itself; and undisturbed, the bid makes it the leader, in etcd and in its own
      view. */
  lemma TakeoverSucceeds(acts: seq<Action>, states: seq<State>, k: nat, n: string)
    requires IsRun(acts, states) && k < |states| && Synced(states[k], n) && states[k].members[n].bid.None?
    ensures var st := states[k];
            var leader := LeaderAt(st.log, |st.log|);
            && (Enabled(st, PlanBid(n)) <==> leader != n && (leader == "" || leader !in LiveAt(st.log, |st.log|)))
            && (Enabled(st, PlanBid(n)) ==>
                  var t := LeaderTxn(n, leader, LastLeaderRev(st.log, |st.log|));
                  var st1 := Apply(st, PlanBid(n));
                  && Enabled(st1, Commit(t))
                  && var st2 := Apply(st1, Commit(t));
                     && Enabled(st2, CacheBid(n))
                     && var st3 := Apply(st2, CacheBid(n));
                        LeaderAt(st3.log, |st3.log|) == n && n in st3.members && st3.members[n].leader == n)
  {
    SyncedSees(acts, states, k, n, 0);
    var st := states[k];
    if Enabled(st, PlanBid(n)) {
      var t := LeaderTxn(n, LeaderAt(st.log, |st.log|), LastLeaderRev(st.log, |st.log|));
      var st1 := Apply(st, PlanBid(n));
      assert t in st1.flying && st1.members[n].bid == Some(Job(t, 0));
      LeaderWrittenIsLast(st.log, t);
    }
  }
}
