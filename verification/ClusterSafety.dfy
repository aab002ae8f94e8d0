/** The invariant of the ownership protocol: what the log of writes looks like, how a lagging cache
    relates to it, and what a transaction in flight may rely on. */
module ClusterSafety {
  import opened Options
  import opened Shards
  import opened ClusterProtocol

  // ----- The log -----

  /** The write at index `q` is a legal move from what the shard held: a claim by the target of a shard
      that is free or whose holder's key is gone, a release by the holder to somebody else, or a change
      of target or flags that leaves the holder alone. */
  ghost predicate LegalPut(log: seq<Event>, q: nat)
    requires q < |log|
  {
    log[q].ShardPut? ==>
      var prev := ShardAt(log, log[q].shard, q);
      var v, n := log[q].value, log[q].writer;
      match log[q].kind
      case Claim =>
        && prev.target == n && v == prev.(current := n, modRevision := q + 1)
        && Up(log, n, q) && (prev.current == "" || Down(log, prev.current, q))
      case Release =>
        && prev.current == n && prev.target != "" && prev.target != n
        && v == prev.(current := "", modRevision := q + 1)
      case Retarget => v == prev.(target := v.target, flags := v.flags, modRevision := q + 1)
  }

  /** A takeover replaces the latest leader revision, whose holder is nobody or has lost its key. */
  ghost predicate LegalTakeover(log: seq<Event>, q: nat)
    requires q < |log|
  {
    log[q].LeaderPut? ==>
      && log[q].replaced == LastLeaderRev(log, q)
      && Up(log, log[q].leader, q)
      && (LeaderAt(log, q) == "" || Down(log, LeaderAt(log, q), q))
  }

  /** Whoever holds a shard had joined before. */
  ghost predicate HolderUp(log: seq<Event>, q: nat)
    requires q < |log|
  {
    log[q].ShardPut? && log[q].value.current != "" ==> Up(log, log[q].value.current, q)
  }

  ghost predicate LogOk(log: seq<Event>) {
    forall q :: 0 <= q < |log| ==> LegalPut(log, q) && LegalTakeover(log, q) && HolderUp(log, q)
  }

  // ----- Caches and transactions -----

  /** The entry is what etcd held for the shard at the entry's own revision. */
  predicate EntryOk(log: seq<Event>, s: int, e: ShardInfo) {
    || e == UNASSIGNED
    || (0 < e.modRevision <= |log| && log[e.modRevision - 1].ShardPut?
        && log[e.modRevision - 1].shard == s && log[e.modRevision - 1].value == e)
  }

  /** A holder this member names is the member itself or one whose joining it has seen. */
  ghost predicate Known(log: seq<Event>, n: string, seen: nat, holder: string)
    requires seen <= |log|
  {
    holder == "" || holder == n || Up(log, holder, seen)
  }

  /** The entry is true of its own revision, no older than what the member has watched, and names a known holder. */
  ghost predicate CacheEntryOk(log: seq<Event>, n: string, seen: nat, s: int, e: ShardInfo)
    requires seen <= |log|
  {
    EntryOk(log, s, e) && LastRev(log, s, seen) <= e.modRevision && Known(log, n, seen, e.current)
  }

  ghost predicate ShardCacheOk(log: seq<Event>, n: string, m: Member) {
    && m.seen <= |log|
    && forall s :: CacheEntryOk(log, n, m.seen, s, Lookup(m.shards, s))
  }

  predicate LeaderEntryOk(log: seq<Event>, holder: string, rev: nat) {
    || (rev == 0 && holder == "")
    || (0 < rev <= |log| && log[rev - 1].LeaderPut? && log[rev - 1].leader == holder)
  }

  ghost predicate NodeCacheOk(log: seq<Event>, n: string, m: Member) {
    && m.seen <= |log|
    && m.nodes == LiveAt(log, m.seen)
    && LeaderEntryOk(log, m.leader, m.leaderRev)
    && LastLeaderRev(log, m.seen) <= m.leaderRev
    && Known(log, n, m.seen, m.leader)
  }

  /** What is left of the sender's reasons by the time its transaction arrives. */
  ghost predicate TxnOk(log: seq<Event>, t: Txn) {
    match t
    case ShardTxn(n, s, kind, before, after) =>
      && EntryOk(log, s, before)
      && (match kind
          case Claim => before.target == n && after == before.(current := n) && Up(log, n, |log|)
                        && (before.current == "" || Down(log, before.current, |log|))
          case Release => before.current == n && before.target != "" && before.target != n
                          && after == before.(current := "")
          case Retarget => after == before.(target := after.target, flags := after.flags))
    case LeaderTxn(n, holder, expected) =>
      && LeaderEntryOk(log, holder, expected) && Up(log, n, |log|) && (holder == "" || Down(log, holder, |log|))
  }

  /** A transaction never rests on an entry later than the sender's cache. */
  predicate TxnCached(members: map<string, Member>, t: Txn) {
    && t.sender in members
    && (t.ShardTxn? ==> t.before.modRevision <= Lookup(members[t.sender].shards, t.shard).modRevision)
  }

  /** A job's commit, if it has one, is in the log, and its result may enter the sender's cache. */
  ghost predicate JobOk(log: seq<Event>, n: string, m: Member, s: int, j: Job)
    requires m.seen <= |log|
  {
    && j.txn.ShardTxn? && j.txn.sender == n && j.txn.shard == s
    && (j.committed > 0 ==>
          && j.committed <= |log|
          && log[j.committed - 1] == ShardPut(s, j.txn.after.(modRevision := j.committed), n, j.txn.kind))
    && Known(log, n, m.seen, j.txn.after.current)
  }

  ghost predicate JobsOk(log: seq<Event>, n: string, m: Member) {
    && m.seen <= |log|
    && (forall s :: s in m.jobs ==> JobOk(log, n, m, s, m.jobs[s]))
    && (m.bid.Some? ==>
          var j := m.bid.value;
          && j.txn.LeaderTxn? && j.txn.sender == n
          && (j.committed > 0 ==> j.committed <= |log| && log[j.committed - 1] == LeaderPut(n, j.txn.expected)))
  }

  ghost predicate MemberOk(log: seq<Event>, n: string, m: Member) {
    ShardCacheOk(log, n, m) && NodeCacheOk(log, n, m) && JobsOk(log, n, m)
  }

  /** A member's own claims were made from entries its cache still has or has moved beyond. */
  ghost predicate OwnClaimsCached(st: State) {
    forall q :: 0 <= q < |st.log| && st.log[q].ShardPut? && st.log[q].kind == Claim ==>
      && st.log[q].writer in st.members
      && LastRev(st.log, st.log[q].shard, q) <= Lookup(st.members[st.log[q].writer].shards, st.log[q].shard).modRevision
  }

  /** A node key disappears only after its node has stopped. */
  ghost predicate KeysOutlive(st: State) {
    forall q :: 0 <= q < |st.log| && st.log[q].NodeDown? ==>
      st.log[q].node in st.members && st.log[q].node !in st.running
  }

  ghost predicate Inv(st: State) {
    && LogOk(st.log)
    && (forall n :: n in st.members ==> MemberOk(st.log, n, st.members[n]))
    && (forall t :: t in st.flying ==> TxnOk(st.log, t) && TxnCached(st.members, t))
    && OwnClaimsCached(st)
    && KeysOutlive(st)
  }

  // ----- A longer log says the same about the past -----

  lemma {:induction false} SameRev(log: seq<Event>, e: Event, s: int, w: nat)
    requires w <= |log|
    ensures LastRev(log + [e], s, w) == LastRev(log, s, w)
  {
    if w > 0 { SameRev(log, e, s, w - 1); }
  }

  lemma {:induction false} SameLeaderRev(log: seq<Event>, e: Event, w: nat)
    requires w <= |log|
    ensures LastLeaderRev(log + [e], w) == LastLeaderRev(log, w)
  {
    if w > 0 { SameLeaderRev(log, e, w - 1); }
  }

  lemma {:induction false} SameLive(log: seq<Event>, e: Event, w: nat)
    requires w <= |log|
    ensures LiveAt(log + [e], w) == LiveAt(log, w)
  {
    if w > 0 { SameLive(log, e, w - 1); }
  }

  lemma SameUpDown(log: seq<Event>, e: Event, n: string, w: nat)
    requires w <= |log|
    ensures Up(log + [e], n, w) == Up(log, n, w)
    ensures Down(log + [e], n, w) == Down(log, n, w)
  {
    assert forall i :: 0 <= i < w ==> (log + [e])[i] == log[i];
    if Up(log, n, w) {
      var i :| 0 <= i < w && log[i] == NodeUp(n);
      assert (log + [e])[i] == NodeUp(n);
    }
    if Down(log, n, w) {
      var i :| 0 <= i < w && log[i] == NodeDown(n);
      assert (log + [e])[i] == NodeDown(n);
    }
  }

  lemma UpDownGrow(log: seq<Event>, n: string, w: nat, v: nat)
    requires w <= v <= |log|
    ensures Up(log, n, w) ==> Up(log, n, v)
    ensures Down(log, n, w) ==> Down(log, n, v)
  {
  }

  lemma PastPut(log: seq<Event>, e: Event, q: nat)
    requires q < |log| && LegalPut(log, q)
    ensures LegalPut(log + [e], q)
  {
    if log[q].ShardPut? {
      SameRev(log, e, log[q].shard, q);
      SameUpDown(log, e, log[q].writer, q);
      SameUpDown(log, e, ShardAt(log, log[q].shard, q).current, q);
    }
  }

  lemma PastTakeover(log: seq<Event>, e: Event, q: nat)
    requires q < |log| && LegalTakeover(log, q) && HolderUp(log, q)
    ensures LegalTakeover(log + [e], q) && HolderUp(log + [e], q)
  {
    if log[q].LeaderPut? {
      SameLeaderRev(log, e, q);
      SameUpDown(log, e, log[q].leader, q);
      SameUpDown(log, e, LeaderAt(log, q), q);
    } else if log[q].ShardPut? {
      SameUpDown(log, e, log[q].value.current, q);
    }
  }

  lemma LogGrows(log: seq<Event>, e: Event)
    requires LogOk(log) && LegalPut(log + [e], |log|) && LegalTakeover(log + [e], |log|) && HolderUp(log + [e], |log|)
    ensures LogOk(log + [e])
  {
    forall q | 0 <= q < |log + [e]|
      ensures LegalPut(log + [e], q) && LegalTakeover(log + [e], q) && HolderUp(log + [e], q)
    {
      if q < |log| {
        PastPut(log, e, q);
        PastTakeover(log, e, q);
      }
    }
  }

  lemma KnownStays(log: seq<Event>, e: Event, n: string, seen: nat, holder: string)
    requires seen <= |log| && Known(log, n, seen, holder)
    ensures Known(log + [e], n, seen, holder)
  {
    SameUpDown(log, e, holder, seen);
  }

  lemma ShardCacheStays(log: seq<Event>, e: Event, n: string, m: Member)
    requires ShardCacheOk(log, n, m)
    ensures ShardCacheOk(log + [e], n, m)
  {
    forall s ensures CacheEntryOk(log + [e], n, m.seen, s, Lookup(m.shards, s)) {
      assert CacheEntryOk(log, n, m.seen, s, Lookup(m.shards, s));
      SameRev(log, e, s, m.seen);
      KnownStays(log, e, n, m.seen, Lookup(m.shards, s).current);
    }
  }

  lemma MemberStays(log: seq<Event>, e: Event, n: string, m: Member)
    requires MemberOk(log, n, m)
    ensures MemberOk(log + [e], n, m)
  {
    ShardCacheStays(log, e, n, m);
    SameLive(log, e, m.seen);
    SameLeaderRev(log, e, m.seen);
    KnownStays(log, e, n, m.seen, m.leader);
    forall s | s in m.jobs ensures JobOk(log + [e], n, m, s, m.jobs[s]) {
      assert JobOk(log, n, m, s, m.jobs[s]);
      KnownStays(log, e, n, m.seen, m.jobs[s].txn.after.current);
    }
  }

  lemma TxnStays(log: seq<Event>, e: Event, t: Txn)
    requires TxnOk(log, t)
    ensures TxnOk(log + [e], t)
  {
    SameUpDown(log, e, t.sender, |log|);
    UpDownGrow(log + [e], t.sender, |log|, |log| + 1);
    var other := if t.ShardTxn? then t.before.current else t.holder;
    SameUpDown(log, e, other, |log|);
    UpDownGrow(log + [e], other, |log|, |log| + 1);
  }

  // ----- Updating one member or the log -----

  /** A cache only ever moves forward. */
  ghost predicate Forward(m: Member, m': Member) {
    forall s :: Lookup(m.shards, s).modRevision <= Lookup(m'.shards, s).modRevision
  }

  lemma UpdateKeepsInv(st: State, n: string, m': Member)
    requires Inv(st) && n in st.members && MemberOk(st.log, n, m') && Forward(st.members[n], m')
    ensures Inv(Put(st, n, m'))
  {
    var st' := Put(st, n, m');
    forall t | t in st'.flying ensures TxnCached(st'.members, t) {
      assert TxnCached(st.members, t);
      if t.sender == n && t.ShardTxn? {
        var s := t.shard;
        assert Lookup(st.members[n].shards, s).modRevision <= Lookup(m'.shards, s).modRevision;
      }
    }
    forall q | 0 <= q < |st.log| && st.log[q].ShardPut? && st.log[q].kind == Claim
      ensures st.log[q].writer in st'.members
              && LastRev(st.log, st.log[q].shard, q)
                 <= Lookup(st'.members[st.log[q].writer].shards, st.log[q].shard).modRevision
    {
      if st.log[q].writer == n {
        var s := st.log[q].shard;
        assert Lookup(st.members[n].shards, s).modRevision <= Lookup(m'.shards, s).modRevision;
      }
    }
  }

  lemma GrowClaims(st: State, e: Event)
    requires OwnClaimsCached(st)
    requires e.ShardPut? && e.kind == Claim ==>
      && e.writer in st.members
      && LastRev(st.log, e.shard, |st.log|) <= Lookup(st.members[e.writer].shards, e.shard).modRevision
    ensures OwnClaimsCached(st.(log := st.log + [e]))
  {
    var log := st.log + [e];
    forall q | 0 <= q < |log| && log[q].ShardPut? && log[q].kind == Claim
      ensures log[q].writer in st.members
              && LastRev(log, log[q].shard, q) <= Lookup(st.members[log[q].writer].shards, log[q].shard).modRevision
    {
      SameRev(st.log, e, log[q].shard, q);
      if q < |st.log| { assert log[q] == st.log[q]; }
    }
  }

  lemma GrowKeepsInv(st: State, e: Event)
    requires Inv(st) && LegalPut(st.log + [e], |st.log|) && LegalTakeover(st.log + [e], |st.log|)
    requires HolderUp(st.log + [e], |st.log|)
    requires e.NodeDown? ==> e.node in st.members && e.node !in st.running
    requires e.ShardPut? && e.kind == Claim ==>
      && e.writer in st.members
      && LastRev(st.log, e.shard, |st.log|) <= Lookup(st.members[e.writer].shards, e.shard).modRevision
    ensures Inv(st.(log := st.log + [e]))
  {
    LogGrows(st.log, e);
    forall n | n in st.members ensures MemberOk(st.log + [e], n, st.members[n]) {
      MemberStays(st.log, e, n, st.members[n]);
    }
    forall t | t in st.flying ensures TxnOk(st.log + [e], t) { TxnStays(st.log, e, t); }
    GrowClaims(st, e);
  }

  // ----- Watching and reloading -----

  lemma WatchShard(log: seq<Event>, n: string, m: Member, s: int)
    requires LogOk(log) && m.seen < |log| && CacheEntryOk(log, n, m.seen, s, Lookup(m.shards, s))
    ensures CacheEntryOk(log, n, m.seen + 1, s, Lookup(Watched(m, log[m.seen]).shards, s))
    ensures Lookup(m.shards, s).modRevision <= Lookup(Watched(m, log[m.seen]).shards, s).modRevision
  {
    var e := log[m.seen];
    UpDownGrow(log, Lookup(m.shards, s).current, m.seen, m.seen + 1);
    if e.ShardPut? && e.shard == s {
      assert LegalPut(log, m.seen) && HolderUp(log, m.seen);
      assert e.value.modRevision == m.seen + 1;
      UpDownGrow(log, e.value.current, m.seen, m.seen + 1);
    }
  }

  lemma WatchShards(log: seq<Event>, n: string, m: Member)
    requires LogOk(log) && ShardCacheOk(log, n, m) && m.seen < |log|
    ensures ShardCacheOk(log, n, Watched(m, log[m.seen])) && Forward(m, Watched(m, log[m.seen]))
  {
    var m' := Watched(m, log[m.seen]);
    forall s ensures CacheEntryOk(log, n, m'.seen, s, Lookup(m'.shards, s))
                     && Lookup(m.shards, s).modRevision <= Lookup(m'.shards, s).modRevision
    {
      assert CacheEntryOk(log, n, m.seen, s, Lookup(m.shards, s));
      WatchShard(log, n, m, s);
    }
  }

  lemma WatchNodes(log: seq<Event>, n: string, m: Member)
    requires LogOk(log) && NodeCacheOk(log, n, m) && m.seen < |log|
    ensures NodeCacheOk(log, n, Watched(m, log[m.seen]))
  {
    assert LegalTakeover(log, m.seen);
    UpDownGrow(log, m.leader, m.seen, m.seen + 1);
    if log[m.seen].LeaderPut? { UpDownGrow(log, log[m.seen].leader, m.seen, m.seen + 1); }
  }

  lemma JobsForward(log: seq<Event>, n: string, m: Member, m': Member)
    requires JobsOk(log, n, m) && m.seen <= m'.seen <= |log| && m'.jobs == m.jobs && m'.bid == m.bid
    ensures JobsOk(log, n, m')
  {
    forall s | s in m'.jobs ensures JobOk(log, n, m', s, m'.jobs[s]) {
      assert JobOk(log, n, m, s, m.jobs[s]);
      UpDownGrow(log, m.jobs[s].txn.after.current, m.seen, m'.seen);
    }
  }

  lemma {:induction false} ShardsAtIsShardAt(log: seq<Event>, s: int, w: nat)
    requires w <= |log|
    ensures Lookup(ShardsAt(log, w), s) == ShardAt(log, s, w)
  {
    if w > 0 { ShardsAtIsShardAt(log, s, w - 1); }
  }

  lemma EntryIsPast(log: seq<Event>, s: int, e: ShardInfo)
    requires LogOk(log) && EntryOk(log, s, e)
    ensures e.modRevision <= LastRev(log, s, |log|) == ShardAt(log, s, |log|).modRevision
  {
    var r := LastRev(log, s, |log|);
    if r > 0 { assert LegalPut(log, r - 1); }
  }

  lemma ReloadShards(log: seq<Event>, n: string, m: Member)
    requires LogOk(log) && ShardCacheOk(log, n, m)
    ensures ShardCacheOk(log, n, Reloaded(m, log)) && Forward(m, Reloaded(m, log))
  {
    var m' := Reloaded(m, log);
    forall s ensures CacheEntryOk(log, n, m'.seen, s, Lookup(m'.shards, s))
                     && Lookup(m.shards, s).modRevision <= Lookup(m'.shards, s).modRevision
    {
      ShardsAtIsShardAt(log, s, |log|);
      assert CacheEntryOk(log, n, m.seen, s, Lookup(m.shards, s));
      EntryIsPast(log, s, Lookup(m.shards, s));
      var r := LastRev(log, s, |log|);
      if r > 0 {
        assert HolderUp(log, r - 1) && LegalPut(log, r - 1);
        UpDownGrow(log, log[r - 1].value.current, r - 1, |log|);
      }
    }
  }

  lemma ReloadNodes(log: seq<Event>, n: string, m: Member)
    requires LogOk(log)
    ensures NodeCacheOk(log, n, Reloaded(m, log))
  {
    var r := LastLeaderRev(log, |log|);
    if r > 0 {
      assert LegalTakeover(log, r - 1);
      UpDownGrow(log, log[r - 1].leader, r - 1, |log|);
    }
  }

  lemma WatchJobs(log: seq<Event>, n: string, m: Member)
    requires JobsOk(log, n, m) && m.seen < |log|
    ensures JobsOk(log, n, Watched(m, log[m.seen]))
  {
    JobsForward(log, n, m, Watched(m, log[m.seen]));
  }

  lemma WatchKeepsInv(st: State, n: string)
    requires Inv(st) && Enabled(st, Watch(n))
    ensures Inv(Apply(st, Watch(n)))
  {
    var m := st.members[n];
    assert MemberOk(st.log, n, m);
    WatchShards(st.log, n, m);
    WatchNodes(st.log, n, m);
    WatchJobs(st.log, n, m);
    UpdateKeepsInv(st, n, Watched(st.members[n], st.log[st.members[n].seen]));
  }

  lemma ReloadKeepsInv(st: State, n: string)
    requires Inv(st) && Enabled(st, Reload(n))
    ensures Inv(Apply(st, Reload(n)))
  {
    var m := st.members[n];
    assert MemberOk(st.log, n, m);
    ReloadShards(st.log, n, m);
    ReloadNodes(st.log, n, m);
    JobsForward(st.log, n, m, Reloaded(m, st.log));
    UpdateKeepsInv(st, n, Reloaded(m, st.log));
  }

  // ----- Deciding -----

  lemma {:induction false} LiveMeansUp(log: seq<Event>, n: string, w: nat)
    requires w <= |log|
    ensures n in LiveAt(log, w) ==> Up(log, n, w)
    ensures Up(log, n, w) && n !in LiveAt(log, w) ==> Down(log, n, w)
  {
    if w > 0 {
      LiveMeansUp(log, n, w - 1);
      UpDownGrow(log, n, w - 1, w);
      if log[w - 1] == NodeUp(n) { assert Up(log, n, w); }
      else if log[w - 1] == NodeDown(n) { assert Down(log, n, w); }
    }
  }

  /** A holder the member knows of and does not see alive has lost its key. */
  lemma UnseenIsDown(log: seq<Event>, n: string, m: Member, holder: string)
    requires NodeCacheOk(log, n, m) && Known(log, n, m.seen, holder)
    requires holder != "" && holder != n && holder !in m.nodes
    ensures Down(log, holder, |log|)
  {
    LiveMeansUp(log, holder, m.seen);
    UpDownGrow(log, holder, m.seen, |log|);
  }

  /** Transactions a member may send: well founded, resting on its cache, and fit to enter it. */
  ghost predicate Sendable(log: seq<Event>, n: string, m: Member, s: int, t: Txn)
    requires m.seen <= |log|
  {
    && TxnOk(log, t) && JobOk(log, n, m, s, Job(t, 0))
    && t.before.modRevision <= Lookup(m.shards, s).modRevision
  }

  lemma SendMember(log: seq<Event>, n: string, m: Member, txns: map<int, Txn>, m': Member)
    requires MemberOk(log, n, m) && forall s :: s in txns ==> Sendable(log, n, m, s, txns[s])
    requires m' == m.(jobs := map s | s in txns :: Job(txns[s], 0))
    ensures MemberOk(log, n, m')
  {
    forall s | s in m'.jobs ensures JobOk(log, n, m', s, m'.jobs[s]) { assert Sendable(log, n, m, s, txns[s]); }
  }

  lemma FlyingKeepsInv(st: State, more: set<Txn>)
    requires Inv(st) && forall t :: t in more ==> TxnOk(st.log, t) && TxnCached(st.members, t)
    ensures Inv(st.(flying := st.flying + more))
  {
  }

  lemma SendKeepsInv(st: State, n: string, txns: map<int, Txn>)
    requires Inv(st) && n in st.members && st.members[n].seen <= |st.log|
    requires forall s :: s in txns ==> Sendable(st.log, n, st.members[n], s, txns[s])
    ensures Inv(Sent(st, n, txns))
  {
    var m := st.members[n];
    var m' := m.(jobs := map s | s in txns :: Job(txns[s], 0));
    SendMember(st.log, n, m, txns, m');
    UpdateKeepsInv(st, n, m');
    forall t | t in txns.Values ensures TxnOk(st.log, t) && TxnCached(Put(st, n, m').members, t) {
      var s :| s in txns && txns[s] == t;
      assert Sendable(st.log, n, m, s, t);
    }
    FlyingKeepsInv(Put(st, n, m'), txns.Values);
  }

  lemma ClaimSendable(log: seq<Event>, n: string, m: Member, s: int)
    requires MemberOk(log, n, m) && n in m.nodes && s in ClaimTxns(m, n)
    ensures Sendable(log, n, m, s, ClaimTxns(m, n)[s])
  {
    var info := m.shards[s];
    assert CacheEntryOk(log, n, m.seen, s, Lookup(m.shards, s));
    LiveMeansUp(log, n, m.seen);
    UpDownGrow(log, n, m.seen, |log|);
    if info.current != "" { UnseenIsDown(log, n, m, info.current); }
  }

  lemma ReleaseSendable(log: seq<Event>, n: string, m: Member, busy: set<int>, s: int)
    requires MemberOk(log, n, m) && s in ReleaseTxns(m, n, busy)
    ensures Sendable(log, n, m, s, ReleaseTxns(m, n, busy)[s])
  {
    assert CacheEntryOk(log, n, m.seen, s, Lookup(m.shards, s));
  }

  lemma RetargetSendable(log: seq<Event>, n: string, m: Member, plan: map<int, Placement>, s: int)
    requires MemberOk(log, n, m) && s in plan
    ensures Sendable(log, n, m, s, RetargetTxns(m, n, plan)[s])
  {
    assert CacheEntryOk(log, n, m.seen, s, Lookup(m.shards, s));
  }

  lemma PlanKeepsInv(st: State, a: Action)
    requires Inv(st) && Enabled(st, a) && (a.PlanClaim? || a.PlanRelease? || a.PlanRetarget?)
    ensures Inv(Apply(st, a))
  {
    var n := a.n;
    var m := st.members[n];
    assert MemberOk(st.log, n, m);
    match a
    case PlanClaim(_) =>
      forall s | s in ClaimTxns(m, n) ensures Sendable(st.log, n, m, s, ClaimTxns(m, n)[s]) {
        ClaimSendable(st.log, n, m, s);
      }
      SendKeepsInv(st, n, ClaimTxns(m, n));
    case PlanRelease(_, busy) =>
      forall s | s in ReleaseTxns(m, n, busy) ensures Sendable(st.log, n, m, s, ReleaseTxns(m, n, busy)[s]) {
        ReleaseSendable(st.log, n, m, busy, s);
      }
      SendKeepsInv(st, n, ReleaseTxns(m, n, busy));
    case PlanRetarget(_, plan) =>
      forall s | s in plan ensures Sendable(st.log, n, m, s, RetargetTxns(m, n, plan)[s]) {
        RetargetSendable(st.log, n, m, plan, s);
      }
      SendKeepsInv(st, n, RetargetTxns(m, n, plan));
  }

  lemma BidOk(log: seq<Event>, n: string, m: Member)
    requires MemberOk(log, n, m) && MayBid(m, n)
    ensures TxnOk(log, LeaderTxn(n, m.leader, m.leaderRev))
    ensures MemberOk(log, n, m.(bid := Some(Job(LeaderTxn(n, m.leader, m.leaderRev), 0))))
  {
    LiveMeansUp(log, n, m.seen);
    UpDownGrow(log, n, m.seen, |log|);
    if m.leader != "" { UnseenIsDown(log, n, m, m.leader); }
    var m' := m.(bid := Some(Job(LeaderTxn(n, m.leader, m.leaderRev), 0)));
    forall s | s in m'.jobs ensures JobOk(log, n, m', s, m'.jobs[s]) { assert JobOk(log, n, m, s, m.jobs[s]); }
  }

  lemma BidKeepsInv(st: State, n: string)
    requires Inv(st) && Enabled(st, PlanBid(n))
    ensures Inv(Apply(st, PlanBid(n)))
  {
    var m := st.members[n];
    var t := LeaderTxn(n, m.leader, m.leaderRev);
    BidOk(st.log, n, m);
    UpdateKeepsInv(st, n, m.(bid := Some(Job(t, 0))));
    FlyingKeepsInv(Put(st, n, m.(bid := Some(Job(t, 0)))), {t});
  }

  // ----- Committing -----

  /** The compare succeeded, so the sender's entry is what etcd holds now. */
  lemma CommitActsOnTruth(log: seq<Event>, t: Txn)
    requires LogOk(log) && TxnOk(log, t) && t.ShardTxn? && Succeeds(log, t)
    ensures ShardAt(log, t.shard, |log|) == t.before
  {
    assert t.after.modRevision == t.before.modRevision;
  }

  lemma ShardCommitLegal(log: seq<Event>, t: Txn)
    requires LogOk(log) && TxnOk(log, t) && t.ShardTxn? && Succeeds(log, t)
    ensures LegalPut(log + [Written(log, t)], |log|) && HolderUp(log + [Written(log, t)], |log|)
  {
    var e := Written(log, t);
    CommitActsOnTruth(log, t);
    SameRev(log, e, t.shard, |log|);
    assert ShardAt(log + [e], t.shard, |log|) == t.before;
    SameUpDown(log, e, t.sender, |log|);
    SameUpDown(log, e, t.before.current, |log|);
    if t.kind == Retarget && t.before.modRevision > 0 {
      assert HolderUp(log, t.before.modRevision - 1);
      UpDownGrow(log, t.before.current, t.before.modRevision - 1, |log|);
    }
  }

  lemma LeaderCommitLegal(log: seq<Event>, t: Txn)
    requires LogOk(log) && TxnOk(log, t) && t.LeaderTxn? && Succeeds(log, t)
    ensures LegalTakeover(log + [Written(log, t)], |log|)
  {
    var e := Written(log, t);
    SameLeaderRev(log, e, |log|);
    assert LeaderAt(log, |log|) == t.holder;
    SameUpDown(log, e, t.sender, |log|);
    SameUpDown(log, e, t.holder, |log|);
  }

  lemma RepliedOk(log: seq<Event>, n: string, m: Member, t: Txn)
    requires MemberOk(log + [Written(log, t)], n, m) && t.sender == n
    ensures MemberOk(log + [Written(log, t)], n, Replied(m, t, |log| + 1))
  {
    var log', m' := log + [Written(log, t)], Replied(m, t, |log| + 1);
    forall s | s in m'.jobs ensures JobOk(log', n, m', s, m'.jobs[s]) { assert JobOk(log', n, m, s, m.jobs[s]); }
    assert JobsOk(log', n, m');
  }

  lemma CommitLegal(log: seq<Event>, t: Txn)
    requires LogOk(log) && TxnOk(log, t) && Succeeds(log, t)
    ensures var log' := log + [Written(log, t)];
            LegalPut(log', |log|) && LegalTakeover(log', |log|) && HolderUp(log', |log|)
    ensures t.ShardTxn? ==> LastRev(log, t.shard, |log|) == t.before.modRevision
  {
    if t.ShardTxn? { ShardCommitLegal(log, t); } else { LeaderCommitLegal(log, t); }
  }

  lemma CommitGrows(st: State, t: Txn)
    requires Inv(st) && t in st.flying && Succeeds(st.log, t)
    ensures Inv(st.(log := st.log + [Written(st.log, t)]))
  {
    assert TxnOk(st.log, t) && TxnCached(st.members, t);
    CommitLegal(st.log, t);
    GrowKeepsInv(st, Written(st.log, t));
  }

  lemma LandKeepsInv(st: State, t: Txn)
    requires Inv(st)
    ensures Inv(st.(flying := st.flying - {t}))
  {
  }

  lemma ReplyKeepsInv(st: State, log: seq<Event>, t: Txn)
    requires Inv(st) && st.log == log + [Written(log, t)] && t.sender in st.members
    ensures Inv(Put(st, t.sender, Replied(st.members[t.sender], t, |log| + 1)))
  {
    var m := st.members[t.sender];
    RepliedOk(log, t.sender, m, t);
    UpdateKeepsInv(st, t.sender, Replied(m, t, |log| + 1));
  }

  lemma CommitKeepsInv(st: State, t: Txn)
    requires Inv(st) && Enabled(st, Commit(t))
    ensures Inv(Apply(st, Commit(t)))
  {
    assert TxnCached(st.members, t);
    var st1 := st.(log := st.log + [Written(st.log, t)]);
    var st2 := st1.(flying := st.flying - {t});
    assert Inv(st2) by { CommitGrows(st, t); LandKeepsInv(st1, t); }
    assert Apply(st, Commit(t)) == Put(st2, t.sender, Replied(st2.members[t.sender], t, |st.log| + 1));
    ReplyKeepsInv(st2, st.log, t);
  }

  // ----- The sender's own cache -----

  lemma CachedOwnOk(log: seq<Event>, n: string, m: Member, s: int)
    requires LogOk(log) && MemberOk(log, n, m) && s in m.jobs && m.jobs[s].committed > 0
    ensures m.jobs[s].txn.ShardTxn? && MemberOk(log, n, CachedOwn(m, s)) && Forward(m, CachedOwn(m, s))
  {
    assert JobOk(log, n, m, s, m.jobs[s]);
    var m' := CachedOwn(m, s);
    forall x ensures CacheEntryOk(log, n, m'.seen, x, Lookup(m'.shards, x))
                     && Lookup(m.shards, x).modRevision <= Lookup(m'.shards, x).modRevision
    {
      assert CacheEntryOk(log, n, m.seen, x, Lookup(m.shards, x));
    }
    forall x | x in m'.jobs ensures JobOk(log, n, m', x, m'.jobs[x]) { assert JobOk(log, n, m, x, m.jobs[x]); }
  }

  lemma CacheOwnKeepsInv(st: State, n: string, s: int)
    requires Inv(st) && Enabled(st, CacheOwn(n, s))
    ensures Inv(Apply(st, CacheOwn(n, s)))
  {
    assert MemberOk(st.log, n, st.members[n]);
    CachedOwnOk(st.log, n, st.members[n], s);
    UpdateKeepsInv(st, n, CachedOwn(st.members[n], s));
  }

  lemma ForgetOk(log: seq<Event>, n: string, m: Member, m': Member)
    requires MemberOk(log, n, m) && m'.seen == m.seen && m'.shards == m.shards && m'.nodes == m.nodes
    requires forall s :: s in m'.jobs ==> s in m.jobs && m'.jobs[s] == m.jobs[s]
    requires m'.bid == m.bid || m'.bid.None?
    requires (m'.leader == m.leader && m'.leaderRev == m.leaderRev)
             || (m.bid.Some? && m'.leader == n && m'.leaderRev == m.bid.value.committed > m.leaderRev)
    ensures MemberOk(log, n, m')
  {
    forall s | s in m'.jobs ensures JobOk(log, n, m', s, m'.jobs[s]) { assert JobOk(log, n, m, s, m.jobs[s]); }
  }

  lemma DropKeepsInv(st: State, a: Action)
    requires Inv(st) && Enabled(st, a) && (a.Forget? || a.ForgetBid? || a.CacheBid?)
    ensures Inv(Apply(st, a))
  {
    var m, m' := st.members[a.n], Apply(st, a).members[a.n];
    assert MemberOk(st.log, a.n, m);
    ForgetOk(st.log, a.n, m, m');
    UpdateKeepsInv(st, a.n, m');
  }

  // ----- Coming and going -----

  lemma NewMemberOk(log: seq<Event>, n: string)
    ensures MemberOk(log, n, NEW_MEMBER)
  {
  }

  lemma OpenKeepsInv(st: State, n: string)
    requires Inv(st) && Enabled(st, Open(n))
    ensures Inv(Apply(st, Open(n)))
  {
    NewMemberOk(st.log, n);
    var st' := Apply(st, Open(n));
    forall t | t in st'.flying ensures TxnCached(st'.members, t) { assert TxnCached(st.members, t); }
  }

  lemma StepKeepsInv(st: State, a: Action)
    requires Inv(st) && Enabled(st, a)
    ensures Inv(Apply(st, a))
  {
    match a
    case Open(n) => OpenKeepsInv(st, n);
    case Join(n) => GrowKeepsInv(st, NodeUp(n));
    case Expire(n) => GrowKeepsInv(st, NodeDown(n));
    case Watch(n) => WatchKeepsInv(st, n);
    case Reload(n) => ReloadKeepsInv(st, n);
    case PlanBid(n) => BidKeepsInv(st, n);
    case Commit(t) => CommitKeepsInv(st, t);
    case CacheOwn(n, s) => CacheOwnKeepsInv(st, n, s);
    case Stop(_) =>
    case Lose(_) =>
    case PlanClaim(_) => PlanKeepsInv(st, a);
    case PlanRelease(_, _) => PlanKeepsInv(st, a);
    case PlanRetarget(_, _) => PlanKeepsInv(st, a);
    case _ => DropKeepsInv(st, a);
  }

  lemma {:induction false} RunInv(acts: seq<Action>, states: seq<State>, k: nat)
    requires IsRun(acts, states) && k < |states|
    ensures Inv(states[k])
  {
    if k > 0 {
      RunInv(acts, states, k - 1);
      StepKeepsInv(states[k - 1], acts[k - 1]);
    }
  }
}
