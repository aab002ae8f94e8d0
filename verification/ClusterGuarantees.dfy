/** What the ownership protocol guarantees in every reachable state, however late watch events
    arrive, whatever transactions fail, time out or land late. */
module ClusterGuarantees {
  import opened Shards
  import opened ClusterProtocol
  import opened ClusterSafety

  /** The member's cache names the member itself as the shard's current node. */
  predicate Believes(st: State, n: string, s: int) {
    n in st.members && Lookup(st.members[n].shards, s).current == n
  }

  /** The log holds a release of the shard by this member that its cache has not caught up with. */
  ghost predicate UnseenRelease(st: State, n: string, s: int) {
    && n in st.members
    && exists q :: Lookup(st.members[n].shards, s).modRevision <= q < |st.log| && IsRelease(st.log[q], n, s)
  }

  predicate IsRelease(e: Event, n: string, s: int) {
    e.ShardPut? && e.shard == s && e.writer == n && e.kind == Release
  }

  // ----- Caches and history -----

  /** Every cached entry is what etcd held for the shard at the entry's revision, and every shard's
      history consists of legal claims, releases and changes of target. */
  lemma CacheIsHistory(acts: seq<Action>, states: seq<State>, k: nat, n: string, s: int)
    requires IsRun(acts, states) && k < |states| && n in states[k].members
    ensures var log, e := states[k].log, Lookup(states[k].members[n].shards, s);
            e.modRevision <= |log| && ShardAt(log, s, e.modRevision) == e
    ensures forall q :: 0 <= q < |states[k].log| ==> LegalPut(states[k].log, q)
  {
    RunInv(acts, states, k);
    CachedIsAt(states[k], n, s);
  }

  /** A compare-and-swap that commits was decided on the value etcd holds at that moment. */
  lemma CommittedOnTruth(acts: seq<Action>, states: seq<State>, k: nat)
    requires IsRun(acts, states) && k < |acts| && acts[k].Commit? && acts[k].txn.ShardTxn?
    ensures ShardAt(states[k].log, acts[k].txn.shard, |states[k].log|) == acts[k].txn.before
  {
    RunInv(acts, states, k);
    CommitActsOnTruth(states[k].log, acts[k].txn);
  }

  // ----- Ownership -----

  /** In a legal log, a holder whose key is still there keeps the shard until it releases it itself. */
  lemma {:induction false} HolderKeeps(log: seq<Event>, s: int, n: string, r: nat, w: nat)
    requires LogOk(log) && r <= w <= |log| && n != "" && ShardAt(log, s, r).current == n && !Down(log, n, |log|)
    requires forall q :: r <= q < w ==> !IsRelease(log[q], n, s)
    ensures ShardAt(log, s, w).current == n
    decreases w - r
  {
    if r < w {
      HolderKeeps(log, s, n, r, w - 1);
      var e := log[w - 1];
      if e.ShardPut? && e.shard == s {
        assert LegalPut(log, w - 1) && !IsRelease(e, n, s);
        UpDownGrow(log, n, w - 1, |log|);
      }
    }
  }

  /** After a release the shard can come back to its releaser only by a claim of its own. */
  lemma {:induction false} ReleasedStaysAway(log: seq<Event>, s: int, n: string, r: nat, w: nat)
    requires LogOk(log) && r <= w <= |log| && n != "" && ShardAt(log, s, r).current != n
    requires forall q :: r <= q < w ==> !IsClaim(log[q], n, s)
    ensures ShardAt(log, s, w).current != n
    decreases w - r
  {
    if r < w {
      ReleasedStaysAway(log, s, n, r, w - 1);
      assert LegalPut(log, w - 1);
    }
  }

  lemma EntryAt(log: seq<Event>, s: int, e: ShardInfo)
    requires EntryOk(log, s, e)
    ensures e.modRevision <= |log| && ShardAt(log, s, e.modRevision) == e
  {
  }

  lemma CachedEntry(log: seq<Event>, n: string, m: Member, s: int)
    requires ShardCacheOk(log, n, m)
    ensures EntryOk(log, s, Lookup(m.shards, s))
  {
    assert CacheEntryOk(log, n, m.seen, s, Lookup(m.shards, s));
  }

  lemma CachedIsAt(st: State, n: string, s: int)
    requires Inv(st) && n in st.members
    ensures var e := Lookup(st.members[n].shards, s);
            e.modRevision <= |st.log| && ShardAt(st.log, s, e.modRevision) == e
  {
    assert MemberOk(st.log, n, st.members[n]);
    CachedEntry(st.log, n, st.members[n], s);
    EntryAt(st.log, s, Lookup(st.members[n].shards, s));
  }

  predicate IsClaim(e: Event, n: string, s: int) {
    e.ShardPut? && e.shard == s && e.writer == n && e.kind == Claim
  }

  lemma NoClaimAfter(st: State, n: string, s: int, q: nat, p: nat)
    requires OwnClaimsCached(st) && n in st.members && q < p < |st.log|
    requires Lookup(st.members[n].shards, s).modRevision <= q && st.log[q].ShardPut? && st.log[q].shard == s
    ensures !IsClaim(st.log[p], n, s)
  {
    LaterRev(st.log, s, q, p);
  }

  lemma ReleasedIsGone(st: State, n: string, s: int)
    requires LogOk(st.log) && OwnClaimsCached(st) && n != "" && UnseenRelease(st, n, s)
    ensures ShardAt(st.log, s, |st.log|).current != n
  {
    var q :| Lookup(st.members[n].shards, s).modRevision <= q < |st.log| && IsRelease(st.log[q], n, s);
    forall p | q + 1 <= p < |st.log| ensures !IsClaim(st.log[p], n, s) { NoClaimAfter(st, n, s, q, p); }
    ReleaseFrees(st.log, s, n, q);
    ReleasedStaysAway(st.log, s, n, q + 1, |st.log|);
  }

  lemma ReleaseFrees(log: seq<Event>, s: int, n: string, q: nat)
    requires LogOk(log) && q < |log| && IsRelease(log[q], n, s)
    ensures ShardAt(log, s, q + 1).current == ""
  {
    assert LegalPut(log, q);
  }

  /** A member's cache and etcd agree that it holds a shard if and only if the log has no release by
      that member beyond its cache. A release in flight, or one whose commit was reported as an error,
      is the only way a running node can be wrong about holding a shard. */
  lemma BeliefIsTrueUnlessReleased(acts: seq<Action>, states: seq<State>, k: nat, n: string, s: int)
    requires IsRun(acts, states) && k < |states| && n in states[k].running && n != "" && Believes(states[k], n, s)
    ensures ShardAt(states[k].log, s, |states[k].log|).current == n <==> !UnseenRelease(states[k], n, s)
  {
    var st := states[k];
    RunInv(acts, states, k);
    if UnseenRelease(st, n, s) {
      ReleasedIsGone(st, n, s);
    } else {
      CachedIsAt(st, n, s);
      NotDown(st, n);
      HolderKeeps(st.log, s, n, Lookup(st.members[n].shards, s).modRevision, |st.log|);
    }
  }

  lemma LaterRev(log: seq<Event>, s: int, q: nat, p: nat)
    requires q < p <= |log| && log[q].ShardPut? && log[q].shard == s
    ensures LastRev(log, s, p) >= q + 1
  {
  }

  lemma NotDown(st: State, n: string)
    requires KeysOutlive(st) && n in st.running
    ensures !Down(st.log, n, |st.log|)
  {
  }

  /** No two running nodes can both believe they hold a shard unless one of them has released it and
      not yet heard of its own release. */
  lemma SingleOwner(acts: seq<Action>, states: seq<State>, k: nat, n: string, m: string, s: int)
    requires IsRun(acts, states) && k < |states| && n != "" && m != ""
    requires n in states[k].running && Believes(states[k], n, s) && !UnseenRelease(states[k], n, s)
    requires m in states[k].running && Believes(states[k], m, s) && !UnseenRelease(states[k], m, s)
    ensures n == m
  {
    BeliefIsTrueUnlessReleased(acts, states, k, n, s);
    BeliefIsTrueUnlessReleased(acts, states, k, m, s);
  }

  // ----- If a release reached the cache at once -----

  /** A running node's release commits. */
  predicate ReleaseCommits(st: State, a: Action) {
    a.Commit? && a.txn.ShardTxn? && a.txn.kind == Release && a.txn.sender in st.running
  }

  /** The step takes the write that transaction `t` just made into its sender's cache. */
  predicate CachesIt(st: State, a: Action, t: Txn) {
    && t.ShardTxn? && a == CacheOwn(t.sender, t.shard)
    && t.sender in st.members && t.shard in st.members[t.sender].jobs
    && st.members[t.sender].jobs[t.shard] == Job(t, |st.log|)
  }

  /** Whenever a running node's release commits, the next step caches it. */
  ghost predicate CachesReleases(acts: seq<Action>, states: seq<State>) {
    |states| == |acts| + 1
    && forall k :: 0 <= k < |acts| - 1 && ReleaseCommits(states[k], acts[k]) ==>
         CachesIt(states[k + 1], acts[k + 1], acts[k].txn)
  }

  /** No running node has a release of its own beyond its cache, except for the last write of the log
      if that is a release of shard `s` by node `n`. */
  ghost predicate SeenBut(st: State, n: string, s: int) {
    forall x, y, q ::
      x in st.running && x in st.members && Lookup(st.members[x].shards, y).modRevision <= q < |st.log| ==>
      (IsRelease(st.log[q], x, y) ==> x == n && y == s && q == |st.log| - 1)
  }

  ghost predicate AllSeen(st: State) {
    forall x, y, q ::
      x in st.running && x in st.members && Lookup(st.members[x].shards, y).modRevision <= q < |st.log| ==>
      !IsRelease(st.log[q], x, y)
  }

  ghost predicate WritersKnown(st: State) {
    forall q :: 0 <= q < |st.log| && st.log[q].ShardPut? ==> st.log[q].writer in st.members
  }

  lemma WatchedGrows(m: Member, e: Event, s: int)
    ensures Lookup(m.shards, s).modRevision <= Lookup(Watched(m, e).shards, s).modRevision
  {
  }

  lemma CachedOwnGrows(m: Member, x: int, s: int)
    requires x in m.jobs && m.jobs[x].txn.ShardTxn?
    ensures Lookup(m.shards, s).modRevision <= Lookup(CachedOwn(m, x).shards, s).modRevision
  {
  }

  /** All other steps leave the shard caches of existing members alone. */
  lemma OthersKeepCaches(st: State, a: Action, n: string)
    requires Enabled(st, a) && n in st.members && !a.Watch? && !a.Reload? && !a.CacheOwn?
    ensures n in Apply(st, a).members && Apply(st, a).members[n].shards == st.members[n].shards
  {
  }

  /** No step takes a member's cache back. */
  lemma CachesGrow(st: State, a: Action, n: string, s: int)
    requires LogOk(st.log) && Enabled(st, a) && n in st.members && MemberOk(st.log, n, st.members[n])
    ensures n in Apply(st, a).members
    ensures Lookup(st.members[n].shards, s).modRevision <= Lookup(Apply(st, a).members[n].shards, s).modRevision
  {
    if a.Watch? {
      if a.n == n { WatchedGrows(st.members[n], st.log[st.members[n].seen], s); }
    } else if a.Reload? {
      if a.n == n { ReloadShards(st.log, n, st.members[n]); }
    } else if a.CacheOwn? {
      if a.n == n { CachedOwnGrows(st.members[n], a.s, s); }
    } else {
      OthersKeepCaches(st, a, n);
    }
  }

  lemma LogStep(st: State, a: Action)
    requires Enabled(st, a)
    ensures st.log <= Apply(st, a).log && |Apply(st, a).log| <= |st.log| + 1
    ensures |Apply(st, a).log| > |st.log| && Apply(st, a).log[|st.log|].ShardPut? ==>
      a.Commit? && a.txn.ShardTxn? && a.txn in st.flying && Apply(st, a).log[|st.log|].writer == a.txn.sender
      && Apply(st, a).log[|st.log|].kind == a.txn.kind && Apply(st, a).log[|st.log|].shard == a.txn.shard
  {
  }

  lemma WritersStayKnown(st: State, a: Action)
    requires Inv(st) && WritersKnown(st) && Enabled(st, a)
    ensures WritersKnown(Apply(st, a))
  {
    LogStep(st, a);
    forall q | 0 <= q < |Apply(st, a).log| && Apply(st, a).log[q].ShardPut?
      ensures Apply(st, a).log[q].writer in Apply(st, a).members
    {
      if q < |st.log| {
        assert Apply(st, a).log[q] == st.log[q];
        CachesGrow(st, a, st.log[q].writer, 0);
      } else {
        assert TxnCached(st.members, a.txn);
      }
    }
  }

  lemma StepSees(st: State, a: Action, n: string, s: int)
    requires Inv(st) && WritersKnown(st) && AllSeen(st) && Enabled(st, a)
    requires ReleaseCommits(st, a) ==> n == a.txn.sender && s == a.txn.shard
    ensures SeenBut(Apply(st, a), n, s) && (!ReleaseCommits(st, a) ==> AllSeen(Apply(st, a)))
  {
    var st' := Apply(st, a);
    LogStep(st, a);
    forall x, y, q |
      x in st'.running && x in st'.members && Lookup(st'.members[x].shards, y).modRevision <= q < |st'.log|
                     && IsRelease(st'.log[q], x, y)
      ensures ReleaseCommits(st, a) && x == n && y == s && q == |st'.log| - 1
    {
      if q < |st.log| {
        assert st'.log[q] == st.log[q] && x in st.members && x in st.running;
        CachesGrow(st, a, x, y);
      }
    }
  }

  lemma CachedNow(st: State, a: Action, t: Txn)
    requires CachesIt(st, a, t) && Enabled(st, a)
    ensures t.sender in Apply(st, a).members
    ensures Lookup(Apply(st, a).members[t.sender].shards, t.shard).modRevision >= |st.log|
    ensures Apply(st, a).log == st.log && Apply(st, a).running == st.running
    ensures Apply(st, a).members.Keys == st.members.Keys
  {
  }

  lemma CachingSeesOne(st: State, a: Action, t: Txn, x: string, y: int, q: nat)
    requires CachesIt(st, a, t) && Enabled(st, a) && SeenBut(st, t.sender, t.shard) && LogOk(st.log)
    requires x in st.running && x in st.members && MemberOk(st.log, x, st.members[x])
    requires x in Apply(st, a).members && Lookup(Apply(st, a).members[x].shards, y).modRevision <= q < |st.log|
    ensures !IsRelease(st.log[q], x, y)
  {
    CachedNow(st, a, t);
    CachesGrow(st, a, x, y);
  }

  lemma CachingSees(st: State, a: Action, t: Txn)
    requires CachesIt(st, a, t) && Enabled(st, a) && SeenBut(st, t.sender, t.shard) && Inv(st)
    ensures AllSeen(Apply(st, a))
  {
    var st' := Apply(st, a);
    CachedNow(st, a, t);
    forall x, y, q |
      x in st'.running && x in st'.members && Lookup(st'.members[x].shards, y).modRevision <= q < |st'.log|
      ensures !IsRelease(st'.log[q], x, y)
    {
      CachingSeesOne(st, a, t, x, y, q);
    }
  }

  lemma {:induction false} PromptInv(acts: seq<Action>, states: seq<State>, k: nat)
    requires IsRun(acts, states) && CachesReleases(acts, states) && k < |states|
    ensures Inv(states[k]) && WritersKnown(states[k])
    ensures AllSeen(states[k])
            || (&& k > 0 && ReleaseCommits(states[k - 1], acts[k - 1])
                && SeenBut(states[k], acts[k - 1].txn.sender, acts[k - 1].txn.shard))
  {
    RunInv(acts, states, k);
    if k > 0 {
      PromptInv(acts, states, k - 1);
      var st, a := states[k - 1], acts[k - 1];
      WritersStayKnown(st, a);
      if AllSeen(st) {
        if ReleaseCommits(st, a) { StepSees(st, a, a.txn.sender, a.txn.shard); } else { StepSees(st, a, "", 0); }
      } else {
        CachingSees(st, a, acts[k - 2].txn);
      }
    }
  }

  /** If a release reached its writer's cache in the same step as etcd, a running node that believes it
      holds a shard would always be right, and no two could believe it at once. */
  lemma PromptBeliefIsTrue(acts: seq<Action>, states: seq<State>, k: nat, n: string, s: int)
    requires IsRun(acts, states) && CachesReleases(acts, states) && k < |states|
    requires k > 0 ==> !ReleaseCommits(states[k - 1], acts[k - 1])
    requires n in states[k].running && n != "" && Believes(states[k], n, s)
    ensures ShardAt(states[k].log, s, |states[k].log|).current == n
    ensures forall m :: m in states[k].running && m != "" && Believes(states[k], m, s) ==> m == n
  {
    PromptInv(acts, states, k);
    BeliefIsTrueUnlessReleased(acts, states, k, n, s);
    forall m | m in states[k].running && m != "" && Believes(states[k], m, s) ensures m == n {
      BeliefIsTrueUnlessReleased(acts, states, k, m, s);
    }
  }

  // ----- What a node can tell by itself -----

  /** Step `j` sends a release of the shard by this node, decided on the entry of revision `rev`. */
  ghost predicate SendsRelease(acts: seq<Action>, states: seq<State>, j: nat, n: string, s: int, rev: nat) {
    && j < |acts| && j < |states| && acts[j].PlanRelease? && acts[j].n == n && n in states[j].members
    && s in ReleaseTxns(states[j].members[n], n, acts[j].busy)
    && Lookup(states[j].members[n].shards, s).modRevision == rev
  }

  /** The node has sent a release of the shard since it cached the entry it has now. */
  ghost predicate HasSentRelease(acts: seq<Action>, states: seq<State>, k: nat, n: string, s: int)
    requires k < |states| && n in states[k].members
  {
    exists j :: 0 <= j < k && SendsRelease(acts, states, j, n, s, Lookup(states[k].members[n].shards, s).modRevision)
  }

  lemma NewFlying(st: State, a: Action, t: Txn)
    requires Enabled(st, a) && t in Apply(st, a).flying && t !in st.flying && t.ShardTxn? && t.kind == Release
    ensures a.PlanRelease? && a.n == t.sender && t.sender in st.members
    ensures t.shard in ReleaseTxns(st.members[t.sender], t.sender, a.busy)
    ensures Lookup(st.members[t.sender].shards, t.shard).modRevision == t.after.modRevision
  {
  }

  /** A release on its way was sent by a step of the run. */
  lemma {:induction false} FlyingWasSent(acts: seq<Action>, states: seq<State>, k: nat, t: Txn) returns (j: nat)
    requires IsRun(acts, states) && k < |states| && t in states[k].flying && t.ShardTxn? && t.kind == Release
    ensures j < k && SendsRelease(acts, states, j, t.sender, t.shard, t.after.modRevision)
  {
    if t in states[k - 1].flying {
      j := FlyingWasSent(acts, states, k - 1, t);
    } else {
      j := k - 1;
      NewFlying(states[k - 1], acts[k - 1], t);
    }
  }

  lemma SameLastRev(log: seq<Event>, more: seq<Event>, s: int, w: nat)
    requires log <= more && w <= |log|
    ensures LastRev(log, s, w) == LastRev(more, s, w)
  {
  }

  /** So was a release in the log, and it replaced the entry it was decided on. */
  lemma {:induction false} LoggedWasSent(acts: seq<Action>, states: seq<State>, k: nat, q: nat, n: string, s: int)
    returns (j: nat)
    requires IsRun(acts, states) && k < |states| && q < |states[k].log| && IsRelease(states[k].log[q], n, s)
    ensures j < k && SendsRelease(acts, states, j, n, s, LastRev(states[k].log, s, q))
  {
    var st, a := states[k - 1], acts[k - 1];
    LogStep(st, a);
    SameLastRev(st.log, states[k].log, s, if q < |st.log| then q else |st.log|);
    if q < |st.log| {
      j := LoggedWasSent(acts, states, k - 1, q, n, s);
    } else {
      j := FlyingWasSent(acts, states, k - 1, a.txn);
    }
  }

  lemma {:induction false} CacheGrowsOver(acts: seq<Action>, states: seq<State>, j: nat, k: nat, n: string, s: int)
    requires IsRun(acts, states) && j <= k < |states| && n in states[j].members
    ensures n in states[k].members
    ensures Lookup(states[j].members[n].shards, s).modRevision <= Lookup(states[k].members[n].shards, s).modRevision
    decreases k - j
  {
    if j < k {
      CacheGrowsOver(acts, states, j, k - 1, n, s);
      RunInv(acts, states, k - 1);
      CachesGrow(states[k - 1], acts[k - 1], n, s);
    }
  }

  lemma EntryInRun(acts: seq<Action>, states: seq<State>, k: nat, n: string, s: int)
    requires IsRun(acts, states) && k < |states| && n in states[k].members
    ensures EntryOk(states[k].log, s, Lookup(states[k].members[n].shards, s))
  {
    RunInv(acts, states, k);
    CachedEntry(states[k].log, n, states[k].members[n], s);
  }

  lemma UnseenWasSent(acts: seq<Action>, states: seq<State>, k: nat, n: string, s: int)
    requires IsRun(acts, states) && k < |states| && n != "" && Believes(states[k], n, s)
    requires UnseenRelease(states[k], n, s)
    ensures HasSentRelease(acts, states, k, n, s)
  {
    var st := states[k];
    var e := Lookup(st.members[n].shards, s);
    var q :| e.modRevision <= q < |st.log| && IsRelease(st.log[q], n, s);
    var j := LoggedWasSent(acts, states, k, q, n, s);
    CacheGrowsOver(acts, states, j, k, n, s);
    EntryInRun(acts, states, k, n, s);
    LaterEntry(st.log, s, e, q);
  }

  lemma LaterEntry(log: seq<Event>, s: int, e: ShardInfo, q: nat)
    requires EntryOk(log, s, e) && e.current != "" && e.modRevision <= q < |log|
    ensures LastRev(log, s, q) >= e.modRevision
  {
  }

  /** A running node that believes it holds a shard, and has sent no release of it since it cached the entry
      it believes, is right; and it is the only one of its kind. */
  lemma BeliefIsTrueUnlessSent(acts: seq<Action>, states: seq<State>, k: nat, n: string, s: int)
    requires IsRun(acts, states) && k < |states| && n in states[k].running && n != "" && Believes(states[k], n, s)
    requires !HasSentRelease(acts, states, k, n, s)
    ensures ShardAt(states[k].log, s, |states[k].log|).current == n
    ensures forall m :: m in states[k].running && m != "" && Believes(states[k], m, s) && m != n ==>
              HasSentRelease(acts, states, k, m, s)
  {
    if UnseenRelease(states[k], n, s) { UnseenWasSent(acts, states, k, n, s); }
    BeliefIsTrueUnlessReleased(acts, states, k, n, s);
    forall m | m in states[k].running && m != "" && Believes(states[k], m, s) && m != n
      ensures HasSentRelease(acts, states, k, m, s)
    {
      BeliefIsTrueUnlessReleased(acts, states, k, m, s);
      UnseenWasSent(acts, states, k, m, s);
    }
  }

  // ----- Leadership -----

  lemma {:induction false} LeaderKeeps(log: seq<Event>, n: string, r: nat, w: nat)
    requires LogOk(log) && r <= w <= |log| && n != "" && LeaderAt(log, r) == n && !Down(log, n, |log|)
    ensures LeaderAt(log, w) == n
    decreases w - r
  {
    if r < w {
      LeaderKeeps(log, n, r, w - 1);
      assert LegalTakeover(log, w - 1);
      UpDownGrow(log, n, w - 1, |log|);
    }
  }

  /** A running node that takes itself for the leader is the leader in etcd: no running leader is ever
      deposed, and at most one running node acts as leader. */
  lemma SingleLeader(acts: seq<Action>, states: seq<State>, k: nat, n: string)
    requires IsRun(acts, states) && k < |states| && n in states[k].running && n != ""
    requires n in states[k].members && states[k].members[n].leader == n
    ensures LeaderAt(states[k].log, |states[k].log|) == n
  {
    RunInv(acts, states, k);
    var st := states[k];
    var m := st.members[n];
    assert MemberOk(st.log, n, m);
    NotDown(st, n);
    assert LeaderAt(st.log, m.leaderRev) == n;
    LeaderKeeps(st.log, n, m.leaderRev, |st.log|);
  }

  /** Every takeover replaces the revision that was current when it committed, whose holder was nobody
      or had lost its key, so of all bids for one revision at most one wins. */
  lemma OneTakeoverPerRevision(acts: seq<Action>, states: seq<State>, k: nat, p: nat, q: nat)
    requires IsRun(acts, states) && k < |states| && p < q < |states[k].log|
    requires states[k].log[p].LeaderPut? && states[k].log[q].LeaderPut?
    ensures states[k].log[p].replaced < states[k].log[q].replaced
    ensures var log := states[k].log;
            LeaderAt(log, q) == "" || Down(log, LeaderAt(log, q), q)
  {
    RunInv(acts, states, k);
    assert LegalTakeover(states[k].log, p) && LegalTakeover(states[k].log, q);
  }
}
