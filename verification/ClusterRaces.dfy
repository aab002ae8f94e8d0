/** A concrete run in which two running nodes believe they hold the same shard: the first has
    committed its release, the second has claimed the shard, and the first has not heard of its own
    release yet. (The source keeps the shard's write lock over this window if the release's reply
    arrives; if the commit is reported as an error, the lock is given up with the window still open.) */
module ClusterRaces {
  import opened Shards
  import opened ClusterProtocol
  import opened ClusterGuarantees

  ghost predicate Reachable(st: State) {
    exists acts, states :: IsRun(acts, states) && states[|acts|] == st
  }

  lemma Start()
    ensures Reachable(INITIAL)
  {
    var none: seq<Action> := [];
    assert IsRun(none, [INITIAL]) && [INITIAL][|none|] == INITIAL;
  }

  lemma Go(st: State, a: Action)
    requires Reachable(st) && Enabled(st, a)
    ensures Reachable(Apply(st, a))
  {
    var acts, states :| IsRun(acts, states) && states[|acts|] == st;
    var more := states + [Apply(st, a)];
    assert IsRun(acts + [a], more) && more[|acts + [a]|] == Apply(st, a);
  }

  /** The state after member `n` has stored `t` and, if `cached`, taken the result into its cache. */
  function Stored(st: State, n: string, t: Txn, cached: bool): State
    requires n in st.members && t.ShardTxn?
  {
    var m, rev := st.members[n], |st.log| + 1;
    var m' := if cached then m.(shards := m.shards[t.shard := t.after.(modRevision := rev)])
              else m.(jobs := map[t.shard := Job(t, rev)]);
    State(st.log + [Written(st.log, t)], st.members[n := m'], st.running, {})
  }

  lemma SingleValue(s: int, t: Txn)
    ensures (map[s := t]).Values == {t}
  {
    var m := map[s := t];
    assert m[s] in m.Values;
  }

  lemma SentState(st: State, n: string, t: Txn)
    requires n in st.members && st.flying == {} && t.ShardTxn?
    ensures Sent(st, n, map[t.shard := t])
         == st.(members := st.members[n := st.members[n].(jobs := map[t.shard := Job(t, 0)])], flying := {t})
  {
    SingleValue(t.shard, t);
    var sent := Sent(st, n, map[t.shard := t]);
    assert sent.members[n].jobs == map[t.shard := Job(t, 0)];
  }

  lemma PlanAndCommit(st: State, a: Action, n: string, t: Txn)
    requires Reachable(st) && Enabled(st, a) && n in st.members && t.ShardTxn? && t.sender == n
    requires Apply(st, a) == Sent(st, n, map[t.shard := t]) && st.flying == {} && Succeeds(st.log, t)
    ensures Reachable(Stored(st, n, t, false))
  {
    Go(st, a);
    SentState(st, n, t);
    CommitSent(st, n, t, Sent(st, n, map[t.shard := t]));
  }

  lemma CommitSent(st: State, n: string, t: Txn, sent: State)
    requires n in st.members && t.ShardTxn? && t.sender == n && Succeeds(st.log, t)
    requires sent == st.(members := st.members[n := st.members[n].(jobs := map[t.shard := Job(t, 0)])], flying := {t})
    requires Reachable(sent)
    ensures Reachable(Stored(st, n, t, false))
  {
    Go(sent, Commit(t));
    var done := Apply(sent, Commit(t));
    assert done.members[n].jobs == map[t.shard := Job(t, |st.log| + 1)];
    assert done.members == Stored(st, n, t, false).members;
    assert done.flying == {};
  }

  lemma Store(st: State, a: Action, n: string, t: Txn)
    requires Reachable(st) && Enabled(st, a) && n in st.members && t.ShardTxn? && t.sender == n && n in st.running
    requires Apply(st, a) == Sent(st, n, map[t.shard := t]) && st.flying == {} && Succeeds(st.log, t)
    requires st.members[n].jobs == map[] && Lookup(st.members[n].shards, t.shard).modRevision <= |st.log|
    ensures Reachable(Stored(st, n, t, true))
  {
    PlanAndCommit(st, a, n, t);
    var s := Stored(st, n, t, false);
    Go(s, CacheOwn(n, t.shard));
    assert Apply(s, CacheOwn(n, t.shard)).members[n].jobs == map[];
    assert Apply(s, CacheOwn(n, t.shard)).members == Stored(st, n, t, true).members;
  }

  const A := "a:1"
  const B := "b:1"
  const BOTH := {A, B}
  const JOINED := [NodeUp(A), NodeUp(B)]

  /** Two nodes have joined; the first has loaded the cluster state. */
  const FORMED := State(JOINED, map[A := NEW_MEMBER.(nodes := BOTH, seen := 2), B := NEW_MEMBER], BOTH, {})

  const OPENED := State([], map[A := NEW_MEMBER, B := NEW_MEMBER], BOTH, {})

  lemma ReachOpened()
    ensures Reachable(OPENED)
  {
    Start();
    Go(INITIAL, Open(A));
    var s1 := Apply(INITIAL, Open(A));
    Go(s1, Open(B));
    assert Apply(s1, Open(B)).members == OPENED.members;
    assert Apply(s1, Open(B)).running == BOTH;
  }

  lemma ReachJoined()
    ensures Reachable(OPENED.(log := JOINED))
  {
    ReachOpened();
    assert Active(OPENED, A) && Active(OPENED, B);
    Go(OPENED, Join(A));
    var s3 := Apply(OPENED, Join(A));
    Go(s3, Join(B));
    assert Apply(s3, Join(B)) == OPENED.(log := JOINED);
  }

  lemma ReachFormed()
    ensures Reachable(FORMED)
  {
    ReachJoined();
    var s4 := OPENED.(log := JOINED);
    Go(s4, Reload(A));
    LoadedJoined(JOINED);
    assert Apply(s4, Reload(A)).members == FORMED.members;
    assert Apply(s4, Reload(A)).running == BOTH;
  }

  lemma LoadedJoined(log: seq<Event>)
    requires log == JOINED
    ensures ShardsAt(log, 2) == map[] && LiveAt(log, 2) == BOTH && LeaderAt(log, 2) == "" && LastLeaderRev(log, 2) == 0
  {
    assert LiveAt(log, 1) == NodesAfter(LiveAt(log, 0), log[0]) == {A};
    assert LiveAt(log, 2) == NodesAfter(LiveAt(log, 1), log[1]) == BOTH;
    assert ShardsAt(log, 1) == map[];
    assert LastLeaderRev(log, 1) == 0;
  }

  const E1 := ShardInfo(A, "", [], 3)
  const E2 := ShardInfo(A, A, [], 4)
  const E3 := ShardInfo(B, A, [], 5)
  const E4 := ShardInfo(B, "", [], 6)
  const E5 := ShardInfo(B, B, [], 7)

  const T1 := ShardTxn(A, 0, Retarget, UNASSIGNED, UNASSIGNED.(target := A))
  const T2 := ShardTxn(A, 0, Claim, E1, E1.(current := A))
  const T3 := ShardTxn(A, 0, Retarget, E2, E2.(target := B))
  const T4 := ShardTxn(A, 0, Release, E3, E3.(current := ""))
  const T5 := ShardTxn(B, 0, Claim, E4, E4.(current := B))

  const HISTORY := [NodeUp(A), NodeUp(B), ShardPut(0, E1, A, Retarget), ShardPut(0, E2, A, Claim),
                    ShardPut(0, E3, A, Retarget), ShardPut(0, E4, A, Release), ShardPut(0, E5, B, Claim)]

  /** The first node has written the first `w` entries of the history; `e` is in its cache. */
  function Phase(w: nat, e: ShardInfo): State
    requires w <= |HISTORY|
  {
    State(HISTORY[..w],
          map[A := NEW_MEMBER.(nodes := BOTH, seen := 2, shards := map[0 := e]), B := NEW_MEMBER], BOTH, {})
  }

  lemma StoredIsPhase(st: State, t: Txn, w: nat, e: ShardInfo)
    requires w < |HISTORY| && st.log == HISTORY[..w] && Written(st.log, t) == HISTORY[w] && t.ShardTxn? && t.shard == 0
    requires e == t.after.(modRevision := w + 1) && st.running == BOTH && st.flying == {}
    requires A in st.members && st.members[A].shards.Keys <= {0}
    requires st.members
          == map[A := NEW_MEMBER.(nodes := BOTH, seen := 2, shards := st.members[A].shards), B := NEW_MEMBER]
    ensures Stored(st, A, t, true) == Phase(w + 1, e)
  {
    assert HISTORY[..w] + [HISTORY[w]] == HISTORY[..w + 1];
    assert st.members[A].shards[0 := e] == map[0 := e];
    assert Stored(st, A, t, true).members == Phase(w + 1, e).members;
  }

  lemma ReachTargeted()
    ensures Reachable(Phase(3, E1))
  {
    ReachFormed();
    assert RetargetTxns(FORMED.members[A], A, map[0 := Placement(A, [])]) == map[0 := T1];
    assert HISTORY[..2] == JOINED;
    Store(FORMED, PlanRetarget(A, map[0 := Placement(A, [])]), A, T1);
    StoredIsPhase(FORMED, T1, 2, E1);
  }

  lemma ReachClaimed()
    ensures Reachable(Phase(4, E2))
  {
    ReachTargeted();
    var p := Phase(3, E1);
    assert ClaimTxns(p.members[A], A) == map[0 := T2];
    Store(p, PlanClaim(A), A, T2);
    StoredIsPhase(p, T2, 3, E2);
  }

  lemma ReachRetargeted()
    ensures Reachable(Phase(5, E3))
  {
    ReachClaimed();
    var p := Phase(4, E2);
    assert RetargetTxns(p.members[A], A, map[0 := Placement(B, [])]) == map[0 := T3];
    Store(p, PlanRetarget(A, map[0 := Placement(B, [])]), A, T3);
    StoredIsPhase(p, T3, 4, E3);
  }

  /** The first node's release has committed and is still in flight towards its cache; the second node
      has loaded the released entry. */
  const HANDED := State(HISTORY[..6],
    map[A := NEW_MEMBER.(nodes := BOTH, seen := 2, shards := map[0 := E3], jobs := map[0 := Job(T4, 6)]),
        B := NEW_MEMBER.(nodes := BOTH, seen := 6, shards := map[0 := E4])], BOTH, {})

  lemma LoadedReleased(log: seq<Event>)
    requires log == HISTORY[..6]
    ensures Reloaded(NEW_MEMBER, log) == NEW_MEMBER.(nodes := BOTH, seen := 6, shards := map[0 := E4])
  {
    assert LiveAt(log, 2) == BOTH by { assert LiveAt(log, 1) == {A}; }
    assert LiveAt(log, 4) == BOTH by { assert LiveAt(log, 3) == BOTH; }
    assert LiveAt(log, 6) == BOTH by { assert LiveAt(log, 5) == BOTH; }
    assert LastLeaderRev(log, 3) == 0 by { assert LastLeaderRev(log, 1) == 0; }
    assert LastLeaderRev(log, 6) == 0 by { assert LastLeaderRev(log, 5) == 0; }
    assert ShardsAt(log, 2) == map[] by { assert ShardsAt(log, 1) == map[]; }
    assert ShardsAt(log, 4) == map[0 := E2] by { assert ShardsAt(log, 3) == map[0 := E1]; }
    assert ShardsAt(log, 6) == map[0 := E4] by { assert ShardsAt(log, 5) == map[0 := E3]; }
  }

  /** The release has committed. */
  const RELEASED := State(HISTORY[..6],
    map[A := NEW_MEMBER.(nodes := BOTH, seen := 2, shards := map[0 := E3], jobs := map[0 := Job(T4, 6)]),
        B := NEW_MEMBER], BOTH, {})

  lemma ReachReleased()
    ensures Reachable(RELEASED)
  {
    ReachRetargeted();
    var p5 := Phase(5, E3);
    assert ReleaseTxns(p5.members[A], A, {}) == map[0 := T4];
    PlanAndCommit(p5, PlanRelease(A, {}), A, T4);
    var s := Stored(p5, A, T4, false);
    assert s.log == HISTORY[..6];
    assert s.members == RELEASED.members;
  }

  lemma ReachHanded()
    ensures Reachable(HANDED)
  {
    ReachReleased();
    LoadedReleased(RELEASED.log);
    Go(RELEASED, Reload(B));
    assert Apply(RELEASED, Reload(B)).members == HANDED.members;
  }

  /** Two running nodes, each sure of the shard. */
  lemma TwoBelievers()
    ensures exists st :: Reachable(st) && A in st.running && B in st.running && A != B
              && Believes(st, A, 0) && Believes(st, B, 0) && UnseenRelease(st, A, 0)
  {
    ReachHanded();
    assert ClaimTxns(HANDED.members[B], B) == map[0 := T5];
    Store(HANDED, PlanClaim(B), B, T5);
    var st := Stored(HANDED, B, T5, true);
    assert IsRelease(st.log[5], A, 0);
    assert Believes(st, A, 0) && Believes(st, B, 0) && UnseenRelease(st, A, 0);
  }
}
