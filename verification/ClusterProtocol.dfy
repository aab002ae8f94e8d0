/** Shard ownership and leader election over etcd, as a step system.

    etcd is its own history: a log of writes whose n-th entry made revision n. Every participant
    has a cache that lags behind it: watch events arrive in order but any time later, a full reload
    may happen at any moment, and the participant's own writes reach its cache separately from the
    watch. All shard writes are compare-and-swap on the revision the writer had cached
    (cluster/consensusmanager/consensusmanager.go). Sending a transaction, its commit in etcd, and the
    update of the writer's cache are three steps: anything may happen in between, an error may be
    reported for a transaction that did commit, and a stopped node's transaction may still land. */
module ClusterProtocol {
  import opened Options
  import opened Shards

  /** What a planner decides about a shard: where it should be, and its flags. The leader keeps the flags,
      pinning from the inspector keeps the target. */
  datatype Placement = Placement(target: string, flags: seq<string>)

  datatype Kind = Claim | Release | Retarget

  /** A write. `writer` and `kind` say who made it and why; no participant reads them. */
  datatype Event =
    | NodeUp(node: string)
    | NodeDown(node: string)
    | ShardPut(shard: int, value: ShardInfo, writer: string, kind: Kind)
    | LeaderPut(leader: string, replaced: nat)

  /** A transaction: what the sender had cached when it decided, and what it asks for. It commits
      only if the key is still at the revision the sender had cached. */
  datatype Txn =
    | ShardTxn(sender: string, shard: int, kind: Kind, before: ShardInfo, after: ShardInfo)
    | LeaderTxn(sender: string, holder: string, expected: nat)

  /** A transaction whose sender still waits for the reply: the commit's revision, or 0 while undecided. */
  datatype Job = Job(txn: Txn, committed: nat)

  datatype Member = Member(
    shards: ShardMap,
    nodes: set<string>,
    leader: string,
    leaderRev: nat,
    seen: nat,
    jobs: map<int, Job>,
    bid: Option<Job>)

  const NEW_MEMBER := Member(map[], {}, "", 0, 0, map[], None)

  /** `flying` holds the transactions on their way to etcd, whether or not the sender still cares. */
  datatype State = State(log: seq<Event>, members: map<string, Member>, running: set<string>, flying: set<Txn>)

  const INITIAL := State([], map[], {}, {})

  datatype Action =
    | Open(n: string)
    | Join(n: string)
    | Stop(n: string)
    | Expire(n: string)
    | Watch(n: string)
    | Reload(n: string)
    | PlanClaim(n: string)
    | PlanRelease(n: string, busy: set<int>)
    | PlanRetarget(n: string, plan: map<int, Placement>)
    | PlanBid(n: string)
    | Commit(txn: Txn)
    | Lose(txn: Txn)
    | CacheOwn(n: string, s: int)
    | Forget(n: string, s: int)
    | CacheBid(n: string)
    | ForgetBid(n: string)

  // ----- Reading the log -----

  /** The revision of the last write to shard `s` among the first `w`, or 0. */
  function LastRev(log: seq<Event>, s: int, w: nat): (r: nat)
    requires w <= |log|
    ensures r <= w
    ensures r > 0 ==> log[r - 1].ShardPut? && log[r - 1].shard == s
    ensures forall i :: r <= i < w ==> !(log[i].ShardPut? && log[i].shard == s)
  {
    if w == 0 then 0
    else if log[w - 1].ShardPut? && log[w - 1].shard == s then w
    else LastRev(log, s, w - 1)
  }

  /** What etcd holds for shard `s` after the first `w` writes. */
  function ShardAt(log: seq<Event>, s: int, w: nat): ShardInfo
    requires w <= |log|
  {
    var r := LastRev(log, s, w);
    if r == 0 then UNASSIGNED else log[r - 1].value
  }

  function LastLeaderRev(log: seq<Event>, w: nat): (r: nat)
    requires w <= |log|
    ensures r <= w
    ensures r > 0 ==> log[r - 1].LeaderPut?
    ensures forall i :: r <= i < w ==> !log[i].LeaderPut?
  {
    if w == 0 then 0 else if log[w - 1].LeaderPut? then w else LastLeaderRev(log, w - 1)
  }

  function LeaderAt(log: seq<Event>, w: nat): string
    requires w <= |log|
  {
    var r := LastLeaderRev(log, w);
    if r == 0 then "" else log[r - 1].leader
  }

  /** The node keys present after the first `w` writes. */
  function LiveAt(log: seq<Event>, w: nat): set<string>
    requires w <= |log|
  {
    if w == 0 then {} else NodesAfter(LiveAt(log, w - 1), log[w - 1])
  }

  function NodesAfter(nodes: set<string>, e: Event): set<string> {
    match e
    case NodeUp(n) => nodes + {n}
    case NodeDown(n) => nodes - {n}
    case _ => nodes
  }

  ghost predicate Up(log: seq<Event>, n: string, w: nat)
    requires w <= |log|
  {
    exists i :: 0 <= i < w && log[i] == NodeUp(n)
  }

  ghost predicate Down(log: seq<Event>, n: string, w: nat)
    requires w <= |log|
  {
    exists i :: 0 <= i < w && log[i] == NodeDown(n)
  }

  function ShardsAt(log: seq<Event>, w: nat): ShardMap
    requires w <= |log|
  {
    if w == 0 then map[]
    else if log[w - 1].ShardPut? then ShardsAt(log, w - 1)[log[w - 1].shard := log[w - 1].value]
    else ShardsAt(log, w - 1)
  }

  // ----- What a member does -----

  /** A watch event: the revision guard drops what the cache already has. */
  function Watched(m: Member, e: Event): Member {
    var rev := m.seen + 1;
    match e
    case ShardPut(s, v, _, _) =>
      if v.modRevision <= Lookup(m.shards, s).modRevision then m.(seen := rev)
      else m.(shards := m.shards[s := v], seen := rev)
    case LeaderPut(n, _) =>
      if rev <= m.leaderRev then m.(seen := rev) else m.(leader := n, leaderRev := rev, seen := rev)
    case _ => m.(nodes := NodesAfter(m.nodes, e), seen := rev)
  }

  function Reloaded(m: Member, log: seq<Event>): Member {
    m.(shards := ShardsAt(log, |log|), nodes := LiveAt(log, |log|), leader := LeaderAt(log, |log|),
       leaderRev := LastLeaderRev(log, |log|), seen := |log|)
  }

  /** This node holds the shard, another one should, and no local object is left on it. */
  predicate Releasable(n: string, busy: set<int>, s: int, info: ShardInfo) {
    Leaving(n, info) && s !in busy
  }

  function ClaimTxns(m: Member, n: string): map<int, Txn> {
    map s | s in m.shards && Claimable(n, m.shards[s], m.shards[s].current in m.nodes)
      :: ShardTxn(n, s, Claim, m.shards[s], m.shards[s].(current := n))
  }

  function ReleaseTxns(m: Member, n: string, busy: set<int>): map<int, Txn> {
    map s | s in m.shards && Releasable(n, busy, s, m.shards[s])
      :: ShardTxn(n, s, Release, m.shards[s], m.shards[s].(current := ""))
  }

  function RetargetTxns(m: Member, n: string, plan: map<int, Placement>): map<int, Txn> {
    map s | s in plan
      :: ShardTxn(n, s, Retarget, Lookup(m.shards, s),
                  Lookup(m.shards, s).(target := plan[s].target, flags := plan[s].flags))
  }

  /** No leader this member knows of is alive, and the member itself is in the cluster. */
  predicate MayBid(m: Member, n: string) {
    !(m.leader != "" && m.leader in m.nodes) && m.leader != n && n in m.nodes
  }

  /** The sender's cache takes over its own committed write unless it already has a later one. */
  function CachedOwn(m: Member, s: int): Member
    requires s in m.jobs && m.jobs[s].txn.ShardTxn?
  {
    var j := m.jobs[s];
    var done := m.(jobs := m.jobs - {s});
    if Lookup(m.shards, s).modRevision < j.committed
    then done.(shards := m.shards[s := j.txn.after.(modRevision := j.committed)])
    else done
  }

  function CachedBid(m: Member, n: string): Member
    requires m.bid.Some?
  {
    var done := m.(bid := None);
    if m.leaderRev < m.bid.value.committed then done.(leader := n, leaderRev := m.bid.value.committed) else done
  }

  /** The compare half of the transaction. */
  predicate Succeeds(log: seq<Event>, t: Txn) {
    match t
    case ShardTxn(_, s, _, _, after) => after.modRevision == LastRev(log, s, |log|)
    case LeaderTxn(_, _, expected) => expected == LastLeaderRev(log, |log|)
  }

  /** The write the transaction makes as revision |log| + 1. */
  function Written(log: seq<Event>, t: Txn): Event {
    match t
    case ShardTxn(n, s, kind, _, after) => ShardPut(s, after.(modRevision := |log| + 1), n, kind)
    case LeaderTxn(n, _, expected) => LeaderPut(n, expected)
  }

  /** The reply reaches a sender that still waits for it. */
  function Replied(m: Member, t: Txn, rev: nat): Member {
    match t
    case ShardTxn(_, s, _, _, _) =>
      if s in m.jobs && m.jobs[s] == Job(t, 0) then m.(jobs := m.jobs[s := Job(t, rev)]) else m
    case LeaderTxn(_, _, _) => if m.bid == Some(Job(t, 0)) then m.(bid := Some(Job(t, rev))) else m
  }

  /** The sender keeps its transactions in mind and puts them on their way. */
  function Sent(st: State, n: string, txns: map<int, Txn>): State
    requires n in st.members
  {
    var m := st.members[n].(jobs := map s | s in txns :: Job(txns[s], 0));
    st.(members := st.members[n := m], flying := st.flying + txns.Values)
  }

  /** The process of member `n` is up. */
  predicate Active(st: State, n: string) {
    n in st.running && n in st.members
  }

  predicate Enabled(st: State, a: Action) {
    match a
    case Open(n) => n !in st.members && n != ""
    case Join(n) => Active(st, n) && NodeUp(n) !in st.log
    case Stop(n) => Active(st, n)
    case Expire(n) => n in st.members && n !in st.running && NodeUp(n) in st.log && NodeDown(n) !in st.log
    case Watch(n) => Active(st, n) && st.members[n].seen < |st.log|
    case Reload(n) => Active(st, n)
    case PlanClaim(n) => Active(st, n) && st.members[n].jobs == map[] && n in st.members[n].nodes
    case PlanRelease(n, _) => Active(st, n) && st.members[n].jobs == map[]
    case PlanRetarget(n, _) => Active(st, n) && st.members[n].jobs == map[]
    case PlanBid(n) => Active(st, n) && st.members[n].bid.None? && MayBid(st.members[n], n)
    case Commit(t) => t in st.flying && Succeeds(st.log, t)
    case Lose(t) => t in st.flying
    case CacheOwn(n, s) =>
      && Active(st, n) && s in st.members[n].jobs
      && st.members[n].jobs[s].committed > 0 && st.members[n].jobs[s].txn.ShardTxn?
    case Forget(n, s) => Active(st, n) && s in st.members[n].jobs
    case CacheBid(n) => Active(st, n) && st.members[n].bid.Some? && st.members[n].bid.value.committed > 0
    case ForgetBid(n) => Active(st, n) && st.members[n].bid.Some?
  }

  function Put(st: State, n: string, m: Member): State {
    st.(members := st.members[n := m])
  }

  function Apply(st: State, a: Action): State
    requires Enabled(st, a)
  {
    match a
    case Open(n) => Put(st.(running := st.running + {n}), n, NEW_MEMBER)
    case Join(n) => st.(log := st.log + [NodeUp(n)])
    case Stop(n) => st.(running := st.running - {n})
    case Expire(n) => st.(log := st.log + [NodeDown(n)])
    case Watch(n) => Put(st, n, Watched(st.members[n], st.log[st.members[n].seen]))
    case Reload(n) => Put(st, n, Reloaded(st.members[n], st.log))
    case PlanClaim(n) => Sent(st, n, ClaimTxns(st.members[n], n))
    case PlanRelease(n, busy) => Sent(st, n, ReleaseTxns(st.members[n], n, busy))
    case PlanRetarget(n, plan) => Sent(st, n, RetargetTxns(st.members[n], n, plan))
    case PlanBid(n) =>
      var m := st.members[n];
      var t := LeaderTxn(n, m.leader, m.leaderRev);
      Put(st, n, m.(bid := Some(Job(t, 0)))).(flying := st.flying + {t})
    case Commit(t) =>
      var rev := |st.log| + 1;
      var done := st.(log := st.log + [Written(st.log, t)], flying := st.flying - {t});
      if t.sender in st.members then Put(done, t.sender, Replied(st.members[t.sender], t, rev)) else done
    case Lose(t) => st.(flying := st.flying - {t})
    case CacheOwn(n, s) => Put(st, n, CachedOwn(st.members[n], s))
    case Forget(n, s) => Put(st, n, st.members[n].(jobs := st.members[n].jobs - {s}))
    case CacheBid(n) => Put(st, n, CachedBid(st.members[n], n))
    case ForgetBid(n) => Put(st, n, st.members[n].(bid := None))
  }

  ghost predicate IsRun(acts: seq<Action>, states: seq<State>) {
    && |states| == |acts| + 1
    && states[0] == INITIAL
    && forall k :: 0 <= k < |acts| ==> Enabled(states[k], acts[k]) && states[k + 1] == Apply(states[k], acts[k])
  }
}
