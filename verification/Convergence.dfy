/** Convergence of the shard map (cluster/cluster.go and cluster/consensusmanager/consensusmanager.go).

    Runs of management ticks with fixed live nodes and synced views, in any order. Of what the leader
    plans in a tick, any part may be stored, or nothing. */
module Convergence {
  import opened Sets
  import opened Shards
  import opened Rebalance
  import opened Reassign
  import opened Ticks

  /** One tick of a run: whose it was, and what became of the leader's plan in it. */
  datatype Turn = Turn(node: string, fate: Fate)

  ghost predicate IsRun(cfg: Config, states: seq<ShardMap>, turns: seq<Turn>) {
    && |states| == |turns| + 1
    && forall i :: 0 <= i < |turns| ==>
         turns[i].node in cfg.nodes && Tick(cfg, turns[i].node, states[i], states[i + 1], turns[i].fate)
  }

  /** The ticks in which the leader changed targets. */
  function Changes(turns: seq<Turn>): nat {
    if turns == [] then 0 else Changes(turns[..|turns| - 1]) + if turns[|turns| - 1].fate.Landed? then 1 else 0
  }

  /** The leader's ticks, except those in which all of its writes failed. */
  function LeaderTurns(leader: string, turns: seq<Turn>): nat {
    if turns == [] then 0
    else
      var last := turns[|turns| - 1];
      LeaderTurns(leader, turns[..|turns| - 1]) + if last.node == leader && !last.fate.Failed? then 1 else 0
  }

  /** The leader finds nothing to change. */
  predicate Idles(leader: string, turn: Turn) {
    turn.node == leader && turn.fate.Nothing?
  }

  /** Every shard is held by its live target. */
  ghost predicate Converged(cfg: Config, shards: ShardMap) {
    forall s :: 0 <= s < cfg.numShards ==>
      s in shards && shards[s].current == shards[s].target && shards[s].target in cfg.nodes
  }

  /** Every live node has a turn between i and k. */
  ghost predicate Round(cfg: Config, turns: seq<Turn>, i: nat, k: nat)
    requires i <= k <= |turns|
  {
    forall n :: n in cfg.nodes ==> exists j :: i <= j < k && turns[j].node == n
  }

  /** The shard is pinned to a node that is not live. */
  predicate DeadPin(cfg: Config, shards: ShardMap, s: int) {
    && 0 <= s < cfg.numShards && s in shards && "pinned" in shards[s].flags
    && shards[s].target != "" && shards[s].target !in cfg.nodes
  }

  ghost predicate PinsLive(cfg: Config, shards: ShardMap) {
    forall s :: 0 <= s < cfg.numShards ==> !DeadPin(cfg, shards, s)
  }

  // ----- What depends on targets and flags only -----

  ghost predicate SameTargets(a: ShardMap, b: ShardMap) {
    && a.Keys == b.Keys
    && forall s :: s in a ==> a[s].target == b[s].target && a[s].flags == b[s].flags
  }

  lemma SameLoads(a: ShardMap, b: ShardMap, numShards: nat, n: string)
    requires SameTargets(a, b)
    ensures Count(a, numShards, n) == Count(b, numShards, n)
  {
    assert TargetSet(a, numShards, n) == TargetSet(b, numShards, n);
  }

  lemma {:induction false} SameSquares(a: ShardMap, b: ShardMap, numShards: nat, nodes: seq<string>)
    requires SameTargets(a, b)
    ensures SumOfSquares(a, numShards, nodes) == SumOfSquares(b, numShards, nodes)
  {
    if nodes != [] {
      SameLoads(a, b, numShards, nodes[0]);
      SameSquares(a, b, numShards, nodes[1..]);
    }
  }

  lemma SameTargeted(cfg: Config, a: ShardMap, b: ShardMap)
    requires SameTargets(a, b) && AllTargeted(cfg, a)
    ensures AllTargeted(cfg, b)
  {
    forall s | 0 <= s < cfg.numShards ensures !NeedsTarget(cfg.nodes, Lookup(b, s)) {
      assert !NeedsTarget(cfg.nodes, Lookup(a, s));
    }
  }

  lemma SameBalanced(cfg: Config, a: ShardMap, b: ShardMap)
    requires SameTargets(a, b) && Balanced(cfg, a)
    ensures Balanced(cfg, b)
  {
    var x, y :| x in cfg.nodes && y in cfg.nodes && StopsAt(cfg.nodes, cfg.numShards, a, map[], cfg.threshold, x, y);
    assert a + map[] == a && b + map[] == b;
    forall n ensures Count(a, cfg.numShards, n) == Count(b, cfg.numShards, n) { SameLoads(a, b, cfg.numShards, n); }
    SameFirst(cfg, a, b, x);
    assert TargetSet(a, cfg.numShards, x) == TargetSet(b, cfg.numShards, x);
    assert StopsAt(cfg.nodes, cfg.numShards, b, map[], cfg.threshold, x, y);
  }

  lemma SameFirst(cfg: Config, a: ShardMap, b: ShardMap, x: string)
    requires forall n :: Count(a, cfg.numShards, n) == Count(b, cfg.numShards, n)
    requires FirstMost(cfg.nodes, cfg.numShards, a, x)
    ensures FirstMost(cfg.nodes, cfg.numShards, b, x)
  {
  }

  lemma NodeStepKeepsTargets(n: string, nodes: seq<string>, before: ShardMap, after: ShardMap)
    requires NodeStep(n, nodes, before, after)
    ensures SameTargets(before, after)
  {
  }

  // ----- The leader runs out of changes -----

  /** The shards that lack a target. */
  function Needing(cfg: Config, shards: ShardMap): set<int> {
    set s | 0 <= s < cfg.numShards && NeedsTarget(cfg.nodes, Lookup(shards, s))
  }

  /** Falls by two or more whenever the leader changes targets, and never otherwise changes. */
  ghost function Potential(cfg: Config, shards: ShardMap): int {
    if AllTargeted(cfg, shards) then SumOfSquares(shards, cfg.numShards, cfg.nodes)
    else cfg.numShards * cfg.numShards + 2 * |Needing(cfg, shards)|
  }

  lemma NobodyNeeds(cfg: Config, shards: ShardMap)
    ensures AllTargeted(cfg, shards) <==> Needing(cfg, shards) == {}
  {
    if s :| 0 <= s < cfg.numShards && NeedsTarget(cfg.nodes, Lookup(shards, s)) {
      assert s in Needing(cfg, shards);
    } else {
      assert Needing(cfg, shards) == {};
    }
  }

  lemma NeedingBound(cfg: Config, shards: ShardMap)
    ensures |Needing(cfg, shards)| <= cfg.numShards
  {
    BelowSize(Needing(cfg, shards), cfg.numShards);
  }

  function Placed(shards: ShardMap, numShards: nat, nodes: seq<string>): set<int> {
    set s | 0 <= s < numShards && s in shards && shards[s].target in nodes
  }

  lemma PlacedBound(shards: ShardMap, numShards: nat, nodes: seq<string>)
    ensures |Placed(shards, numShards, nodes)| <= numShards
  {
    BelowSize(Placed(shards, numShards, nodes), numShards);
  }

  lemma {:induction false} PlacedIsTotal(shards: ShardMap, numShards: nat, nodes: seq<string>)
    requires NoDup(nodes)
    ensures TotalLoad(shards, numShards, nodes) == |Placed(shards, numShards, nodes)|
  {
    if nodes == [] {
      assert Placed(shards, numShards, nodes) == {};
    } else {
      PlacedIsTotal(shards, numShards, nodes[1..]);
      PlacedSplits(shards, numShards, nodes);
    }
  }

  lemma PlacedSplits(shards: ShardMap, numShards: nat, nodes: seq<string>)
    requires nodes != [] && NoDup(nodes)
    ensures Placed(shards, numShards, nodes)
         == TargetSet(shards, numShards, nodes[0]) + Placed(shards, numShards, nodes[1..])
    ensures TargetSet(shards, numShards, nodes[0]) !! Placed(shards, numShards, nodes[1..])
  {
    assert nodes == [nodes[0]] + nodes[1..];
  }

  lemma {:induction false} SquaresBelow(shards: ShardMap, numShards: nat, nodes: seq<string>)
    ensures 0 <= SumOfSquares(shards, numShards, nodes) <= numShards * TotalLoad(shards, numShards, nodes)
  {
    if nodes != [] {
      SquaresBelow(shards, numShards, nodes[1..]);
      CountBound(shards, numShards, nodes[0]);
      var c := Count(shards, numShards, nodes[0]);
      assert c * c <= numShards * c;
      var rest := TotalLoad(shards, numShards, nodes[1..]);
      assert numShards * (c + rest) == numShards * c + numShards * rest;
    }
  }

  lemma SquaresBound(shards: ShardMap, numShards: nat, nodes: seq<string>)
    requires NoDup(nodes)
    ensures 0 <= SumOfSquares(shards, numShards, nodes) <= numShards * numShards
  {
    SquaresBelow(shards, numShards, nodes);
    PlacedIsTotal(shards, numShards, nodes);
    PlacedBound(shards, numShards, nodes);
    assert numShards * TotalLoad(shards, numShards, nodes) <= numShards * numShards;
  }

  lemma StoredIsLaidOver(before: ShardMap, updates: ShardMap, after: ShardMap)
    requires Stored(before, updates, after)
    ensures SameTargets(before + updates, after)
  {
  }

  /** Whatever part of a reassignment is stored, exactly the shards of that part get their targets. */
  lemma ReassignedNeeds(cfg: Config, before: ShardMap, updates: ShardMap, done: set<int>,
                        after: ShardMap, s: int)
    requires Reassigns(cfg.nodes, cfg.numShards, before, updates) && done <= updates.Keys
    requires Stored(before, Part(updates, done), after)
    ensures s in Needing(cfg, after) <==> s in Needing(cfg, before) && s !in done
    ensures s in done ==> s in Needing(cfg, before)
  {
    if 0 <= s < cfg.numShards {
      assert UpdateOk(cfg.nodes, updates, s, Lookup(before, s));
      if s in done { assert Alike(after[s], updates[s]); }
    }
  }

  lemma ReassignedIsBetter(cfg: Config, before: ShardMap, updates: ShardMap, done: set<int>,
                           after: ShardMap)
    requires Reassigns(cfg.nodes, cfg.numShards, before, updates) && done <= updates.Keys
    requires Stored(before, Part(updates, done), after)
    ensures |Needing(cfg, after)| + |done| == |Needing(cfg, before)|
  {
    forall s ensures s in Needing(cfg, after) <==> s in Needing(cfg, before) && s !in done {
      ReassignedNeeds(cfg, before, updates, done, after, s);
    }
    forall s | s in done ensures s in Needing(cfg, before) { ReassignedNeeds(cfg, before, updates, done, after, s); }
    SizeAfter(Needing(cfg, before), done, Needing(cfg, after));
  }

  lemma RebalancedIsTargeted(cfg: Config, before: ShardMap, updates: ShardMap, done: set<int>,
                             after: ShardMap)
    requires AllTargeted(cfg, before) && AllMoves(cfg.nodes, cfg.numShards, before, updates)
    requires Stored(before, Part(updates, done), after)
    ensures AllTargeted(cfg, after)
  {
    forall s | 0 <= s < cfg.numShards ensures !NeedsTarget(cfg.nodes, Lookup(after, s)) {
      assert !NeedsTarget(cfg.nodes, Lookup(before, s));
      if s in Part(updates, done) { assert after[s].target == updates[s].target; }
    }
  }

  lemma RebalancedIsBetter(cfg: Config, before: ShardMap, updates: ShardMap, done: set<int>,
                           after: ShardMap)
    requires NoDup(cfg.nodes) && GoodBatch(cfg.nodes, cfg.numShards, before, updates) && done <= updates.Keys
    requires Stored(before, Part(updates, done), after)
    ensures SumOfSquares(after, cfg.numShards, cfg.nodes) + 2 * |done| <= SumOfSquares(before, cfg.numShards, cfg.nodes)
  {
    PartialCommitImproves(cfg.nodes, cfg.numShards, before, updates, done);
    StoredIsLaidOver(before, Part(updates, done), after);
    SameSquares(before + Part(updates, done), after, cfg.numShards, cfg.nodes);
  }

  lemma SomeDone(done: set<int>)
    requires done != {}
    ensures |done| >= 1
  {
  }

  lemma ChangeLowersPotential(cfg: Config, before: ShardMap, after: ShardMap, whole: bool)
    requires Sane(cfg) && LeaderStep(cfg, before, after, whole)
    ensures Potential(cfg, after) + 2 <= Potential(cfg, before)
  {
    var updates, done :| Plans(cfg, before, updates) && Lands(before, updates, done, after, whole);
    SomeDone(done);
    if !AllTargeted(cfg, before) {
      ReassignedIsBetter(cfg, before, updates, done, after);
      SquaresBound(after, cfg.numShards, cfg.nodes);
    } else {
      RebalancedIsTargeted(cfg, before, updates, done, after);
      RebalancedIsBetter(cfg, before, updates, done, after);
    }
  }

  lemma SamePotential(cfg: Config, a: ShardMap, b: ShardMap)
    requires SameTargets(a, b)
    ensures Potential(cfg, a) == Potential(cfg, b)
  {
    SameSquares(a, b, cfg.numShards, cfg.nodes);
    assert Needing(cfg, a) == Needing(cfg, b);
    NobodyNeeds(cfg, a);
    NobodyNeeds(cfg, b);
  }

  lemma TickPays(cfg: Config, n: string, before: ShardMap, after: ShardMap, fate: Fate)
    requires Sane(cfg) && Tick(cfg, n, before, after, fate)
    ensures Potential(cfg, after) + (if fate.Landed? then 2 else 0) <= Potential(cfg, before)
  {
    var mid :| Led(cfg, n, before, mid, fate)
               && if GoesOn(cfg, before, fate) then NodeStep(n, cfg.nodes, mid, after) else after == mid;
    if fate.Landed? { ChangeLowersPotential(cfg, before, mid, fate.whole); }
    if GoesOn(cfg, before, fate) { NodeStepKeepsTargets(n, cfg.nodes, mid, after); }
    SamePotential(cfg, mid, after);
  }

  lemma RunPrefix(cfg: Config, states: seq<ShardMap>, turns: seq<Turn>, k: nat)
    requires IsRun(cfg, states, turns) && k <= |turns|
    ensures IsRun(cfg, states[..k + 1], turns[..k])
  {
  }

  lemma {:induction false} PotentialPaysForChanges(cfg: Config, states: seq<ShardMap>, turns: seq<Turn>)
    requires Sane(cfg) && IsRun(cfg, states, turns)
    ensures Potential(cfg, states[|turns|]) + 2 * Changes(turns) <= Potential(cfg, states[0])
    decreases |turns|
  {
    if turns != [] {
      var k := |turns| - 1;
      RunPrefix(cfg, states, turns, k);
      PotentialPaysForChanges(cfg, states[..k + 1], turns[..k]);
      TickPays(cfg, turns[k].node, states[k], states[k + 1], turns[k].fate);
    }
  }

  /** In every run, whatever the order of ticks and whatever part of the leader's plans is stored, the
      leader changes targets in at most N*N/2 + N ticks for N shards. */
  lemma LeaderChangesAreBounded(cfg: Config, states: seq<ShardMap>, turns: seq<Turn>)
    requires Sane(cfg) && IsRun(cfg, states, turns)
    ensures 2 * Changes(turns) <= cfg.numShards * cfg.numShards + 2 * cfg.numShards
  {
    PotentialPaysForChanges(cfg, states, turns);
    SquaresBound(states[0], cfg.numShards, cfg.nodes);
    NeedingBound(cfg, states[0]);
    SquaresBound(states[|turns|], cfg.numShards, cfg.nodes);
  }

  // ----- Then it stays quiet -----

  ghost predicate Quiet(cfg: Config, shards: ShardMap) {
    AllTargeted(cfg, shards) && Balanced(cfg, shards)
  }

  /** A tick on a quiet map is the node's own step, and leaves the map quiet. */
  lemma QuietStep(cfg: Config, n: string, before: ShardMap, after: ShardMap, fate: Fate)
    requires Quiet(cfg, before) && Tick(cfg, n, before, after, fate)
    ensures !fate.Landed? && Quiet(cfg, after) && NodeStep(n, cfg.nodes, before, after)
  {
    var mid :| Led(cfg, n, before, mid, fate)
               && if GoesOn(cfg, before, fate) then NodeStep(n, cfg.nodes, mid, after) else after == mid;
    NodeStepKeepsTargets(n, cfg.nodes, before, after);
    SameTargeted(cfg, before, after);
    SameBalanced(cfg, before, after);
  }

  /** Once the leader finds nothing to change, it never changes anything again. */
  lemma {:induction false} QuietForever(cfg: Config, states: seq<ShardMap>, turns: seq<Turn>, i: nat, j: nat)
    requires IsRun(cfg, states, turns) && i < j <= |turns| && Idles(cfg.leader, turns[i])
    ensures Quiet(cfg, states[j]) && !turns[j - 1].fate.Landed?
    ensures NodeStep(turns[j - 1].node, cfg.nodes, states[j - 1], states[j])
    decreases j
  {
    if j > i + 1 { QuietForever(cfg, states, turns, i, j - 1); }
    QuietStep(cfg, turns[j - 1].node, states[j - 1], states[j], turns[j - 1].fate);
  }

  /** From then on the loads stay balanced: any two live nodes are at most one shard apart, or no further apart
      than the threshold share of the ideal load, unless all shards of the first of the most loaded nodes are
      pinned. */
  lemma QuietIsBalanced(cfg: Config, states: seq<ShardMap>, turns: seq<Turn>, i: nat, j: nat)
    requires Sane(cfg) && IsRun(cfg, states, turns) && i < j <= |turns| && Idles(cfg.leader, turns[i])
    ensures || AllClose(cfg.nodes, cfg.numShards, states[j], cfg.threshold)
            || (exists a :: FirstMost(cfg.nodes, cfg.numShards, states[j], a)
                  && forall s :: s in TargetSet(states[j], cfg.numShards, a) ==> "pinned" in states[j][s].flags)
  {
    QuietForever(cfg, states, turns, i, j);
    var shards := states[j];
    assert shards + map[] == shards;
    SettledIff(cfg.nodes, cfg.numShards, shards, map[], cfg.threshold);
    var k := MostExists(cfg.nodes, cfg.numShards, shards);
    assert FirstMost(cfg.nodes, cfg.numShards, shards, cfg.nodes[k]);
  }

  // ----- Two rounds move every shard home -----

  /** Nobody live stands between the shard and its target. */
  predicate Ready(nodes: seq<string>, info: ShardInfo) {
    info.current == info.target || info.current == "" || info.current !in nodes
  }

  /** What one tick of any node does to a shard with a live target. */
  lemma SettleOnce(n: string, nodes: seq<string>, info: ShardInfo)
    requires "" !in nodes && n in nodes && info.target in nodes
    ensures var next := Settle(n, nodes, info);
            && next.target == info.target
            && (info.current == info.target ==> next.current == info.target)
            && (Ready(nodes, info) ==> Ready(nodes, next))
            && (Ready(nodes, info) && n == info.target ==> next.current == info.target)
            && (!Ready(nodes, info) ==> next.current == if n == info.current then "" else info.current)
  {
  }

  /** From turn i on, only nodes' own steps happen and the shard keeps the live target t. */
  ghost predicate Calm(cfg: Config, states: seq<ShardMap>, turns: seq<Turn>, i: nat, s: int, t: string) {
    && |states| == |turns| + 1 && i <= |turns| && "" !in cfg.nodes && t in cfg.nodes
    && (forall j :: i <= j <= |turns| ==> s in states[j] && states[j][s].target == t)
    && (forall j :: i <= j < |turns| ==>
          turns[j].node in cfg.nodes && Alike(states[j + 1][s], Settle(turns[j].node, cfg.nodes, states[j][s])))
  }

  lemma {:induction false} StaysReady(cfg: Config, states: seq<ShardMap>, turns: seq<Turn>, i: nat, s: int, t: string,
                                      j: nat)
    requires Calm(cfg, states, turns, i, s, t) && i <= j <= |turns| && Ready(cfg.nodes, states[i][s])
    ensures Ready(cfg.nodes, states[j][s])
    decreases j
  {
    if j > i {
      StaysReady(cfg, states, turns, i, s, t, j - 1);
      SettleOnce(turns[j - 1].node, cfg.nodes, states[j - 1][s]);
    }
  }

  lemma {:induction false} StaysHome(cfg: Config, states: seq<ShardMap>, turns: seq<Turn>, i: nat, s: int, t: string,
                                     j: nat)
    requires Calm(cfg, states, turns, i, s, t) && i <= j <= |turns| && states[i][s].current == t
    ensures states[j][s].current == t
    decreases j
  {
    if j > i {
      StaysHome(cfg, states, turns, i, s, t, j - 1);
      SettleOnce(turns[j - 1].node, cfg.nodes, states[j - 1][s]);
    }
  }

  /** A live holder keeps the shard until its own turn. */
  lemma {:induction false} StaysOrReady(cfg: Config, states: seq<ShardMap>, turns: seq<Turn>, i: nat, s: int, t: string,
                                        j: nat)
    requires Calm(cfg, states, turns, i, s, t) && i <= j <= |turns|
    ensures states[j][s].current == states[i][s].current || Ready(cfg.nodes, states[j][s])
    decreases j
  {
    if j > i {
      StaysOrReady(cfg, states, turns, i, s, t, j - 1);
      SettleOnce(turns[j - 1].node, cfg.nodes, states[j - 1][s]);
    }
  }

  lemma CalmLater(cfg: Config, states: seq<ShardMap>, turns: seq<Turn>, i: nat, s: int, t: string, j: nat)
    requires Calm(cfg, states, turns, i, s, t) && i <= j <= |turns|
    ensures Calm(cfg, states, turns, j, s, t)
  {
  }

  lemma FirstRoundFrees(cfg: Config, states: seq<ShardMap>, turns: seq<Turn>, i: nat, m: nat, s: int, t: string)
    requires Calm(cfg, states, turns, i, s, t) && i <= m <= |turns| && Round(cfg, turns, i, m)
    ensures Ready(cfg.nodes, states[m][s])
  {
    if Ready(cfg.nodes, states[i][s]) {
      StaysReady(cfg, states, turns, i, s, t, m);
    } else {
      var j :| i <= j < m && turns[j].node == states[i][s].current;
      StaysOrReady(cfg, states, turns, i, s, t, j);
      SettleOnce(turns[j].node, cfg.nodes, states[j][s]);
      CalmLater(cfg, states, turns, i, s, t, j + 1);
      StaysReady(cfg, states, turns, j + 1, s, t, m);
    }
  }

  lemma SecondRoundSettles(cfg: Config, states: seq<ShardMap>, turns: seq<Turn>, m: nat, k: nat, s: int, t: string,
                           k': nat)
    requires Calm(cfg, states, turns, m, s, t) && m <= k <= k' <= |turns| && Round(cfg, turns, m, k)
    requires Ready(cfg.nodes, states[m][s])
    ensures states[k'][s].current == t
  {
    var j :| m <= j < k && turns[j].node == t;
    StaysReady(cfg, states, turns, m, s, t, j);
    SettleOnce(t, cfg.nodes, states[j][s]);
    CalmLater(cfg, states, turns, m, s, t, j + 1);
    StaysHome(cfg, states, turns, j + 1, s, t, k');
  }

  // ----- Putting it together -----

  lemma QuietTarget(cfg: Config, shards: ShardMap, s: int)
    requires "" !in cfg.nodes && Quiet(cfg, shards) && PinsLive(cfg, shards) && 0 <= s < cfg.numShards
    ensures s in shards && shards[s].target in cfg.nodes
  {
    assert !NeedsTarget(cfg.nodes, Lookup(shards, s)) && !DeadPin(cfg, shards, s);
  }

  lemma {:induction false} QuietIsCalm(cfg: Config, states: seq<ShardMap>, turns: seq<Turn>, i: nat, s: int, t: string,
                                       j: nat)
    requires "" !in cfg.nodes && t in cfg.nodes && IsRun(cfg, states, turns) && i < j <= |turns|
    requires Idles(cfg.leader, turns[i])
    requires s in states[i + 1] && states[i + 1][s].target == t
    ensures s in states[j] && states[j][s].target == t
    ensures j > i + 1 ==>
      s in states[j - 1] && Alike(states[j][s], Settle(turns[j - 1].node, cfg.nodes, states[j - 1][s]))
    decreases j
  {
    if j > i + 1 {
      QuietIsCalm(cfg, states, turns, i, s, t, j - 1);
      QuietForever(cfg, states, turns, i, j);
    }
  }

  /** The leader leaves a shard that is pinned to a dead node alone, and pins none to one. */
  lemma LeaderKeepsPins(cfg: Config, before: ShardMap, after: ShardMap, whole: bool, s: int)
    requires LeaderStep(cfg, before, after, whole)
    ensures DeadPin(cfg, after, s) <==> DeadPin(cfg, before, s)
  {
    var updates, done :| Plans(cfg, before, updates) && Lands(before, updates, done, after, whole);
    if 0 <= s < cfg.numShards {
      if !AllTargeted(cfg, before) {
        assert UpdateOk(cfg.nodes, updates, s, Lookup(before, s));
      } else if s in updates {
        assert IsMove(cfg.nodes, before[s], updates[s]);
      }
    }
  }

  lemma TickKeepsPins(cfg: Config, n: string, before: ShardMap, after: ShardMap, fate: Fate, s: int)
    requires Tick(cfg, n, before, after, fate)
    ensures DeadPin(cfg, after, s) <==> DeadPin(cfg, before, s)
  {
    var mid :| Led(cfg, n, before, mid, fate)
               && if GoesOn(cfg, before, fate) then NodeStep(n, cfg.nodes, mid, after) else after == mid;
    if fate.Landed? { LeaderKeepsPins(cfg, before, mid, fate.whole, s); }
  }

  lemma {:induction false} RunKeepsPins(cfg: Config, states: seq<ShardMap>, turns: seq<Turn>, j: nat, s: int)
    requires IsRun(cfg, states, turns) && j <= |turns|
    ensures DeadPin(cfg, states[j], s) <==> DeadPin(cfg, states[0], s)
  {
    if j > 0 {
      RunKeepsPins(cfg, states, turns, j - 1, s);
      TickKeepsPins(cfg, turns[j - 1].node, states[j - 1], states[j], turns[j - 1].fate, s);
    }
  }

  lemma PinsStayLive(cfg: Config, states: seq<ShardMap>, turns: seq<Turn>, j: nat)
    requires IsRun(cfg, states, turns) && PinsLive(cfg, states[0]) && j <= |turns|
    ensures PinsLive(cfg, states[j])
  {
    forall s | 0 <= s < cfg.numShards ensures !DeadPin(cfg, states[j], s) { RunKeepsPins(cfg, states, turns, j, s); }
  }

  lemma BecomesCalm(cfg: Config, states: seq<ShardMap>, turns: seq<Turn>, i: nat, s: int, t: string)
    requires "" !in cfg.nodes && t in cfg.nodes && IsRun(cfg, states, turns) && i < |turns|
    requires Idles(cfg.leader, turns[i])
    requires s in states[i + 1] && states[i + 1][s].target == t
    ensures Calm(cfg, states, turns, i + 1, s, t)
  {
    forall j | i < j <= |turns| ensures s in states[j] && states[j][s].target == t {
      QuietIsCalm(cfg, states, turns, i, s, t, j);
    }
    forall j | i < j < |turns|
      ensures turns[j].node in cfg.nodes && Alike(states[j + 1][s], Settle(turns[j].node, cfg.nodes, states[j][s]))
    {
      QuietIsCalm(cfg, states, turns, i, s, t, j + 1);
    }
  }

  lemma ShardConverges(cfg: Config, states: seq<ShardMap>, turns: seq<Turn>, h: nat, m: nat, k: nat, k': nat, s: int,
                       t: string)
    requires Calm(cfg, states, turns, h, s, t) && h <= m <= k <= k' <= |turns| && Round(cfg, turns, h, m)
    requires Round(cfg, turns, m, k)
    ensures s in states[k'] && states[k'][s].current == t == states[k'][s].target
  {
    FirstRoundFrees(cfg, states, turns, h, m, s, t);
    CalmLater(cfg, states, turns, h, s, t, m);
    SecondRoundSettles(cfg, states, turns, m, k, s, t, k');
  }

  /** After a tick in which the leader changes nothing, two rounds of ticks by all nodes, in any order
      and mixed with any others, bring every shard to its live target, for good. */
  lemma TwoRoundsConverge(cfg: Config, states: seq<ShardMap>, turns: seq<Turn>, i: nat, m: nat, k: nat, k': nat)
    requires Sane(cfg) && IsRun(cfg, states, turns) && PinsLive(cfg, states[0])
    requires i < m <= k <= k' <= |turns| && Idles(cfg.leader, turns[i])
    requires Round(cfg, turns, i + 1, m) && Round(cfg, turns, m, k)
    ensures Converged(cfg, states[k'])
  {
    QuietForever(cfg, states, turns, i, i + 1);
    PinsStayLive(cfg, states, turns, i + 1);
    forall s | 0 <= s < cfg.numShards
      ensures s in states[k'] && states[k'][s].current == states[k'][s].target && states[k'][s].target in cfg.nodes
    {
      QuietTarget(cfg, states[i + 1], s);
      var t := states[i + 1][s].target;
      BecomesCalm(cfg, states, turns, i, s, t);
      ShardConverges(cfg, states, turns, i + 1, m, k, k', s, t);
    }
  }

  /** More leader ticks than changes: one of them changed nothing. */
  lemma {:induction false} SomeQuietTurn(leader: string, turns: seq<Turn>) returns (i: nat)
    requires LeaderTurns(leader, turns) > Changes(turns)
    ensures i < |turns| && Idles(leader, turns[i])
  {
    i := |turns| - 1;
    if !Idles(leader, turns[i]) { i := SomeQuietTurn(leader, turns[..i]); }
  }

  predicate EnoughLeaderTurns(cfg: Config, turns: seq<Turn>) {
    2 * LeaderTurns(cfg.leader, turns) > cfg.numShards * cfg.numShards + 2 * cfg.numShards
  }

  /** Convergence: in every run, once the leader has had more than N*N/2 + N ticks for N shards in which its
      writes did not all fail, two rounds of ticks put every shard on its live target for good, provided no
      shard was pinned to a node that is not live; if one was, the run never converges. */
  lemma Converges(cfg: Config, states: seq<ShardMap>, turns: seq<Turn>, i: nat, m: nat, k: nat, k': nat)
    requires Sane(cfg) && IsRun(cfg, states, turns)
    requires i <= m <= k <= k' <= |turns| && EnoughLeaderTurns(cfg, turns[..i])
    requires Round(cfg, turns, i, m) && Round(cfg, turns, m, k)
    ensures Converged(cfg, states[k']) <==> PinsLive(cfg, states[0])
  {
    if PinsLive(cfg, states[0]) {
      RunPrefix(cfg, states, turns, i);
      LeaderChangesAreBounded(cfg, states[..i + 1], turns[..i]);
      var q := SomeQuietTurn(cfg.leader, turns[..i]);
      assert turns[..i][q] == turns[q];
      WiderRound(cfg, turns, q + 1, i, m);
      TwoRoundsConverge(cfg, states, turns, q, m, k, k');
    } else {
      var s :| DeadPin(cfg, states[0], s);
      RunKeepsPins(cfg, states, turns, k', s);
    }
  }

  lemma WiderRound(cfg: Config, turns: seq<Turn>, h: nat, i: nat, m: nat)
    requires h <= i <= m <= |turns| && Round(cfg, turns, i, m)
    ensures Round(cfg, turns, h, m)
  {
    forall n | n in cfg.nodes ensures exists j :: h <= j < m && turns[j].node == n {
      var j :| i <= j < m && turns[j].node == n;
    }
  }
}
