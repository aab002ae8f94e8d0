/** The shard lock (cluster/shardlock/shardlock.go): any number of threads take shard locks, several at
    once in ascending order or a single one, and none of them can block the others for ever.

    A thread is its list of shards in the order it locks them and how far it has come. Go's read-write
    mutex lets a waiting writer bar new readers, but not always: readers it barred before get in ahead of
    the next writer. The steps allow both. What is shown to be possible is possible under the stricter
    rule, so it does not depend on which readers are barred. */
module ShardLocks {
  import opened Sets
  import opened Decimals
  import KeyLocks

  /** The thread has locked its first `got` shards and given back the first `freed` of them. It is
      `waiting` once it has asked for the next one, and `leaving` once its critical section is over. */
  datatype Thread = Thread(ids: seq<int>, mode: KeyLocks.Mode, got: nat, freed: nat, waiting: bool, leaving: bool)

  datatype Action = Ask(t: nat) | Grant(t: nat) | Leave(t: nat) | Free(t: nat)

  datatype Plan = Plan(ids: seq<int>, mode: KeyLocks.Mode)

  function Start(plans: seq<Plan>): seq<Thread> {
    seq(|plans|, i requires 0 <= i < |plans| => Thread(plans[i].ids, plans[i].mode, 0, 0, false, false))
  }

  predicate Ok(th: Thread) {
    && th.freed <= th.got <= |th.ids|
    && (th.waiting ==> th.got < |th.ids| && !th.leaving)
    && (th.leaving ==> th.got == |th.ids|)
    && (th.freed > 0 ==> th.leaving)
  }

  predicate Done(th: Thread) {
    th.leaving && th.freed == |th.ids|
  }

  predicate Holds(th: Thread, x: int)
    requires Ok(th)
  {
    x in th.ids[th.freed..th.got]
  }

  predicate WaitsFor(th: Thread, x: int)
    requires Ok(th)
  {
    th.waiting && th.ids[th.got] == x
  }

  predicate AllOk(s: seq<Thread>) {
    forall t :: 0 <= t < |s| ==> Ok(s[t])
  }

  /** The mutex may let the thread in: a writer needs the lock unheld, a reader needs no writer on it. */
  predicate Admits(s: seq<Thread>, t: nat)
    requires AllOk(s) && t < |s| && s[t].waiting
  {
    var x := s[t].ids[s[t].got];
    if s[t].mode.Write? then forall u :: 0 <= u < |s| ==> !Holds(s[u], x)
    else forall u :: 0 <= u < |s| && s[u].mode.Write? ==> !Holds(s[u], x)
  }

  /** The mutex must let the thread in: for a reader there is not even a writer waiting. */
  predicate MustAdmit(s: seq<Thread>, t: nat)
    requires AllOk(s) && t < |s| && s[t].waiting
  {
    Admits(s, t)
    && (s[t].mode.Read? ==> forall u :: 0 <= u < |s| && s[u].mode.Write? ==> !WaitsFor(s[u], s[t].ids[s[t].got]))
  }

  predicate Enabled(s: seq<Thread>, a: Action)
    requires AllOk(s)
  {
    a.t < |s|
    && match a {
      case Ask(t) => !s[t].leaving && !s[t].waiting && s[t].got < |s[t].ids|
      case Grant(t) => s[t].waiting && Admits(s, t)
      case Leave(t) => !s[t].leaving && s[t].got == |s[t].ids|
      case Free(t) => s[t].leaving && s[t].freed < s[t].got
    }
  }

  /** The step can be taken whatever the mutex's policy towards readers. */
  predicate Possible(s: seq<Thread>, a: Action)
    requires AllOk(s)
  {
    Enabled(s, a) && (a.Grant? ==> MustAdmit(s, a.t))
  }

  function Move(th: Thread, a: Action): Thread {
    match a
    case Ask(_) => th.(waiting := true)
    case Grant(_) => th.(waiting := false, got := th.got + 1)
    case Leave(_) => th.(leaving := true)
    case Free(_) => th.(freed := th.freed + 1)
  }

  function Apply(s: seq<Thread>, a: Action): (s': seq<Thread>)
    requires AllOk(s) && Enabled(s, a)
    ensures AllOk(s')
  {
    s[a.t := Move(s[a.t], a)]
  }

  ghost predicate IsRun(plans: seq<Plan>, actions: seq<Action>, states: seq<seq<Thread>>) {
    && |states| == |actions| + 1 && states[0] == Start(plans)
    && forall i :: 0 <= i < |actions| ==>
         AllOk(states[i]) && Enabled(states[i], actions[i]) && states[i + 1] == Apply(states[i], actions[i])
  }

  /** Threads never change what they set out to lock. */
  ghost predicate Follows(plans: seq<Plan>, s: seq<Thread>) {
    AllOk(s) && |s| == |plans| && forall t :: 0 <= t < |s| ==> s[t].ids == plans[t].ids && s[t].mode == plans[t].mode
  }

  lemma {:induction false} RunFollows(plans: seq<Plan>, actions: seq<Action>, states: seq<seq<Thread>>, i: nat)
    requires IsRun(plans, actions, states) && i < |states|
    ensures Follows(plans, states[i])
  {
    if i > 0 { RunFollows(plans, actions, states, i - 1); }
  }

  // ----- Deadlock freedom -----

  predicate Ascending(ids: seq<int>) {
    forall i, j :: 0 <= i < j < |ids| ==> ids[i] < ids[j]
  }

  /** A thread that asks for nothing is either done or can move. */
  lemma BusyCanMove(s: seq<Thread>, t: nat) returns (a: Action)
    requires AllOk(s) && t < |s| && !Done(s[t]) && !s[t].waiting
    ensures Possible(s, a)
  {
    if s[t].leaving {
      a := Free(t);
    } else if s[t].got == |s[t].ids| {
      a := Leave(t);
    } else {
      a := Ask(t);
    }
  }

  /** A holder that waits, waits for a higher shard than any it holds. */
  lemma HolderWaitsHigher(th: Thread, x: int)
    requires Ok(th) && Ascending(th.ids) && th.waiting && Holds(th, x)
    ensures th.ids[th.got] > x
  {
  }

  function Wanted(th: Thread): int
    requires Ok(th) && th.waiting
  {
    th.ids[th.got]
  }

  /** Among the first k threads, all waiting or done, one that waits for the highest shard, and for
      writing if any does. */
  lemma {:induction false} HighestWaiter(s: seq<Thread>, k: nat) returns (t: nat)
    requires AllOk(s) && k <= |s| && (exists u :: 0 <= u < k && s[u].waiting)
    ensures t < k && s[t].waiting
    ensures forall u :: 0 <= u < k && s[u].waiting ==> Wanted(s[u]) <= Wanted(s[t])
    ensures s[t].mode.Read? ==> forall u :: 0 <= u < k && s[u].waiting && s[u].mode.Write? ==>
      Wanted(s[u]) < Wanted(s[t])
  {
    if exists u :: 0 <= u < k - 1 && s[u].waiting {
      t := HighestWaiter(s, k - 1);
      if s[k - 1].waiting
         && (Wanted(s[t]) < Wanted(s[k - 1]) || (Wanted(s[t]) == Wanted(s[k - 1]) && s[k - 1].mode.Write?))
      {
        t := k - 1;
      }
    } else {
      t := k - 1;
    }
  }

  /** When everybody is waiting or done, the highest waiter can be served: whoever held its shard would
      be waiting for a higher one. */
  lemma HighestIsGrantable(s: seq<Thread>, t: nat)
    requires AllOk(s) && t < |s| && s[t].waiting
    requires forall u :: 0 <= u < |s| ==> Ascending(s[u].ids) && (Done(s[u]) || s[u].waiting)
    requires forall u :: 0 <= u < |s| && s[u].waiting ==> Wanted(s[u]) <= Wanted(s[t])
    requires s[t].mode.Read? ==> forall u :: 0 <= u < |s| && s[u].waiting && s[u].mode.Write? ==>
      Wanted(s[u]) < Wanted(s[t])
    ensures Possible(s, Grant(t))
  {
    forall u | 0 <= u < |s| ensures !Holds(s[u], Wanted(s[t])) {
      if s[u].waiting && Holds(s[u], Wanted(s[t])) { HolderWaitsHigher(s[u], Wanted(s[t])); }
    }
  }

  /** In every reachable state of threads that lock distinct shards in ascending order, somebody can
      move until all are done. */
  lemma SomebodyCanMove(plans: seq<Plan>, actions: seq<Action>, states: seq<seq<Thread>>, i: nat) returns (a: Action)
    requires IsRun(plans, actions, states) && i < |states|
    requires forall p :: 0 <= p < |plans| ==> Ascending(plans[p].ids)
    requires exists t :: 0 <= t < |states[i]| && !Done(states[i][t])
    ensures AllOk(states[i]) && Possible(states[i], a)
  {
    RunFollows(plans, actions, states, i);
    var s := states[i];
    if t :| 0 <= t < |s| && !Done(s[t]) && !s[t].waiting {
      a := BusyCanMove(s, t);
    } else {
      var t := HighestWaiter(s, |s|);
      HighestIsGrantable(s, t);
      a := Grant(t);
    }
  }

  // ----- Runs end -----

  /** The moves a thread still has to make. */
  function Left(th: Thread): int {
    2 * (|th.ids| - th.got) - (if th.waiting then 1 else 0) + (|th.ids| - th.freed) + (if th.leaving then 0 else 1)
  }

  function TotalLeft(s: seq<Thread>): int {
    if s == [] then 0 else TotalLeft(s[..|s| - 1]) + Left(s[|s| - 1])
  }

  lemma {:induction false} TotalAfterUpdate(s: seq<Thread>, t: nat, th: Thread)
    requires t < |s|
    ensures TotalLeft(s[t := th]) == TotalLeft(s) - Left(s[t]) + Left(th)
  {
    var k := |s| - 1;
    if t == k {
      assert s[t := th][..k] == s[..k];
    } else {
      TotalAfterUpdate(s[..k], t, th);
      assert s[t := th][..k] == s[..k][t := th];
    }
  }

  lemma {:induction false} TotalIsNatural(s: seq<Thread>)
    requires AllOk(s)
    ensures TotalLeft(s) >= 0
    ensures TotalLeft(s) == 0 ==> forall t :: 0 <= t < |s| ==> Done(s[t])
  {
    if s != [] { TotalIsNatural(s[..|s| - 1]); }
  }

  /** Every move brings the end one step closer, so every run is at most as long as the work in its plans. */
  lemma {:induction false} RunsAreBounded(plans: seq<Plan>, actions: seq<Action>, states: seq<seq<Thread>>, i: nat)
    requires IsRun(plans, actions, states) && i < |states|
    ensures i + TotalLeft(states[i]) == TotalLeft(Start(plans)) && i <= TotalLeft(Start(plans))
  {
    RunFollows(plans, actions, states, i);
    TotalIsNatural(states[i]);
    if i > 0 {
      RunsAreBounded(plans, actions, states, i - 1);
      var a := actions[i - 1];
      TotalAfterUpdate(states[i - 1], a.t, Move(states[i - 1][a.t], a));
    }
  }

  /** Deadlock freedom: a run of ascending plans that cannot go on has served every thread. */
  lemma StuckMeansDone(plans: seq<Plan>, actions: seq<Action>, states: seq<seq<Thread>>)
    requires IsRun(plans, actions, states)
    requires forall p :: 0 <= p < |plans| ==> Ascending(plans[p].ids)
    requires var last := states[|actions|]; AllOk(last) && forall a :: !Possible(last, a)
    ensures forall t :: 0 <= t < |states[|actions|]| ==> Done(states[|actions|][t])
  {
    RunFollows(plans, actions, states, |actions|);
    if exists t :: 0 <= t < |states[|actions|]| && !Done(states[|actions|][t]) {
      var a := SomebodyCanMove(plans, actions, states, |actions|);
    }
  }

  lemma OwnShardBlocks(s: seq<Thread>, t: nat, j: nat)
    requires AllOk(s) && t < |s| && s[t].waiting && s[t].mode.Write? && s[t].got == j + 1
    requires s[t].ids[j] == s[t].ids[j + 1]
    ensures !Admits(s, t)
  {
    var th := s[t];
    assert th.ids[th.freed..th.got][j - th.freed] == th.ids[j];
    assert Holds(th, th.ids[th.got]);
  }

  /** A writer whose list names a shard twice in a row never gets past it, whatever the others do. */
  lemma {:induction false} DuplicateBlocksItself(plans: seq<Plan>, actions: seq<Action>, states: seq<seq<Thread>>,
                                                 i: nat, t: nat, j: nat)
    requires IsRun(plans, actions, states) && i < |states| && t < |plans|
    requires plans[t].mode.Write? && j + 1 < |plans[t].ids| && plans[t].ids[j] == plans[t].ids[j + 1]
    ensures t < |states[i]| && states[i][t].got <= j + 1 && !Done(states[i][t])
  {
    RunFollows(plans, actions, states, i);
    if i > 0 {
      DuplicateBlocksItself(plans, actions, states, i - 1, t, j);
      RunFollows(plans, actions, states, i - 1);
      var th := states[i - 1][t];
      if th.waiting && th.got == j + 1 { OwnShardBlocks(states[i - 1], t, j); }
    }
  }

  // ----- The order AcquireWriteMultiple locks in -----

  function InsertAscending(ids: seq<int>, x: int): seq<int> {
    if ids == [] || x <= ids[0] then [x] + ids else [ids[0]] + InsertAscending(ids[1..], x)
  }

  /** The sorted copy. */
  function SortIds(ids: seq<int>): seq<int> {
    if ids == [] then [] else InsertAscending(SortIds(ids[1..]), ids[0])
  }

  predicate Sorted(ids: seq<int>) {
    forall i, j :: 0 <= i < j < |ids| ==> ids[i] <= ids[j]
  }

  lemma {:induction false} InsertAbove(ids: seq<int>, x: int, low: int)
    requires low <= x && forall i :: 0 <= i < |ids| ==> low <= ids[i]
    ensures forall i :: 0 <= i < |InsertAscending(ids, x)| ==> low <= InsertAscending(ids, x)[i]
  {
    if ids != [] && x > ids[0] { InsertAbove(ids[1..], x, low); }
  }

  lemma {:induction false} InsertKeepsSorted(ids: seq<int>, x: int)
    requires Sorted(ids)
    ensures Sorted(InsertAscending(ids, x))
  {
    if ids != [] && x > ids[0] {
      InsertKeepsSorted(ids[1..], x);
      InsertAbove(ids[1..], x, ids[0]);
    }
  }

  lemma {:induction false} InsertAdds(ids: seq<int>, x: int)
    ensures multiset(InsertAscending(ids, x)) == multiset(ids) + multiset{x}
  {
    if ids != [] && x > ids[0] {
      InsertAdds(ids[1..], x);
      assert ids == [ids[0]] + ids[1..];
    }
  }

  lemma {:induction false} SortSorts(ids: seq<int>)
    ensures Sorted(SortIds(ids)) && multiset(SortIds(ids)) == multiset(ids)
  {
    if ids != [] {
      SortSorts(ids[1..]);
      InsertKeepsSorted(SortIds(ids[1..]), ids[0]);
      InsertAdds(SortIds(ids[1..]), ids[0]);
      assert ids == [ids[0]] + ids[1..];
    }
  }

  /** Distinct shards, and only they, come out strictly ascending. */
  lemma SortAscendsIffDistinct(ids: seq<int>)
    ensures Ascending(SortIds(ids)) <==> NoDup(ids)
  {
    SortSorts(ids);
    if NoDup(ids) { ShuffleKeepsNoDup(ids, SortIds(ids)); }
    if Ascending(SortIds(ids)) { ShuffleKeepsNoDup(SortIds(ids), ids); }
  }

  lemma RepeatIsAdjacent(ids: seq<int>) returns (j: nat)
    requires Sorted(ids) && !Ascending(ids)
    ensures j + 1 < |ids| && ids[j] == ids[j + 1]
  {
    var i, k :| 0 <= i < k < |ids| && ids[i] >= ids[k];
    j := i;
    assert ids[i] <= ids[i + 1] <= ids[k] || i + 1 == k;
  }

  /** The keys AcquireWriteMultiple locks, in order: each shard's decimal number, ascending. */
  method LockKeys(ids: seq<int>) returns (keys: seq<string>)
    ensures |keys| == |SortIds(ids)| && forall i :: 0 <= i < |keys| ==> keys[i] == Itoa(SortIds(ids)[i])
    ensures NoDup(ids) <==> NoDup(keys)
  {
    var sorted := SortIds(ids);
    keys := [];
    var i := 0;
    while i < |sorted|
      invariant 0 <= i <= |sorted| && |keys| == i
      invariant forall j :: 0 <= j < i ==> keys[j] == Itoa(sorted[j])
    {
      keys := keys + [Itoa(sorted[i])];
      i := i + 1;
    }
    KeysDistinct(ids, keys);
  }

  lemma KeysDistinct(ids: seq<int>, keys: seq<string>)
    requires |keys| == |SortIds(ids)| && forall i :: 0 <= i < |keys| ==> keys[i] == Itoa(SortIds(ids)[i])
    ensures NoDup(ids) <==> NoDup(keys)
  {
    SortSorts(ids);
    SortAscendsIffDistinct(ids);
    forall i, j | 0 <= i < j < |keys| ensures keys[i] == keys[j] <==> SortIds(ids)[i] == SortIds(ids)[j] {
      if keys[i] == keys[j] { ItoaIsInjective(SortIds(ids)[i], SortIds(ids)[j]); }
    }
    if NoDup(keys) {
      forall i, j | 0 <= i < j < |keys| ensures SortIds(ids)[i] < SortIds(ids)[j] { assert keys[i] != keys[j]; }
    }
  }

  // ----- Requests -----

  /** What a thread asks of the shard lock. */
  datatype Request = WriteMultiple(ids: seq<int>) | WriteOne(id: int) | ReadOne(id: int)

  function PlanOf(r: Request): Plan {
    match r
    case WriteMultiple(ids) => Plan(SortIds(ids), KeyLocks.Write)
    case WriteOne(id) => Plan([id], KeyLocks.Write)
    case ReadOne(id) => Plan([id], KeyLocks.Read)
  }

  function PlansOf(rs: seq<Request>): seq<Plan> {
    seq(|rs|, i requires 0 <= i < |rs| => PlanOf(rs[i]))
  }

  ghost predicate AsksDistinct(r: Request) {
    r.WriteMultiple? ==> NoDup(r.ids)
  }

  lemma DistinctIsAscending(r: Request)
    ensures AsksDistinct(r) <==> Ascending(PlanOf(r).ids)
  {
    if r.WriteMultiple? { SortAscendsIffDistinct(r.ids); }
  }

  /** Whenever nobody can move any more, everybody is done, if and only if every multiple request names
      distinct shards; a request that repeats one waits for itself for ever. */
  lemma NoDeadlockIffDistinct(rs: seq<Request>, actions: seq<Action>, states: seq<seq<Thread>>)
    requires IsRun(PlansOf(rs), actions, states)
    requires var last := states[|actions|]; AllOk(last) && forall a :: !Possible(last, a)
    ensures (forall t :: 0 <= t < |states[|actions|]| ==> Done(states[|actions|][t])) <==>
      (forall r :: r in rs ==> AsksDistinct(r))
  {
    var plans := PlansOf(rs);
    RunFollows(plans, actions, states, |actions|);
    if forall r :: r in rs ==> AsksDistinct(r) {
      forall p | 0 <= p < |plans| ensures Ascending(plans[p].ids) { DistinctIsAscending(rs[p]); }
      StuckMeansDone(plans, actions, states);
    } else {
      var r :| r in rs && !AsksDistinct(r);
      var t :| 0 <= t < |rs| && rs[t] == r;
      DistinctIsAscending(r);
      SortSorts(r.ids);
      var j := RepeatIsAdjacent(SortIds(r.ids));
      DuplicateBlocksItself(plans, actions, states, |actions|, t, j);
    }
  }

  // ----- Exclusion -----

  /** Two threads that hold one shard are both readers. */
  ghost predicate Exclusive(s: seq<Thread>)
    requires AllOk(s)
  {
    forall t, u, x :: 0 <= t < |s| && 0 <= u < |s| && t != u && Holds(s[t], x) && Holds(s[u], x) ==>
      s[t].mode.Read? && s[u].mode.Read?
  }

  /** A thread comes to hold a shard only by being let in. */
  lemma HoldsAfter(s: seq<Thread>, a: Action, t: nat, x: int)
    requires AllOk(s) && Enabled(s, a) && t < |s| && Holds(Apply(s, a)[t], x)
    ensures Holds(s[t], x) || (a == Grant(t) && s[t].waiting && s[t].ids[s[t].got] == x)
  {
    var th := Apply(s, a)[t];
    var k :| 0 <= k < |th.ids[th.freed..th.got]| && th.ids[th.freed..th.got][k] == x;
    assert th.ids[th.freed + k] == x;
    if th.freed + k < s[t].got { assert s[t].ids[s[t].freed..s[t].got][th.freed + k - s[t].freed] == x; }
  }

  lemma StepKeepsExclusive(s: seq<Thread>, a: Action)
    requires AllOk(s) && Enabled(s, a) && Exclusive(s)
    ensures Exclusive(Apply(s, a))
  {
    var s' := Apply(s, a);
    forall t, u, x | 0 <= t < |s'| && 0 <= u < |s'| && t != u && Holds(s'[t], x) && Holds(s'[u], x)
      ensures s'[t].mode.Read? && s'[u].mode.Read?
    {
      HoldsAfter(s, a, t, x);
      HoldsAfter(s, a, u, x);
    }
  }

  lemma {:induction false} RunIsExclusive(plans: seq<Plan>, actions: seq<Action>, states: seq<seq<Thread>>, i: nat)
    requires IsRun(plans, actions, states) && i < |states|
    ensures AllOk(states[i]) && Exclusive(states[i])
  {
    if i > 0 {
      RunIsExclusive(plans, actions, states, i - 1);
      StepKeepsExclusive(states[i - 1], actions[i - 1]);
    } else {
      assert forall t, x :: 0 <= t < |states[0]| ==> !Holds(states[0][t], x);
    }
  }

  /** The shards a request names, and whether it asks for them exclusively. */
  predicate Names(r: Request, x: int) {
    match r
    case WriteMultiple(ids) => x in ids
    case WriteOne(id) => x == id
    case ReadOne(id) => x == id
  }

  /** The thread has locked all it asked for and not begun to give it back. */
  predicate InSection(th: Thread) {
    th.got == |th.ids| && th.freed == 0
  }

  lemma PlanNames(r: Request, x: int)
    ensures x in PlanOf(r).ids <==> Names(r, x)
  {
    if r.WriteMultiple? {
      SortSorts(r.ids);
      assert x in SortIds(r.ids) <==> x in multiset(SortIds(r.ids));
      assert x in r.ids <==> x in multiset(r.ids);
    }
  }

  /** Exclusion in terms of the requests: a thread in its critical section holds every shard it named, and
      while a request to write holds a shard, no other request holds it. */
  lemma WriteExcludes(rs: seq<Request>, actions: seq<Action>, states: seq<seq<Thread>>, i: nat, t: nat, x: int)
    requires IsRun(PlansOf(rs), actions, states) && i < |states| && t < |rs|
    ensures AllOk(states[i]) && |states[i]| == |rs|
    ensures Holds(states[i][t], x) ==> Names(rs[t], x)
    ensures InSection(states[i][t]) && Names(rs[t], x) ==> Holds(states[i][t], x)
    ensures Holds(states[i][t], x) && !rs[t].ReadOne? ==>
      forall u :: 0 <= u < |rs| && u != t ==> !Holds(states[i][u], x)
  {
    RunFollows(PlansOf(rs), actions, states, i);
    RunIsExclusive(PlansOf(rs), actions, states, i);
    var th := states[i][t];
    PlanNames(rs[t], x);
    assert PlansOf(rs)[t] == PlanOf(rs[t]);
    if InSection(th) { assert th.ids[th.freed..th.got] == th.ids; }
  }
}
