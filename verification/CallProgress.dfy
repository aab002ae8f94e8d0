/** What processing loops get done, over every run: a pass executes exactly what it fetched, a loop goes
    home only when there was nothing left to do, no loop is ever stuck, and a new instance goes on where the
    last one was saved. */
module CallProgress {
  import opened CallEngine
  import CallSafety
  import opened CallGuarantees
  import opened CallWaiters
  import opened CallSweeps

  // ----- A pass executes what it fetched -----

  function Numbers(calls: seq<Row>): (ns: seq<int>)
    ensures |ns| == |calls| && forall i :: 0 <= i < |calls| ==> ns[i] == calls[i].seqNo
  {
    seq(|calls|, i requires 0 <= i < |calls| => calls[i].seqNo)
  }

  predicate ExecutesAt(acts: seq<Action>, k: nat, id: nat)
    requires k < |acts|
  {
    acts[k].Do? && acts[k].id == id && acts[k].step.Execute?
  }

  /** The numbers of the calls that loop `id` executed in the steps from `q` up to `k`, in order. */
  function ExecutedBy(acts: seq<Action>, states: seq<State>, id: nat, q: nat, k: nat): seq<int>
    requires q <= k <= |acts| < |states|
    decreases k
  {
    if k == q then []
    else
      ExecutedBy(acts, states, id, q, k - 1)
      + if ExecutesAt(acts, k - 1, id) then [ExecutedSeq(states[k - 1], acts[k - 1])] else []
  }

  /** The loop is between its query and the end of the pass. */
  predicate AtWork(l: Loop) {
    l.pc == Draining || Decided(l.pc)
  }

  /** The calls of the pass that the loop has not executed yet. */
  function Remaining(l: Loop): seq<Row> {
    if l.pc == Draining then l.batch else if l.batch != [] then l.batch[1..] else []
  }

  /** The pass began with the query at step `q`, after a look at the marker at `j`: what has been executed since
      and what remains is what was pending then. */
  ghost predicate FetchedSince(acts: seq<Action>, states: seq<State>, j: nat, q: nat, k: nat, id: nat)
    requires k <= |acts| < |states|
  {
    && q < k && LookedAt(acts, states, j, q, id) && acts[q] == Do(id, Fetch) && SameInstance(acts, q, k)
    && Runs(states, q, id) && Runs(states, k, id)
    && ExecutedBy(acts, states, id, q + 1, k) + Numbers(Remaining(LoopAt(states, k, id)))
       == Numbers(PendingFrom(states[q].db.rows, MarkerAt(states, j)))
  }

  lemma LoopAtWorkBefore(b: Behaviour, i: Instance, rows: seq<Row>, id: nat, step: LoopStep)
    requires LoopEnabled(b, i, id, step) && id in LoopApply(b, i, rows, id, step).loops
    requires AtWork(LoopApply(b, i, rows, id, step).loops[id])
    ensures var l, m := i.loops[id], LoopApply(b, i, rows, id, step).loops[id];
            if step.Fetch? then l.seen.Some? && m.pc == Draining && m.batch == PendingFrom(rows, l.seen.value)
            else if step.Execute? then AtWork(l) && l.batch != [] && Remaining(l) == [l.batch[0]] + Remaining(m)
            else AtWork(l) && Remaining(l) == Remaining(m)
  {
  }

  /** Where a loop at work was one step before. */
  lemma AtWorkBefore(b: Behaviour, s: State, a: Action, id: nat)
    requires Enabled(b, s, a) && Apply(b, s, a).inst.Some? && id in Apply(b, s, a).inst.value.loops
    requires AtWork(Apply(b, s, a).inst.value.loops[id])
    ensures s.inst.Some? && !EndsInstance(a) && id in s.inst.value.loops
    ensures var l, m := s.inst.value.loops[id], Apply(b, s, a).inst.value.loops[id];
            if a == Do(id, Fetch)
            then l.seen.Some? && m.pc == Draining && m.batch == PendingFrom(s.db.rows, l.seen.value)
            else if a.Do? && a.id == id && a.step.Execute?
            then AtWork(l) && l.batch != [] && Remaining(l) == [l.batch[0]] + Remaining(m)
            else AtWork(l) && Remaining(l) == Remaining(m)
  {
    if a.Do? && a.id == id {
      LoopAtWorkBefore(b, s.inst.value, s.db.rows, id, a.step);
    } else {
      OthersStay(b, s, a, id);
    }
  }

  lemma {:induction false} AtWorkHasFetched(b: Behaviour, acts: seq<Action>, states: seq<State>, k: nat, id: nat)
    returns (j: nat, q: nat)
    requires Steps(b, acts, states) && k <= |acts| && Runs(states, k, id) && AtWork(LoopAt(states, k, id))
    ensures FetchedSince(acts, states, j, q, k, id)
  {
    assert StepAt(b, acts, states, k - 1);
    AtWorkBefore(b, states[k - 1], acts[k - 1], id);
    if acts[k - 1] == Do(id, Fetch) {
      q := k - 1;
      j := SeenIsMarker(b, acts, states, q, id);
    } else {
      j, q := AtWorkHasFetched(b, acts, states, k - 1, id);
      ExecutedOneMore(acts, states, q, k - 1, id);
    }
  }

  lemma ExecutedOneMore(acts: seq<Action>, states: seq<State>, q: nat, k: nat, id: nat)
    requires q < k < |acts| < |states| && Runs(states, k, id) && Runs(states, k + 1, id)
    requires var l, m := LoopAt(states, k, id), LoopAt(states, k + 1, id);
             if ExecutesAt(acts, k, id) then l.batch != [] && Remaining(l) == [l.batch[0]] + Remaining(m)
             else Remaining(l) == Remaining(m)
    ensures ExecutedBy(acts, states, id, q + 1, k + 1) + Numbers(Remaining(LoopAt(states, k + 1, id)))
         == ExecutedBy(acts, states, id, q + 1, k) + Numbers(Remaining(LoopAt(states, k, id)))
  {
    var l, m := LoopAt(states, k, id), LoopAt(states, k + 1, id);
    if ExecutesAt(acts, k, id) {
      assert Numbers(Remaining(l)) == [l.batch[0].seqNo] + Numbers(Remaining(m));
      assert ExecutedSeq(states[k], acts[k]) == l.batch[0].seqNo;
    }
  }

  /** Over every run, a pass that comes to its end has executed exactly the calls that were pending, at or above
      the marker as the loop had read it, when it made its query, each once and in order. */
  lemma PassRunsWhatItFetched(b: Behaviour, acts: seq<Action>, states: seq<State>, k: nat, id: nat)
    returns (j: nat, q: nat)
    requires IsRun(b, acts, states) && k < |acts| && acts[k] == Do(id, Again)
    ensures q < k && LookedAt(acts, states, j, q, id) && acts[q] == Do(id, Fetch) && SameInstance(acts, q, k)
    ensures ExecutedBy(acts, states, id, q + 1, k) == Numbers(PendingFrom(states[q].db.rows, MarkerAt(states, j)))
  {
    RunSteps(b, acts, states);
    j, q := AtWorkHasFetched(b, acts, states, k, id);
    assert Numbers(Remaining(LoopAt(states, k, id))) == [];
  }

  // ----- A loop goes home only when nothing is left -----

  lemma LoopIdleBefore(b: Behaviour, i: Instance, rows: seq<Row>, id: nat, step: LoopStep)
    requires LoopEnabled(b, i, id, step) && id in LoopApply(b, i, rows, id, step).loops
    requires LoopApply(b, i, rows, id, step).loops[id].pc == Idle
    ensures || step.FetchFails?
            || (step.Fetch? && i.loops[id].seen.Some? && PendingFrom(rows, i.loops[id].seen.value) == [])
            || (!step.Fetch? && i.loops[id].pc == Idle)
  {
  }

  lemma IdleBefore(b: Behaviour, s: State, a: Action, id: nat)
    requires Enabled(b, s, a) && Apply(b, s, a).inst.Some? && id in Apply(b, s, a).inst.value.loops
    requires Apply(b, s, a).inst.value.loops[id].pc == Idle
    ensures s.inst.Some? && !EndsInstance(a) && id in s.inst.value.loops
    ensures var l := s.inst.value.loops[id];
            || a == Do(id, FetchFails)
            || (a == Do(id, Fetch) && l.seen.Some? && PendingFrom(s.db.rows, l.seen.value) == [])
            || (a != Do(id, Fetch) && l.pc == Idle)
  {
    if a.Do? && a.id == id {
      LoopIdleBefore(b, s.inst.value, s.db.rows, id, a.step);
    } else {
      OthersStay(b, s, a, id);
    }
  }

  /** The loop's last query, at step `q`, failed or found nothing. */
  ghost predicate QueriedInVain(acts: seq<Action>, states: seq<State>, q: nat, k: nat, id: nat)
    requires k <= |acts| < |states|
  {
    && q < k && SameInstance(acts, q, k) && Runs(states, q, id)
    && (|| acts[q] == Do(id, FetchFails)
        || (&& acts[q] == Do(id, Fetch) && LoopAt(states, q, id).seen.Some?
            && PendingFrom(states[q].db.rows, LoopAt(states, q, id).seen.value) == []))
  }

  lemma {:induction false} IdleHasQueried(b: Behaviour, acts: seq<Action>, states: seq<State>, k: nat, id: nat)
    returns (q: nat)
    requires Steps(b, acts, states) && k <= |acts| && Runs(states, k, id) && LoopAt(states, k, id).pc == Idle
    ensures QueriedInVain(acts, states, q, k, id)
  {
    assert StepAt(b, acts, states, k - 1);
    IdleBefore(b, states[k - 1], acts[k - 1], id);
    if acts[k - 1] == Do(id, Fetch) || acts[k - 1] == Do(id, FetchFails) {
      q := k - 1;
    } else {
      q := IdleHasQueried(b, acts, states, k - 1, id);
    }
  }

  /** If a query finds nothing, every call of the table lies below the object's marker. */
  lemma NothingPending(b: Behaviour, db: Db, i: Instance, seen: int, f: nat)
    requires CallSafety.RowsOk(b, db) && CallSafety.MemOk(b, db, i)
    requires CallSafety.SeenAt(db.rows, i.mem, StateFree(i), seen, f) && PendingFrom(db.rows, seen) == []
    ensures forall r :: r in db.rows ==> r.seqNo < i.mem.next
  {
    CallSafety.PendingExactly(db.rows, seen);
    forall r | r in db.rows ensures r.seqNo < i.mem.next {
      var j :| 0 <= j < |db.rows| && db.rows[j] == r;
      assert j >= f ==> r !in PendingFrom(db.rows, seen);
      assert Load(b, db).history <= i.mem.history;
    }
  }

  lemma VainQuery(b: Behaviour, acts: seq<Action>, states: seq<State>, q: nat, k: nat, id: nat)
    requires CallSafety.FreshRun(b, acts, states) && k <= |acts| && QueriedInVain(acts, states, q, k, id)
    ensures acts[q] == Do(id, Fetch) ==> forall r :: r in states[q].db.rows ==> r.seqNo < MarkerAt(states, q)
  {
    if acts[q] == Do(id, Fetch) {
      CallSafety.FreshInv(b, acts, states, q);
      var i, seen := states[q].inst.value, LoopAt(states, q, id).seen.value;
      var f :| CallSafety.SeenAt(states[q].db.rows, i.mem, StateFree(i), seen, f);
      NothingPending(b, states[q].db, i, seen, f);
    }
  }

  lemma TryExitStep(b: Behaviour, i: Instance, rows: seq<Row>, id: nat)
    requires LoopEnabled(b, i, id, TryExit)
    ensures var j := LoopApply(b, i, rows, id, TryExit);
            id in j.loops && j.loops[id].pc == if i.waiters == [] then Exiting else Top
  {
  }

  /** A loop decides to exit if and only if nobody waits, and goes round again otherwise. In runs without a
      stale execution every call that was in the table at its last query, unless the query failed, lies below
      the object's marker: it has been executed. */
  lemma ExitLeavesNothingPending(b: Behaviour, acts: seq<Action>, states: seq<State>, k: nat, id: nat)
    returns (q: nat)
    requires CallSafety.FreshRun(b, acts, states) && k < |acts| && acts[k] == Do(id, TryExit)
    ensures Runs(states, k, id) && Runs(states, k + 1, id)
    ensures LoopAt(states, k + 1, id).pc == if WaitersAt(states, k) == [] then Exiting else Top
    ensures q < k && SameInstance(acts, q, k) && (acts[q] == Do(id, Fetch) || acts[q] == Do(id, FetchFails))
    ensures Runs(states, q, id)
    ensures acts[q] == Do(id, Fetch) ==> forall r :: r in states[q].db.rows ==> r.seqNo < MarkerAt(states, q)
  {
    RunSteps(b, acts, states);
    TryExitStep(b, states[k].inst.value, states[k].db.rows, id);
    q := IdleHasQueried(b, acts, states, k, id);
    VainQuery(b, acts, states, q, k, id);
  }

  // ----- No loop is stuck -----

  ghost predicate Runnable(b: Behaviour, before: string, row: Row) {
    exists after, out :: CanRun(b, before, row, after, out)
  }

  /** Every call can be executed in every state, with some outcome. */
  ghost predicate Total(b: Behaviour) {
    forall before, row :: Runnable(b, before, row)
  }

  /** Over every run, a loop can take a step, or it is about to execute a call while another loop holds the
      state lock, and then that one can. */
  lemma LoopCanMove(b: Behaviour, acts: seq<Action>, states: seq<State>, k: nat, id: nat)
    returns (x: nat, step: LoopStep)
    requires IsRun(b, acts, states) && Total(b) && Runs(states, k, id)
    ensures LoopEnabled(b, states[k].inst.value, x, step)
    ensures x == id || (LoopAt(states, k, id).pc == Draining && HoldsState(LoopAt(states, k, x)))
  {
    RunSteps(b, acts, states);
    x, step := CanMoveAt(b, acts, states, k, id);
  }

  lemma CanMoveAt(b: Behaviour, acts: seq<Action>, states: seq<State>, k: nat, id: nat)
    returns (x: nat, step: LoopStep)
    requires Steps(b, acts, states) && Total(b) && Runs(states, k, id)
    ensures LoopEnabled(b, states[k].inst.value, x, step)
    ensures x == id || (LoopAt(states, k, id).pc == Draining && HoldsState(LoopAt(states, k, x)))
  {
    InvAt(b, acts, states, k);
    var i := states[k].inst.value;
    x := id;
    if i.loops[id].pc == Draining && i.loops[id].batch != [] {
      if StateFree(i) {
        step := ExecuteStep(b, i, id);
      } else {
        x :| x in i.loops && HoldsState(i.loops[x]);
        step := FreeStep(b, i, x);
      }
    } else {
      step := FreeStep(b, i, id);
    }
  }

  lemma ExecuteStep(b: Behaviour, i: Instance, id: nat) returns (step: LoopStep)
    requires Total(b) && id in i.loops && i.loops[id].pc == Draining && i.loops[id].batch != [] && StateFree(i)
    ensures LoopEnabled(b, i, id, step)
  {
    assert Runnable(b, i.mem.data, i.loops[id].batch[0]);
    var after, out :| CanRun(b, i.mem.data, i.loops[id].batch[0], after, out);
    step := Execute(after, out);
  }

  lemma FreeStep(b: Behaviour, i: Instance, id: nat) returns (step: LoopStep)
    requires id in i.loops && LoopOk(i.chans, i.loops[id]) && (i.loops[id].pc == Draining ==> i.loops[id].batch == [])
    ensures LoopEnabled(b, i, id, step)
  {
    var l := i.loops[id];
    match l.pc
    case Top => step := if l.seen.None? then Look else Sweep;
    case Sweeping => step := if l.toClose != [] then CloseOne else if l.seen.None? then Look else Fetch;
    case Draining => step := Again;
    case Executed => step := Save;
    case Saved => step := Record;
    case Recorded => step := Notify;
    case Notifying => step := if l.toClose != [] then CloseOne else if l.toNotify != [] then Deliver else NextCall;
    case Idle => step := TryExit;
    case Exiting => step := Cleanup;
    case Stopping => step := Cleanup;
  }

  // ----- A new instance goes on where the last one was saved -----

  lemma GoneStays(b: Behaviour, s: State, a: Action)
    requires Enabled(b, s, a) && s.inst.None? && !a.Activate?
    ensures Apply(b, s, a).inst.None? && Load(b, Apply(b, s, a).db) == Load(b, s.db)
  {
  }

  lemma {:induction false} GoneUntil(b: Behaviour, acts: seq<Action>, states: seq<State>, k: nat, m: nat)
    requires IsRun(b, acts, states) && k <= m <= |acts| && states[k].inst.None?
    requires forall j :: k <= j < m ==> !acts[j].Activate?
    ensures states[m].inst.None? && Load(b, states[m].db) == Load(b, states[k].db)
    decreases m - k
  {
    if k < m {
      GoneUntil(b, acts, states, k, m - 1);
      GoneStays(b, states[m - 1], acts[m - 1]);
    }
  }

  /** Over every run, the first activation after an eviction gives an object with exactly the state and marker
      that the evicted one had; after a crash, with those that were last saved. */
  lemma ReactivationResumes(b: Behaviour, acts: seq<Action>, states: seq<State>, k: nat, m: nat)
    requires IsRun(b, acts, states) && k < m < |acts| && (acts[k].Evict? || acts[k].Crash?) && acts[m].Activate?
    requires forall j :: k < j < m ==> !acts[j].Activate?
    ensures states[k].inst.Some? && states[m + 1].inst.Some?
    ensures states[m + 1].inst.value.mem == if acts[k].Evict? then states[k].inst.value.mem else Load(b, states[k].db)
  {
    GoneUntil(b, acts, states, k + 1, m);
  }
}
