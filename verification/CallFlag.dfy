/** When the processing flag of an object marks a single loop.

    `Clobbers` names the interleaving that breaks the single-loop rule: a loop that has already given
    up its flag runs its deferred cleanup after a second loop took the flag over. Runs without it are
    free of stale executions. */
module CallFlag {
  import opened CallEngine
  import opened CallSafety

  // ----- The single-loop rule -----

  predicate Alive(l: Loop) {
    l.pc != Exiting
  }

  ghost predicate OneAlive(i: Instance) {
    forall x, y :: x in i.loops && y in i.loops && Alive(i.loops[x]) && Alive(i.loops[y]) ==> x == y
  }

  /** The processing flag is up exactly while one loop is alive. */
  ghost predicate FlagExact(i: Instance) {
    && OneAlive(i)
    && (i.processing <==> exists x :: x in i.loops && Alive(i.loops[x]))
  }

  ghost predicate Ruled(s: State) {
    s.inst.Some? ==> FlagExact(s.inst.value)
  }

  /** A loop that has passed the no-waiters test cleans up while another loop is alive. */
  ghost predicate Clobbers(s: State, a: Action) {
    && s.inst.Some? && a.Do? && a.step.Cleanup?
    && a.id in s.inst.value.loops && !Alive(s.inst.value.loops[a.id])
    && exists x :: x in s.inst.value.loops && Alive(s.inst.value.loops[x])
  }

  lemma StepFrame(b: Behaviour, i: Instance, rows: seq<Row>, id: nat, step: LoopStep)
    requires LoopEnabled(b, i, id, step) && !step.Cleanup?
    ensures var j := LoopApply(b, i, rows, id, step);
            j.loops.Keys == i.loops.Keys && forall x :: x in i.loops && x != id ==> j.loops[x] == i.loops[x]
  {
  }

  lemma StepFlag(b: Behaviour, i: Instance, rows: seq<Row>, id: nat, step: LoopStep)
    requires LoopEnabled(b, i, id, step) && !step.Cleanup?
    ensures var j := LoopApply(b, i, rows, id, step);
            && id in j.loops
            && (if step.TryExit? && i.waiters == [] then Alive(i.loops[id]) && !Alive(j.loops[id]) && !j.processing
                else Alive(j.loops[id]) == Alive(i.loops[id]) && j.processing == i.processing)
  {
  }

  /** Except for its exit and its cleanup, a step leaves every loop as alive as it was. */
  lemma StepKeepsLife(b: Behaviour, i: Instance, rows: seq<Row>, id: nat, step: LoopStep)
    requires LoopEnabled(b, i, id, step) && !step.Cleanup?
    ensures var j := LoopApply(b, i, rows, id, step);
            && j.loops.Keys == i.loops.Keys && (forall x :: x in i.loops && x != id ==> j.loops[x] == i.loops[x])
            && (if step.TryExit? && i.waiters == [] then Alive(i.loops[id]) && !Alive(j.loops[id]) && !j.processing
                else Alive(j.loops[id]) == Alive(i.loops[id]) && j.processing == i.processing)
  {
    StepFrame(b, i, rows, id, step);
    StepFlag(b, i, rows, id, step);
  }

  lemma LoopStepKeepsRule(b: Behaviour, i: Instance, rows: seq<Row>, id: nat, step: LoopStep)
    requires FlagExact(i) && LoopEnabled(b, i, id, step)
    requires step.Cleanup? && !Alive(i.loops[id]) ==> forall x :: x in i.loops ==> !Alive(i.loops[x])
    ensures FlagExact(LoopApply(b, i, rows, id, step))
  {
    if step.Cleanup? {
      CleanupKeepsRule(b, i, rows, id);
    } else {
      StepKeepsLife(b, i, rows, id, step);
      SameLifeSameRule(i, LoopApply(b, i, rows, id, step), id);
    }
  }

  lemma SameLifeSameRule(i: Instance, j: Instance, id: nat)
    requires FlagExact(i) && id in i.loops
    requires j.loops.Keys == i.loops.Keys && forall x :: x in i.loops && x != id ==> j.loops[x] == i.loops[x]
    requires (Alive(j.loops[id]) == Alive(i.loops[id]) && j.processing == i.processing)
             || (Alive(i.loops[id]) && !Alive(j.loops[id]) && !j.processing)
    ensures FlagExact(j)
  {
    assert forall x :: x in j.loops && Alive(j.loops[x]) ==> Alive(i.loops[x]);
    if Alive(j.loops[id]) == Alive(i.loops[id]) {
      forall x | x in i.loops && Alive(i.loops[x]) ensures x in j.loops && Alive(j.loops[x]) { }
    }
  }

  lemma CleanupKeepsRule(b: Behaviour, i: Instance, rows: seq<Row>, id: nat)
    requires FlagExact(i) && LoopEnabled(b, i, id, Cleanup)
    requires !Alive(i.loops[id]) ==> forall x :: x in i.loops ==> !Alive(i.loops[x])
    ensures FlagExact(LoopApply(b, i, rows, id, Cleanup))
  {
    var j := LoopApply(b, i, rows, id, Cleanup);
    assert forall x :: x in j.loops ==> x in i.loops && x != id && j.loops[x] == i.loops[x];
  }

  lemma StepKeepsRule(b: Behaviour, s: State, a: Action)
    requires Ruled(s) && Enabled(b, s, a) && !Clobbers(s, a)
    ensures Ruled(Apply(b, s, a))
  {
    match a
    case Do(id, step) => LoopStepKeepsRule(b, s.inst.value, s.db.rows, id, step);
    case Register(_, _, id) => StartKeepsRule(Apply(b, s, a).inst.value, s.inst.value, id);
    case StartDrain(id) => StartKeepsRule(Apply(b, s, a).inst.value, s.inst.value, id);
    case _ =>
  }

  lemma StartKeepsRule(j: Instance, i: Instance, id: nat)
    requires FlagExact(i) && id !in i.loops
    requires i.processing ==> j.loops == i.loops
    requires !i.processing ==> j.loops == i.loops[id := NEW_LOOP]
    requires j.processing
    ensures FlagExact(j)
  {
    if !i.processing { assert id in j.loops && Alive(j.loops[id]); }
  }

  lemma ClobberBreaksRule(b: Behaviour, s: State, a: Action)
    requires Enabled(b, s, a) && Clobbers(s, a)
    ensures !Ruled(Apply(b, s, a))
  {
    var i, j := s.inst.value, Apply(b, s, a).inst.value;
    var x :| x in i.loops && Alive(i.loops[x]);
    assert x in j.loops && Alive(j.loops[x]);
  }

  /** The flag marks a single live loop throughout a run if and only if no loop of the run
      cleans up over a live one. */
  lemma {:induction false} FlagExactIffNoClobber(b: Behaviour, acts: seq<Action>, states: seq<State>)
    requires IsRun(b, acts, states)
    ensures (forall k :: 0 <= k < |states| ==> Ruled(states[k]))
       <==> (forall k :: 0 <= k < |acts| ==> !Clobbers(states[k], acts[k]))
  {
    if k :| 0 <= k < |acts| && Clobbers(states[k], acts[k]) {
      ClobberBreaksRule(b, states[k], acts[k]);
      assert !Ruled(states[k + 1]);
    } else {
      forall k | 0 <= k < |states| ensures Ruled(states[k]) { RuledUpTo(b, acts, states, k); }
    }
  }

  lemma {:induction false} RuledUpTo(b: Behaviour, acts: seq<Action>, states: seq<State>, k: nat)
    requires IsRun(b, acts, states) && k < |states|
    requires forall j :: 0 <= j < |acts| ==> !Clobbers(states[j], acts[j])
    ensures Ruled(states[k])
  {
    if k > 0 {
      RuledUpTo(b, acts, states, k - 1);
      StepKeepsRule(b, states[k - 1], acts[k - 1]);
    }
  }

  /** A run in which no loop cleans up over a live one. */
  ghost predicate OrderlyRun(b: Behaviour, acts: seq<Action>, states: seq<State>) {
    IsRun(b, acts, states) && forall k :: 0 <= k < |acts| ==> !Clobbers(states[k], acts[k])
  }

  // ----- Runs that exit in one step -----

  predicate ExitsNow(s: State, a: Action) {
    s.inst.Some? && s.inst.value.waiters == [] && a.Do? && a.step.TryExit?
  }

  /** Nothing but a crash comes between a loop's decision to exit and its cleanup. */
  ghost predicate ExitsAtomically(acts: seq<Action>, states: seq<State>) {
    |states| == |acts| + 1
    && forall k :: 0 <= k < |acts| - 1 && ExitsNow(states[k], acts[k]) ==>
         acts[k + 1] == Do(acts[k].id, Cleanup) || acts[k + 1].Crash?
  }

  ghost predicate NoneExiting(s: State) {
    s.inst.Some? ==> forall x :: x in s.inst.value.loops ==> Alive(s.inst.value.loops[x])
  }

  /** Loop `id` is the only one left. */
  predicate Alone(s: State, id: nat) {
    s.inst.Some? && s.inst.value.loops.Keys == {id}
  }

  lemma ExitLeavesItAlone(b: Behaviour, s: State, a: Action)
    requires Ruled(s) && NoneExiting(s) && Enabled(b, s, a) && ExitsNow(s, a)
    ensures Alone(Apply(b, s, a), a.id)
  {
    var i := s.inst.value;
    assert forall x :: x in i.loops ==> Alive(i.loops[x]);
    assert i.loops.Keys == {a.id};
    assert Apply(b, s, a).inst.value.loops.Keys == i.loops.Keys;
  }

  lemma OthersKeepNoneExiting(b: Behaviour, s: State, a: Action)
    requires NoneExiting(s) && Enabled(b, s, a) && !ExitsNow(s, a)
    ensures NoneExiting(Apply(b, s, a))
  {
    if a.Do? && !a.step.Cleanup? { StepKeepsLife(b, s.inst.value, s.db.rows, a.id, a.step); }
  }

  lemma AloneThenGone(b: Behaviour, s: State, id: nat)
    requires Alone(s, id) && Enabled(b, s, Do(id, Cleanup))
    ensures !Clobbers(s, Do(id, Cleanup)) && NoneExiting(Apply(b, s, Do(id, Cleanup)))
  {
    assert Apply(b, s, Do(id, Cleanup)).inst.value.loops == map[];
  }

  lemma {:induction false} AtomicExitInv(b: Behaviour, acts: seq<Action>, states: seq<State>, k: nat)
    requires IsRun(b, acts, states) && ExitsAtomically(acts, states) && k < |states|
    ensures Ruled(states[k])
    ensures || NoneExiting(states[k])
            || (k > 0 && ExitsNow(states[k - 1], acts[k - 1]) && Alone(states[k], acts[k - 1].id))
    ensures k > 0 ==> !Clobbers(states[k - 1], acts[k - 1])
  {
    if k > 0 {
      AtomicExitInv(b, acts, states, k - 1);
      var s, a := states[k - 1], acts[k - 1];
      if !NoneExiting(s) {
        if !a.Crash? { AloneThenGone(b, s, a.id); }
      } else if ExitsNow(s, a) {
        ExitLeavesItAlone(b, s, a);
      } else {
        OthersKeepNoneExiting(b, s, a);
      }
      StepKeepsRule(b, s, a);
    }
  }

  /** If the exit and its cleanup were one critical section, no cleanup would ever take the flag from
      another loop, and the flag would be exact in every state. */
  lemma AtomicExitIsOrderly(b: Behaviour, acts: seq<Action>, states: seq<State>)
    requires IsRun(b, acts, states) && ExitsAtomically(acts, states)
    ensures OrderlyRun(b, acts, states) && forall k :: 0 <= k < |states| ==> Ruled(states[k])
  {
    forall k | 0 <= k < |states| ensures Ruled(states[k]) { AtomicExitInv(b, acts, states, k); }
    forall k | 0 <= k < |acts| ensures !Clobbers(states[k], acts[k]) { AtomicExitInv(b, acts, states, k + 1); }
  }

  // ----- A single loop is never stale -----

  /** A live loop's next call has not been passed by the marker, its last one is where the marker stands,
      and a marker it has read is still the object's. */
  predicate CurrentLoop(mem: Snapshot, l: Loop) {
    Alive(l) ==>
      && (l.seen.Some? ==> l.seen.value == mem.next && (l.pc == Top || l.pc == Sweeping))
      && (l.pc == Draining && l.batch != [] ==> l.batch[0].seqNo >= mem.next)
      && (l.pc == Executed || l.pc == Saved || l.pc == Recorded || l.pc == Notifying ==>
            l.batch != [] && mem.next == l.batch[0].seqNo + 1)
  }

  ghost predicate Current(s: State) {
    s.inst.Some? ==> forall x :: x in s.inst.value.loops ==> CurrentLoop(s.inst.value.mem, s.inst.value.loops[x])
  }

  lemma BatchAscends(db: Db, mem: Snapshot, l: Loop)
    requires TableOk(db) && l.pc == Notifying && BatchOk(db.rows, mem, l)
    ensures |l.batch| > 1 ==> l.batch[0].seqNo < l.batch[1].seqNo
  {
    var p :| 0 <= p < |mem.history| && ToldAt(db.rows, l, p);
    assert |l.batch| > 1 ==> l.batch[0].seqNo == db.rows[p].seqNo && l.batch[1].seqNo == db.rows[p + 1].seqNo;
  }

  lemma FetchIsCurrent(b: Behaviour, i: Instance, rows: seq<Row>, id: nat)
    requires LoopEnabled(b, i, id, Fetch) && CurrentLoop(i.mem, i.loops[id])
    ensures var j := LoopApply(b, i, rows, id, Fetch);
            j.mem == i.mem && id in j.loops && CurrentLoop(j.mem, j.loops[id])
  {
    PendingIsAhead(rows, i.loops[id].seen.value);
  }

  lemma StepIsCurrent(b: Behaviour, db: Db, i: Instance, id: nat, step: LoopStep)
    requires LoopEnabled(b, i, id, step) && !step.Cleanup? && !step.Fetch?
    requires TableOk(db) && BatchOk(db.rows, i.mem, i.loops[id]) && CurrentLoop(i.mem, i.loops[id])
    ensures var j := LoopApply(b, i, db.rows, id, step);
            && id in j.loops && CurrentLoop(j.mem, j.loops[id]) && (!step.Execute? ==> j.mem == i.mem)
  {
    if step.NextCall? {
      BatchAscends(db, i.mem, i.loops[id]);
    } else if Plain(step) {
      PlainFrame(b, i, db.rows, id, step);
    }
  }

  lemma LoopStepKeepsCurrent(b: Behaviour, s: State, id: nat, step: LoopStep)
    requires Inv(b, s) && Ruled(s) && Current(s) && Enabled(b, s, Do(id, step))
    ensures Current(Apply(b, s, Do(id, step)))
  {
    var i, j := s.inst.value, Apply(b, s, Do(id, step)).inst.value;
    if step.Cleanup? {
      assert j.mem == i.mem && forall x :: x in j.loops ==> x in i.loops && j.loops[x] == i.loops[x];
    } else {
      if step.Fetch? { FetchIsCurrent(b, i, s.db.rows, id); } else { StepIsCurrent(b, s.db, i, id, step); }
      StepFrame(b, i, s.db.rows, id, step);
      forall x | x in j.loops ensures CurrentLoop(j.mem, j.loops[x]) {
        if x != id && step.Execute? { assert !Alive(i.loops[x]); }
      }
    }
  }

  lemma StepKeepsCurrent(b: Behaviour, s: State, a: Action)
    requires Inv(b, s) && Ruled(s) && Current(s) && Enabled(b, s, a)
    ensures !Stale(s, a) && Current(Apply(b, s, a))
  {
    if a.Do? { LoopStepKeepsCurrent(b, s, a.id, a.step); } else { OthersKeepCurrent(b, s, a); }
  }

  lemma OthersKeepCurrent(b: Behaviour, s: State, a: Action)
    requires Current(s) && Enabled(b, s, a) && !a.Do?
    ensures Current(Apply(b, s, a))
  {
  }

  lemma {:induction false} OrderlyInv(b: Behaviour, acts: seq<Action>, states: seq<State>, k: nat)
    requires OrderlyRun(b, acts, states) && k < |states|
    ensures Ruled(states[k]) && Inv(b, states[k]) && Current(states[k])
  {
    if k > 0 {
      OrderlyInv(b, acts, states, k - 1);
      StepKeepsRule(b, states[k - 1], acts[k - 1]);
      StepKeepsCurrent(b, states[k - 1], acts[k - 1]);
      StepKeepsInv(b, states[k - 1], acts[k - 1]);
    }
  }

  /** A run in which no loop cleans up over a live one executes nothing stale. */
  lemma OrderlyIsFresh(b: Behaviour, acts: seq<Action>, states: seq<State>)
    requires OrderlyRun(b, acts, states)
    ensures FreshRun(b, acts, states)
  {
    forall k | 0 <= k < |acts| ensures !Stale(states[k], acts[k]) {
      OrderlyInv(b, acts, states, k);
      StepKeepsCurrent(b, states[k], acts[k]);
    }
  }
}
