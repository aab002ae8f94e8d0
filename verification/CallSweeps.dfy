/** Who is popped, closed and answered, step by step, in every run.

    `CallWaiters` says that no channel is used wrongly and that none is left open when the loops are
    gone. Here is what a loop does for the waiters while it lives: a sweep closes exactly those below the
    marker the loop had read, and a notification answers exactly those waiting for the call it is about and
    closes exactly those waiting for an earlier one. */
module CallSweeps {
  import opened Options
  import opened Waiters
  import opened CallEngine
  import opened CallFlag
  import opened CallGuarantees
  import opened CallWaiters

  /** Loop `id` of the live instance is there at state `k`. */
  predicate Runs(states: seq<State>, k: nat, id: nat) {
    k < |states| && states[k].inst.Some? && id in states[k].inst.value.loops
  }

  function LoopAt(states: seq<State>, k: nat, id: nat): Loop
    requires Runs(states, k, id)
  {
    states[k].inst.value.loops[id]
  }

  function WaitersAt(states: seq<State>, k: nat): seq<Waiter>
    requires k < |states| && states[k].inst.Some?
  {
    states[k].inst.value.waiters
  }

  /** The channel has been closed. */
  predicate ClosedAt(states: seq<State>, k: nat, ch: nat) {
    && k < |states| && states[k].inst.Some? && ch in states[k].inst.value.chans
    && Closed in states[k].inst.value.chans[ch].events
  }

  /** The call has been sent on the channel. */
  predicate SentAt(states: seq<State>, k: nat, ch: nat, call: Row) {
    && k < |states| && states[k].inst.Some? && ch in states[k].inst.value.chans
    && Sent(call) in states[k].inst.value.chans[ch].events
  }

  // ----- One step -----

  ghost predicate StepAt(b: Behaviour, acts: seq<Action>, states: seq<State>, k: nat)
    requires k < |acts| < |states|
  {
    Enabled(b, states[k], acts[k]) && states[k + 1] == Apply(b, states[k], acts[k])
  }

  /** A run, to be looked at one step at a time. */
  ghost predicate Steps(b: Behaviour, acts: seq<Action>, states: seq<State>) {
    && |states| == |acts| + 1 && states[0] == INITIAL
    && forall k {:trigger StepAt(b, acts, states, k)} :: 0 <= k < |acts| ==> StepAt(b, acts, states, k)
  }

  lemma RunSteps(b: Behaviour, acts: seq<Action>, states: seq<State>)
    ensures IsRun(b, acts, states) <==> Steps(b, acts, states)
  {
    if Steps(b, acts, states) {
      forall k | 0 <= k < |acts|
        ensures Enabled(b, states[k], acts[k]) && states[k + 1] == Apply(b, states[k], acts[k])
      {
        assert StepAt(b, acts, states, k);
      }
    }
  }

  /** What `CallWaiters` says of a state. */
  lemma InvAt(b: Behaviour, acts: seq<Action>, states: seq<State>, k: nat)
    requires Steps(b, acts, states) && k < |states| && states[k].inst.Some?
    ensures WaiterInv(states[k].inst.value)
  {
    RunSteps(b, acts, states);
    EveryWaiterIsAnsweredOnce(b, acts, states, k);
  }

  /** Only the loop that takes a step moves; the others stay as they are. */
  lemma OthersStay(b: Behaviour, s: State, a: Action, id: nat)
    requires Enabled(b, s, a) && Apply(b, s, a).inst.Some? && id in Apply(b, s, a).inst.value.loops
    requires !(a.Do? && a.id == id)
    ensures || Apply(b, s, a).inst.value.loops[id] == NEW_LOOP
            || (s.inst.Some? && !EndsInstance(a) && id in s.inst.value.loops
                && Apply(b, s, a).inst.value.loops[id] == s.inst.value.loops[id])
  {
    if a.Do? && !a.step.Cleanup? { StepFrame(b, s.inst.value, s.db.rows, a.id, a.step); }
  }

  /** Nothing done to a channel is undone. */
  lemma EventsStay(b: Behaviour, s: State, a: Action, ch: nat)
    requires Enabled(b, s, a) && s.inst.Some? && Apply(b, s, a).inst.Some? && ch in s.inst.value.chans
    ensures ch in Apply(b, s, a).inst.value.chans
    ensures s.inst.value.chans[ch].events <= Apply(b, s, a).inst.value.chans[ch].events
    ensures s.inst.value.chans[ch].seqNo == Apply(b, s, a).inst.value.chans[ch].seqNo
  {
    if a.Do? { LoopEventsStay(b, s.inst.value, s.db.rows, a.id, a.step, ch); }
  }

  lemma LoopEventsStay(b: Behaviour, i: Instance, rows: seq<Row>, id: nat, step: LoopStep, ch: nat)
    requires LoopEnabled(b, i, id, step) && ch in i.chans
    ensures ch in LoopApply(b, i, rows, id, step).chans
    ensures i.chans[ch].events <= LoopApply(b, i, rows, id, step).chans[ch].events
    ensures i.chans[ch].seqNo == LoopApply(b, i, rows, id, step).chans[ch].seqNo
  {
    if Quiet(step) { QuietFrame(b, i, rows, id, step); }
  }

  /** A waiter that is new on the list has just registered. */
  lemma NewWaiter(b: Behaviour, s: State, a: Action, w: Waiter)
    requires Enabled(b, s, a) && s.inst.Some? && Apply(b, s, a).inst.Some?
    requires w in Apply(b, s, a).inst.value.waiters && w !in s.inst.value.waiters
    ensures a.Register? && a.ch == w.ch && a.seqNo == w.seqNo
  {
    if a.Register? {
      var ws := s.inst.value.waiters;
      var r := Waiters.Insert(ws, Waiter(a.seqNo, a.ch));
      var k :| 0 <= k < |r| && r[k] == w;
      InsertedOrOld(ws, Waiter(a.seqNo, a.ch), k);
    } else if a.Do? {
      LoopAddsNobody(b, s.inst.value, s.db.rows, a.id, a.step, w);
    }
  }

  lemma LoopAddsNobody(b: Behaviour, i: Instance, rows: seq<Row>, id: nat, step: LoopStep, w: Waiter)
    requires LoopEnabled(b, i, id, step) && w in LoopApply(b, i, rows, id, step).waiters
    ensures w in i.waiters
  {
  }

  // ----- What a loop has read -----

  /** Loop `id` read the marker at step `j`, in the instance it still belongs to at state `k`. */
  ghost predicate LookedAt(acts: seq<Action>, states: seq<State>, j: nat, k: nat, id: nat)
    requires k <= |acts| < |states|
  {
    j < k && acts[j] == Do(id, Look) && states[j].inst.Some? && SameInstance(acts, j, k)
  }

  function MarkerAt(states: seq<State>, k: nat): int
    requires k < |states| && states[k].inst.Some?
  {
    states[k].inst.value.mem.next
  }

  /** What a loop remembers of the marker is the marker at its last look. */
  lemma {:induction false} SeenIsMarker(b: Behaviour, acts: seq<Action>, states: seq<State>, k: nat, id: nat)
    returns (j: nat)
    requires Steps(b, acts, states) && k <= |acts| && Runs(states, k, id) && LoopAt(states, k, id).seen.Some?
    ensures LookedAt(acts, states, j, k, id) && LoopAt(states, k, id).seen == Some(MarkerAt(states, j))
    ensures forall m :: j < m < k ==> acts[m] != Do(id, Look)
  {
    assert StepAt(b, acts, states, k - 1);
    var a := acts[k - 1];
    if a == Do(id, Look) {
      j := k - 1;
    } else {
      SeenBefore(b, states[k - 1], a, id);
      j := SeenIsMarker(b, acts, states, k - 1, id);
    }
  }

  lemma SeenBefore(b: Behaviour, s: State, a: Action, id: nat)
    requires Enabled(b, s, a) && Apply(b, s, a).inst.Some? && id in Apply(b, s, a).inst.value.loops
    requires a != Do(id, Look) && Apply(b, s, a).inst.value.loops[id].seen.Some?
    ensures s.inst.Some? && !EndsInstance(a) && id in s.inst.value.loops
    ensures s.inst.value.loops[id].seen == Apply(b, s, a).inst.value.loops[id].seen
  {
    if !(a.Do? && a.id == id) { OthersStay(b, s, a, id); }
  }

  // ----- A sweep -----

  /** Somebody on the list below `n` waits on this channel. */
  ghost predicate WaitsBelow(ws: seq<Waiter>, n: int, ch: nat) {
    exists w :: w in ws && w.seqNo < n && w.ch == ch
  }

  lemma SweepByNumber(ws: seq<Waiter>, n: int)
    requires Sorted(ws)
    ensures forall w :: w in ws[DueCount(ws, n - 1)..] <==> w in ws && w.seqNo >= n
    ensures forall c :: c in Chans(ws[..DueCount(ws, n - 1)]) <==> WaitsBelow(ws, n, c)
  {
    var d := DueCount(ws, n - 1);
    DueIsEveryoneDue(ws, n - 1);
    forall w | w in ws && w.seqNo >= n ensures w in ws[d..] {
      var i :| 0 <= i < |ws| && ws[i] == w;
      assert ws[d..][i - d] == w;
    }
    forall c | WaitsBelow(ws, n, c) ensures c in Chans(ws[..d]) {
      var w :| w in ws && w.seqNo < n && w.ch == c;
      var i :| 0 <= i < |ws| && ws[i] == w;
      assert Chans(ws[..d])[i] == c;
    }
    forall c | c in Chans(ws[..d]) ensures WaitsBelow(ws, n, c) {
      var i :| 0 <= i < d && Chans(ws[..d])[i] == c;
      assert ws[i] in ws && ws[i].ch == c;
    }
  }

  /** The step at `k` leaves on the list exactly the waiters at or above `n`, and puts exactly the channels of
      the others into the hands of loop `id`, to be closed. */
  ghost predicate TakesThoseBelow(states: seq<State>, k: nat, id: nat, n: int)
    requires Runs(states, k, id) && Runs(states, k + 1, id)
  {
    && (forall w :: w in WaitersAt(states, k + 1) <==> w in WaitersAt(states, k) && w.seqNo >= n)
    && (forall c :: c in LoopAt(states, k + 1, id).toClose <==> WaitsBelow(WaitersAt(states, k), n, c))
  }

  lemma SweepTakes(b: Behaviour, acts: seq<Action>, states: seq<State>, k: nat, id: nat) returns (j: nat)
    requires Steps(b, acts, states) && k < |acts| && acts[k] == Do(id, Sweep)
    ensures LookedAt(acts, states, j, k, id) && (forall m :: j < m < k ==> acts[m] != Do(id, Look))
    ensures Runs(states, k, id) && Runs(states, k + 1, id) && TakesThoseBelow(states, k, id, MarkerAt(states, j))
  {
    assert StepAt(b, acts, states, k);
    j := SeenIsMarker(b, acts, states, k, id);
    SortedAt(b, acts, states, k);
    SweepStep(b, states[k], id, MarkerAt(states, j));
  }

  /** A sweep, over every run: with the marker read at the loop's last look, a waiter stays on the list if
      and only if its number is at or above that marker, and the loop takes up exactly the channels of the
      others, to close them. */
  lemma SweepTakesExactlyThoseBelow(b: Behaviour, acts: seq<Action>, states: seq<State>, k: nat, id: nat)
    returns (j: nat)
    requires IsRun(b, acts, states) && k < |acts| && acts[k] == Do(id, Sweep)
    ensures LookedAt(acts, states, j, k, id) && (forall m :: j < m < k ==> acts[m] != Do(id, Look))
    ensures Runs(states, k, id) && Runs(states, k + 1, id) && TakesThoseBelow(states, k, id, MarkerAt(states, j))
  {
    RunSteps(b, acts, states);
    j := SweepTakes(b, acts, states, k, id);
  }

  lemma SortedAt(b: Behaviour, acts: seq<Action>, states: seq<State>, k: nat)
    requires Steps(b, acts, states) && k < |states| && states[k].inst.Some?
    ensures Sorted(WaitersAt(states, k))
  {
    InvAt(b, acts, states, k);
  }

  lemma SweepStep(b: Behaviour, s: State, id: nat, n: int)
    requires Enabled(b, s, Do(id, Sweep)) && s.inst.value.loops[id].seen == Some(n) && Sorted(s.inst.value.waiters)
    ensures var i := Apply(b, s, Do(id, Sweep)).inst.value;
            && id in i.loops && (forall w :: w in i.waiters <==> w in s.inst.value.waiters && w.seqNo >= n)
            && (forall c :: c in i.loops[id].toClose <==> WaitsBelow(s.inst.value.waiters, n, c))
  {
    var ws := s.inst.value.waiters;
    SweepByNumber(ws, n);
    var i := Apply(b, s, Do(id, Sweep)).inst.value;
    assert i.waiters == ws[DueCount(ws, n - 1)..] && i.loops[id].toClose == Chans(ws[..DueCount(ws, n - 1)]);
  }

  // ----- From the sweep to the query -----

  /** A waiter of this number and channel registered between the two states. */
  ghost predicate RegisteredIn(acts: seq<Action>, q: nat, k: nat, w: Waiter) {
    exists r :: q <= r < k && r < |acts| && acts[r].Register? && acts[r].ch == w.ch && acts[r].seqNo == w.seqNo
  }

  lemma LaterOneMore(b: Behaviour, acts: seq<Action>, states: seq<State>, q: nat, k: nat, w: Waiter)
    requires Steps(b, acts, states) && q <= k < |acts| && states[k].inst.Some? && states[k + 1].inst.Some?
    requires w in WaitersAt(states, k + 1) && (w in WaitersAt(states, k) ==> RegisteredIn(acts, q, k, w))
    ensures RegisteredIn(acts, q, k + 1, w)
  {
    assert StepAt(b, acts, states, k);
    if w in WaitersAt(states, k) {
      var r :| q <= r < k && r < |acts| && acts[r].Register? && acts[r].ch == w.ch && acts[r].seqNo == w.seqNo;
    } else {
      NewWaiter(b, states[k], acts[k], w);
    }
  }

  /** The loop's sweep at step `q`, with the marker of its look at `j`, as it stands at state `k`: everyone on
      the list below that marker came later, and everyone swept is closed or about to be. */
  ghost predicate SweptSince(acts: seq<Action>, states: seq<State>, j: nat, q: nat, k: nat, id: nat)
    requires k <= |acts| < |states|
  {
    && q < k && LookedAt(acts, states, j, q, id) && acts[q] == Do(id, Sweep)
    && SameInstance(acts, q, k) && states[q].inst.Some? && Runs(states, k, id)
    && (forall w :: w in WaitersAt(states, k) && w.seqNo < MarkerAt(states, j) ==> RegisteredIn(acts, q, k, w))
    && (forall w :: w in WaitersAt(states, q) && w.seqNo < MarkerAt(states, j) ==>
          w.ch in LoopAt(states, k, id).toClose || ClosedAt(states, k, w.ch))
  }

  /** Where a sweeping loop was one step before. */
  lemma SweepingBefore(b: Behaviour, s: State, a: Action, id: nat)
    requires Enabled(b, s, a) && Apply(b, s, a).inst.Some? && id in Apply(b, s, a).inst.value.loops
    requires a != Do(id, Sweep) && Apply(b, s, a).inst.value.loops[id].pc == Sweeping
    ensures s.inst.Some? && !EndsInstance(a) && id in s.inst.value.loops && s.inst.value.loops[id].pc == Sweeping
    ensures s.inst.value.loops[id].toClose == Apply(b, s, a).inst.value.loops[id].toClose
            || (a == Do(id, CloseOne) && s.inst.value.loops[id].toClose != []
                && Apply(b, s, a).inst.value.loops[id].toClose == s.inst.value.loops[id].toClose[1..])
  {
    if !(a.Do? && a.id == id) { OthersStay(b, s, a, id); }
  }

  /** Closing one channel closes it. */
  lemma CloseOneCloses(b: Behaviour, s: State, id: nat)
    requires Enabled(b, s, Do(id, CloseOne)) && s.inst.value.loops[id].toClose[0] in s.inst.value.chans
    ensures var ch := s.inst.value.loops[id].toClose[0];
            ch in Apply(b, s, Do(id, CloseOne)).inst.value.chans
            && Closed in Apply(b, s, Do(id, CloseOne)).inst.value.chans[ch].events
  {
  }

  /** A channel that a loop holds is closed by its next step or still held. */
  lemma HeldOrClosed(b: Behaviour, acts: seq<Action>, states: seq<State>, k: nat, id: nat, ch: nat)
    requires Steps(b, acts, states) && k < |acts| && Runs(states, k, id) && Runs(states, k + 1, id)
    requires ch in LoopAt(states, k, id).toClose
    requires LoopAt(states, k + 1, id).toClose == LoopAt(states, k, id).toClose
             || (&& acts[k] == Do(id, CloseOne) && LoopAt(states, k, id).toClose != []
                 && LoopAt(states, k + 1, id).toClose == LoopAt(states, k, id).toClose[1..])
    ensures ch in LoopAt(states, k + 1, id).toClose || ClosedAt(states, k + 1, ch)
  {
    assert StepAt(b, acts, states, k);
    InvAt(b, acts, states, k);
    var l := LoopAt(states, k, id);
    if ch !in LoopAt(states, k + 1, id).toClose {
      assert l.toClose[0] == ch;
      assert LoopOk(states[k].inst.value.chans, l);
      CloseOneCloses(b, states[k], id);
    }
  }

  lemma ClosedStays(b: Behaviour, acts: seq<Action>, states: seq<State>, k: nat, ch: nat)
    requires Steps(b, acts, states) && k < |acts| && ClosedAt(states, k, ch) && states[k + 1].inst.Some?
    ensures ClosedAt(states, k + 1, ch)
  {
    assert StepAt(b, acts, states, k);
    EventsStay(b, states[k], acts[k], ch);
    var i :| 0 <= i < |states[k].inst.value.chans[ch].events| && states[k].inst.value.chans[ch].events[i] == Closed;
    assert states[k + 1].inst.value.chans[ch].events[i] == Closed;
  }

  lemma SweptOneMore(b: Behaviour, acts: seq<Action>, states: seq<State>, j: nat, q: nat, k: nat, id: nat)
    requires Steps(b, acts, states) && k < |acts| && SweptSince(acts, states, j, q, k, id) && Runs(states, k + 1, id)
    requires !EndsInstance(acts[k])
    requires LoopAt(states, k + 1, id).toClose == LoopAt(states, k, id).toClose
             || (&& acts[k] == Do(id, CloseOne) && LoopAt(states, k, id).toClose != []
                 && LoopAt(states, k + 1, id).toClose == LoopAt(states, k, id).toClose[1..])
    ensures SweptSince(acts, states, j, q, k + 1, id)
  {
    var n := MarkerAt(states, j);
    forall w | w in WaitersAt(states, k + 1) && w.seqNo < n ensures RegisteredIn(acts, q, k + 1, w) {
      LaterOneMore(b, acts, states, q, k, w);
    }
    forall w | w in WaitersAt(states, q) && w.seqNo < n
      ensures w.ch in LoopAt(states, k + 1, id).toClose || ClosedAt(states, k + 1, w.ch)
    {
      if w.ch in LoopAt(states, k, id).toClose {
        HeldOrClosed(b, acts, states, k, id, w.ch);
      } else {
        ClosedStays(b, acts, states, k, w.ch);
      }
    }
  }

  lemma {:induction false} SweepingHasSwept(b: Behaviour, acts: seq<Action>, states: seq<State>, k: nat, id: nat)
    returns (j: nat, q: nat)
    requires Steps(b, acts, states) && k <= |acts| && Runs(states, k, id) && LoopAt(states, k, id).pc == Sweeping
    ensures SweptSince(acts, states, j, q, k, id)
  {
    assert StepAt(b, acts, states, k - 1);
    if acts[k - 1] == Do(id, Sweep) {
      q := k - 1;
      j := SweepTakes(b, acts, states, q, id);
      forall w | w in WaitersAt(states, q) && w.seqNo < MarkerAt(states, j)
        ensures w.ch in LoopAt(states, k, id).toClose
      {
        assert WaitsBelow(WaitersAt(states, q), MarkerAt(states, j), w.ch);
      }
    } else {
      SweepingBefore(b, states[k - 1], acts[k - 1], id);
      j, q := SweepingHasSwept(b, acts, states, k - 1, id);
      SweptOneMore(b, acts, states, j, q, k - 1, id);
    }
  }

  /** Over every run, a loop that queries has swept since its last look at the marker: everyone who was on
      the list then, waiting for a call below that marker, has been closed, and whoever is on the list below
      it now has registered since. */
  lemma QueryLeavesNobodyBehind(b: Behaviour, acts: seq<Action>, states: seq<State>, k: nat, id: nat)
    returns (j: nat, q: nat)
    requires IsRun(b, acts, states) && k < |acts| && (acts[k] == Do(id, Fetch) || acts[k] == Do(id, FetchFails))
    ensures j < q < k && acts[j] == Do(id, Look) && acts[q] == Do(id, Sweep) && SameInstance(acts, j, k)
    ensures states[j].inst.Some? && states[q].inst.Some? && states[k].inst.Some?
    ensures forall w :: w in WaitersAt(states, k) && w.seqNo < MarkerAt(states, j) ==> RegisteredIn(acts, q, k, w)
    ensures forall w :: w in WaitersAt(states, q) && w.seqNo < MarkerAt(states, j) ==>
      w.ch in states[k].inst.value.chans && IsClosed(states[k].inst.value.chans[w.ch])
  {
    RunSteps(b, acts, states);
    j, q := SweepingHasSwept(b, acts, states, k, id);
    forall w | w in WaitersAt(states, q) && w.seqNo < MarkerAt(states, j)
      ensures w.ch in states[k].inst.value.chans && IsClosed(states[k].inst.value.chans[w.ch])
    {
      ClosedIsLast(b, acts, states, k, w.ch);
    }
  }

  lemma WellUsedAt(b: Behaviour, acts: seq<Action>, states: seq<State>, k: nat, ch: nat)
    requires Steps(b, acts, states) && k < |states| && states[k].inst.Some? && ch in states[k].inst.value.chans
    ensures WellUsed(states[k].inst.value.chans[ch])
  {
    InvAt(b, acts, states, k);
  }

  lemma ClosedIsLast(b: Behaviour, acts: seq<Action>, states: seq<State>, k: nat, ch: nat)
    requires Steps(b, acts, states) && ClosedAt(states, k, ch)
    ensures IsClosed(states[k].inst.value.chans[ch])
  {
    WellUsedAt(b, acts, states, k, ch);
  }

  // ----- From an execution to its notification -----

  /** Loop `id` executed its call at step `e` and still has it in hand, with that outcome, at state `k`. */
  ghost predicate RanAt(acts: seq<Action>, states: seq<State>, e: nat, k: nat, id: nat)
    requires k <= |acts| < |states|
  {
    && e < k && acts[e].Do? && acts[e].id == id && acts[e].step.Execute? && SameInstance(acts, e, k)
    && Runs(states, e, id) && Runs(states, k, id) && LoopAt(states, e, id).batch != []
    && LoopAt(states, k, id).batch == LoopAt(states, e, id).batch
    && LoopAt(states, k, id).outcome == acts[e].step.outcome
  }

  lemma LoopDecidedBefore(b: Behaviour, i: Instance, rows: seq<Row>, id: nat, step: LoopStep)
    requires LoopEnabled(b, i, id, step) && id in LoopApply(b, i, rows, id, step).loops
    requires Decided(LoopApply(b, i, rows, id, step).loops[id].pc)
    ensures var l, m := i.loops[id], LoopApply(b, i, rows, id, step).loops[id];
            && l.batch == m.batch
            && if step.Execute? then l.batch != [] && m.outcome == step.outcome
               else Decided(l.pc) && m.outcome == l.outcome
  {
  }

  /** Where a loop with a decided call was one step before. */
  lemma DecidedBefore(b: Behaviour, s: State, a: Action, id: nat)
    requires Enabled(b, s, a) && Apply(b, s, a).inst.Some? && id in Apply(b, s, a).inst.value.loops
    requires Decided(Apply(b, s, a).inst.value.loops[id].pc)
    ensures s.inst.Some? && !EndsInstance(a) && id in s.inst.value.loops
    ensures s.inst.value.loops[id].batch == Apply(b, s, a).inst.value.loops[id].batch
    ensures if a.Do? && a.id == id && a.step.Execute?
            then s.inst.value.loops[id].batch != [] && Apply(b, s, a).inst.value.loops[id].outcome == a.step.outcome
            else Decided(s.inst.value.loops[id].pc)
                 && Apply(b, s, a).inst.value.loops[id].outcome == s.inst.value.loops[id].outcome
  {
    if a.Do? && a.id == id {
      LoopDecidedBefore(b, s.inst.value, s.db.rows, id, a.step);
    } else {
      OthersStay(b, s, a, id);
    }
  }

  lemma {:induction false} DecidedHasRun(b: Behaviour, acts: seq<Action>, states: seq<State>, k: nat, id: nat)
    returns (e: nat)
    requires Steps(b, acts, states) && k <= |acts| && Runs(states, k, id) && Decided(LoopAt(states, k, id).pc)
    ensures RanAt(acts, states, e, k, id)
  {
    assert StepAt(b, acts, states, k - 1);
    var a := acts[k - 1];
    DecidedBefore(b, states[k - 1], a, id);
    if a.Do? && a.id == id && a.step.Execute? {
      e := k - 1;
    } else {
      e := DecidedHasRun(b, acts, states, k - 1, id);
    }
  }

  /** The call that step `e` executed, with the outcome it had. */
  function CallRunAt(acts: seq<Action>, states: seq<State>, e: nat): Row
    requires e < |acts| && acts[e].Do? && acts[e].step.Execute? && Runs(states, e, acts[e].id)
    requires LoopAt(states, e, acts[e].id).batch != []
  {
    LoopAt(states, e, acts[e].id).batch[0].(outcome := acts[e].step.outcome)
  }

  // ----- A notification -----

  lemma NotifyByNumber(ws: seq<Waiter>, s: int)
    requires Sorted(ws)
    ensures forall w :: w in Rest(ws, s) <==> w in ws && w.seqNo > s
    ensures forall c :: c in Missed(ws, s) <==> WaitsBelow(ws, s, c)
    ensures forall c :: c in Matched(ws, s) <==> Waiter(s, c) in ws
  {
    PopBySeq(ws, s);
    var m, d := MissedCount(ws, s), DueCount(ws, s);
    forall w | w in ws && w.seqNo > s ensures w in Rest(ws, s) {
      var i :| 0 <= i < |ws| && ws[i] == w;
      assert ws[d..][i - d] == w;
    }
    MissedByNumber(ws, s);
    MatchedByNumber(ws, s);
  }

  lemma MissedByNumber(ws: seq<Waiter>, s: int)
    requires Sorted(ws)
    ensures forall c :: c in Missed(ws, s) <==> WaitsBelow(ws, s, c)
  {
    PopBySeq(ws, s);
    forall c | c in Missed(ws, s) ensures WaitsBelow(ws, s, c) {
      var i :| 0 <= i < |Missed(ws, s)| && Missed(ws, s)[i] == c;
      assert ws[i] in ws && ws[i].ch == c;
    }
    forall c | WaitsBelow(ws, s, c) ensures c in Missed(ws, s) {
      var w :| w in ws && w.seqNo < s && w.ch == c;
      var i :| 0 <= i < |ws| && ws[i] == w;
      assert Missed(ws, s)[i] == c;
    }
  }

  lemma MatchedByNumber(ws: seq<Waiter>, s: int)
    requires Sorted(ws)
    ensures forall c :: c in Matched(ws, s) <==> Waiter(s, c) in ws
  {
    PopBySeq(ws, s);
    var m := MissedCount(ws, s);
    forall c | c in Matched(ws, s) ensures Waiter(s, c) in ws {
      var i :| 0 <= i < |Matched(ws, s)| && Matched(ws, s)[i] == c;
      assert ws[m + i] in ws && ws[m + i].ch == c;
    }
    forall c | Waiter(s, c) in ws ensures c in Matched(ws, s) {
            var i :| 0 <= i < |ws| && ws[i] == Waiter(s, c);
      assert Matched(ws, s)[i - m] == c;
    }
  }

  lemma NotifyStep(b: Behaviour, s: State, id: nat)
    requires Enabled(b, s, Do(id, Notify)) && Sorted(s.inst.value.waiters)
    ensures var i, n := Apply(b, s, Do(id, Notify)).inst.value, s.inst.value.loops[id].batch[0].seqNo;
            && id in i.loops && (forall w :: w in i.waiters <==> w in s.inst.value.waiters && w.seqNo > n)
            && (forall c :: c in i.loops[id].toNotify <==> Waiter(n, c) in s.inst.value.waiters)
            && (forall c :: c in i.loops[id].toClose <==> WaitsBelow(s.inst.value.waiters, n, c))
  {
    NotifyByNumber(s.inst.value.waiters, s.inst.value.loops[id].batch[0].seqNo);
  }

  /** The step at `k` leaves on the list exactly the waiters above `n`, and puts exactly the channels of those
      at `n` into the hands of loop `id`, to be sent the call, and exactly those below, to be closed. */
  ghost predicate TakesThoseDue(states: seq<State>, k: nat, id: nat, n: int)
    requires Runs(states, k, id) && Runs(states, k + 1, id)
  {
    && (forall w :: w in WaitersAt(states, k + 1) <==> w in WaitersAt(states, k) && w.seqNo > n)
    && (forall c :: c in LoopAt(states, k + 1, id).toNotify <==> Waiter(n, c) in WaitersAt(states, k))
    && (forall c :: c in LoopAt(states, k + 1, id).toClose <==> WaitsBelow(WaitersAt(states, k), n, c))
  }

  lemma NotifyTakes(b: Behaviour, acts: seq<Action>, states: seq<State>, k: nat, id: nat) returns (e: nat)
    requires Steps(b, acts, states) && k < |acts| && acts[k] == Do(id, Notify)
    ensures RanAt(acts, states, e, k, id) && Runs(states, k + 1, id)
    ensures TakesThoseDue(states, k, id, CallRunAt(acts, states, e).seqNo)
  {
    assert StepAt(b, acts, states, k);
    DecidedToNotify(b, acts, states, k, id);
    e := DecidedHasRun(b, acts, states, k, id);
    SortedAt(b, acts, states, k);
    NotifyStep(b, states[k], id);
  }

  lemma DecidedToNotify(b: Behaviour, acts: seq<Action>, states: seq<State>, k: nat, id: nat)
    requires Steps(b, acts, states) && k < |acts| && acts[k] == Do(id, Notify)
    ensures Runs(states, k, id) && Decided(LoopAt(states, k, id).pc)
  {
    assert StepAt(b, acts, states, k);
  }

  /** A notification, over every run: with the call of the loop's last execution, a waiter stays on the list
      if and only if it waits for a later one; the loop takes up exactly the channels of those who wait for
      this one, to send it, and exactly those of the earlier ones, to close them. */
  lemma NotifyTakesExactlyThoseDue(b: Behaviour, acts: seq<Action>, states: seq<State>, k: nat, id: nat)
    returns (e: nat)
    requires IsRun(b, acts, states) && k < |acts| && acts[k] == Do(id, Notify)
    ensures RanAt(acts, states, e, k, id) && Runs(states, k + 1, id)
    ensures TakesThoseDue(states, k, id, CallRunAt(acts, states, e).seqNo)
  {
    RunSteps(b, acts, states);
    e := NotifyTakes(b, acts, states, k, id);
  }

  // ----- From the notification to the next call -----

  /** The loop's notification at step `q` about the call run at `e`, as it stands at state `k`: whoever is on the
      list for this call or an earlier one came later; those who waited for it are still to be told, or have
      been sent it and are closed or about to be; those who waited for an earlier one likewise. */
  ghost predicate NotifiedSince(acts: seq<Action>, states: seq<State>, e: nat, q: nat, k: nat, id: nat)
    requires k <= |acts| < |states|
  {
    && q < k && RanAt(acts, states, e, q, id) && acts[q] == Do(id, Notify) && SameInstance(acts, q, k)
    && RanAt(acts, states, e, k, id)
    && var call := CallRunAt(acts, states, e);
       && (forall w :: w in WaitersAt(states, k) && w.seqNo <= call.seqNo ==> RegisteredIn(acts, q, k, w))
       && (forall w :: w in WaitersAt(states, q) && w.seqNo == call.seqNo ==> Telling(states, k, id, w.ch, call))
       && (forall w :: w in WaitersAt(states, q) && w.seqNo < call.seqNo ==> Closing(states, k, id, w.ch))
  }

  ghost predicate Closing(states: seq<State>, k: nat, id: nat, ch: nat)
    requires Runs(states, k, id)
  {
    ch in LoopAt(states, k, id).toClose || ClosedAt(states, k, ch)
  }

  ghost predicate Telling(states: seq<State>, k: nat, id: nat, ch: nat, call: Row)
    requires Runs(states, k, id)
  {
    ch in LoopAt(states, k, id).toNotify || (SentAt(states, k, ch, call) && Closing(states, k, id, ch))
  }

  /** How a notifying loop's hands change in a step. */
  ghost predicate HandsMove(l: Loop, m: Loop, a: Action, id: nat) {
    || (m.toClose == l.toClose && m.toNotify == l.toNotify)
    || (a == Do(id, CloseOne) && l.toClose != [] && m.toClose == l.toClose[1..] && m.toNotify == l.toNotify)
    || (&& a == Do(id, Deliver) && l.toClose == [] && l.toNotify != []
        && m.toClose == [l.toNotify[0]] && m.toNotify == l.toNotify[1..])
  }

  lemma NotifyingBefore(b: Behaviour, s: State, a: Action, id: nat)
    requires Enabled(b, s, a) && Apply(b, s, a).inst.Some? && id in Apply(b, s, a).inst.value.loops
    requires a != Do(id, Notify) && Apply(b, s, a).inst.value.loops[id].pc == Notifying
    ensures s.inst.Some? && !EndsInstance(a) && id in s.inst.value.loops && s.inst.value.loops[id].pc == Notifying
    ensures s.inst.value.loops[id].batch == Apply(b, s, a).inst.value.loops[id].batch
    ensures s.inst.value.loops[id].outcome == Apply(b, s, a).inst.value.loops[id].outcome
    ensures HandsMove(s.inst.value.loops[id], Apply(b, s, a).inst.value.loops[id], a, id)
  {
    if !(a.Do? && a.id == id) { OthersStay(b, s, a, id); }
  }

  lemma SentStays(b: Behaviour, acts: seq<Action>, states: seq<State>, k: nat, ch: nat, call: Row)
    requires Steps(b, acts, states) && k < |acts| && SentAt(states, k, ch, call) && states[k + 1].inst.Some?
    ensures SentAt(states, k + 1, ch, call)
  {
    assert StepAt(b, acts, states, k);
    EventsStay(b, states[k], acts[k], ch);
    var events := states[k].inst.value.chans[ch].events;
    var i :| 0 <= i < |events| && events[i] == Sent(call);
    assert states[k + 1].inst.value.chans[ch].events[i] == Sent(call);
  }

  lemma ClosingStays(b: Behaviour, acts: seq<Action>, states: seq<State>, k: nat, id: nat, ch: nat)
    requires Steps(b, acts, states) && k < |acts| && Runs(states, k, id) && Runs(states, k + 1, id)
    requires HandsMove(LoopAt(states, k, id), LoopAt(states, k + 1, id), acts[k], id) && Closing(states, k, id, ch)
    ensures Closing(states, k + 1, id, ch)
  {
    if ch in LoopAt(states, k, id).toClose {
      HeldOrClosed(b, acts, states, k, id, ch);
    } else {
      ClosedStays(b, acts, states, k, ch);
    }
  }

  /** Delivering sends the call that the loop has in hand. */
  lemma DeliverSendsIt(b: Behaviour, acts: seq<Action>, states: seq<State>, k: nat, id: nat)
    requires Steps(b, acts, states) && k < |acts| && acts[k] == Do(id, Deliver)
    ensures Runs(states, k, id) && LoopAt(states, k, id).toNotify != [] && LoopAt(states, k, id).batch != []
    ensures var l := LoopAt(states, k, id); SentAt(states, k + 1, l.toNotify[0], l.batch[0].(outcome := l.outcome))
  {
    assert StepAt(b, acts, states, k);
    InvAt(b, acts, states, k);
    var l := LoopAt(states, k, id);
    assert LoopOk(states[k].inst.value.chans, l) && l.toNotify[0] in l.toNotify;
    var j := states[k + 1].inst.value;
    var ch := l.toNotify[0];
    assert j.chans[ch].events == states[k].inst.value.chans[ch].events + [Sent(l.batch[0].(outcome := l.outcome))];
  }

  lemma TellingStays(b: Behaviour, acts: seq<Action>, states: seq<State>, k: nat, id: nat, ch: nat, call: Row)
    requires Steps(b, acts, states) && k < |acts| && Runs(states, k, id) && Runs(states, k + 1, id)
    requires HandsMove(LoopAt(states, k, id), LoopAt(states, k + 1, id), acts[k], id)
    requires var l := LoopAt(states, k, id); l.batch != [] && call == l.batch[0].(outcome := l.outcome)
    requires Telling(states, k, id, ch, call)
    ensures Telling(states, k + 1, id, ch, call)
  {
    var l := LoopAt(states, k, id);
    if ch in l.toNotify {
      if ch !in LoopAt(states, k + 1, id).toNotify {
        assert l.toNotify[0] == ch;
        DeliverSendsIt(b, acts, states, k, id);
      }
    } else {
      SentStays(b, acts, states, k, ch, call);
      ClosingStays(b, acts, states, k, id, ch);
    }
  }

  lemma NotifiedOneMore(b: Behaviour, acts: seq<Action>, states: seq<State>, e: nat, q: nat, k: nat, id: nat)
    requires Steps(b, acts, states) && k < |acts| && NotifiedSince(acts, states, e, q, k, id)
    requires Runs(states, k + 1, id) && !EndsInstance(acts[k])
    requires LoopAt(states, k + 1, id).batch == LoopAt(states, k, id).batch
    requires LoopAt(states, k + 1, id).outcome == LoopAt(states, k, id).outcome
    requires HandsMove(LoopAt(states, k, id), LoopAt(states, k + 1, id), acts[k], id)
    ensures NotifiedSince(acts, states, e, q, k + 1, id)
  {
    var call := CallRunAt(acts, states, e);
    forall w | w in WaitersAt(states, k + 1) && w.seqNo <= call.seqNo ensures RegisteredIn(acts, q, k + 1, w) {
      LaterOneMore(b, acts, states, q, k, w);
    }
    forall w | w in WaitersAt(states, q) && w.seqNo == call.seqNo ensures Telling(states, k + 1, id, w.ch, call) {
      TellingStays(b, acts, states, k, id, w.ch, call);
    }
    forall w | w in WaitersAt(states, q) && w.seqNo < call.seqNo ensures Closing(states, k + 1, id, w.ch) {
      ClosingStays(b, acts, states, k, id, w.ch);
    }
  }

  lemma {:induction false} NotifyingHasNotified(b: Behaviour, acts: seq<Action>, states: seq<State>, k: nat, id: nat)
    returns (e: nat, q: nat)
    requires Steps(b, acts, states) && k <= |acts| && Runs(states, k, id) && LoopAt(states, k, id).pc == Notifying
    ensures NotifiedSince(acts, states, e, q, k, id)
  {
    assert StepAt(b, acts, states, k - 1);
    if acts[k - 1] == Do(id, Notify) {
      q := k - 1;
      e := JustNotified(b, acts, states, k, id);
    } else {
      NotifyingBefore(b, states[k - 1], acts[k - 1], id);
      e, q := NotifyingHasNotified(b, acts, states, k - 1, id);
      StillNotified(b, acts, states, e, q, k, id);
    }
  }

  lemma StillNotified(b: Behaviour, acts: seq<Action>, states: seq<State>, e: nat, q: nat, k: nat, id: nat)
    requires Steps(b, acts, states) && 0 < k <= |acts| && NotifiedSince(acts, states, e, q, k - 1, id)
    requires acts[k - 1] != Do(id, Notify) && Runs(states, k, id) && LoopAt(states, k, id).pc == Notifying
    ensures NotifiedSince(acts, states, e, q, k, id)
  {
    assert StepAt(b, acts, states, k - 1);
    NotifyingBefore(b, states[k - 1], acts[k - 1], id);
    NotifiedOneMore(b, acts, states, e, q, k - 1, id);
  }

  lemma JustNotified(b: Behaviour, acts: seq<Action>, states: seq<State>, k: nat, id: nat) returns (e: nat)
    requires Steps(b, acts, states) && 0 < k <= |acts| && acts[k - 1] == Do(id, Notify)
    ensures NotifiedSince(acts, states, e, k - 1, k, id)
  {
    assert StepAt(b, acts, states, k - 1);
    var q := k - 1;
    e := NotifyTakes(b, acts, states, q, id);
    DecidedBefore(b, states[q], acts[q], id);
    var n := CallRunAt(acts, states, e).seqNo;
    forall w | w in WaitersAt(states, q) && w.seqNo == n ensures w.ch in LoopAt(states, k, id).toNotify {
      assert w == Waiter(n, w.ch);
    }
    forall w | w in WaitersAt(states, q) && w.seqNo < n ensures w.ch in LoopAt(states, k, id).toClose {
      assert WaitsBelow(WaitersAt(states, q), n, w.ch);
    }
  }

  /** Over every run, a loop that goes on to its next call has settled the one it executed last: everyone who
      was on the list for it when the loop notified has been sent it with its outcome, and nothing else, and
      closed; everyone waiting for an earlier one has been closed; and whoever is on the list for either now
      has registered since. */
  lemma NextCallLeavesNobodyBehind(b: Behaviour, acts: seq<Action>, states: seq<State>, k: nat, id: nat)
    returns (e: nat, q: nat)
    requires IsRun(b, acts, states) && k < |acts| && acts[k] == Do(id, NextCall)
    ensures e < q < k && acts[q] == Do(id, Notify) && SameInstance(acts, e, k) && RanAt(acts, states, e, k, id)
    ensures states[q].inst.Some? && states[k].inst.Some?
    ensures var call, chans := CallRunAt(acts, states, e), states[k].inst.value.chans;
            && (forall w :: w in WaitersAt(states, k) && w.seqNo <= call.seqNo ==> RegisteredIn(acts, q, k, w))
            && (forall w :: w in WaitersAt(states, q) && w.seqNo == call.seqNo ==>
                  w.ch in chans && chans[w.ch].events == [Sent(call), Closed])
            && (forall w :: w in WaitersAt(states, q) && w.seqNo < call.seqNo ==>
                  w.ch in chans && IsClosed(chans[w.ch]))
  {
    RunSteps(b, acts, states);
    e, q := NotifyingHasNotified(b, acts, states, k, id);
    var call, chans := CallRunAt(acts, states, e), states[k].inst.value.chans;
    forall w | w in WaitersAt(states, q) && w.seqNo == call.seqNo
      ensures w.ch in chans && chans[w.ch].events == [Sent(call), Closed]
    {
      SentAndClosed(b, acts, states, k, w.ch, call);
    }
    forall w | w in WaitersAt(states, q) && w.seqNo < call.seqNo ensures w.ch in chans && IsClosed(chans[w.ch]) {
      ClosedIsLast(b, acts, states, k, w.ch);
    }
  }

  lemma SentAndClosed(b: Behaviour, acts: seq<Action>, states: seq<State>, k: nat, ch: nat, call: Row)
    requires Steps(b, acts, states) && ClosedAt(states, k, ch) && SentAt(states, k, ch, call)
    ensures states[k].inst.value.chans[ch].events == [Sent(call), Closed]
  {
    WellUsedAt(b, acts, states, k, ch);
    var c := states[k].inst.value.chans[ch];
    var i :| 0 <= i < |c.events| && c.events[i] == Sent(call);
  }

  // ----- Why a channel is closed without a value -----

  /** The instance's marker has been above `n`. */
  ghost predicate Passed(acts: seq<Action>, states: seq<State>, k: nat, n: int)
    requires k <= |acts| < |states|
  {
    exists r :: 0 <= r <= k && states[r].inst.Some? && SameInstance(acts, r, k) && MarkerAt(states, r) > n
  }

  /** A loop's cleanup found somebody waiting on the channel. */
  ghost predicate CleanedUp(acts: seq<Action>, states: seq<State>, k: nat, ch: nat)
    requires k <= |acts| < |states|
  {
    exists r :: 0 <= r < k && acts[r].Do? && acts[r].step.Cleanup? && states[r].inst.Some? && SameInstance(acts, r, k)
      && ch in Chans(WaitersAt(states, r))
  }

  function ChanAt(states: seq<State>, k: nat, ch: nat): Channel
    requires k < |states| && states[k].inst.Some? && ch in states[k].inst.value.chans
  {
    states[k].inst.value.chans[ch]
  }

  predicate OpenAt(states: seq<State>, k: nat, ch: nat) {
    k < |states| && states[k].inst.Some? && ch in states[k].inst.value.chans && ChanAt(states, k, ch).events == []
  }

  lemma PassedStays(acts: seq<Action>, states: seq<State>, k: nat, m: nat, n: int)
    requires k <= m <= |acts| < |states| && Passed(acts, states, k, n) && SameInstance(acts, k, m)
    ensures Passed(acts, states, m, n)
  {
    var r :| 0 <= r <= k && states[r].inst.Some? && SameInstance(acts, r, k) && MarkerAt(states, r) > n;
    assert SameInstance(acts, r, m);
  }

  /** A waiter's channel is open and has its number. */
  lemma WaitingIsOpen(b: Behaviour, acts: seq<Action>, states: seq<State>, k: nat, w: Waiter)
    requires Steps(b, acts, states) && k < |states| && states[k].inst.Some? && w in WaitersAt(states, k)
    ensures OpenAt(states, k, w.ch) && ChanAt(states, k, w.ch).seqNo == w.seqNo
  {
    InvAt(b, acts, states, k);
    var i :| 0 <= i < |WaitersAt(states, k)| && WaitersAt(states, k)[i] == w;
    assert WaitersOk(states[k].inst.value);
  }

  /** Executing a call puts the marker above it. */
  lemma RanIsPassed(b: Behaviour, acts: seq<Action>, states: seq<State>, e: nat, k: nat, id: nat)
    requires Steps(b, acts, states) && k <= |acts| && RanAt(acts, states, e, k, id)
    ensures Passed(acts, states, k, CallRunAt(acts, states, e).seqNo)
  {
    assert StepAt(b, acts, states, e);
    LoopMarker(b, states[e].inst.value, states[e].db.rows, id, acts[e].step);
    assert MarkerAt(states, e + 1) > CallRunAt(acts, states, e).seqNo && SameInstance(acts, e + 1, k);
  }

  lemma SweptIsPassed(b: Behaviour, acts: seq<Action>, states: seq<State>, k: nat, id: nat, ch: nat)
    requires Steps(b, acts, states) && k < |acts| && acts[k] == Do(id, Sweep) && Runs(states, k + 1, id)
    requires ch in LoopAt(states, k + 1, id).toClose && ch in states[k + 1].inst.value.chans
    ensures Passed(acts, states, k + 1, ChanAt(states, k + 1, ch).seqNo)
  {
    assert StepAt(b, acts, states, k);
    var j := SweepTakes(b, acts, states, k, id);
    assert WaitsBelow(WaitersAt(states, k), MarkerAt(states, j), ch);
    var w :| w in WaitersAt(states, k) && w.seqNo < MarkerAt(states, j) && w.ch == ch;
    WaitingIsOpen(b, acts, states, k, w);
    EventsStay(b, states[k], acts[k], ch);
    assert SameInstance(acts, j, k + 1);
  }

  lemma MissedIsPassed(b: Behaviour, acts: seq<Action>, states: seq<State>, k: nat, id: nat, ch: nat)
    requires Steps(b, acts, states) && k < |acts| && acts[k] == Do(id, Notify) && Runs(states, k + 1, id)
    requires ch in LoopAt(states, k + 1, id).toClose && ch in states[k + 1].inst.value.chans
    ensures Passed(acts, states, k + 1, ChanAt(states, k + 1, ch).seqNo)
  {
    assert StepAt(b, acts, states, k);
    var e := NotifyTakes(b, acts, states, k, id);
    var n := CallRunAt(acts, states, e).seqNo;
    assert WaitsBelow(WaitersAt(states, k), n, ch);
    var w :| w in WaitersAt(states, k) && w.seqNo < n && w.ch == ch;
    WaitingIsOpen(b, acts, states, k, w);
    EventsStay(b, states[k], acts[k], ch);
    RanIsPassed(b, acts, states, e, k, id);
    PassedStays(acts, states, k, k + 1, n);
  }

  /** Where a channel in a loop's hands was one step before. */
  lemma HeldBefore(b: Behaviour, s: State, a: Action, id: nat, ch: nat)
    requires Enabled(b, s, a) && Apply(b, s, a).inst.Some? && id in Apply(b, s, a).inst.value.loops
    requires ch in Apply(b, s, a).inst.value.loops[id].toClose
    ensures s.inst.Some? && !EndsInstance(a) && id in s.inst.value.loops
    ensures || a == Do(id, Sweep) || a == Do(id, Notify) || ch in s.inst.value.loops[id].toClose
            || (&& a == Do(id, Deliver) && s.inst.value.loops[id].toNotify != []
                && ch == s.inst.value.loops[id].toNotify[0])
  {
    if !(a.Do? && a.id == id) { OthersStay(b, s, a, id); }
  }

  lemma HeldIsThere(b: Behaviour, acts: seq<Action>, states: seq<State>, k: nat, id: nat, ch: nat)
    requires Steps(b, acts, states) && Runs(states, k, id) && ch in LoopAt(states, k, id).toClose
    ensures ch in states[k].inst.value.chans
  {
    InvAt(b, acts, states, k);
    assert LoopOk(states[k].inst.value.chans, LoopAt(states, k, id));
  }

  lemma OpenBefore(b: Behaviour, acts: seq<Action>, states: seq<State>, k: nat, id: nat, ch: nat)
    requires Steps(b, acts, states) && k < |acts| && Runs(states, k, id) && ch in LoopAt(states, k, id).toClose
    requires OpenAt(states, k + 1, ch)
    ensures OpenAt(states, k, ch) && ChanAt(states, k, ch).seqNo == ChanAt(states, k + 1, ch).seqNo
  {
    assert StepAt(b, acts, states, k);
    HeldIsThere(b, acts, states, k, id, ch);
    EventsStay(b, states[k], acts[k], ch);
  }

  lemma DeliveredIsNotOpen(b: Behaviour, acts: seq<Action>, states: seq<State>, k: nat, id: nat)
    requires Steps(b, acts, states) && k < |acts| && acts[k] == Do(id, Deliver)
    ensures Runs(states, k, id) && LoopAt(states, k, id).toNotify != []
    ensures !OpenAt(states, k + 1, LoopAt(states, k, id).toNotify[0])
  {
    DeliverSendsIt(b, acts, states, k, id);
  }

  /** An open channel that a loop is about to close has been passed by the marker. */
  lemma {:induction false} HeldIsPassed(b: Behaviour, acts: seq<Action>, states: seq<State>, k: nat, id: nat, ch: nat)
    requires Steps(b, acts, states) && k <= |acts| && Runs(states, k, id) && ch in LoopAt(states, k, id).toClose
    requires OpenAt(states, k, ch)
    ensures Passed(acts, states, k, ChanAt(states, k, ch).seqNo)
  {
    assert StepAt(b, acts, states, k - 1);
    var a := acts[k - 1];
    HeldBefore(b, states[k - 1], a, id, ch);
    if a == Do(id, Sweep) {
      SweptIsPassed(b, acts, states, k - 1, id, ch);
    } else if a == Do(id, Notify) {
      MissedIsPassed(b, acts, states, k - 1, id, ch);
    } else if ch in LoopAt(states, k - 1, id).toClose {
      OpenBefore(b, acts, states, k - 1, id, ch);
      HeldIsPassed(b, acts, states, k - 1, id, ch);
      PassedStays(acts, states, k - 1, k, ChanAt(states, k, ch).seqNo);
    } else {
      DeliveredIsNotOpen(b, acts, states, k - 1, id);
    }
  }

  /** The step that closes an open channel, or makes a closed one. */
  lemma ClosingStep(b: Behaviour, s: State, a: Action, ch: nat)
    requires Enabled(b, s, a) && Apply(b, s, a).inst.Some? && ch in Apply(b, s, a).inst.value.chans
    requires Apply(b, s, a).inst.value.chans[ch].events == [Closed]
    requires s.inst.Some? && ch in s.inst.value.chans ==> s.inst.value.chans[ch].events == []
    ensures s.inst.Some? && !EndsInstance(a)
    ensures || (a.CloseNow? && a.ch == ch && Apply(b, s, a).inst.value.chans[ch].seqNo < s.inst.value.mem.next)
            || (a.Do? && a.step.Cleanup? && ch in Chans(s.inst.value.waiters))
            || (a.Do? && a.step.CloseOne? && ch in s.inst.value.loops[a.id].toClose && ch in s.inst.value.chans)
  {
    if a.Do? { LoopClosingStep(b, s.inst.value, s.db.rows, a.id, a.step, ch); }
  }

  lemma LoopClosingStep(b: Behaviour, i: Instance, rows: seq<Row>, id: nat, step: LoopStep, ch: nat)
    requires LoopEnabled(b, i, id, step) && ch in LoopApply(b, i, rows, id, step).chans
    requires LoopApply(b, i, rows, id, step).chans[ch].events == [Closed]
    requires ch in i.chans ==> i.chans[ch].events == []
    ensures ch in i.chans
    ensures (step.Cleanup? && ch in Chans(i.waiters)) || (step.CloseOne? && ch in i.loops[id].toClose)
  {
    if step.Deliver? && ch in i.chans { DeliverClosesNothing(b, i, rows, id, ch); }
  }

  lemma DeliverClosesNothing(b: Behaviour, i: Instance, rows: seq<Row>, id: nat, ch: nat)
    requires LoopEnabled(b, i, id, Deliver) && ch in i.chans && i.chans[ch].events == []
    ensures ch in LoopApply(b, i, rows, id, Deliver).chans
    ensures LoopApply(b, i, rows, id, Deliver).chans[ch].events != [Closed]
  {
    var events := LoopApply(b, i, rows, id, Deliver).chans[ch].events;
    assert events == [] || events[0].Sent?;
  }

  /** A closed channel was closed before, or was open. */
  lemma ClosedBefore(b: Behaviour, acts: seq<Action>, states: seq<State>, k: nat, ch: nat)
    requires Steps(b, acts, states) && k < |acts| && states[k].inst.Some? && states[k + 1].inst.Some?
    requires ch in states[k].inst.value.chans && ch in states[k + 1].inst.value.chans
    requires ChanAt(states, k + 1, ch).events == [Closed]
    ensures ChanAt(states, k, ch).events == [] || ChanAt(states, k, ch).events == [Closed]
    ensures ChanAt(states, k, ch).seqNo == ChanAt(states, k + 1, ch).seqNo
  {
    assert StepAt(b, acts, states, k);
    EventsStay(b, states[k], acts[k], ch);
  }

  /** Over every run, nobody is sent away for nothing: a channel that was closed without a value belongs to a
      call that the instance's marker had passed, or its caller was waiting when a loop cleaned up. */
  lemma ClosedForAReason(b: Behaviour, acts: seq<Action>, states: seq<State>, k: nat, ch: nat)
    requires IsRun(b, acts, states) && k <= |acts| && states[k].inst.Some? && ch in states[k].inst.value.chans
    requires ChanAt(states, k, ch).events == [Closed]
    ensures Passed(acts, states, k, ChanAt(states, k, ch).seqNo) || CleanedUp(acts, states, k, ch)
  {
    RunSteps(b, acts, states);
    ClosedHasReason(b, acts, states, k, ch);
  }

  lemma {:induction false} ClosedHasReason(b: Behaviour, acts: seq<Action>, states: seq<State>, k: nat, ch: nat)
    requires Steps(b, acts, states) && k <= |acts| && states[k].inst.Some? && ch in states[k].inst.value.chans
    requires ChanAt(states, k, ch).events == [Closed]
    ensures Passed(acts, states, k, ChanAt(states, k, ch).seqNo) || CleanedUp(acts, states, k, ch)
  {
    assert StepAt(b, acts, states, k - 1);
    var s, a := states[k - 1], acts[k - 1];
    if s.inst.Some? && ch in s.inst.value.chans { ClosedBefore(b, acts, states, k - 1, ch); }
    if s.inst.Some? && ch in s.inst.value.chans && s.inst.value.chans[ch].events == [Closed] && !a.Activate? {
      ClosedHasReason(b, acts, states, k - 1, ch);
      ReasonStays(acts, states, k - 1, ch);
    } else {
      ClosingStep(b, s, a, ch);
      if a.CloseNow? {
        assert SameInstance(acts, k - 1, k);
      } else if a.step.Cleanup? {
        assert SameInstance(acts, k - 1, k);
      } else {
        HeldIsPassed(b, acts, states, k - 1, a.id, ch);
        PassedStays(acts, states, k - 1, k, ChanAt(states, k, ch).seqNo);
      }
    }
  }

  lemma ReasonStays(acts: seq<Action>, states: seq<State>, k: nat, ch: nat)
    requires k < |acts| < |states| && states[k].inst.Some? && states[k + 1].inst.Some? && !EndsInstance(acts[k])
    requires ch in states[k].inst.value.chans
    requires ch in states[k + 1].inst.value.chans && ChanAt(states, k, ch).seqNo == ChanAt(states, k + 1, ch).seqNo
    requires Passed(acts, states, k, ChanAt(states, k, ch).seqNo) || CleanedUp(acts, states, k, ch)
    ensures Passed(acts, states, k + 1, ChanAt(states, k + 1, ch).seqNo) || CleanedUp(acts, states, k + 1, ch)
  {
    var n := ChanAt(states, k, ch).seqNo;
    if Passed(acts, states, k, n) {
      PassedStays(acts, states, k, k + 1, n);
    } else {
      var r :| 0 <= r < k && acts[r].Do? && acts[r].step.Cleanup? && states[r].inst.Some? && SameInstance(acts, r, k)
        && ch in Chans(WaitersAt(states, r));
      assert SameInstance(acts, r, k + 1);
    }
  }
}
