/** Waiter accounting, for every interleaving of callers and processing loops.

    The two-step loop exit of object/object.go lets several loops of one instance overlap. What
    is proved here holds in all of those runs: nothing is assumed about how many loops there are. */
module CallWaiters {
  import opened Options
  import opened Sets
  import opened Waiters
  import opened CallEngine

  /** Channels a loop has popped and not finished with. */
  function Listed(l: Loop): seq<nat> {
    l.toClose + l.toNotify
  }

  /** A value the channel's own caller can use: its call, decided. */
  predicate RightCall(seqNo: int, call: Row) {
    call.seqNo == seqNo && call.outcome.status != Pending
  }

  /** The whole life of a channel: at most one value, the right one, then at most one close. */
  predicate WellUsed(c: Channel) {
    || c.events == []
    || c.events == [Closed]
    || (|c.events| == 1 && c.events[0].Sent? && RightCall(c.seqNo, c.events[0].call))
    || (|c.events| == 2 && c.events[0].Sent? && RightCall(c.seqNo, c.events[0].call) && c.events[1] == Closed)
  }

  predicate IsClosed(c: Channel) {
    c.events != [] && c.events[|c.events| - 1] == Closed
  }

  /** Someone will still close this channel. */
  ghost predicate Parked(i: Instance, c: nat) {
    || c in Chans(i.waiters)
    || exists id :: id in i.loops && c in Listed(i.loops[id])
  }

  ghost predicate WaitersOk(i: Instance) {
    && Sorted(i.waiters)
    && NoDup(Chans(i.waiters))
    && forall k :: 0 <= k < |i.waiters| ==>
         i.waiters[k].ch in i.chans && i.chans[i.waiters[k].ch] == Channel(i.waiters[k].seqNo, [])
  }

  predicate Decided(pc: Pc) {
    pc == Executed || pc == Saved || pc == Recorded || pc == Notifying
  }

  ghost predicate LoopOk(chans: map<nat, Channel>, l: Loop) {
    && NoDup(Listed(l))
    && (forall c :: c in l.toClose ==> c in chans && !IsClosed(chans[c]))
    && (l.toNotify != [] ==> l.pc == Notifying)
    && (Decided(l.pc) ==> l.batch != [] && l.outcome.status != Pending)
    && (forall c :: c in l.toNotify && l.batch != [] ==> c in chans && chans[c] == Channel(l.batch[0].seqNo, []))
    && (l.toClose != [] ==> l.pc == Sweeping || l.pc == Notifying)
  }

  ghost predicate Apart(i: Instance) {
    && (forall id, c :: id in i.loops && c in Listed(i.loops[id]) ==> c !in Chans(i.waiters))
    && (forall id1, id2, c :: id1 in i.loops && id2 in i.loops && id1 != id2 && c in Listed(i.loops[id1])
                              ==> c !in Listed(i.loops[id2]))
  }

  ghost predicate ChansOk(i: Instance) {
    forall c :: c in i.chans ==> WellUsed(i.chans[c]) && (IsClosed(i.chans[c]) || Parked(i, c))
  }

  /** Waiters, and the flag that keeps new loops from starting, imply a loop that owes a cleanup. */
  predicate Attended(i: Instance) {
    i.waiters != [] || i.processing ==> i.loops != map[]
  }

  ghost predicate WaiterInv(i: Instance) {
    && WaitersOk(i)
    && (forall id :: id in i.loops ==> LoopOk(i.chans, i.loops[id]))
    && Apart(i)
    && ChansOk(i)
    && Attended(i)
  }

  // ----- One lemma per kind of step -----

  lemma StillParked(i: Instance, j: Instance)
    requires forall c :: c in Chans(i.waiters) ==> c in Chans(j.waiters)
    requires forall id :: id in i.loops ==> id in j.loops && forall c :: c in Listed(i.loops[id]) ==>
      c in Listed(j.loops[id])
    ensures forall c :: Parked(i, c) ==> Parked(j, c)
  {
    forall c | Parked(i, c) ensures Parked(j, c) {
      if c !in Chans(i.waiters) {
        var id :| id in i.loops && c in Listed(i.loops[id]);
        assert id in j.loops && c in Listed(j.loops[id]);
      }
    }
  }

  /** Steps that touch neither the waiters nor the channels, only where a loop stands. */
  lemma MovePreserves(i: Instance, j: Instance, id: nat, l: Loop)
    requires WaiterInv(i) && id in i.loops
    requires j.waiters == i.waiters && j.chans == i.chans && j.loops == i.loops[id := l]
    requires j.processing ==> i.processing
    requires Listed(l) == Listed(i.loops[id]) && LoopOk(i.chans, l)
    ensures WaiterInv(j)
  {
    StillParked(i, j);
    assert id in j.loops;
  }

  lemma PopParked(i: Instance, j: Instance, id: nat, l: Loop, due: nat, c: nat)
    requires id in i.loops && due <= |i.waiters| && Listed(i.loops[id]) == []
    requires j == Put(i.(waiters := i.waiters[due..]), id, l) && Listed(l) == Chans(i.waiters[..due])
    requires Parked(i, c)
    ensures Parked(j, c)
  {
    if c in Chans(i.waiters) {
      assert Chans(i.waiters) == Chans(i.waiters[..due]) + Chans(j.waiters);
      if c !in Chans(j.waiters) { assert id in j.loops && c in Listed(j.loops[id]); }
    } else {
      var k :| k in i.loops && c in Listed(i.loops[k]);
      assert k in j.loops && c in Listed(j.loops[k]);
    }
  }

  lemma PopWaiters(i: Instance, j: Instance, due: nat)
    requires WaitersOk(i) && due <= |i.waiters| && j.waiters == i.waiters[due..] && j.chans == i.chans
    ensures WaitersOk(j)
  {
    assert forall k :: 0 <= k < |j.waiters| ==> j.waiters[k] == i.waiters[due + k];
    SplitApart(Chans(i.waiters), due);
    assert Chans(j.waiters) == Chans(i.waiters)[due..];
  }

  /** A pop moves a prefix of the waiters into one loop's hands. */
  lemma PopPreserves(i: Instance, j: Instance, id: nat, l: Loop, due: nat)
    requires WaiterInv(i) && id in i.loops && due <= |i.waiters|
    requires Listed(i.loops[id]) == []
    requires j == Put(i.(waiters := i.waiters[due..]), id, l)
    requires Listed(l) == Chans(i.waiters[..due]) && LoopOk(i.chans, l)
    ensures WaiterInv(j)
  {
    PopWaiters(i, j, due);
    forall c | c in j.chans && !IsClosed(j.chans[c]) ensures Parked(j, c) { PopParked(i, j, id, l, due, c); }
    PopApart(i, j, id, l, due);
    assert id in j.loops;
  }

  lemma SplitApart(cs: seq<nat>, n: nat)
    requires NoDup(cs) && n <= |cs|
    ensures NoDup(cs[..n]) && NoDup(cs[n..])
    ensures forall c :: c in cs[..n] ==> c in cs && c !in cs[n..]
    ensures forall c :: c in cs[n..] ==> c in cs
  {
  }

  lemma PopApart(i: Instance, j: Instance, id: nat, l: Loop, due: nat)
    requires NoDup(Chans(i.waiters)) && Apart(i) && id in i.loops && due <= |i.waiters|
    requires j == Put(i.(waiters := i.waiters[due..]), id, l)
    requires Listed(l) == Chans(i.waiters[..due])
    ensures Apart(j)
  {
    var cs := Chans(i.waiters);
    SplitApart(cs, due);
    assert Listed(l) == cs[..due] && Chans(j.waiters) == cs[due..];
  }

  /** What a loop that has just popped the first `due` waiters holds is in order. */
  lemma PoppedLoopOk(i: Instance, l: Loop, due: nat)
    requires WaitersOk(i) && due <= |i.waiters|
    requires Listed(l) == Chans(i.waiters[..due])
    requires l.pc == Sweeping || l.pc == Notifying
    requires l.toNotify != [] ==> l.pc == Notifying
    requires l.pc == Notifying ==> l.batch != [] && l.outcome.status != Pending
    requires forall c :: c in l.toNotify && l.batch != [] ==>
      c in i.chans && i.chans[c] == Channel(l.batch[0].seqNo, [])
    ensures LoopOk(i.chans, l)
  {
    SplitApart(Chans(i.waiters), due);
    assert Listed(l) == Chans(i.waiters)[..due];
    forall c | c in l.toClose ensures c in i.chans && !IsClosed(i.chans[c]) {
      assert c in Listed(l);
      var k :| 0 <= k < due && Listed(l)[k] == c;
      assert i.waiters[k].ch == c;
    }
  }

  lemma SweptLoop(i: Instance, l: Loop, due: nat)
    requires WaitersOk(i) && LoopOk(i.chans, l) && l.pc == Top && due <= |i.waiters|
    ensures var m := l.(pc := Sweeping, seen := None, toClose := Chans(i.waiters[..due]));
            Listed(l) == [] && Listed(m) == Chans(i.waiters[..due]) && LoopOk(i.chans, m)
  {
    var m := l.(pc := Sweeping, seen := None, toClose := Chans(i.waiters[..due]));
    assert l.toClose == [] && l.toNotify == [];
    PoppedLoopOk(i, m, due);
  }

  lemma SweepPreserves(b: Behaviour, i: Instance, rows: seq<Row>, id: nat)
    requires WaiterInv(i) && LoopEnabled(b, i, id, Sweep)
    ensures WaiterInv(LoopApply(b, i, rows, id, Sweep))
  {
    var l := i.loops[id];
    var due := DueCount(i.waiters, l.seen.value - 1);
    SweptLoop(i, l, due);
    var m := l.(pc := Sweeping, seen := None, toClose := Chans(i.waiters[..due]));
    PopPreserves(i, LoopApply(b, i, rows, id, Sweep), id, m, due);
  }

  lemma MatchedWaitForIt(i: Instance, s: int)
    requires WaitersOk(i)
    ensures forall c :: c in Matched(i.waiters, s) ==> c in i.chans && i.chans[c] == Channel(s, [])
  {
    forall c | c in Matched(i.waiters, s) ensures c in i.chans && i.chans[c] == Channel(s, []) { MatchedChan(i, s, c); }
  }

  lemma MatchedChan(i: Instance, s: int, c: nat)
    requires WaitersOk(i) && c in Matched(i.waiters, s)
    ensures c in i.chans && i.chans[c] == Channel(s, [])
  {
    var mid, cs := MissedCount(i.waiters, s), Matched(i.waiters, s);
    PopBySeq(i.waiters, s);
    var k :| 0 <= k < |cs| && cs[k] == c;
    assert i.waiters[mid + k].ch == c;
  }

  lemma NotifyPreserves(b: Behaviour, i: Instance, rows: seq<Row>, id: nat)
    requires WaiterInv(i) && LoopEnabled(b, i, id, Notify)
    ensures WaiterInv(LoopApply(b, i, rows, id, Notify))
  {
    var l := i.loops[id];
    var s := l.batch[0].seqNo;
    var due := DueCount(i.waiters, s);
    var m := l.(pc := Notifying, toClose := Missed(i.waiters, s), toNotify := Matched(i.waiters, s));
    assert LoopOk(i.chans, l);
    DueAreMissedOrMatched(i.waiters, s);
    MatchedWaitForIt(i, s);
    PoppedLoopOk(i, m, due);
    PopPreserves(i, LoopApply(b, i, rows, id, Notify), id, m, due);
  }

  /** `j` is `i` after one event on channel `c`, which loop `id` holds and may have finished with. */
  ghost predicate EventStep(i: Instance, j: Instance, id: nat, l: Loop, c: nat, e: Event) {
    && id in i.loops && c in Listed(i.loops[id]) && c in i.chans
    && j == Put(i.(chans := AddEvent(i.chans, c, e)), id, l)
    && (forall x :: x in Listed(l) ==> x in Listed(i.loops[id]))
    && (forall x :: x in Listed(i.loops[id]) ==> x in Listed(l) || x == c)
  }

  lemma EventParked(i: Instance, j: Instance, id: nat, l: Loop, c: nat, e: Event, x: nat)
    requires EventStep(i, j, id, l, c, e) && x != c && Parked(i, x)
    ensures Parked(j, x)
  {
    if x !in Chans(i.waiters) {
      var k :| k in i.loops && x in Listed(i.loops[k]);
      assert k in j.loops && x in Listed(j.loops[k]);
    }
  }

  lemma EventChans(i: Instance, j: Instance, id: nat, l: Loop, c: nat, e: Event)
    requires ChansOk(i) && EventStep(i, j, id, l, c, e)
    requires WellUsed(j.chans[c]) && (IsClosed(j.chans[c]) || c in Listed(l))
    ensures ChansOk(j)
  {
    forall x | x in j.chans && !IsClosed(j.chans[x]) ensures Parked(j, x) {
      if x == c { assert id in j.loops && x in Listed(j.loops[id]); } else { EventParked(i, j, id, l, c, e, x); }
    }
  }

  lemma EventLoops(i: Instance, j: Instance, id: nat, l: Loop, c: nat, e: Event, k: nat)
    requires Apart(i) && EventStep(i, j, id, l, c, e) && k in i.loops && k != id && LoopOk(i.chans, i.loops[k])
    ensures LoopOk(j.chans, i.loops[k])
  {
    UntouchedLoopOk(i.chans, j.chans, i.loops[k], [c]);
  }

  lemma EventWaiters(i: Instance, j: Instance, id: nat, l: Loop, c: nat, e: Event)
    requires WaitersOk(i) && Apart(i) && EventStep(i, j, id, l, c, e)
    ensures WaitersOk(j)
  {
    assert c !in Chans(i.waiters);
    assert forall k :: 0 <= k < |i.waiters| ==> Chans(i.waiters)[k] == i.waiters[k].ch != c;
  }

  /** Adding an event to a channel that only loop `id` holds. */
  lemma EventPreserves(i: Instance, j: Instance, id: nat, l: Loop, c: nat, e: Event)
    requires WaiterInv(i) && EventStep(i, j, id, l, c, e) && LoopOk(j.chans, l)
    requires WellUsed(j.chans[c]) && (IsClosed(j.chans[c]) || c in Listed(l))
    ensures WaiterInv(j)
  {
    EventWaiters(i, j, id, l, c, e);
    EventChans(i, j, id, l, c, e);
    forall k | k in j.loops ensures LoopOk(j.chans, j.loops[k]) {
      if k != id { EventLoops(i, j, id, l, c, e, k); }
    }
    assert id in j.loops;
  }

  /** A loop that holds none of the channels touched is as it was. */
  lemma UntouchedLoopOk(before: map<nat, Channel>, chans: map<nat, Channel>, l: Loop, cs: seq<nat>)
    requires LoopOk(before, l) && forall c :: c in Listed(l) ==> c !in cs
    requires forall x :: x in before && x !in cs ==> x in chans && chans[x] == before[x]
    ensures LoopOk(chans, l)
  {
    forall x | x in l.toClose ensures x in chans && !IsClosed(chans[x]) { assert x in Listed(l); }
    forall x | x in l.toNotify && l.batch != [] ensures x in chans && chans[x] == Channel(l.batch[0].seqNo, []) {
      assert x in Listed(l);
    }
  }

  lemma CloseOneLoopOk(before: map<nat, Channel>, chans: map<nat, Channel>, l: Loop, m: Loop, c: nat)
    requires LoopOk(before, l) && l.toClose != [] && c == l.toClose[0] && m == l.(toClose := l.toClose[1..])
    requires forall x :: x in before && x != c ==> x in chans && chans[x] == before[x]
    ensures Listed(l) == [c] + Listed(m) && c !in Listed(m)
    ensures LoopOk(chans, m)
  {
    assert Listed(l) == [c] + Listed(m);
    SplitApart(Listed(l), 1);
    assert Listed(m) == Listed(l)[1..] && c in Listed(l)[..1];
    forall x | x in m.toClose ensures x in chans && !IsClosed(chans[x]) { assert x in Listed(m) && x in l.toClose; }
    forall x | x in m.toNotify && m.batch != [] ensures x in chans && chans[x] == Channel(m.batch[0].seqNo, []) {
      assert x in Listed(m) && x in l.toNotify;
    }
  }

  lemma CloseOnePreserves(b: Behaviour, i: Instance, rows: seq<Row>, id: nat)
    requires WaiterInv(i) && LoopEnabled(b, i, id, CloseOne)
    ensures WaiterInv(LoopApply(b, i, rows, id, CloseOne))
  {
    var l := i.loops[id];
    var c := l.toClose[0];
    var m := l.(toClose := l.toClose[1..]);
    var j := LoopApply(b, i, rows, id, CloseOne);
    assert LoopOk(i.chans, l);
    assert c in i.chans && WellUsed(i.chans[c]) && !IsClosed(i.chans[c]);
    CloseOneLoopOk(i.chans, j.chans, l, m, c);
    EventPreserves(i, j, id, m, c, Closed);
  }

  lemma DeliverLoopOk(before: map<nat, Channel>, chans: map<nat, Channel>, l: Loop, m: Loop, c: nat)
    requires LoopOk(before, l) && l.toClose == [] && l.toNotify != [] && c == l.toNotify[0]
    requires l.pc == Notifying && m == l.(toClose := [c], toNotify := l.toNotify[1..])
    requires forall x :: x in before && x != c ==> x in chans && chans[x] == before[x]
    requires c in chans && !IsClosed(chans[c])
    ensures Listed(l) == Listed(m) && c in Listed(m)
    ensures LoopOk(chans, m)
  {
    assert Listed(l) == l.toNotify == Listed(m);
    SplitApart(Listed(l), 1);
    assert c in Listed(l)[..1] && m.toNotify == Listed(l)[1..];
    assert c in m.toClose;
  }

  lemma DeliverPreserves(b: Behaviour, i: Instance, rows: seq<Row>, id: nat)
    requires WaiterInv(i) && LoopEnabled(b, i, id, Deliver)
    ensures WaiterInv(LoopApply(b, i, rows, id, Deliver))
  {
    var l := i.loops[id];
    var c := l.toNotify[0];
    var m := l.(toClose := [c], toNotify := l.toNotify[1..]);
    var e := Sent(l.batch[0].(outcome := l.outcome));
    var j := LoopApply(b, i, rows, id, Deliver);
    assert LoopOk(i.chans, l);
    assert i.chans[c] == Channel(l.batch[0].seqNo, []);
    assert j.chans[c].events == [e];
    DeliverLoopOk(i.chans, j.chans, l, m, c);
    EventPreserves(i, j, id, m, c, e);
  }

  lemma WaitingIsUntouched(i: Instance)
    requires WaitersOk(i)
    ensures forall c :: c in Chans(i.waiters) ==> c in i.chans && i.chans[c].events == []
  {
    forall c | c in Chans(i.waiters) ensures c in i.chans && i.chans[c].events == [] {
      var k :| 0 <= k < |i.waiters| && Chans(i.waiters)[k] == c;
      assert i.waiters[k].ch == c;
    }
  }

  lemma CleanupChans(i: Instance, j: Instance, id: nat)
    requires ChansOk(i) && WaitersOk(i) && id in i.loops && Listed(i.loops[id]) == []
    requires j.chans == CloseAll(i.chans, Chans(i.waiters)) && j.loops == i.loops - {id}
    ensures ChansOk(j)
  {
    WaitingIsUntouched(i);
    forall c | c in j.chans && !IsClosed(j.chans[c]) ensures Parked(j, c) {
      assert c !in Chans(i.waiters) && Parked(i, c);
      var k :| k in i.loops && c in Listed(i.loops[k]);
      assert k in j.loops && c in Listed(j.loops[k]);
    }
  }

  lemma CleanupPreserves(b: Behaviour, i: Instance, rows: seq<Row>, id: nat)
    requires WaiterInv(i) && LoopEnabled(b, i, id, Cleanup)
    ensures WaiterInv(LoopApply(b, i, rows, id, Cleanup))
  {
    var j := LoopApply(b, i, rows, id, Cleanup);
    var cs := Chans(i.waiters);
    assert LoopOk(i.chans, i.loops[id]) && Listed(i.loops[id]) == [];
    CleanupChans(i, j, id);
    forall k | k in j.loops ensures LoopOk(j.chans, j.loops[k]) {
      assert k in i.loops && LoopOk(i.chans, i.loops[k]);
      assert forall c :: c in Listed(i.loops[k]) ==> c !in cs;
      UntouchedLoopOk(i.chans, j.chans, i.loops[k], cs);
    }
  }

  /** The remaining steps only move the loop along. */
  lemma QuietPreserves(b: Behaviour, i: Instance, rows: seq<Row>, id: nat, step: LoopStep)
    requires WaiterInv(i) && LoopEnabled(b, i, id, step)
    requires Quiet(step)
    ensures WaiterInv(LoopApply(b, i, rows, id, step))
  {
    var j := LoopApply(b, i, rows, id, step);
    QuietFrame(b, i, rows, id, step);
    QuietLoop(b, i, rows, id, step);
    MovePreserves(i, j, id, j.loops[id]);
  }

  predicate Quiet(step: LoopStep) {
    !step.Sweep? && !step.CloseOne? && !step.Deliver? && !step.Notify? && !step.Cleanup?
  }

  lemma QuietFrame(b: Behaviour, i: Instance, rows: seq<Row>, id: nat, step: LoopStep)
    requires LoopEnabled(b, i, id, step) && Quiet(step)
    ensures var j := LoopApply(b, i, rows, id, step);
            && j.waiters == i.waiters && j.chans == i.chans && (j.processing ==> i.processing) && id in j.loops
            && j.loops == i.loops[id := j.loops[id]]
            && j.loops[id].toClose == i.loops[id].toClose && j.loops[id].toNotify == i.loops[id].toNotify
  {
  }

  /** A loop only moves on quietly with empty hands, except to save and record what it decided. */
  lemma QuietLoop(b: Behaviour, i: Instance, rows: seq<Row>, id: nat, step: LoopStep)
    requires LoopEnabled(b, i, id, step) && Quiet(step) && LoopOk(i.chans, i.loops[id])
    ensures id in LoopApply(b, i, rows, id, step).loops && LoopOk(i.chans, LoopApply(b, i, rows, id, step).loops[id])
  {
    QuietFrame(b, i, rows, id, step);
    var l, m := i.loops[id], LoopApply(b, i, rows, id, step).loops[id];
    assert l.toClose == [] && l.toNotify == [];
    assert Decided(m.pc) ==> m.batch != [] && m.outcome.status != Pending;
  }

  lemma LoopStepPreserves(b: Behaviour, i: Instance, rows: seq<Row>, id: nat, step: LoopStep)
    requires WaiterInv(i) && LoopEnabled(b, i, id, step)
    ensures WaiterInv(LoopApply(b, i, rows, id, step))
  {
    match step
    case Sweep => SweepPreserves(b, i, rows, id);
    case CloseOne => CloseOnePreserves(b, i, rows, id);
    case Deliver => DeliverPreserves(b, i, rows, id);
    case Notify => NotifyPreserves(b, i, rows, id);
    case Cleanup => CleanupPreserves(b, i, rows, id);
    case _ => QuietPreserves(b, i, rows, id, step);
  }

  // ----- The callers' steps -----

  lemma NewChannelIsNobodys(i: Instance, ch: nat)
    requires WaitersOk(i) && ch !in i.chans
    ensures DistinctChans(i.waiters) && forall k :: 0 <= k < |i.waiters| ==> i.waiters[k].ch != ch
  {
    forall k, m | 0 <= k < m < |i.waiters| ensures i.waiters[k].ch != i.waiters[m].ch {
      assert Chans(i.waiters)[k] != Chans(i.waiters)[m];
    }
  }

  lemma RegisterChans(i: Instance, chans: map<nat, Channel>, w: Waiter, k: nat)
    requires WaitersOk(i) && w.ch !in i.chans && chans == i.chans[w.ch := Channel(w.seqNo, [])]
    requires k < |Waiters.Insert(i.waiters, w)|
    ensures var v := Waiters.Insert(i.waiters, w)[k]; v.ch in chans && chans[v.ch] == Channel(v.seqNo, [])
  {
    InsertedOrOld(i.waiters, w, k);
  }

  lemma RegisterWaiters(i: Instance, j: Instance, w: Waiter)
    requires WaitersOk(i) && w.ch !in i.chans
    requires j.waiters == Waiters.Insert(i.waiters, w) && j.chans == i.chans[w.ch := Channel(w.seqNo, [])]
    ensures WaitersOk(j)
  {
    InsertSorted(i.waiters, w);
    NewChannelIsNobodys(i, w.ch);
    InsertDistinct(i.waiters, w);
    forall k | 0 <= k < |j.waiters|
      ensures j.waiters[k].ch in j.chans && j.chans[j.waiters[k].ch] == Channel(j.waiters[k].seqNo, [])
    {
      RegisterChans(i, j.chans, w, k);
    }
  }

  /** Starting a loop unless the flag says one runs. */
  lemma StartPreserves(j: Instance, id: nat)
    requires WaitersOk(j) && Apart(j) && ChansOk(j) && id !in j.loops
    requires forall k :: k in j.loops ==> LoopOk(j.chans, j.loops[k])
    requires j.processing ==> j.loops != map[]
    ensures WaiterInv(Started(j, id))
  {
    if !j.processing {
      var e := Started(j, id);
      assert id in e.loops && Listed(NEW_LOOP) == [];
      StillParked(j, e);
    }
  }

  /** Adding a channel nobody holds yet leaves every loop and every other channel alone. */
  lemma NewChanLoops(i: Instance, chans: map<nat, Channel>, ch: nat, c: Channel)
    requires forall id :: id in i.loops ==> LoopOk(i.chans, i.loops[id])
    requires ch !in i.chans && chans == i.chans[ch := c]
    ensures forall id :: id in i.loops ==> LoopOk(chans, i.loops[id]) && ch !in Listed(i.loops[id])
  {
    forall id | id in i.loops ensures LoopOk(chans, i.loops[id]) && ch !in Listed(i.loops[id]) {
      var l := i.loops[id];
      assert LoopOk(i.chans, l);
      UntouchedLoopOk(i.chans, chans, l, []);
    }
  }

  /** Registering a waiter and starting a loop if none runs is one critical section. */
  lemma RegisterPreserves(i: Instance, ch: nat, seqNo: int, id: nat)
    requires WaiterInv(i) && ch !in i.chans && id !in i.loops
    ensures WaiterInv(Started(i.(waiters := Waiters.Insert(i.waiters, Waiter(seqNo, ch)),
                                 chans := i.chans[ch := Channel(seqNo, [])]), id))
  {
    var j := i.(waiters := Waiters.Insert(i.waiters, Waiter(seqNo, ch)), chans := i.chans[ch := Channel(seqNo, [])]);
    RegisterWaiters(i, j, Waiter(seqNo, ch));
    InsertChans(i.waiters, Waiter(seqNo, ch));
    NewChanLoops(i, j.chans, ch, Channel(seqNo, []));
    assert Apart(j);
    StillParked(i, j);
    StartPreserves(j, id);
  }

  lemma CloseNowPreserves(i: Instance, ch: nat, seqNo: int)
    requires WaiterInv(i) && ch !in i.chans
    ensures WaiterInv(i.(chans := i.chans[ch := Channel(seqNo, [Closed])]))
  {
    var j := i.(chans := i.chans[ch := Channel(seqNo, [Closed])]);
    NewChanLoops(i, j.chans, ch, Channel(seqNo, [Closed]));
    StillParked(i, j);
  }

  lemma StepPreserves(b: Behaviour, s: State, a: Action)
    requires s.inst.Some? ==> WaiterInv(s.inst.value)
    requires Enabled(b, s, a)
    ensures Apply(b, s, a).inst.Some? ==> WaiterInv(Apply(b, s, a).inst.value)
  {
    match a
    case Register(ch, seqNo, id) => RegisterPreserves(s.inst.value, ch, seqNo, id);
    case CloseNow(ch, seqNo) => CloseNowPreserves(s.inst.value, ch, seqNo);
    case StartDrain(id) => StartPreserves(s.inst.value, id);
    case Do(id, step) => LoopStepPreserves(b, s.inst.value, s.db.rows, id, step);
    case Destroy =>
      StillParked(s.inst.value, Apply(b, s, a).inst.value);
    case _ =>
  }

  // ----- The accounting theorem -----

  /** In every state of every run, however many loops overlap:
      - every registered channel has seen at most one value and at most one close, in that order;
      - the value, if any, is the decided call its caller waits for;
      - the waiter list is sorted, and as long as it is not empty some loop is left to empty it;
      - once no loop is left, every registered channel has been closed. */
  lemma {:induction false} EveryWaiterIsAnsweredOnce(b: Behaviour, acts: seq<Action>, states: seq<State>, k: nat)
    requires IsRun(b, acts, states) && k < |states|
    ensures states[k].inst.Some? ==>
      var i := states[k].inst.value;
      && WaiterInv(i)
      && (forall c :: c in i.chans ==> WellUsed(i.chans[c]))
      && Sorted(i.waiters)
      && (i.waiters != [] ==> i.loops != map[])
      && (i.loops == map[] ==> forall c :: c in i.chans ==> IsClosed(i.chans[c]))
  {
    if k > 0 {
      EveryWaiterIsAnsweredOnce(b, acts, states, k - 1);
      StepPreserves(b, states[k - 1], acts[k - 1]);
    }
  }
}
