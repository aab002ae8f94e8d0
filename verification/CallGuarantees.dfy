/** The promises of reliable calls: exactly-once effect and its exact condition, one answer per call,
    and the one way a call can lose its answer. */
module CallGuarantees {
  import opened Options
  import opened CallEngine
  import opened CallSafety
  import opened CallFlag

  // ----- Exactly once -----

  /** The calls whose sequence number lies below a marker, in table order. */
  function CallsBefore(rows: seq<Row>, next: int): seq<Row> {
    if rows == [] then []
    else (if rows[0].seqNo < next then [rows[0]] else []) + CallsBefore(rows[1..], next)
  }

  lemma {:induction false} CallsBeforeIsPrefix(rows: seq<Row>, next: int, k: nat)
    requires k <= |rows|
    requires forall j :: 0 <= j < k ==> rows[j].seqNo < next
    requires forall j :: k <= j < |rows| ==> next <= rows[j].seqNo
    ensures CallsBefore(rows, next) == rows[..k]
  {
    if rows != [] {
      CallsBeforeIsPrefix(rows[1..], next, if k > 0 then k - 1 else 0);
      if k > 0 { assert rows[..k] == [rows[0]] + rows[1..][..k - 1]; }
    }
  }

  /** `sn` is what running every call below its marker, once each and in order, produces. */
  ghost predicate IsReplay(b: Behaviour, rows: seq<Row>, sn: Snapshot) {
    && Replays(b, CallsBefore(rows, sn.next), sn.history)
    && sn.data == DataAt(b, sn.history, |sn.history|)
  }

  /** The object row and the live object's memory are each the replay of exactly the inserted calls
      below their own marker: none skipped, none run twice, in order. */
  ghost predicate ExactlyOnce(b: Behaviour, s: State) {
    && IsReplay(b, s.db.rows, Load(b, s.db))
    && (s.inst.Some? ==> IsReplay(b, s.db.rows, s.inst.value.mem))
  }

  lemma {:induction false} CallsBeforeGrows(rows: seq<Row>, next: int, next': int)
    requires next <= next'
    ensures |CallsBefore(rows, next)| <= |CallsBefore(rows, next')|
  {
    if rows != [] { CallsBeforeGrows(rows[1..], next, next'); }
  }

  /** A stale execution appends to a history that already had all calls below the new marker. */
  lemma StaleBreaksIt(b: Behaviour, s: State, a: Action)
    requires Enabled(b, s, a) && Stale(s, a) && ExactlyOnce(b, s)
    ensures !ExactlyOnce(b, Apply(b, s, a))
  {
    var i, j := s.inst.value, Apply(b, s, a).inst.value;
    CallsBeforeGrows(s.db.rows, j.mem.next, i.mem.next);
    assert |j.mem.history| == |i.mem.history| + 1;
  }

  /** Exactly-once effect, over every run with any overlap of loops and any number of crashes, evictions
      and reactivations: it holds in all states if and only if no step of the run executes a call that
      lies below the executing object's own marker. */
  lemma ExactlyOnceIffNoneStale(b: Behaviour, acts: seq<Action>, states: seq<State>)
    requires IsRun(b, acts, states)
    ensures (forall k :: 0 <= k < |states| ==> ExactlyOnce(b, states[k]))
       <==> (forall k :: 0 <= k < |acts| ==> !Stale(states[k], acts[k]))
  {
    if k :| 0 <= k < |acts| && Stale(states[k], acts[k]) {
      if ExactlyOnce(b, states[k]) {
        StaleBreaksIt(b, states[k], acts[k]);
        assert !ExactlyOnce(b, states[k + 1]);
      }
    } else {
      forall k | 0 <= k < |states| ensures ExactlyOnce(b, states[k]) { FreshIsExactlyOnce(b, acts, states, k); }
    }
  }

  lemma FreshIsExactlyOnce(b: Behaviour, acts: seq<Action>, states: seq<State>, k: nat)
    requires FreshRun(b, acts, states) && k < |states|
    ensures ExactlyOnce(b, states[k])
  {
    FreshInv(b, acts, states, k);
    var db := states[k].db;
    SnapIsReplay(b, db, Load(b, db));
    if states[k].inst.Some? { SnapIsReplay(b, db, states[k].inst.value.mem); }
  }

  /** If a loop's exit and its cleanup were one critical section, every run would be exactly-once. */
  lemma AtomicExitIsExactlyOnce(b: Behaviour, acts: seq<Action>, states: seq<State>, k: nat)
    requires IsRun(b, acts, states) && ExitsAtomically(acts, states) && k < |states|
    ensures ExactlyOnce(b, states[k])
  {
    AtomicExitIsOrderly(b, acts, states);
    OrderlyIsFresh(b, acts, states);
    FreshIsExactlyOnce(b, acts, states, k);
  }

  lemma SnapIsReplay(b: Behaviour, db: Db, sn: Snapshot)
    requires SnapOk(b, db.rows, db.nextSeq, sn)
    ensures IsReplay(b, db.rows, sn)
  {
    CallsBeforeIsPrefix(db.rows, sn.next, |sn.history|);
  }

  /** Methods whose effect depends on nothing but state and request. */
  ghost predicate Computes(b: Behaviour, run: (string, string, string) -> string) {
    forall before, row, after, out :: CanRun(b, before, row, after, out) ==>
      after == run(before, row.methodName, row.requestData)
  }

  function Fold(run: (string, string, string) -> string, data: string, calls: seq<Row>): string {
    if calls == [] then data
    else
      var last := calls[|calls| - 1];
      run(Fold(run, data, calls[..|calls| - 1]), last.methodName, last.requestData)
  }

  lemma {:induction false} FoldLast(run: (string, string, string) -> string, data: string, calls: seq<Row>, n: nat)
    requires 0 < n <= |calls|
    ensures Fold(run, data, calls[..n])
         == run(Fold(run, data, calls[..n - 1]), calls[n - 1].methodName, calls[n - 1].requestData)
  {
    assert calls[..n][..n - 1] == calls[..n - 1];
  }

  lemma ReplayStep(b: Behaviour, run: (string, string, string) -> string, calls: seq<Row>, history: seq<Ran>, n: nat)
    requires Computes(b, run) && Replays(b, calls, history) && 0 < n <= |calls|
    ensures DataAt(b, history, n) == run(DataAt(b, history, n - 1), calls[n - 1].methodName, calls[n - 1].requestData)
  {
    var ran := history[n - 1];
    assert CanRun(b, ran.before, calls[n - 1], ran.after, ran.outcome);
  }

  lemma {:induction false} ReplayIsFold(b: Behaviour, run: (string, string, string) -> string,
                                        calls: seq<Row>, history: seq<Ran>, n: nat)
    requires Computes(b, run) && Replays(b, calls, history) && n <= |calls|
    ensures DataAt(b, history, n) == Fold(run, b.blank, calls[..n])
  {
    if n > 0 {
      ReplayIsFold(b, run, calls, history, n - 1);
      ReplayStep(b, run, calls, history, n);
      FoldLast(run, b.blank, calls, n);
    }
  }

  /** For such methods the saved state is the fold of the calls below the marker. */
  lemma SavedStateIsFold(b: Behaviour, run: (string, string, string) -> string,
                         acts: seq<Action>, states: seq<State>, k: nat)
    requires FreshRun(b, acts, states) && k < |states| && Computes(b, run)
    ensures var sn := Load(b, states[k].db);
            sn.data == Fold(run, b.blank, CallsBefore(states[k].db.rows, sn.next))
  {
    FreshIsExactlyOnce(b, acts, states, k);
    var sn := Load(b, states[k].db);
    var calls := CallsBefore(states[k].db.rows, sn.next);
    ReplayIsFold(b, run, calls, sn.history, |calls|);
    assert calls[..|calls|] == calls;
  }

  // ----- Execution order -----

  predicate Executes(a: Action) {
    a.Do? && a.step.Execute?
  }

  /** The number of the call that step `a` executes. */
  function ExecutedSeq(s: State, a: Action): int {
    if s.inst.Some? && a.Do? && a.id in s.inst.value.loops && s.inst.value.loops[a.id].batch != []
    then s.inst.value.loops[a.id].batch[0].seqNo else 0
  }

  predicate EndsInstance(a: Action) {
    a.Crash? || a.Evict?
  }

  /** Within one instance the marker never falls, except by a stale execution. */
  lemma MarkerStep(b: Behaviour, s: State, a: Action)
    requires Enabled(b, s, a) && !EndsInstance(a) && !Stale(s, a) && s.inst.Some?
    ensures Apply(b, s, a).inst.Some? && s.inst.value.mem.next <= Apply(b, s, a).inst.value.mem.next
    ensures Executes(a) ==> s.inst.value.mem.next <= ExecutedSeq(s, a) < Apply(b, s, a).inst.value.mem.next
  {
    if a.Do? { LoopMarker(b, s.inst.value, s.db.rows, a.id, a.step); }
  }

  lemma LoopMarker(b: Behaviour, i: Instance, rows: seq<Row>, id: nat, step: LoopStep)
    requires LoopEnabled(b, i, id, step)
    ensures var j := LoopApply(b, i, rows, id, step);
            if step.Execute? then i.loops[id].batch != [] && j.mem.next == i.loops[id].batch[0].seqNo + 1
            else j.mem == i.mem
  {
  }

  lemma {:induction false} MarkerRises(b: Behaviour, acts: seq<Action>, states: seq<State>, k: nat, m: nat)
    requires FreshRun(b, acts, states) && k <= m < |states| && states[k].inst.Some?
    requires forall j :: k <= j < m ==> !EndsInstance(acts[j])
    ensures states[m].inst.Some? && states[k].inst.value.mem.next <= states[m].inst.value.mem.next
    decreases m - k
  {
    if k < m {
      MarkerRises(b, acts, states, k, m - 1);
      MarkerStep(b, states[m - 1], acts[m - 1]);
    }
  }

  /** No step from `k` on, up to `m`, ends the instance. */
  ghost predicate SameInstance(acts: seq<Action>, k: nat, m: nat)
    requires k <= m <= |acts|
  {
    forall j :: k <= j < m ==> !EndsInstance(acts[j])
  }

  /** Every instance executes calls in strictly increasing order. */
  ghost predicate InOrder(acts: seq<Action>, states: seq<State>)
    requires |acts| < |states|
  {
    forall k, m :: 0 <= k < m < |acts| && Executes(acts[k]) && Executes(acts[m]) && SameInstance(acts, k, m) ==>
      ExecutedSeq(states[k], acts[k]) < ExecutedSeq(states[m], acts[m])
  }

  lemma FreshIsInOrder(b: Behaviour, acts: seq<Action>, states: seq<State>, k: nat, m: nat)
    requires FreshRun(b, acts, states) && k < m < |acts| && Executes(acts[k]) && Executes(acts[m])
    requires SameInstance(acts, k, m)
    ensures ExecutedSeq(states[k], acts[k]) < ExecutedSeq(states[m], acts[m])
  {
    MarkerStep(b, states[k], acts[k]);
    MarkerRises(b, acts, states, k + 1, m);
    MarkerStep(b, states[m], acts[m]);
  }

  /** No loop holds a call below the marker, or has read a lower one. */
  ghost predicate AllAhead(i: Instance) {
    && (forall x, j :: x in i.loops && 0 <= j < |i.loops[x].batch| ==> i.loops[x].batch[j].seqNo >= i.mem.next)
    && (forall x :: x in i.loops && i.loops[x].seen.Some? ==> i.loops[x].seen.value >= i.mem.next)
  }

  /** Step `k` executed the call just below the marker that the instance has at `m`. */
  ghost predicate SetsMarker(acts: seq<Action>, states: seq<State>, k: nat, m: nat)
    requires m <= |acts| < |states|
  {
    && k < m && Executes(acts[k]) && SameInstance(acts, k, m)
    && states[m].inst.Some? && ExecutedSeq(states[k], acts[k]) + 1 == states[m].inst.value.mem.next
  }

  /** A step gives no loop a call it did not have, except by fetching. */
  lemma BatchesStay(b: Behaviour, i: Instance, rows: seq<Row>, id: nat, step: LoopStep)
    requires LoopEnabled(b, i, id, step)
    ensures var j := LoopApply(b, i, rows, id, step);
            forall x, k :: x in j.loops && 0 <= k < |j.loops[x].batch| ==>
              || (x in i.loops && j.loops[x].batch[k] in i.loops[x].batch)
              || (step.Fetch? && j.loops[x].batch[k] in PendingFrom(rows, i.loops[id].seen.value))
  {
  }

  /** A step gives no loop a marker it had not read, except by looking. */
  lemma SeenStays(b: Behaviour, i: Instance, rows: seq<Row>, id: nat, step: LoopStep)
    requires LoopEnabled(b, i, id, step)
    ensures var j := LoopApply(b, i, rows, id, step);
            forall x :: x in j.loops && j.loops[x].seen.Some? ==>
              j.loops[x].seen == Some(i.mem.next) || (x in i.loops && j.loops[x].seen == i.loops[x].seen)
  {
    if !step.Cleanup? { StepFrame(b, i, rows, id, step); }
  }

  lemma LoopStepKeepsAhead(b: Behaviour, i: Instance, rows: seq<Row>, id: nat, step: LoopStep)
    requires AllAhead(i) && LoopEnabled(b, i, id, step) && !step.Execute?
    ensures AllAhead(LoopApply(b, i, rows, id, step))
  {
    if step.Fetch? { PendingIsAhead(rows, i.loops[id].seen.value); }
    LoopMarker(b, i, rows, id, step);
    SeenStays(b, i, rows, id, step);
    BatchesStay(b, i, rows, id, step);
  }

  lemma ExecuteSetsMarker(b: Behaviour, acts: seq<Action>, states: seq<State>, k: nat)
    requires IsRun(b, acts, states) && k < |acts| && Executes(acts[k])
    ensures SetsMarker(acts, states, k, k + 1)
  {
    var s, a := states[k], acts[k];
    LoopMarker(b, s.inst.value, s.db.rows, a.id, a.step);
  }

  lemma MarkerStaysSet(acts: seq<Action>, states: seq<State>, k: nat, m: nat)
    requires m < |acts| < |states| && SetsMarker(acts, states, k, m) && !EndsInstance(acts[m])
    requires states[m + 1].inst.Some? && states[m + 1].inst.value.mem == states[m].inst.value.mem
    ensures SetsMarker(acts, states, k, m + 1)
  {
  }

  /** What an instance has in hand lies at or above its marker until it executes something; from then on
      the marker is the last executed number plus one. */
  lemma {:induction false} MarkerHasSource(b: Behaviour, acts: seq<Action>, states: seq<State>, m: nat) returns (k: nat)
    requires IsRun(b, acts, states) && m < |states|
    ensures states[m].inst.Some? && !AllAhead(states[m].inst.value) ==> SetsMarker(acts, states, k, m)
  {
    k := 0;
    if m > 0 && states[m].inst.Some? {
      var s, a := states[m - 1], acts[m - 1];
      if Executes(a) {
        k := m - 1;
        ExecuteSetsMarker(b, acts, states, m - 1);
      } else if !a.Activate? {
        k := MarkerHasSource(b, acts, states, m - 1);
        QuietSource(b, s, a);
        if !AllAhead(s.inst.value) { MarkerStaysSet(acts, states, k, m - 1); }
      }
    }
  }

  lemma QuietSource(b: Behaviour, s: State, a: Action)
    requires Enabled(b, s, a) && Apply(b, s, a).inst.Some? && !Executes(a) && !a.Activate?
    ensures s.inst.Some? && !EndsInstance(a) && Apply(b, s, a).inst.value.mem == s.inst.value.mem
    ensures AllAhead(s.inst.value) ==> AllAhead(Apply(b, s, a).inst.value)
  {
    if a.Do? {
      LoopMarker(b, s.inst.value, s.db.rows, a.id, a.step);
      if AllAhead(s.inst.value) { LoopStepKeepsAhead(b, s.inst.value, s.db.rows, a.id, a.step); }
    }
  }

  lemma StaleIsOutOfOrder(b: Behaviour, acts: seq<Action>, states: seq<State>, m: nat)
    requires IsRun(b, acts, states) && m < |acts| && Stale(states[m], acts[m])
    ensures !InOrder(acts, states)
  {
    var i := states[m].inst.value;
    assert i.loops[acts[m].id].batch[0].seqNo < i.mem.next;
    var k := MarkerHasSource(b, acts, states, m);
    assert Executes(acts[k]) && Executes(acts[m]) && SameInstance(acts, k, m);
  }

  /** One instance executes calls in strictly increasing order, even as calls are inserted during a
      drain and even if its loops overlap, if and only if it executes nothing stale. */
  lemma InOrderIffNoneStale(b: Behaviour, acts: seq<Action>, states: seq<State>)
    requires IsRun(b, acts, states)
    ensures InOrder(acts, states) <==> forall k :: 0 <= k < |acts| ==> !Stale(states[k], acts[k])
  {
    if m :| 0 <= m < |acts| && Stale(states[m], acts[m]) {
      StaleIsOutOfOrder(b, acts, states, m);
    } else {
      forall k, m | 0 <= k < m < |acts| && Executes(acts[k]) && Executes(acts[m]) && SameInstance(acts, k, m)
        ensures ExecutedSeq(states[k], acts[k]) < ExecutedSeq(states[m], acts[m])
      {
        FreshIsInOrder(b, acts, states, k, m);
      }
    }
  }

  // ----- One answer per call -----

  /** Whoever asks for a call, by channel, on retry or by polling, in any state of a run without stale
      executions, is told the same outcome: the outcome of the one execution that is in the saved history. */
  lemma ResultAgreement(b: Behaviour, acts: seq<Action>, states: seq<State>, k: nat, m: nat, x: Answer, y: Answer)
    requires FreshRun(b, acts, states) && k <= m < |states|
    requires x in states[k].answers && y in states[m].answers && x.callId == y.callId
    ensures x.outcome == y.outcome
    ensures var db := states[m].db;
            var h := Load(b, db).history;
            exists j :: 0 <= j < |h| && j < |db.rows| && db.rows[j].callId == x.callId
                        && h[j].seqNo == db.rows[j].seqNo && h[j].outcome == x.outcome
  {
    FreshInv(b, acts, states, m);
    AnswersLast(b, acts, states, k, m, x);
    var db := states[m].db;
    var h := Load(b, db).history;
    RowsAgree(db, x, y);
    var j :| 0 <= j < |db.rows| && db.rows[j].callId == x.callId && db.rows[j].outcome == x.outcome;
    assert j < |h| && h[j].outcome == x.outcome;
    assert h[j].seqNo == db.rows[..|h|][j].seqNo;
  }

  lemma SameCall(db: Db, j: nat, l: nat)
    requires TableOk(db) && j < |db.rows| && l < |db.rows|
    ensures db.rows[j].callId == db.rows[l].callId ==> j == l
  {
  }

  lemma RowsAgree(db: Db, x: Answer, y: Answer)
    requires TableOk(db) && InRows(db.rows, x) && InRows(db.rows, y) && x.callId == y.callId
    ensures x.outcome == y.outcome
  {
    var j :| 0 <= j < |db.rows| && db.rows[j].callId == x.callId && db.rows[j].outcome == x.outcome;
    var l :| 0 <= l < |db.rows| && db.rows[l].callId == y.callId && db.rows[l].outcome == y.outcome;
    SameCall(db, j, l);
  }

  /** Answers are never taken back. */
  lemma {:induction false} AnswersLast(b: Behaviour, acts: seq<Action>, states: seq<State>, k: nat, m: nat, x: Answer)
    requires IsRun(b, acts, states) && k <= m < |states| && x in states[k].answers
    ensures x in states[m].answers
    decreases m - k
  {
    if k < m {
      AnswersLast(b, acts, states, k, m - 1, x);
      assert states[m] == Apply(b, states[m - 1], acts[m - 1]);
    }
  }

  /** What a status means: in a run without stale executions a call is skipped if and only if its request does
      not decode, and then the object is as it was; a call that succeeded has no error, one that failed has no
      result. */
  lemma StatusMeans(b: Behaviour, acts: seq<Action>, states: seq<State>, k: nat, j: nat)
    requires FreshRun(b, acts, states) && k < |states| && j < |states[k].db.rows|
    requires states[k].db.rows[j].outcome.status != Pending
    ensures var row, h := states[k].db.rows[j], Load(b, states[k].db).history;
            && j < |h| && h[j].seqNo == row.seqNo && h[j].outcome == row.outcome
            && (row.outcome.status == Skipped <==> !b.decodes(row.requestData))
            && (row.outcome.status == Skipped ==> h[j].after == h[j].before && row.outcome.resultData == "")
            && (row.outcome.status == Success ==> row.outcome.errorMessage == "")
            && (row.outcome.status == Failed ==> row.outcome.resultData == "")
  {
    FreshInv(b, acts, states, k);
    var row, h := states[k].db.rows[j], Load(b, states[k].db).history;
    assert row.outcome != UNDECIDED && j < |h| && states[k].db.rows[..|h|][j] == row;
    assert CanRun(b, h[j].before, row, h[j].after, h[j].outcome);
  }

  // ----- The answer that gets lost -----

  /** A loop has saved this call's effect and still owes its outcome to the table. */
  ghost predicate Owed(s: State, seqNo: int) {
    s.inst.Some? && exists x :: x in s.inst.value.loops && Owes(s.inst.value.loops[x], seqNo)
  }

  predicate Owes(l: Loop, seqNo: int) {
    l.pc == Saved && l.batch != [] && l.batch[0].seqNo == seqNo
  }

  /** The call has had its effect, the table calls it pending, and nobody is about to change that. */
  ghost predicate Stranded(b: Behaviour, s: State, seqNo: int) {
    && (exists j :: 0 <= j < |s.db.rows| && s.db.rows[j].seqNo == seqNo && s.db.rows[j].outcome == UNDECIDED)
    && seqNo < Load(b, s.db).next
    && !Owed(s, seqNo)
  }

  lemma ExecutedIsNew(b: Behaviour, s: State, id: nat)
    requires Inv(b, s) && s.inst.Some? && id in s.inst.value.loops && s.inst.value.loops[id].pc == Executed
    ensures var l := s.inst.value.loops[id]; l.batch != [] && Load(b, s.db).next <= l.batch[0].seqNo
  {
    var i := s.inst.value;
    var l, k := i.loops[id], |i.mem.history|;
    assert Ahead(i) && BatchOk(s.db.rows, i.mem, l);
    assert l.batch[0].seqNo == s.db.rows[k - 1].seqNo;
  }

  lemma StrandedStays(b: Behaviour, s: State, a: Action, seqNo: int)
    requires Inv(b, s) && Enabled(b, s, a) && !Stale(s, a) && Stranded(b, s, seqNo)
    ensures Stranded(b, Apply(b, s, a), seqNo)
  {
    StepKeepsInv(b, s, a);
    var t := Apply(b, s, a);
    var j :| 0 <= j < |s.db.rows| && s.db.rows[j].seqNo == seqNo && s.db.rows[j].outcome == UNDECIDED;
    NoNewDebt(b, s, a, seqNo);
    RowKept(b, s, a, j);
    MarkerGrows(b, s, a);
  }

  lemma LoopDebt(b: Behaviour, i: Instance, rows: seq<Row>, id: nat, step: LoopStep, x: nat, seqNo: int)
    requires LoopEnabled(b, i, id, step) && x in LoopApply(b, i, rows, id, step).loops
    requires Owes(LoopApply(b, i, rows, id, step).loops[x], seqNo)
    ensures x in i.loops
    ensures Owes(i.loops[x], seqNo)
            || (&& x == id && step == Save && i.loops[x].pc == Executed
                && i.loops[x].batch != [] && i.loops[x].batch[0].seqNo == seqNo)
  {
    if x == id {
      match step
      case Save =>
      case CloseOne =>
      case _ =>
    }
  }

  lemma DebtComesFromSave(b: Behaviour, s: State, a: Action, x: nat, seqNo: int)
    requires Enabled(b, s, a)
    requires Apply(b, s, a).inst.Some? && x in Apply(b, s, a).inst.value.loops
    requires Owes(Apply(b, s, a).inst.value.loops[x], seqNo)
    ensures s.inst.Some? && x in s.inst.value.loops
    ensures var l := s.inst.value.loops[x];
            Owes(l, seqNo) || (a == Do(x, Save) && l.pc == Executed && l.batch != [] && l.batch[0].seqNo == seqNo)
  {
    if a.Do? { LoopDebt(b, s.inst.value, s.db.rows, a.id, a.step, x, seqNo); }
  }

  /** Only the call being saved comes to be owed, and it lies at or above the saved marker. */
  lemma NoNewDebt(b: Behaviour, s: State, a: Action, seqNo: int)
    requires Inv(b, s) && Enabled(b, s, a) && seqNo < Load(b, s.db).next && !Owed(s, seqNo)
    ensures !Owed(Apply(b, s, a), seqNo)
  {
    if Owed(Apply(b, s, a), seqNo) {
      var x :| x in Apply(b, s, a).inst.value.loops && Owes(Apply(b, s, a).inst.value.loops[x], seqNo);
      DebtComesFromSave(b, s, a, x, seqNo);
      if !Owes(s.inst.value.loops[x], seqNo) { ExecutedIsNew(b, s, x); }
      assert false;
    }
  }

  lemma RowKept(b: Behaviour, s: State, a: Action, j: nat)
    requires Enabled(b, s, a) && j < |s.db.rows| && !Owed(s, s.db.rows[j].seqNo)
    ensures j < |Apply(b, s, a).db.rows| && Apply(b, s, a).db.rows[j] == s.db.rows[j]
  {
    if a.Do? && a.step.Record? {
      assert !Owes(s.inst.value.loops[a.id], s.db.rows[j].seqNo);
    }
  }

  predicate WritesObject(a: Action) {
    a.PeriodicSave? || a.Evict? || (a.Do? && a.step.Save?)
  }

  lemma ObjectRowKept(b: Behaviour, s: State, a: Action)
    requires Enabled(b, s, a) && !WritesObject(a)
    ensures Load(b, Apply(b, s, a).db) == Load(b, s.db)
  {
  }

  lemma MarkerGrows(b: Behaviour, s: State, a: Action)
    requires Inv(b, s) && Enabled(b, s, a)
    ensures Load(b, s.db).next <= Load(b, Apply(b, s, a).db).next
    ensures !a.Do? ==> Load(b, s.db).next == Load(b, Apply(b, s, a).db).next
  {
    if !WritesObject(a) {
      ObjectRowKept(b, s, a);
    } else if a.Do? {
      ExecutedIsNew(b, s, a.id);
      SavedAbove(b, s, a.id);
    } else {
      QuietFacts(b, s.db, s.inst.value);
    }
  }

  lemma SavedAbove(b: Behaviour, s: State, id: nat)
    requires Inv(b, s) && s.inst.Some? && id in s.inst.value.loops && s.inst.value.loops[id].pc == Executed
    ensures s.inst.value.loops[id].batch != []
    ensures s.inst.value.loops[id].batch[0].seqNo < s.inst.value.mem.next
  {
    var i := s.inst.value;
    assert BatchOk(s.db.rows, i.mem, i.loops[id]);
    assert i.loops[id].batch[0].seqNo == s.db.rows[|i.mem.history| - 1].seqNo;
  }

  /** A call whose effect is saved becomes stranded exactly when the process dies between saving
      the object and recording the outcome (object/object.go:710 and 716). */
  lemma StrandedByCrashOnly(b: Behaviour, s: State, a: Action, seqNo: int)
    requires Inv(b, s) && Enabled(b, s, a) && !Stale(s, a) && !Stranded(b, s, seqNo)
    ensures Stranded(b, Apply(b, s, a), seqNo) <==> a.Crash? && Owed(s, seqNo)
  {
    if a.Crash? && Owed(s, seqNo) {
      OwedIsSaved(b, s, seqNo);
      assert Stranded(b, Apply(b, s, a), seqNo);
    } else if Stranded(b, Apply(b, s, a), seqNo) {
      NotStrandedOtherwise(b, s, a, seqNo);
      assert false;
    }
  }

  /** The process dies while it owes this call's outcome to the table. */
  ghost predicate DiesOwing(s: State, a: Action, seqNo: int) {
    a.Crash? && Owed(s, seqNo)
  }

  /** Over a whole run without stale executions: a call is stranded if and only if some crash caught a loop
      between saving the call's effect and recording its outcome. */
  lemma {:induction false} StrandedIffDiedOwing(b: Behaviour, acts: seq<Action>, states: seq<State>, k: nat, seqNo: int)
    requires FreshRun(b, acts, states) && k < |states|
    ensures Stranded(b, states[k], seqNo) <==> exists c :: 0 <= c < k && DiesOwing(states[c], acts[c], seqNo)
  {
    if k > 0 {
      StrandedIffDiedOwing(b, acts, states, k - 1, seqNo);
      StrandedNow(b, acts, states, k - 1, seqNo);
    }
  }

  lemma StrandedNow(b: Behaviour, acts: seq<Action>, states: seq<State>, k: nat, seqNo: int)
    requires FreshRun(b, acts, states) && k < |acts|
    ensures Stranded(b, states[k + 1], seqNo) <==> Stranded(b, states[k], seqNo) || DiesOwing(states[k], acts[k], seqNo)
  {
    FreshInv(b, acts, states, k);
    if Stranded(b, states[k], seqNo) {
      StrandedStays(b, states[k], acts[k], seqNo);
    } else {
      StrandedByCrashOnly(b, states[k], acts[k], seqNo);
    }
  }

  lemma OwedIsSaved(b: Behaviour, s: State, seqNo: int)
    requires Inv(b, s) && Owed(s, seqNo)
    ensures exists j :: 0 <= j < |s.db.rows| && s.db.rows[j].seqNo == seqNo && s.db.rows[j].outcome == UNDECIDED
    ensures seqNo < Load(b, s.db).next
  {
    var i := s.inst.value;
    var x :| x in i.loops && Owes(i.loops[x], seqNo);
    SavedFacts(b, s.db, i, x);
    assert s.db.rows[|i.mem.history| - 1].seqNo == seqNo;
  }

  lemma NotStrandedOtherwise(b: Behaviour, s: State, a: Action, seqNo: int)
    requires Inv(b, s) && Enabled(b, s, a) && !Stranded(b, s, seqNo) && !(a.Crash? && Owed(s, seqNo))
    ensures !Stranded(b, Apply(b, s, a), seqNo)
  {
    if Stranded(b, Apply(b, s, a), seqNo) {
      var j := StrandedRow(b, Apply(b, s, a), seqNo);
      if a.Do? { LoopStrandsNobody(b, s, a.id, a.step, seqNo, j); }
      else { OthersStrandNobody(b, s, a, seqNo, j); }
      assert false;
    }
  }

  lemma StrandedRow(b: Behaviour, s: State, seqNo: int) returns (j: nat)
    requires Stranded(b, s, seqNo)
    ensures j < |s.db.rows| && s.db.rows[j].seqNo == seqNo && s.db.rows[j].outcome == UNDECIDED
  {
    j :| 0 <= j < |s.db.rows| && s.db.rows[j].seqNo == seqNo && s.db.rows[j].outcome == UNDECIDED;
  }

  lemma DebtSurvives(b: Behaviour, s: State, a: Action, seqNo: int)
    requires Enabled(b, s, a) && Owed(s, seqNo) && !a.Crash? && !a.Do?
    ensures Owed(Apply(b, s, a), seqNo)
  {
    var x :| x in s.inst.value.loops && Owes(s.inst.value.loops[x], seqNo);
    var t := Apply(b, s, a);
    assert HoldsState(s.inst.value.loops[x]);
    assert x in t.inst.value.loops && Owes(t.inst.value.loops[x], seqNo);
  }

  lemma OldRows(b: Behaviour, s: State, a: Action, j: nat)
    requires Enabled(b, s, a) && !a.Do? && j < |Apply(b, s, a).db.rows|
    ensures j < |s.db.rows| ==> Apply(b, s, a).db.rows[j] == s.db.rows[j]
    ensures j >= |s.db.rows| ==> Apply(b, s, a).db.rows[j].seqNo == s.db.nextSeq
  {
  }

  lemma OthersStrandNobody(b: Behaviour, s: State, a: Action, seqNo: int, j: nat)
    requires Inv(b, s) && Enabled(b, s, a) && !Stranded(b, s, seqNo) && !(a.Crash? && Owed(s, seqNo)) && !a.Do?
    requires j < |Apply(b, s, a).db.rows| && Apply(b, s, a).db.rows[j].seqNo == seqNo
    requires Apply(b, s, a).db.rows[j].outcome == UNDECIDED
    ensures !Stranded(b, Apply(b, s, a), seqNo)
  {
    MarkerGrows(b, s, a);
    OldRows(b, s, a, j);
    if Owed(s, seqNo) { DebtSurvives(b, s, a, seqNo); }
  }

  lemma LoopStrandsNobody(b: Behaviour, s: State, id: nat, step: LoopStep, seqNo: int, j: nat)
    requires Inv(b, s) && Enabled(b, s, Do(id, step)) && !Stranded(b, s, seqNo)
    requires j < |s.db.rows| && s.db.rows[j].seqNo == seqNo
    requires Apply(b, s, Do(id, step)).db.rows[j].outcome == UNDECIDED
    ensures !Stranded(b, Apply(b, s, Do(id, step)), seqNo)
  {
    if Owed(s, seqNo) {
      var x :| x in s.inst.value.loops && Owes(s.inst.value.loops[x], seqNo);
      if x == id { DebtorRecords(b, s, id, step, seqNo, j); }
      else { OtherDebtSurvives(b, s, id, step, x, seqNo); }
    } else if step.Save? {
      SaveOwes(b, s, id, seqNo, j);
    } else {
      ObjectRowKept(b, s, Do(id, step));
      RowKept(b, s, Do(id, step), j);
    }
  }

  lemma OtherDebtSurvives(b: Behaviour, s: State, id: nat, step: LoopStep, x: nat, seqNo: int)
    requires Enabled(b, s, Do(id, step)) && x in s.inst.value.loops && x != id && Owes(s.inst.value.loops[x], seqNo)
    ensures Owed(Apply(b, s, Do(id, step)), seqNo)
  {
    var t := Apply(b, s, Do(id, step));
    assert x in t.inst.value.loops && Owes(t.inst.value.loops[x], seqNo);
  }

  /** A loop that owes a call either keeps owing it or records it. */
  lemma DebtorRecords(b: Behaviour, s: State, id: nat, step: LoopStep, seqNo: int, j: nat)
    requires Inv(b, s) && Enabled(b, s, Do(id, step)) && Owes(s.inst.value.loops[id], seqNo)
    requires j < |s.db.rows| && s.db.rows[j].seqNo == seqNo
    requires Apply(b, s, Do(id, step)).db.rows[j].outcome == UNDECIDED
    ensures Owed(Apply(b, s, Do(id, step)), seqNo)
  {
    var t := Apply(b, s, Do(id, step));
    assert BatchOk(s.db.rows, s.inst.value.mem, s.inst.value.loops[id]);
    if !step.Record? { assert id in t.inst.value.loops && Owes(t.inst.value.loops[id], seqNo); }
  }

  /** A row at or above the one marker and below the other is one that only the latter's history covers. */
  lemma BetweenMarkers(b: Behaviour, rows: seq<Row>, nextSeq: int, saved: Snapshot, mem: Snapshot, j: nat)
    requires SnapOk(b, rows, nextSeq, saved) && SnapOk(b, rows, nextSeq, mem)
    requires j < |rows| && saved.next <= rows[j].seqNo < mem.next
    ensures |saved.history| <= j < |mem.history|
  {
  }

  lemma ExecutedBatch(rows: seq<Row>, mem: Snapshot, l: Loop)
    requires l.pc == Executed && BatchOk(rows, mem, l)
    ensures 0 < |mem.history| <= |rows| && l.batch != [] && l.batch[0].seqNo == rows[|mem.history| - 1].seqNo
  {
  }

  lemma OneAhead(b: Behaviour, db: Db, i: Instance, id: nat)
    requires MemOk(b, db, i) && id in i.loops && i.loops[id].pc == Executed
    ensures |i.mem.history| == |Load(b, db).history| + 1
  {
    assert Ahead(i);
  }

  /** Between the saved marker and memory's lies only the call a loop has executed and not saved. */
  lemma ExecutedBetween(b: Behaviour, db: Db, i: Instance, id: nat, j: nat)
    requires SnapOk(b, db.rows, db.nextSeq, Load(b, db)) && MemOk(b, db, i)
    requires id in i.loops && i.loops[id].pc == Executed && BatchOk(db.rows, i.mem, i.loops[id])
    requires j < |db.rows| && Load(b, db).next <= db.rows[j].seqNo < i.mem.next
    ensures i.loops[id].batch != [] && i.loops[id].batch[0].seqNo == db.rows[j].seqNo
  {
    OneAhead(b, db, i, id);
    BetweenMarkers(b, db.rows, db.nextSeq, Load(b, db), i.mem, j);
    ExecutedBatch(db.rows, i.mem, i.loops[id]);
  }

  lemma SaverOwes(b: Behaviour, s: State, id: nat, seqNo: int)
    requires Enabled(b, s, Do(id, Save)) && s.inst.value.loops[id].batch != []
    requires s.inst.value.loops[id].batch[0].seqNo == seqNo
    ensures Owed(Apply(b, s, Do(id, Save)), seqNo)
  {
    var t := Apply(b, s, Do(id, Save));
    assert id in t.inst.value.loops && Owes(t.inst.value.loops[id], seqNo);
  }

  /** A save makes exactly one more call owed, and that is the only pending one it moves the marker past. */
  lemma SaveOwes(b: Behaviour, s: State, id: nat, seqNo: int, j: nat)
    requires Inv(b, s) && Enabled(b, s, Do(id, Save)) && !Stranded(b, s, seqNo) && !Owed(s, seqNo)
    requires j < |s.db.rows| && s.db.rows[j].seqNo == seqNo && s.db.rows[j].outcome == UNDECIDED
    ensures !Stranded(b, Apply(b, s, Do(id, Save)), seqNo)
  {
    var i := s.inst.value;
    assert Load(b, s.db).next <= seqNo;
    assert Load(b, Apply(b, s, Do(id, Save)).db) == i.mem;
    if seqNo < i.mem.next {
      ExecutedBetween(b, s.db, i, id, j);
      SaverOwes(b, s, id, seqNo);
    }
  }

  /** Once stranded, always stranded: the call's row stays pending for good and no caller of it is
      ever given an answer, although its effect is part of the saved state. */
  lemma StrandedForever(b: Behaviour, acts: seq<Action>, states: seq<State>, k: nat, m: nat, j: nat)
    requires FreshRun(b, acts, states) && k <= m < |states|
    requires j < |states[k].db.rows| && Stranded(b, states[k], states[k].db.rows[j].seqNo)
    ensures j < |states[m].db.rows| && states[m].db.rows[j] == states[k].db.rows[j]
    ensures Stranded(b, states[m], states[m].db.rows[j].seqNo)
    ensures forall a :: a in states[m].answers ==> a.callId != states[m].db.rows[j].callId
  {
    StaysStranded(b, acts, states, k, m, j, states[k].db.rows[j]);
    FreshInv(b, acts, states, m);
    NobodyAnswered(b, states[m], j);
  }

  ghost predicate StrandedAt(b: Behaviour, s: State, j: nat, row: Row) {
    j < |s.db.rows| && s.db.rows[j] == row && Stranded(b, s, row.seqNo)
  }

  lemma {:induction false} StaysStranded(b: Behaviour, acts: seq<Action>, states: seq<State>, k: nat, m: nat,
                                         j: nat, row: Row)
    requires FreshRun(b, acts, states) && k <= m < |states| && StrandedAt(b, states[k], j, row)
    ensures StrandedAt(b, states[m], j, row)
    decreases m - k
  {
    if k < m {
      StaysStranded(b, acts, states, k, m - 1, j, row);
      FreshInv(b, acts, states, m - 1);
      StrandedStep(b, states[m - 1], acts[m - 1], j, row);
    }
  }

  lemma StrandedStep(b: Behaviour, s: State, a: Action, j: nat, row: Row)
    requires Inv(b, s) && Enabled(b, s, a) && !Stale(s, a) && StrandedAt(b, s, j, row)
    ensures StrandedAt(b, Apply(b, s, a), j, row)
  {
    StrandedStays(b, s, a, row.seqNo);
    RowKept(b, s, a, j);
  }

  lemma UniqueRow(db: Db, j: nat, l: nat)
    requires TableOk(db) && j < |db.rows| && l < |db.rows| && db.rows[l].seqNo == db.rows[j].seqNo
    ensures j == l
  {
  }

  lemma NobodyAnswered(b: Behaviour, s: State, j: nat)
    requires TableOk(s.db) && AnswersOk(s.db.rows, s.answers) && j < |s.db.rows| && Stranded(b, s, s.db.rows[j].seqNo)
    ensures forall a :: a in s.answers ==> a.callId != s.db.rows[j].callId
  {
    var i :| 0 <= i < |s.db.rows| && s.db.rows[i].seqNo == s.db.rows[j].seqNo && s.db.rows[i].outcome == UNDECIDED;
    UniqueRow(s.db, j, i);
    forall a | a in s.answers ensures a.callId != s.db.rows[j].callId {
      var l :| 0 <= l < |s.db.rows| && s.db.rows[l].callId == a.callId && s.db.rows[l].outcome == a.outcome;
      SameCall(s.db, j, l);
    }
  }
}
