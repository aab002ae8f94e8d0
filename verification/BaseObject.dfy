/** The object and its tables as the source writes them: fields updated in place.

    `CallTable` is the pair of tables behind util/postgres/persistence.go for one object, `BaseObject`
    the object of object/object.go. Each method is tied to the function the step system of
    `CallEngine` uses for the same critical section. */
module BaseObjects {
  import opened Options
  import opened Waiters
  import opened CallEngine
  import opened CallSafety

  class CallTable {
    var rows: seq<Row>
    var nextSeq: int
    var saved: Option<Snapshot>

    ghost function Contents(): Db
      reads this
    {
      Db(rows, nextSeq, saved)
    }

    constructor ()
      ensures Contents() == INITIAL.db
    {
      rows, nextSeq, saved := [], 1, None;
    }

    /** INSERT ... ON CONFLICT: a new pending row, or the row this call ID already has. A conflict
        uses up a sequence number all the same. */
    method InsertOrGet(callId: string, methodName: string, requestData: string) returns (result: Option<Row>)
      requires TableOk(Contents())
      modifies this
      ensures TableOk(Contents()) && saved == old(saved)
      ensures callId == "" || methodName == "" ==> result.None? && Contents() == old(Contents())
      ensures callId != "" && methodName != "" ==> result.Some? && result.value in rows && result.value.callId == callId
      ensures callId != "" && methodName != "" ==> nextSeq == old(nextSeq) + 1
      ensures HasCall(old(rows), callId) ==> rows == old(rows)
      ensures callId != "" && methodName != "" && !HasCall(old(rows), callId) ==>
        && result.value == Row(old(nextSeq), callId, methodName, requestData, UNDECIDED)
        && rows == old(rows) + [result.value]
    {
      if callId == "" || methodName == "" { return None; }
      var seqNo := nextSeq;
      nextSeq := nextSeq + 1;
      var i := 0;
      while i < |rows|
        invariant 0 <= i <= |rows|
        invariant forall k :: 0 <= k < i ==> rows[k].callId != callId
      {
        if rows[i].callId == callId { return Some(rows[i]); }
        i := i + 1;
      }
      var row := Row(seqNo, callId, methodName, requestData, UNDECIDED);
      rows := rows + [row];
      result := Some(row);
    }

    /** SELECT ... WHERE seq >= next AND status = 'pending' ORDER BY seq. */
    method GetPending(next: int) returns (calls: seq<Row>)
      ensures calls == PendingFrom(rows, next)
      ensures forall r :: r in calls <==> r in rows && r.seqNo >= next && r.outcome.status == Pending
    {
      calls := [];
      var i := |rows|;
      while i > 0
        invariant 0 <= i <= |rows|
        invariant calls == PendingFrom(rows[i..], next)
      {
        i := i - 1;
        assert rows[i..][1..] == rows[i + 1..];
        if rows[i].seqNo >= next && rows[i].outcome.status == Pending { calls := [rows[i]] + calls; }
      }
      assert rows[0..] == rows;
      PendingExactly(rows, next);
    }

    /** UPDATE ... WHERE seq = seqNo; reports whether a row was there to update. */
    method UpdateStatus(seqNo: int, out: Outcome) returns (ok: bool)
      modifies this
      ensures saved == old(saved) && nextSeq == old(nextSeq)
      ensures ok <==> seqNo > 0 && HasSeq(old(rows), seqNo)
      ensures rows == if ok then RecordOutcome(old(rows), seqNo, out) else old(rows)
    {
      if seqNo <= 0 { return false; }
      ok := false;
      var i := 0;
      while i < |rows|
        invariant 0 <= i <= |rows| == |old(rows)| && saved == old(saved) && nextSeq == old(nextSeq)
        invariant rows[i..] == old(rows)[i..]
        invariant rows[..i] == RecordOutcome(old(rows), seqNo, out)[..i]
        invariant ok <==> exists k :: 0 <= k < i && old(rows)[k].seqNo == seqNo
      {
        assert rows[i] == old(rows)[i];
        if rows[i].seqNo == seqNo {
          rows := rows[i := rows[i].(outcome := out)];
          ok := true;
        }
        i := i + 1;
      }
      if !ok { assert rows == old(rows); }
    }

    method SaveObject(sn: Snapshot)
      modifies this
      ensures Contents() == old(Contents()).(saved := Some(sn))
    {
      saved := Some(sn);
    }
  }

  lemma DueCountIs(ws: seq<Waiter>, s: int, n: nat)
    requires n <= |ws|
    requires forall i :: 0 <= i < n ==> ws[i].seqNo <= s
    requires n < |ws| ==> s < ws[n].seqNo
    ensures DueCount(ws, s) == n
  {
  }

  /** `w` sits at position `i` of a list that is otherwise `before`. */
  ghost predicate At(ws: seq<Waiter>, before: seq<Waiter>, w: Waiter, i: nat) {
    i <= |before| && ws == before[..i] + [w] + before[i..]
  }

  lemma BubbleUp(ws: seq<Waiter>, before: seq<Waiter>, w: Waiter, i: nat)
    requires At(ws, before, w, i) && i > 0
    ensures |ws| == |before| + 1 && ws[i] == w && ws[i - 1] == before[i - 1]
    ensures At(ws[i := ws[i - 1]][i - 1 := ws[i]], before, w, i - 1)
  {
  }

  lemma BubbledInto(ws: seq<Waiter>, before: seq<Waiter>, w: Waiter, i: nat)
    requires Sorted(before) && At(ws, before, w, i)
    requires i < |before| ==> w.seqNo < before[i].seqNo
    requires i > 0 ==> before[i - 1].seqNo <= w.seqNo
    ensures ws == Waiters.Insert(before, w) && Sorted(ws)
  {
    DueCountIs(before, w.seqNo, i);
    InsertSorted(before, w);
  }

  /** Memory, object row and call table agree: everything below the marker has been run, nothing above it. */
  ghost predicate Consistent(b: Behaviour, db: Db, mem: Snapshot) {
    TableOk(db) && RowsOk(b, db) && mem == Load(b, db) && SnapOk(b, db.rows, db.nextSeq, mem)
  }

  ghost predicate Implements(b: Behaviour, run: (string, string, string) -> (string, Outcome)) {
    forall before, row: Row {:trigger run(before, row.methodName, row.requestData)} :: b.decodes(row.requestData) ==>
      var (after, out) := run(before, row.methodName, row.requestData);
      CanRun(b, before, row, after, out)
  }

  lemma RunOne(b: Behaviour, db: Db, mem: Snapshot, after: string, out: Outcome)
    requires Consistent(b, db, mem) && |mem.history| < |db.rows|
    requires CanRun(b, mem.data, db.rows[|mem.history|], after, out)
    ensures var k := |mem.history|;
            var ran := Ran(db.rows[k].seqNo, mem.data, after, out);
            var next := Snapshot(after, ran.seqNo + 1, mem.history + [ran]);
            Consistent(b, Decide(db.(saved := Some(next)), k, out), next)
  {
    var k := |mem.history|;
    var ran := Ran(db.rows[k].seqNo, mem.data, after, out);
    var next := Snapshot(after, ran.seqNo + 1, mem.history + [ran]);
    ExecutedSnap(b, db, mem, after, out);
    SavedRows(b, db, next);
    SnapSurvivesRecord(b, db, k, out, next);
    TableSurvivesRecord(b, db.(saved := Some(next)), k, out);
  }

  /** The effect of processing the next call, as memory and tables see it. */
  lemma ProcessedOne(b: Behaviour, db: Db, mem: Snapshot, db': Db, mem': Snapshot, out: Outcome)
    requires Consistent(b, db, mem) && |mem.history| < |db.rows|
    requires CanRun(b, mem.data, db.rows[|mem.history|], mem'.data, out)
    requires var call := db.rows[|mem.history|];
             && mem' == Snapshot(mem'.data, call.seqNo + 1, mem.history + [Ran(call.seqNo, mem.data, mem'.data, out)])
             && db' == Db(RecordOutcome(db.rows, call.seqNo, out), db.nextSeq, Some(mem'))
    ensures Consistent(b, db', mem') && out.status != Pending
    ensures db'.rows == db.rows[|mem.history| := db.rows[|mem.history|].(outcome := out)]
  {
    RunOne(b, db, mem, mem'.data, out);
    RecordIsOneRow(db, |mem.history|, out);
  }

  lemma FirstUnrun(b: Behaviour, db: Db, mem: Snapshot)
    requires Consistent(b, db, mem) && |mem.history| < |db.rows|
    ensures db.rows[|mem.history|].seqNo > 0 && HasSeq(db.rows, db.rows[|mem.history|].seqNo)
  {
  }

  /** How far a drain that started from `rows0` with `k0` calls run has come. */
  ghost predicate Drained(rows0: seq<Row>, k0: nat, rows: seq<Row>, history: seq<Ran>) {
    && k0 <= |history| <= |rows| == |rows0|
    && (forall j :: |history| <= j < |rows| ==> rows[j] == rows0[j])
    && (forall j :: k0 <= j < |history| ==>
          rows[j] == rows0[j].(outcome := history[j].outcome) && rows[j].outcome.status != Pending)
  }

  function Least(a: nat, b: nat): nat {
    if a <= b then a else b
  }

  /** A call sent on a channel. */
  datatype Delivery = Delivery(ch: nat, call: Row)

  function Deliveries(chans: seq<nat>, call: Row): (ds: seq<Delivery>)
    ensures |ds| == |chans| && forall i :: 0 <= i < |ds| ==> ds[i] == Delivery(chans[i], call)
  {
    seq(|chans|, i requires 0 <= i < |chans| => Delivery(chans[i], call))
  }

  /** The calls of `ran` are in the order of their numbers. */
  ghost predicate InOrder(ran: seq<Row>) {
    forall i, j :: 0 <= i < j < |ran| ==> ran[i].seqNo < ran[j].seqNo
  }

  /** The call of number `n` among those run. */
  function RowOf(ran: seq<Row>, n: int): (row: Row)
    requires HasSeq(ran, n)
    ensures row in ran && row.seqNo == n
  {
    var k := |ran| - 1;
    if ran[k].seqNo == n then ran[k]
    else
      assert HasSeq(ran[..k], n);
      RowOf(ran[..k], n)
  }

  /** What is to be sent to these waiters: each gets its call if that is among those run. */
  function Served(ws: seq<Waiter>, ran: seq<Row>): seq<Delivery> {
    if ws == [] then []
    else
      (if HasSeq(ran, ws[0].seqNo) then [Delivery(ws[0].ch, RowOf(ran, ws[0].seqNo))] else [])
      + Served(ws[1..], ran)
  }

  /** The channels of those whose call is not. */
  function Unserved(ws: seq<Waiter>, ran: seq<Row>): seq<nat> {
    if ws == [] then []
    else (if HasSeq(ran, ws[0].seqNo) then [] else [ws[0].ch]) + Unserved(ws[1..], ran)
  }

  /** All of them were due by the last of the calls run. */
  ghost predicate AllDue(ws: seq<Waiter>, ran: seq<Row>) {
    forall i :: 0 <= i < |ws| ==> ran != [] && ws[i].seqNo <= ran[|ran| - 1].seqNo
  }

  /** None of them was. */
  ghost predicate NoneDue(ws: seq<Waiter>, ran: seq<Row>) {
    ran != [] ==> forall i :: 0 <= i < |ws| ==> ws[i].seqNo > ran[|ran| - 1].seqNo
  }

  /** What a pass that has run the calls `ran` has done for the waiters it started with: those waiting for a
      later call are still on the list; of all others, in order, those whose call was run have been sent it,
      and the rest have only been closed. */
  ghost predicate Settles(ws0: seq<Waiter>, ran: seq<Row>, ws: seq<Waiter>, closed: seq<nat>, sent: seq<Delivery>) {
    && |ws| <= |ws0| && ws == ws0[|ws0| - |ws|..]
    && SettledWith(ws0[..|ws0| - |ws|], ran, closed, sent) && NoneDue(ws, ran)
  }

  ghost predicate SettledWith(gone: seq<Waiter>, ran: seq<Row>, closed: seq<nat>, sent: seq<Delivery>) {
    AllDue(gone, ran) && closed == Unserved(gone, ran) && sent == Served(gone, ran)
  }

  lemma {:induction false} ServedAppend(a: seq<Waiter>, b: seq<Waiter>, ran: seq<Row>)
    ensures Served(a + b, ran) == Served(a, ran) + Served(b, ran)
  {
    if a == [] {
      assert a + b == b;
    } else {
      assert (a + b)[1..] == a[1..] + b && (a + b)[0] == a[0];
      ServedAppend(a[1..], b, ran);
    }
  }

  lemma {:induction false} UnservedAppend(a: seq<Waiter>, b: seq<Waiter>, ran: seq<Row>)
    ensures Unserved(a + b, ran) == Unserved(a, ran) + Unserved(b, ran)
  {
    if a == [] {
      assert a + b == b;
    } else {
      assert (a + b)[1..] == a[1..] + b && (a + b)[0] == a[0];
      UnservedAppend(a[1..], b, ran);
    }
  }

  lemma OneMoreRun(ran: seq<Row>, f: Row, n: int)
    requires n != f.seqNo
    ensures HasSeq(ran + [f], n) <==> HasSeq(ran, n)
    ensures HasSeq(ran, n) ==> RowOf(ran + [f], n) == RowOf(ran, n)
  {
    if i :| 0 <= i < |ran| && ran[i].seqNo == n { assert (ran + [f])[i].seqNo == n; }
    assert (ran + [f])[..|ran|] == ran;
  }

  /** A later call changes nothing for those who were due before it. */
  lemma {:induction false} ServedStays(a: seq<Waiter>, ran: seq<Row>, f: Row)
    requires forall i :: 0 <= i < |a| ==> a[i].seqNo < f.seqNo
    ensures Served(a, ran + [f]) == Served(a, ran) && Unserved(a, ran + [f]) == Unserved(a, ran)
  {
    if a != [] {
      OneMoreRun(ran, f, a[0].seqNo);
      ServedStays(a[1..], ran, f);
    }
  }

  lemma {:induction false} ServedAll(a: seq<Waiter>, ran: seq<Row>, f: Row)
    requires forall i :: 0 <= i < |a| ==> a[i].seqNo == f.seqNo
    ensures Served(a, ran + [f]) == Deliveries(Chans(a), f) && Unserved(a, ran + [f]) == []
  {
    if a != [] {
      assert (ran + [f])[|ran|] == f;
      ServedAll(a[1..], ran, f);
    }
  }

  lemma {:induction false} ServedNone(a: seq<Waiter>, ran: seq<Row>)
    requires forall i :: 0 <= i < |a| ==> !HasSeq(ran, a[i].seqNo)
    ensures Served(a, ran) == [] && Unserved(a, ran) == Chans(a)
  {
    if a != [] { ServedNone(a[1..], ran); }
  }

  lemma MissedUnrun(ws: seq<Waiter>, ran: seq<Row>, f: Row, i: nat)
    requires InOrder(ran + [f]) && i < |ws| && ws[i].seqNo < f.seqNo
    requires ran != [] ==> ws[i].seqNo > ran[|ran| - 1].seqNo
    ensures !HasSeq(ran + [f], ws[i].seqNo)
  {
    OneMoreRun(ran, f, ws[i].seqNo);
    LastIsHighest(ran, f);
  }

  /** The waiters popped for the call `f`, after all those before them. */
  lemma ServedNow(ws: seq<Waiter>, ran: seq<Row>, f: Row)
    requires Sorted(ws) && InOrder(ran + [f]) && NoneDue(ws, ran)
    ensures var due := ws[..DueCount(ws, f.seqNo)];
            && Served(due, ran + [f]) == Deliveries(Matched(ws, f.seqNo), f)
            && Unserved(due, ran + [f]) == Missed(ws, f.seqNo)
  {
    var m, d := MissedCount(ws, f.seqNo), DueCount(ws, f.seqNo);
    PopBySeq(ws, f.seqNo);
    forall i | 0 <= i < m ensures !HasSeq(ran + [f], ws[i].seqNo) { MissedUnrun(ws, ran, f, i); }
    ServedParts(ws[..m], ws[m..d], ran, f);
    assert ws[..d] == ws[..m] + ws[m..d];
  }

  lemma ServedParts(missed: seq<Waiter>, matched: seq<Waiter>, ran: seq<Row>, f: Row)
    requires forall i :: 0 <= i < |missed| ==> !HasSeq(ran + [f], missed[i].seqNo)
    requires forall i :: 0 <= i < |matched| ==> matched[i].seqNo == f.seqNo
    ensures Served(missed + matched, ran + [f]) == Deliveries(Chans(matched), f)
    ensures Unserved(missed + matched, ran + [f]) == Chans(missed)
  {
    ServedAppend(missed, matched, ran + [f]);
    UnservedAppend(missed, matched, ran + [f]);
    ServedNone(missed, ran + [f]);
    ServedAll(matched, ran, f);
  }

  lemma LastIsHighest(ran: seq<Row>, f: Row)
    requires InOrder(ran + [f])
    ensures forall i :: 0 <= i < |ran| ==> ran[i].seqNo <= ran[|ran| - 1].seqNo < f.seqNo
  {
    assert forall i :: 0 <= i < |ran| ==> (ran + [f])[i] == ran[i];
    assert (ran + [f])[|ran|] == f;
  }

  /** Where the list splits after the call `f`. */
  lemma DueOneMore(gone: seq<Waiter>, ws: seq<Waiter>, ran: seq<Row>, f: Row)
    requires InOrder(ran + [f]) && Sorted(ws) && AllDue(gone, ran)
    ensures AllDue(gone + ws[..DueCount(ws, f.seqNo)], ran + [f]) && NoneDue(Rest(ws, f.seqNo), ran + [f])
    ensures forall i :: 0 <= i < |gone| ==> gone[i].seqNo < f.seqNo
  {
    LastIsHighest(ran, f);
    DueIsEveryoneDue(ws, f.seqNo);
    assert (ran + [f])[|ran + [f]| - 1] == f;
  }

  lemma SettledOneMore(gone: seq<Waiter>, ws: seq<Waiter>, ran: seq<Row>, closed: seq<nat>, sent: seq<Delivery>, f: Row)
    requires InOrder(ran + [f]) && Sorted(ws) && SettledWith(gone, ran, closed, sent) && NoneDue(ws, ran)
    ensures SettledWith(gone + ws[..DueCount(ws, f.seqNo)], ran + [f],
                        closed + Missed(ws, f.seqNo), sent + Deliveries(Matched(ws, f.seqNo), f))
    ensures NoneDue(Rest(ws, f.seqNo), ran + [f])
  {
    DueOneMore(gone, ws, ran, f);
    ServedMore(gone, ws, ran, f);
  }

  lemma SettlesOneMore(ws0: seq<Waiter>, ran: seq<Row>, ws: seq<Waiter>, closed: seq<nat>, sent: seq<Delivery>, f: Row)
    requires Sorted(ws) && InOrder(ran + [f]) && Settles(ws0, ran, ws, closed, sent)
    ensures Settles(ws0, ran + [f], Rest(ws, f.seqNo),
                    closed + Missed(ws, f.seqNo), sent + Deliveries(Matched(ws, f.seqNo), f))
  {
    var d, n := |ws0| - |ws|, DueCount(ws, f.seqNo);
    SplitFurther(ws0, d, n);
    assert |ws0| - |Rest(ws, f.seqNo)| == d + n;
    SettledOneMore(ws0[..d], ws, ran, closed, sent, f);
  }

  lemma SplitFurther(ws0: seq<Waiter>, d: nat, n: nat)
    requires d + n <= |ws0|
    ensures ws0[..d] + ws0[d..][..n] == ws0[..d + n] && ws0[d..][n..] == ws0[d + n..]
  {
  }

  lemma ServedMore(before: seq<Waiter>, ws: seq<Waiter>, ran: seq<Row>, f: Row)
    requires Sorted(ws) && InOrder(ran + [f]) && NoneDue(ws, ran)
    requires forall i :: 0 <= i < |before| ==> before[i].seqNo < f.seqNo
    ensures var all := before + ws[..DueCount(ws, f.seqNo)];
            && Served(all, ran + [f]) == Served(before, ran) + Deliveries(Matched(ws, f.seqNo), f)
            && Unserved(all, ran + [f]) == Unserved(before, ran) + Missed(ws, f.seqNo)
  {
    ServedNow(ws, ran, f);
    ServedStays(before, ran, f);
    ServedAppend(before, ws[..DueCount(ws, f.seqNo)], ran + [f]);
    UnservedAppend(before, ws[..DueCount(ws, f.seqNo)], ran + [f]);
  }

  // ----- The same, waiter by waiter -----

  function SentTo(sent: seq<Delivery>): (cs: seq<nat>)
    ensures |cs| == |sent| && forall i :: 0 <= i < |sent| ==> cs[i] == sent[i].ch
  {
    seq(|sent|, i requires 0 <= i < |sent| => sent[i].ch)
  }

  /** How one waiter fares in a pass: it is sent its decided call, once, and nothing else; or it is closed,
      once, without a value; or it is left on the list and nothing is done to its channel. */
  ghost predicate FaresWell(ran: seq<Row>, w: Waiter, ws: seq<Waiter>, closed: seq<nat>, sent: seq<Delivery>) {
    if HasSeq(ran, w.seqNo) then
      && w !in ws && multiset(closed)[w.ch] == 0 && multiset(SentTo(sent))[w.ch] == 1
      && exists row :: row in ran && row.seqNo == w.seqNo && Delivery(w.ch, row) in sent
    else if ran != [] && w.seqNo < ran[|ran| - 1].seqNo then
      w !in ws && multiset(closed)[w.ch] == 1 && multiset(SentTo(sent))[w.ch] == 0
    else
      w in ws && multiset(closed)[w.ch] == 0 && multiset(SentTo(sent))[w.ch] == 0
  }

  /** Every waiter the pass started with fares well, and nobody else is sent anything or closed. */
  ghost predicate AllFareWell(ws0: seq<Waiter>, ran: seq<Row>, ws: seq<Waiter>, closed: seq<nat>, sent: seq<Delivery>) {
    && (forall w :: w in ws0 ==> FaresWell(ran, w, ws, closed, sent))
    && (forall w :: w in ws ==> w in ws0)
    && (forall c :: c in closed ==> c in Chans(ws0)) && (forall c :: c in SentTo(sent) ==> c in Chans(ws0))
  }

  /** On a list without that channel nothing happens to it. */
  lemma {:induction false} NotTouched(a: seq<Waiter>, ran: seq<Row>, ch: nat)
    requires forall i :: 0 <= i < |a| ==> a[i].ch != ch
    ensures multiset(Unserved(a, ran))[ch] == 0 && multiset(SentTo(Served(a, ran)))[ch] == 0
  {
    if a != [] {
      NotTouched(a[1..], ran, ch);
      HeadOf(a, ran);
    }
  }

  lemma HeadOf(a: seq<Waiter>, ran: seq<Row>)
    requires a != []
    ensures multiset(SentTo(Served(a, ran)))
         == (if HasSeq(ran, a[0].seqNo) then multiset{a[0].ch} else multiset{}) + multiset(SentTo(Served(a[1..], ran)))
    ensures multiset(Unserved(a, ran))
         == (if HasSeq(ran, a[0].seqNo) then multiset{} else multiset{a[0].ch}) + multiset(Unserved(a[1..], ran))
  {
    if HasSeq(ran, a[0].seqNo) {
      SentToCons(Delivery(a[0].ch, RowOf(ran, a[0].seqNo)), Served(a[1..], ran));
      assert [] + Unserved(a[1..], ran) == Unserved(a[1..], ran);
    } else {
      assert [] + Served(a[1..], ran) == Served(a[1..], ran);
    }
  }

  lemma SentToCons(d: Delivery, sent: seq<Delivery>)
    ensures multiset(SentTo([d] + sent)) == multiset{d.ch} + multiset(SentTo(sent))
  {
    assert SentTo([d] + sent) == [d.ch] + SentTo(sent);
  }

  lemma {:induction false} TouchedOnce(a: seq<Waiter>, ran: seq<Row>, k: nat)
    requires DistinctChans(a) && k < |a|
    ensures multiset(SentTo(Served(a, ran)))[a[k].ch] == (if HasSeq(ran, a[k].seqNo) then 1 else 0)
    ensures multiset(Unserved(a, ran))[a[k].ch] == (if HasSeq(ran, a[k].seqNo) then 0 else 1)
    ensures HasSeq(ran, a[k].seqNo) ==> Delivery(a[k].ch, RowOf(ran, a[k].seqNo)) in Served(a, ran)
  {
    HeadOf(a, ran);
    if k == 0 {
      NotTouched(a[1..], ran, a[0].ch);
    } else {
      TouchedOnce(a[1..], ran, k - 1);
    }
  }

  lemma {:induction false} TouchedWaited(a: seq<Waiter>, ran: seq<Row>, ch: nat)
    requires ch in Unserved(a, ran) || ch in SentTo(Served(a, ran))
    ensures ch in Chans(a)
  {
    if ch !in Chans(a) {
      assert forall i :: 0 <= i < |a| ==> Chans(a)[i] != ch;
      NotTouched(a, ran, ch);
    }
  }

  /** A waiter that was due. */
  lemma DueFaresWell(ran: seq<Row>, gone: seq<Waiter>, ws: seq<Waiter>, k: nat)
    requires DistinctChans(gone + ws) && AllDue(gone, ran) && k < |gone|
    ensures FaresWell(ran, gone[k], ws, Unserved(gone, ran), Served(gone, ran))
  {
    var w := gone[k];
    Apart(gone, ws, k);
    TouchedOnce(gone, ran, k);
    assert w.seqNo == ran[|ran| - 1].seqNo ==> HasSeq(ran, w.seqNo);
  }

  lemma Apart(gone: seq<Waiter>, ws: seq<Waiter>, k: nat)
    requires DistinctChans(gone + ws) && k < |gone + ws|
    ensures DistinctChans(gone)
    ensures if k < |gone| then gone[k] !in ws
            else forall i :: 0 <= i < |gone| ==> gone[i].ch != (gone + ws)[k].ch
  {
    assert forall i :: 0 <= i < |gone| ==> (gone + ws)[i] == gone[i];
    assert forall i :: 0 <= i < |ws| ==> (gone + ws)[|gone| + i] == ws[i];
  }

  /** A waiter that was not. */
  lemma LaterFaresWell(ran: seq<Row>, gone: seq<Waiter>, ws: seq<Waiter>, k: nat)
    requires DistinctChans(gone + ws) && InOrder(ran) && NoneDue(ws, ran) && k < |ws|
    ensures FaresWell(ran, ws[k], ws, Unserved(gone, ran), Served(gone, ran))
  {
    Apart(gone, ws, |gone| + k);
    assert (gone + ws)[|gone| + k] == ws[k];
    NotTouched(gone, ran, ws[k].ch);
    assert forall i :: 0 <= i < |ran| ==> ran[i].seqNo <= ran[|ran| - 1].seqNo;
  }

  lemma MemberFaresWell(ran: seq<Row>, gone: seq<Waiter>, ws: seq<Waiter>, w: Waiter)
    requires DistinctChans(gone + ws) && InOrder(ran) && AllDue(gone, ran) && NoneDue(ws, ran) && w in gone + ws
    ensures FaresWell(ran, w, ws, Unserved(gone, ran), Served(gone, ran))
  {
    if w in gone {
      var k :| 0 <= k < |gone| && gone[k] == w;
      DueFaresWell(ran, gone, ws, k);
    } else {
      var k :| 0 <= k < |ws| && ws[k] == w;
      LaterFaresWell(ran, gone, ws, k);
    }
  }

  lemma NobodyElse(ran: seq<Row>, gone: seq<Waiter>, ws: seq<Waiter>, ch: nat)
    requires ch in Unserved(gone, ran) || ch in SentTo(Served(gone, ran))
    ensures ch in Chans(gone + ws)
  {
    TouchedWaited(gone, ran, ch);
    var i :| 0 <= i < |gone| && Chans(gone)[i] == ch;
    assert Chans(gone + ws)[i] == ch;
  }

  lemma AllFare(ws0: seq<Waiter>, ran: seq<Row>, ws: seq<Waiter>, closed: seq<nat>, sent: seq<Delivery>)
    requires DistinctChans(ws0) && InOrder(ran) && Settles(ws0, ran, ws, closed, sent)
    ensures AllFareWell(ws0, ran, ws, closed, sent)
  {
    var gone := ws0[..|ws0| - |ws|];
    assert ws0 == gone + ws;
    forall w | w in ws0 ensures FaresWell(ran, w, ws, closed, sent) { MemberFaresWell(ran, gone, ws, w); }
    forall c | c in closed || c in SentTo(sent) ensures c in Chans(ws0) { NobodyElse(ran, gone, ws, c); }
  }

  lemma DrainedOneMore(rows0: seq<Row>, k0: nat, rows: seq<Row>, history: seq<Ran>, rows': seq<Row>, history': seq<Ran>,
                       finished: Row)
    requires Drained(rows0, k0, rows, history) && |history| < |rows|
    requires |history'| == |history| + 1 && history <= history' && history'[|history|].outcome.status != Pending
    requires finished == rows[|history|].(outcome := history'[|history|].outcome)
    requires rows' == rows[|history| := finished]
    ensures Drained(rows0, k0, rows', history')
  {
  }

  /** Where a pass of the loop started. */
  datatype Pass = Pass(history: seq<Ran>, rows: seq<Row>, waiters: seq<Waiter>)

  /** The calls that a pass from `k0` on has run. */
  function RanRows(rows: seq<Row>, k0: nat, history: seq<Ran>): seq<Row>
    requires k0 <= |history| <= |rows|
  {
    rows[k0..|history|]
  }

  /** A pass of the loop, between two calls. */
  ghost predicate Underway(b: Behaviour, start: Pass, db: Db, mem: Snapshot, waiters: seq<Waiter>,
                           closed: seq<nat>, sent: seq<Delivery>)
  {
    && Consistent(b, db, mem) && Sorted(waiters) && Sorted(start.waiters)
    && start.history <= mem.history && |db.rows| == |start.rows|
    && Drained(start.rows, |start.history|, db.rows, mem.history)
    && Settles(start.waiters, RanRows(db.rows, |start.history|, mem.history), waiters, closed, sent)
  }

  lemma PassStarts(b: Behaviour, db: Db, mem: Snapshot, waiters: seq<Waiter>)
    requires Consistent(b, db, mem) && Sorted(waiters)
    ensures |mem.history| <= |db.rows| && PendingFrom(db.rows, mem.next) == db.rows[|mem.history|..]
    ensures Underway(b, Pass(mem.history, db.rows, waiters), db, mem, waiters, [], [])
  {
    PendingIsTail(db.rows, mem.next, |mem.history|);
  }

  /** What the pass has run grows by the call it has just finished. */
  lemma RanOneMore(db: Db, db': Db, k0: nat, history: seq<Ran>, history': seq<Ran>, finished: Row)
    requires k0 <= |history| < |db.rows| && |history'| == |history| + 1 && TableOk(db')
    requires db'.rows == db.rows[|history| := finished]
    ensures RanRows(db'.rows, k0, history') == RanRows(db.rows, k0, history) + [finished]
    ensures InOrder(RanRows(db.rows, k0, history) + [finished])
  {
    assert RanRows(db'.rows, k0, history') == RanRows(db.rows, k0, history) + [finished];
  }

  lemma RanInOrder(db: Db, k0: nat, history: seq<Ran>)
    requires TableOk(db) && k0 <= |history| <= |db.rows|
    ensures InOrder(RanRows(db.rows, k0, history))
  {
  }

  class BaseObject {
    var data: string
    var nextRcseq: int
    var history: seq<Ran> // history variable, as in `Snapshot`
    var processingCalls: bool
    var seqWaiters: seq<Waiter>

    ghost function Memory(): Snapshot
      reads this
    {
      Snapshot(data, nextRcseq, history)
    }

    /** Appends and bubbles up while the neighbour in front waits for a later call. */
    method InsertWaiterSorted(seqNo: int, ch: nat)
      requires Sorted(seqWaiters)
      modifies this`seqWaiters
      ensures seqWaiters == Waiters.Insert(old(seqWaiters), Waiter(seqNo, ch))
      ensures Sorted(seqWaiters) && multiset(seqWaiters) == multiset(old(seqWaiters)) + multiset{Waiter(seqNo, ch)}
    {
      ghost var before := seqWaiters;
      ghost var w := Waiter(seqNo, ch);
      seqWaiters := seqWaiters + [Waiter(seqNo, ch)];
      var i := |seqWaiters| - 1;
      while i > 0 && seqWaiters[i].seqNo < seqWaiters[i - 1].seqNo
        invariant 0 <= i <= |before| && At(seqWaiters, before, w, i)
        invariant i < |before| ==> seqNo < before[i].seqNo
      {
        BubbleUp(seqWaiters, before, w, i);
        seqWaiters := seqWaiters[i := seqWaiters[i - 1]][i - 1 := seqWaiters[i]];
        i := i - 1;
      }
      if i > 0 { BubbleUp(seqWaiters, before, w, i); }
      BubbledInto(seqWaiters, before, w, i);
      InsertMembers(before, w);
    }

    /** Pops everyone due and sorts them into those who missed their call and those whose call it is. */
    method PopDue(seqNo: int) returns (toClose: seq<nat>, toNotify: seq<nat>)
      requires Sorted(seqWaiters)
      modifies this`seqWaiters
      ensures toClose == Missed(old(seqWaiters), seqNo) && toNotify == Matched(old(seqWaiters), seqNo)
      ensures seqWaiters == Rest(old(seqWaiters), seqNo) && Sorted(seqWaiters)
    {
      ghost var before := seqWaiters;
      ghost var n, mid := 0, MissedCount(before, seqNo);
      PopBySeq(before, seqNo);
      toClose, toNotify := [], [];
      while |seqWaiters| > 0 && seqWaiters[0].seqNo <= seqNo
        invariant n <= DueCount(before, seqNo) && seqWaiters == before[n..]
        invariant n <= mid ==> toClose == Chans(before[..n]) && toNotify == []
        invariant n > mid ==> toClose == Chans(before[..mid]) && toNotify == Chans(before[mid..n])
        decreases |seqWaiters|
      {
        assert seqWaiters[0] == before[n];
        ChansSnoc(before, if n < mid then 0 else mid, n);
        if seqWaiters[0].seqNo == seqNo {
          toNotify := toNotify + [seqWaiters[0].ch];
        } else {
          toClose := toClose + [seqWaiters[0].ch];
        }
        seqWaiters := seqWaiters[1..];
        n := n + 1;
      }
      DueCountIs(before, seqNo, n);
    }

    /** Registers a waiter and says whether the caller must start the processing loop. */
    method Register(seqNo: int, ch: nat) returns (shouldStart: bool)
      requires Sorted(seqWaiters)
      modifies this`seqWaiters, this`processingCalls
      ensures Sorted(seqWaiters) && seqWaiters == Waiters.Insert(old(seqWaiters), Waiter(seqNo, ch))
      ensures processingCalls && shouldStart == !old(processingCalls)
    {
      InsertWaiterSorted(seqNo, ch);
      shouldStart := !processingCalls;
      if shouldStart { processingCalls := true; }
    }

    method TryExitIfNoWaiters() returns (exit: bool)
      modifies this`processingCalls
      ensures exit == (seqWaiters == [])
      ensures processingCalls == (old(processingCalls) && !exit)
    {
      if |seqWaiters| == 0 {
        processingCalls := false;
        return true;
      }
      return false;
    }

    method CleanupProcessingLoop() returns (closed: seq<nat>)
      modifies this`processingCalls, this`seqWaiters
      ensures !processingCalls && seqWaiters == [] && closed == Chans(old(seqWaiters))
    {
      processingCalls := false;
      closed := Chans(seqWaiters);
      seqWaiters := [];
    }

    /** Runs one call: mutate, advance the marker, save both together, then record the outcome. */
    method ProcessReliableCall(table: CallTable, run: (string, string, string) -> (string, Outcome),
                               decodes: string -> bool,
                               call: Row) returns (finished: Row)
      modifies this, table
      ensures finished == call.(outcome := finished.outcome)
      ensures if decodes(call.requestData)
              then (data, finished.outcome) == run(old(data), call.methodName, call.requestData)
              else data == old(data) && finished.outcome == Outcome(Skipped, "", "undecodable request")
      ensures nextRcseq == call.seqNo + 1
      ensures history == old(history) + [Ran(call.seqNo, old(data), data, finished.outcome)]
      ensures processingCalls == old(processingCalls) && seqWaiters == old(seqWaiters)
      ensures table.saved == Some(Memory()) && table.nextSeq == old(table.nextSeq)
      ensures table.rows == if call.seqNo > 0 && HasSeq(old(table.rows), call.seqNo)
                            then RecordOutcome(old(table.rows), call.seqNo, finished.outcome) else old(table.rows)
    {
      var before := data;
      var out := Outcome(Skipped, "", "undecodable request");
      if decodes(call.requestData) {
        var r := run(data, call.methodName, call.requestData);
        data, out := r.0, r.1;
      }
      nextRcseq := call.seqNo + 1;
      history := history + [Ran(call.seqNo, before, data, out)];
      table.SaveObject(Snapshot(data, nextRcseq, history));
      var _ := table.UpdateStatus(call.seqNo, out);
      finished := call.(outcome := out);
    }

    /** One pass of the processing loop with nobody in the way, up to a shutdown noticed after `limit`
        calls: the calls pending at the start are run in order, every one of them if there is no shutdown.
        From a state that replays the table's first calls the object comes out replaying so many more,
        saved, with every row saying what its run said. Everyone waiting for a call of the pass is sent
        its decided row, once; everyone waiting for another call up to the last one is closed without a
        value, once; nobody else is touched. */
    method DrainPending(table: CallTable, b: Behaviour, run: (string, string, string) -> (string, Outcome), limit: nat)
        returns (closed: seq<nat>, sent: seq<Delivery>)
      requires Consistent(b, table.Contents(), Memory()) && Implements(b, run) && Sorted(seqWaiters)
      modifies this, table
      ensures Consistent(b, table.Contents(), Memory()) && Sorted(seqWaiters)
      ensures |history| == Least(|table.rows|, |old(history)| + limit) && old(history) <= history
      ensures Drained(old(table.rows), |old(history)|, table.rows, history)
      ensures var ran := RanRows(table.rows, |old(history)|, history);
              && Settles(old(seqWaiters), ran, seqWaiters, closed, sent)
              && (DistinctChans(old(seqWaiters)) ==> AllFareWell(old(seqWaiters), ran, seqWaiters, closed, sent))
    {
      ghost var start := Pass(history, table.rows, seqWaiters);
      var calls := table.GetPending(nextRcseq);
      PassStarts(b, table.Contents(), Memory(), seqWaiters);
      closed, sent := DrainCalls(table, b, run, calls, limit, start);
      ghost var ran := RanRows(table.rows, |start.history|, history);
      RanInOrder(table.Contents(), |start.history|, history);
      if DistinctChans(start.waiters) { AllFare(start.waiters, ran, seqWaiters, closed, sent); }
    }

    method DrainCalls(table: CallTable, b: Behaviour, run: (string, string, string) -> (string, Outcome),
                      calls: seq<Row>, limit: nat,
                      ghost start: Pass)
        returns (closed: seq<nat>, sent: seq<Delivery>)
      requires Underway(b, start, table.Contents(), Memory(), seqWaiters, [], []) && Implements(b, run)
      requires history == start.history && |history| <= |start.rows| && calls == start.rows[|history|..]
      modifies this, table
      ensures Underway(b, start, table.Contents(), Memory(), seqWaiters, closed, sent)
      ensures |history| == Least(|start.rows|, |start.history| + limit)
    {
      closed, sent := [], [];
      var i := 0;
      while i < |calls| && i < limit
        invariant 0 <= i <= |calls| && i <= limit && |history| == |start.history| + i
        invariant Underway(b, start, table.Contents(), Memory(), seqWaiters, closed, sent)
      {
        var toClose, more := DrainAndNotify(table, b, run, calls, i, start, closed, sent);
        closed, sent := closed + toClose, sent + more;
        i := i + 1;
      }
    }

    /** One call of the pass: process it, then settle with everyone due. */
    method DrainAndNotify(table: CallTable, b: Behaviour, run: (string, string, string) -> (string, Outcome),
                          calls: seq<Row>, i: nat,
                          ghost start: Pass, ghost closed: seq<nat>, ghost sent: seq<Delivery>)
        returns (toClose: seq<nat>, more: seq<Delivery>)
      requires Underway(b, start, table.Contents(), Memory(), seqWaiters, closed, sent) && Implements(b, run)
      requires i < |calls| && |start.history| <= |start.rows| && calls == start.rows[|start.history|..]
      requires |history| == |start.history| + i
      modifies this, table
      ensures Underway(b, start, table.Contents(), Memory(), seqWaiters, closed + toClose, sent + more)
      ensures |history| == |old(history)| + 1
    {
      ghost var db1, history1, waiters1 := table.Contents(), history, seqWaiters;
      ghost var ran := RanRows(table.rows, |start.history|, history);
      var finished := DrainOne(table, b, run, calls[i]);
      var toNotify;
      toClose, toNotify := PopDue(finished.seqNo);
      more := Deliveries(toNotify, finished);
      DrainedOneMore(start.rows, |start.history|, db1.rows, history1, table.rows, history, finished);
      RanOneMore(db1, table.Contents(), |start.history|, history1, history, finished);
      SettlesOneMore(start.waiters, ran, waiters1, closed, sent, finished);
    }

    method DrainOne(table: CallTable, b: Behaviour, run: (string, string, string) -> (string, Outcome), call: Row)
        returns (finished: Row)
      requires Consistent(b, table.Contents(), Memory()) && Implements(b, run)
      requires |history| < |table.rows| && table.rows[|history|] == call
      modifies this, table
      ensures Consistent(b, table.Contents(), Memory()) && seqWaiters == old(seqWaiters)
      ensures |history| == |old(history)| + 1 && old(history) <= history
      ensures history[|old(history)|].outcome.status != Pending
      ensures finished == call.(outcome := history[|old(history)|].outcome)
      ensures table.rows == old(table.rows)[|old(history)| := finished]
    {
      ghost var db, mem := table.Contents(), Memory();
      finished := ProcessReliableCall(table, run, b.decodes, call);
      FirstUnrun(b, db, mem);
      ProcessedOne(b, db, mem, table.Contents(), Memory(), finished.outcome);
    }
  }
}
