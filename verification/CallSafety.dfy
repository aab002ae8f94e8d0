/** What the reliable-call engine guarantees as long as no call is executed a second time.

    `Stale` is the test that processing a call lacks: the call at hand lies below the object's own
    progress marker. Loops may overlap as they like; in every run without a stale execution the saved
    state is the replay of exactly the calls below its marker, and all callers of a call are told the
    outcome of its one execution. */
module CallSafety {
  import opened Options
  import opened CallEngine

  /** The step executes a call that the marker has already passed. */
  predicate Stale(s: State, a: Action) {
    && s.inst.Some? && a.Do? && a.step.Execute? && a.id in s.inst.value.loops
    && s.inst.value.loops[a.id].batch != [] && s.inst.value.loops[a.id].batch[0].seqNo < s.inst.value.mem.next
  }

  /** A run in which no step is stale. */
  ghost predicate FreshRun(b: Behaviour, acts: seq<Action>, states: seq<State>) {
    IsRun(b, acts, states) && forall k :: 0 <= k < |acts| ==> !Stale(states[k], acts[k])
  }

  // ----- The invariant -----

  /** The table: sequence numbers grow with insertion, call IDs are unique. */
  ghost predicate TableOk(db: Db) {
    && (forall i, j :: 0 <= i < j < |db.rows| ==> db.rows[i].seqNo < db.rows[j].seqNo)
    && (forall i, j :: 0 <= i < j < |db.rows| ==> db.rows[i].callId != db.rows[j].callId)
    && (forall i :: 0 <= i < |db.rows| ==> 0 < db.rows[i].seqNo < db.nextSeq)
    && 0 < db.nextSeq
  }

  /** State before the k-th execution of a history. */
  function DataAt(b: Behaviour, history: seq<Ran>, k: nat): string
    requires k <= |history|
  {
    if k == 0 then b.blank else history[k - 1].after
  }

  /** The history runs exactly these calls, in this order, each from where the last one ended. */
  ghost predicate Replays(b: Behaviour, calls: seq<Row>, history: seq<Ran>) {
    && |history| == |calls|
    && forall k {:trigger calls[k]} :: 0 <= k < |history| ==>
         && history[k].seqNo == calls[k].seqNo
         && history[k].before == DataAt(b, history, k)
         && CanRun(b, history[k].before, calls[k], history[k].after, history[k].outcome)
  }

  /** The snapshot is the replay of the first rows of the table, and its marker splits the table there. */
  ghost predicate SnapOk(b: Behaviour, rows: seq<Row>, nextSeq: int, sn: Snapshot) {
    && |sn.history| <= |rows|
    && Replays(b, rows[..|sn.history|], sn.history)
    && sn.data == DataAt(b, sn.history, |sn.history|)
    && sn.next <= nextSeq
    && (forall j :: 0 <= j < |sn.history| ==> rows[j].seqNo < sn.next)
    && (forall j :: |sn.history| <= j < |rows| ==> sn.next <= rows[j].seqNo)
  }

  /** A row is undecided, or its call is in the saved history and the row says what that run said. */
  ghost predicate RowsOk(b: Behaviour, db: Db) {
    var h := Load(b, db).history;
    forall j :: 0 <= j < |db.rows| ==>
      || db.rows[j].outcome == UNDECIDED
      || (j < |h| && db.rows[j].outcome == h[j].outcome)
  }

  /** Some loop has executed a call and not saved it yet. */
  ghost predicate Ahead(i: Instance) {
    exists x :: x in i.loops && i.loops[x].pc == Executed
  }

  /** Memory is what is saved, except that a loop between its execution and its save is one call ahead. */
  ghost predicate MemOk(b: Behaviour, db: Db, i: Instance) {
    var saved := Load(b, db);
    && SnapOk(b, db.rows, db.nextSeq, i.mem)
    && if Ahead(i)
       then |i.mem.history| == |saved.history| + 1 && saved.history == i.mem.history[..|saved.history|]
       else i.mem == saved
  }

  /** The batch is a stretch of the table from row `p` on, as it was fetched. */
  ghost predicate SliceAt(rows: seq<Row>, batch: seq<Row>, p: nat) {
    p + |batch| <= |rows| && forall j :: 0 <= j < |batch| ==> batch[j] == rows[p + j].(outcome := UNDECIDED)
  }

  /** The batch's first call is row `p`, which says what the loop says. */
  ghost predicate ToldAt(rows: seq<Row>, l: Loop, p: nat) {
    l.batch != [] && SliceAt(rows, l.batch, p) && rows[p].outcome == l.outcome && l.outcome.status != Pending
  }

  /** What a loop still has to do lines up with the table: a fetched batch starts no later than where
      memory stands, and a call that was executed lies behind it. */
  ghost predicate BatchOk(rows: seq<Row>, mem: Snapshot, l: Loop) {
    var k := |mem.history|;
    match l.pc
    case Draining => exists p :: 0 <= p <= k && SliceAt(rows, l.batch, p)
    case Executed => ExecutedAt(rows, mem, l)
    case Saved => ExecutedAt(rows, mem, l) && rows[k - 1].outcome == UNDECIDED && l.outcome.status != Pending
    case Recorded => exists p :: 0 <= p < k && ToldAt(rows, l, p)
    case Notifying => exists p :: 0 <= p < k && ToldAt(rows, l, p)
    case _ => true
  }

  /** The batch's first call is the last one of memory's history. */
  ghost predicate ExecutedAt(rows: seq<Row>, mem: Snapshot, l: Loop) {
    var k := |mem.history|;
    1 <= k && l.batch != [] && SliceAt(rows, l.batch, k - 1) && l.outcome == mem.history[k - 1].outcome
  }

  ghost predicate BatchesOk(rows: seq<Row>, i: Instance) {
    forall x :: x in i.loops ==> BatchOk(rows, i.mem, i.loops[x])
  }

  /** At most one loop holds the state lock. */
  ghost predicate OneHolder(i: Instance) {
    forall x, y :: x in i.loops && y in i.loops && HoldsState(i.loops[x]) && HoldsState(i.loops[y]) ==> x == y
  }

  /** The marker `seen` was read when memory stood at row `f`, and the calls run since then are decided,
      except for the last one while the state lock is held. */
  ghost predicate SeenAt(rows: seq<Row>, mem: Snapshot, free: bool, seen: int, f: nat) {
    var k := |mem.history|;
    && f <= k <= |rows| && seen <= mem.next
    && (forall j :: 0 <= j < f ==> rows[j].seqNo < seen)
    && (forall j :: f <= j < |rows| ==> seen <= rows[j].seqNo)
    && (forall j :: f <= j < k ==> rows[j].outcome.status != Pending || (j == k - 1 && !free))
  }

  ghost predicate SeenOk(rows: seq<Row>, i: Instance) {
    forall x :: x in i.loops && i.loops[x].seen.Some? ==>
      exists f :: SeenAt(rows, i.mem, StateFree(i), i.loops[x].seen.value, f)
  }

  /** Every value sent on a channel is a decided row of the table. */
  ghost predicate SentOk(rows: seq<Row>, chans: map<nat, Channel>) {
    forall c, k :: c in chans && 0 <= k < |chans[c].events| && chans[c].events[k].Sent? ==>
      chans[c].events[k].call in rows && chans[c].events[k].call.outcome.status != Pending
  }

  /** The table has a decided row that gives this answer. */
  ghost predicate InRows(rows: seq<Row>, a: Answer) {
    && a.outcome.status != Pending
    && exists k :: 0 <= k < |rows| && rows[k].callId == a.callId && rows[k].outcome == a.outcome
  }

  ghost predicate AnswersOk(rows: seq<Row>, answers: set<Answer>) {
    forall a :: a in answers ==> InRows(rows, a)
  }

  ghost predicate InstOk(b: Behaviour, db: Db, i: Instance) {
    && OneHolder(i)
    && MemOk(b, db, i)
    && BatchesOk(db.rows, i)
    && SeenOk(db.rows, i)
    && SentOk(db.rows, i.chans)
  }

  ghost predicate Inv(b: Behaviour, s: State) {
    && TableOk(s.db)
    && SnapOk(b, s.db.rows, s.db.nextSeq, Load(b, s.db))
    && RowsOk(b, s.db)
    && AnswersOk(s.db.rows, s.answers)
    && (s.inst.Some? ==> InstOk(b, s.db, s.inst.value))
  }

  // ----- Decided rows stay -----

  ghost predicate DecidedStay(rows: seq<Row>, rows': seq<Row>) {
    forall j :: 0 <= j < |rows| && rows[j].outcome.status != Pending ==> j < |rows'| && rows'[j] == rows[j]
  }

  lemma SentStay(rows: seq<Row>, rows': seq<Row>, chans: map<nat, Channel>)
    requires SentOk(rows, chans) && DecidedStay(rows, rows')
    ensures SentOk(rows', chans)
  {
    forall r | r in rows && r.outcome.status != Pending ensures r in rows' {
      var k :| 0 <= k < |rows| && rows[k] == r;
      assert rows'[k] == r;
    }
  }

  lemma AnswerStays(rows: seq<Row>, rows': seq<Row>, a: Answer)
    requires InRows(rows, a) && DecidedStay(rows, rows')
    ensures InRows(rows', a)
  {
    var k :| 0 <= k < |rows| && rows[k].callId == a.callId && rows[k].outcome == a.outcome;
    assert rows'[k] == rows[k];
  }

  lemma AnswersStay(rows: seq<Row>, rows': seq<Row>, answers: set<Answer>)
    requires AnswersOk(rows, answers) && DecidedStay(rows, rows')
    ensures AnswersOk(rows', answers)
  {
    forall a | a in answers ensures InRows(rows', a) { AnswerStays(rows, rows', a); }
  }

  // ----- Inserting a call -----

  function WithRow(db: Db, row: Row): Db {
    db.(rows := db.rows + [row], nextSeq := db.nextSeq + 1)
  }

  lemma SnapSurvivesInsert(b: Behaviour, db: Db, row: Row, sn: Snapshot)
    requires SnapOk(b, db.rows, db.nextSeq, sn) && row.seqNo == db.nextSeq
    ensures SnapOk(b, db.rows + [row], db.nextSeq + 1, sn)
  {
    assert (db.rows + [row])[..|sn.history|] == db.rows[..|sn.history|];
  }

  lemma SliceSurvivesInsert(rows: seq<Row>, row: Row, batch: seq<Row>, p: nat)
    requires SliceAt(rows, batch, p)
    ensures SliceAt(rows + [row], batch, p)
  {
  }

  lemma BatchSurvivesInsert(rows: seq<Row>, row: Row, mem: Snapshot, l: Loop)
    requires BatchOk(rows, mem, l) && |mem.history| <= |rows|
    ensures BatchOk(rows + [row], mem, l)
  {
    if l.pc == Draining {
      var p :| 0 <= p <= |mem.history| && SliceAt(rows, l.batch, p);
      SliceSurvivesInsert(rows, row, l.batch, p);
    } else if l.pc == Recorded || l.pc == Notifying {
      var p :| 0 <= p < |mem.history| && ToldAt(rows, l, p);
      SliceSurvivesInsert(rows, row, l.batch, p);
      assert ToldAt(rows + [row], l, p);
    }
  }

  lemma BatchesSurviveInsert(rows: seq<Row>, row: Row, i: Instance)
    requires BatchesOk(rows, i) && |i.mem.history| <= |rows|
    ensures BatchesOk(rows + [row], i)
  {
    forall x | x in i.loops ensures BatchOk(rows + [row], i.mem, i.loops[x]) {
      BatchSurvivesInsert(rows, row, i.mem, i.loops[x]);
    }
  }

  lemma SeenSurvivesInsert(b: Behaviour, db: Db, row: Row, i: Instance)
    requires SnapOk(b, db.rows, db.nextSeq, i.mem) && SeenOk(db.rows, i) && row.seqNo == db.nextSeq
    ensures SeenOk(db.rows + [row], i)
  {
    forall x | x in i.loops && i.loops[x].seen.Some?
      ensures exists f :: SeenAt(db.rows + [row], i.mem, StateFree(i), i.loops[x].seen.value, f)
    {
      var f :| SeenAt(db.rows, i.mem, StateFree(i), i.loops[x].seen.value, f);
      assert SeenAt(db.rows + [row], i.mem, StateFree(i), i.loops[x].seen.value, f);
    }
  }

  lemma TableSurvivesInsert(b: Behaviour, db: Db, row: Row)
    requires TableOk(db) && RowsOk(b, db)
    requires row.seqNo == db.nextSeq && row.outcome == UNDECIDED && !HasCall(db.rows, row.callId)
    ensures TableOk(WithRow(db, row)) && RowsOk(b, WithRow(db, row))
  {
  }

  lemma InsertKeepsInst(b: Behaviour, db: Db, row: Row, i: Instance)
    requires InstOk(b, db, i) && row.seqNo == db.nextSeq
    ensures InstOk(b, WithRow(db, row), i)
  {
    SnapSurvivesInsert(b, db, row, i.mem);
    BatchesSurviveInsert(db.rows, row, i);
    SeenSurvivesInsert(b, db, row, i);
    SentStay(db.rows, db.rows + [row], i.chans);
  }

  lemma InsertKeepsInv(b: Behaviour, s: State, a: Action)
    requires Inv(b, s) && a.Insert? && Enabled(b, s, a)
    ensures Inv(b, Apply(b, s, a))
  {
    var row := Row(s.db.nextSeq, a.callId, a.methodName, a.requestData, UNDECIDED);
    TableSurvivesInsert(b, s.db, row);
    SnapSurvivesInsert(b, s.db, row, Load(b, s.db));
    InsertKeepsInst(b, s.db, row, s.inst.value);
    AnswersStay(s.db.rows, s.db.rows + [row], s.answers);
  }

  // ----- Deciding a row -----

  lemma RecordIsOneRow(db: Db, j: nat, out: Outcome)
    requires TableOk(db) && j < |db.rows|
    ensures RecordOutcome(db.rows, db.rows[j].seqNo, out) == db.rows[j := db.rows[j].(outcome := out)]
  {
  }

  lemma SnapSurvivesRecord(b: Behaviour, db: Db, j: nat, out: Outcome, sn: Snapshot)
    requires SnapOk(b, db.rows, db.nextSeq, sn) && j < |db.rows|
    ensures SnapOk(b, db.rows[j := db.rows[j].(outcome := out)], db.nextSeq, sn)
  {
  }

  /** Row `j`, undecided until now, gets its outcome. */
  function Decide(db: Db, j: nat, out: Outcome): Db
    requires j < |db.rows|
  {
    db.(rows := db.rows[j := db.rows[j].(outcome := out)])
  }

  lemma TableSurvivesRecord(b: Behaviour, db: Db, j: nat, out: Outcome)
    requires TableOk(db) && RowsOk(b, db) && j < |Load(b, db).history| && j < |db.rows|
    requires out == Load(b, db).history[j].outcome
    ensures TableOk(Decide(db, j, out)) && RowsOk(b, Decide(db, j, out))
  {
  }

  lemma SliceSurvivesRecord(rows: seq<Row>, j: nat, out: Outcome, batch: seq<Row>, p: nat)
    requires SliceAt(rows, batch, p) && j < |rows|
    ensures SliceAt(rows[j := rows[j].(outcome := out)], batch, p)
  {
  }

  /** Deciding an undecided row disturbs no loop that does not hold the state lock. */
  lemma BatchSurvivesRecord(rows: seq<Row>, j: nat, out: Outcome, mem: Snapshot, l: Loop)
    requires BatchOk(rows, mem, l) && !HoldsState(l) && j < |rows| && rows[j].outcome == UNDECIDED
    ensures BatchOk(rows[j := rows[j].(outcome := out)], mem, l)
  {
    if l.pc == Draining {
      var p :| 0 <= p <= |mem.history| && SliceAt(rows, l.batch, p);
      SliceSurvivesRecord(rows, j, out, l.batch, p);
    } else if l.pc == Recorded || l.pc == Notifying {
      var p :| 0 <= p < |mem.history| && ToldAt(rows, l, p);
      SliceSurvivesRecord(rows, j, out, l.batch, p);
      assert ToldAt(rows[j := rows[j].(outcome := out)], l, p);
    }
  }

  lemma RecordedBatch(rows: seq<Row>, mem: Snapshot, l: Loop)
    requires l.pc == Saved && BatchOk(rows, mem, l)
    ensures BatchOk(rows[|mem.history| - 1 := rows[|mem.history| - 1].(outcome := l.outcome)], mem, l.(pc := Recorded))
  {
    var k := |mem.history|;
    var rows' := rows[k - 1 := rows[k - 1].(outcome := l.outcome)];
    SliceSurvivesRecord(rows, k - 1, l.outcome, l.batch, k - 1);
    assert ToldAt(rows', l.(pc := Recorded), k - 1);
  }

  /** Where a loop stands that has saved a call and not recorded its outcome. */
  lemma SavedFacts(b: Behaviour, db: Db, i: Instance, id: nat)
    requires InstOk(b, db, i) && id in i.loops && i.loops[id].pc == Saved
    ensures i.mem == Load(b, db) && 0 < |i.mem.history| <= |db.rows|
    ensures var l, k := i.loops[id], |i.mem.history|;
            && l.batch != [] && l.batch[0] == db.rows[k - 1] && db.rows[k - 1].outcome == UNDECIDED
            && l.outcome == i.mem.history[k - 1].outcome && l.outcome.status != Pending
  {
    NotAhead(i, id);
    SavedRow(db.rows, i.mem, i.loops[id]);
  }

  lemma RecordKeepsBatches(rows: seq<Row>, i: Instance, id: nat, k: nat, out: Outcome, m: Loop)
    requires BatchesOk(rows, i) && OneHolder(i) && id in i.loops && i.loops[id].pc == Saved
    requires k < |rows| && rows[k].outcome == UNDECIDED
    requires BatchOk(rows[k := rows[k].(outcome := out)], i.mem, m)
    ensures BatchesOk(rows[k := rows[k].(outcome := out)], Put(i, id, m))
  {
    forall x | x in i.loops && x != id ensures BatchOk(rows[k := rows[k].(outcome := out)], i.mem, i.loops[x]) {
      BatchSurvivesRecord(rows, k, out, i.mem, i.loops[x]);
    }
  }

  /** Deciding the last call run makes all of them decided. */
  lemma SeenSurvivesRecord(rows: seq<Row>, i: Instance, j: Instance, out: Outcome)
    requires SeenOk(rows, i) && 0 < |i.mem.history| <= |rows| && out.status != Pending && j.mem == i.mem
    requires forall x :: x in j.loops && j.loops[x].seen.Some? ==> x in i.loops && j.loops[x].seen == i.loops[x].seen
    ensures SeenOk(rows[|i.mem.history| - 1 := rows[|i.mem.history| - 1].(outcome := out)], j)
  {
    var k := |i.mem.history| - 1;
    var rows' := rows[k := rows[k].(outcome := out)];
    forall x | x in j.loops && j.loops[x].seen.Some?
      ensures exists f :: SeenAt(rows', j.mem, StateFree(j), j.loops[x].seen.value, f)
    {
      var f :| SeenAt(rows, i.mem, StateFree(i), i.loops[x].seen.value, f);
      assert SeenAt(rows', j.mem, StateFree(j), j.loops[x].seen.value, f);
    }
  }

  lemma RecordKeepsInst(b: Behaviour, db: Db, i: Instance, id: nat, k: nat, out: Outcome, m: Loop)
    requires InstOk(b, db, i) && id in i.loops && i.loops[id].pc == Saved
    requires k < |db.rows| && db.rows[k].outcome == UNDECIDED
    requires k == |i.mem.history| - 1 && out.status != Pending && m.seen == i.loops[id].seen
    requires !HoldsState(m) && BatchOk(Decide(db, k, out).rows, i.mem, m)
    ensures InstOk(b, Decide(db, k, out), Put(i, id, m))
  {
    NotAhead(i, id);
    SnapSurvivesRecord(b, db, k, out, i.mem);
    SentStay(db.rows, Decide(db, k, out).rows, i.chans);
    RecordKeepsBatches(db.rows, i, id, k, out, m);
    SeenSurvivesRecord(db.rows, i, Put(i, id, m), out);
    HolderMoves(i, Put(i, id, m), id);
  }

  /** The state after the row of the saved call is decided. */
  function Decided(s: State, id: nat, k: nat): State
    requires s.inst.Some? && id in s.inst.value.loops && k < |s.db.rows|
  {
    var l := s.inst.value.loops[id];
    State(Decide(s.db, k, l.outcome), Some(Put(s.inst.value, id, l.(pc := Recorded))), s.answers)
  }

  lemma DecidedInv(b: Behaviour, s: State, id: nat, k: nat)
    requires Inv(b, s) && s.inst.Some? && id in s.inst.value.loops && s.inst.value.loops[id].pc == Saved
    requires k == |s.inst.value.mem.history| - 1 && k < |s.db.rows|
    ensures Inv(b, Decided(s, id, k))
  {
    var i := s.inst.value;
    var l := i.loops[id];
    SavedFacts(b, s.db, i, id);
    RecordedBatch(s.db.rows, i.mem, l);
    RecordKeepsInst(b, s.db, i, id, k, l.outcome, l.(pc := Recorded));
    RecordKeepsTable(b, s, k, l.outcome);
  }

  lemma RecordApplies(b: Behaviour, s: State, id: nat, k: nat)
    requires TableOk(s.db) && Enabled(b, s, Do(id, Record)) && k < |s.db.rows|
    requires s.inst.value.loops[id].batch[0] == s.db.rows[k]
    ensures Apply(b, s, Do(id, Record)) == Decided(s, id, k)
  {
    RecordIsOneRow(s.db, k, s.inst.value.loops[id].outcome);
  }

  lemma RecordKeepsInv(b: Behaviour, s: State, id: nat)
    requires Inv(b, s) && Enabled(b, s, Do(id, Record))
    ensures Inv(b, Apply(b, s, Do(id, Record)))
  {
    RecordIsDecided(b, s, id);
    DecidedInv(b, s, id, |s.inst.value.mem.history| - 1);
  }

  lemma RecordIsDecided(b: Behaviour, s: State, id: nat)
    requires TableOk(s.db) && Enabled(b, s, Do(id, Record))
    requires BatchOk(s.db.rows, s.inst.value.mem, s.inst.value.loops[id])
    ensures 0 < |s.inst.value.mem.history| <= |s.db.rows|
    ensures Apply(b, s, Do(id, Record)) == Decided(s, id, |s.inst.value.mem.history| - 1)
  {
    SavedRow(s.db.rows, s.inst.value.mem, s.inst.value.loops[id]);
    RecordApplies(b, s, id, |s.inst.value.mem.history| - 1);
  }

  /** A saved call is the last one of memory's history, and its row awaits the outcome. */
  lemma SavedRow(rows: seq<Row>, mem: Snapshot, l: Loop)
    requires l.pc == Saved && BatchOk(rows, mem, l)
    ensures 0 < |mem.history| <= |rows| && l.batch != []
    ensures l.batch[0] == rows[|mem.history| - 1] && rows[|mem.history| - 1].outcome == UNDECIDED
    ensures l.outcome == mem.history[|mem.history| - 1].outcome && l.outcome.status != Pending
  {
  }

  lemma RecordKeepsTable(b: Behaviour, s: State, k: nat, out: Outcome)
    requires Inv(b, s) && k < |s.db.rows| && k < |Load(b, s.db).history|
    requires s.db.rows[k].outcome == UNDECIDED && out == Load(b, s.db).history[k].outcome
    ensures TableOk(Decide(s.db, k, out)) && RowsOk(b, Decide(s.db, k, out))
    ensures SnapOk(b, Decide(s.db, k, out).rows, s.db.nextSeq, Load(b, s.db))
    ensures AnswersOk(Decide(s.db, k, out).rows, s.answers)
  {
    TableSurvivesRecord(b, s.db, k, out);
    SnapSurvivesRecord(b, s.db, k, out, Load(b, s.db));
    AnswersStay(s.db.rows, Decide(s.db, k, out).rows, s.answers);
  }

  lemma NotAhead(i: Instance, id: nat)
    requires OneHolder(i) && id in i.loops && i.loops[id].pc == Saved
    ensures !Ahead(i)
  {
  }

  /** A step of the loop that holds the state lock, or of any loop while nobody does. */
  lemma HolderMoves(i: Instance, j: Instance, id: nat)
    requires OneHolder(i) && id in i.loops && (HoldsState(i.loops[id]) || StateFree(i))
    requires id in j.loops && j.loops == i.loops[id := j.loops[id]]
    ensures OneHolder(j) && (Ahead(j) <==> j.loops[id].pc == Executed)
  {
    if j.loops[id].pc == Executed { assert Ahead(j); }
  }

  /** A step of a loop that neither takes nor gives up the state lock. */
  lemma BystanderMoves(i: Instance, j: Instance, id: nat)
    requires OneHolder(i) && id in i.loops && id in j.loops && j.loops == i.loops[id := j.loops[id]]
    requires !HoldsState(i.loops[id]) && !HoldsState(j.loops[id])
    ensures OneHolder(j) && (Ahead(j) <==> Ahead(i)) && (StateFree(j) ==> StateFree(i))
  {
    assert forall x :: x in i.loops && x != id ==> x in j.loops && j.loops[x] == i.loops[x];
    if x :| x in i.loops && i.loops[x].pc == Executed { assert x in j.loops && j.loops[x].pc == Executed; }
  }

  /** A step after which every loop is still where it was. */
  lemma NobodyMoves(i: Instance, j: Instance)
    requires OneHolder(i) && j.loops.Keys == i.loops.Keys && forall x :: x in i.loops ==> j.loops[x].pc == i.loops[x].pc
    ensures OneHolder(j) && (Ahead(j) <==> Ahead(i)) && (StateFree(j) <==> StateFree(i))
  {
    assert forall x :: x in j.loops ==> x in i.loops && j.loops[x].pc == i.loops[x].pc;
    if x :| x in i.loops && i.loops[x].pc == Executed { assert x in j.loops && j.loops[x].pc == Executed; }
  }

  /** What the loops have read stays good while memory and the table stay and the lock is not given up. */
  lemma SeenKept(b: Behaviour, db: Db, i: Instance, j: Instance)
    requires SnapOk(b, db.rows, db.nextSeq, i.mem) && SeenOk(db.rows, i)
    requires j.mem == i.mem && (StateFree(j) ==> StateFree(i))
    requires forall x :: x in j.loops && j.loops[x].seen.Some? ==>
      j.loops[x].seen == Some(i.mem.next) || (x in i.loops && j.loops[x].seen == i.loops[x].seen)
    ensures SeenOk(db.rows, j)
  {
    forall x | x in j.loops && j.loops[x].seen.Some?
      ensures exists f :: SeenAt(db.rows, j.mem, StateFree(j), j.loops[x].seen.value, f)
    {
      if j.loops[x].seen == Some(i.mem.next) {
        assert SeenAt(db.rows, j.mem, StateFree(j), i.mem.next, |i.mem.history|);
      } else {
        var f :| SeenAt(db.rows, i.mem, StateFree(i), i.loops[x].seen.value, f);
        assert SeenAt(db.rows, j.mem, StateFree(j), j.loops[x].seen.value, f);
      }
    }
  }

  // ----- Executing and saving -----

  lemma HistoryExtends(b: Behaviour, rows: seq<Row>, h: seq<Ran>, ran: Ran)
    requires |h| < |rows| && Replays(b, rows[..|h|], h)
    requires ran.seqNo == rows[|h|].seqNo && ran.before == DataAt(b, h, |h|)
    requires CanRun(b, ran.before, rows[|h|], ran.after, ran.outcome)
    ensures Replays(b, rows[..|h| + 1], h + [ran])
  {
    var g := h + [ran];
    forall k | 0 <= k < |g|
      ensures g[k].seqNo == rows[k].seqNo && g[k].before == DataAt(b, g, k)
              && CanRun(b, g[k].before, rows[k], g[k].after, g[k].outcome)
    {
      if k < |h| { assert rows[..|h|][k] == rows[k] && DataAt(b, g, k) == DataAt(b, h, k); }
    }
  }

  lemma ExecutedSnap(b: Behaviour, db: Db, sn: Snapshot, after: string, out: Outcome)
    requires TableOk(db) && SnapOk(b, db.rows, db.nextSeq, sn) && |sn.history| < |db.rows|
    requires CanRun(b, sn.data, db.rows[|sn.history|], after, out)
    ensures SnapOk(b, db.rows, db.nextSeq, Snapshot(after, db.rows[|sn.history|].seqNo + 1,
                                   sn.history + [Ran(db.rows[|sn.history|].seqNo, sn.data, after, out)]))
  {
    HistoryExtends(b, db.rows, sn.history, Ran(db.rows[|sn.history|].seqNo, sn.data, after, out));
  }

  /** A batch that is not stale starts exactly where memory stands. */
  lemma FreshBatch(b: Behaviour, db: Db, mem: Snapshot, l: Loop)
    requires SnapOk(b, db.rows, db.nextSeq, mem) && l.pc == Draining && l.batch != [] && BatchOk(db.rows, mem, l)
    requires l.batch[0].seqNo >= mem.next
    ensures |mem.history| < |db.rows| && SliceAt(db.rows, l.batch, |mem.history|)
  {
    var p :| 0 <= p <= |mem.history| && SliceAt(db.rows, l.batch, p);
    assert l.batch[0].seqNo == db.rows[p].seqNo;
  }

  /** Loops without the state lock do not mind memory moving on. */
  lemma BatchSurvivesExecute(rows: seq<Row>, mem: Snapshot, mem': Snapshot, l: Loop)
    requires BatchOk(rows, mem, l) && !HoldsState(l) && |mem.history| <= |mem'.history|
    ensures BatchOk(rows, mem', l)
  {
    if l.pc == Draining {
      var p :| 0 <= p <= |mem.history| && SliceAt(rows, l.batch, p);
    } else if l.pc == Recorded || l.pc == Notifying {
      var p :| 0 <= p < |mem.history| && ToldAt(rows, l, p);
    }
  }

  lemma ExecuteKeepsBatches(rows: seq<Row>, i: Instance, j: Instance, id: nat)
    requires BatchesOk(rows, i) && StateFree(i) && id in j.loops && j.loops == i.loops[id := j.loops[id]]
    requires |i.mem.history| <= |j.mem.history| && BatchOk(rows, j.mem, j.loops[id])
    ensures BatchesOk(rows, j)
  {
    forall x | x in i.loops && x != id ensures BatchOk(rows, j.mem, i.loops[x]) {
      BatchSurvivesExecute(rows, i.mem, j.mem, i.loops[x]);
    }
  }

  lemma SeenSurvivesExecute(rows: seq<Row>, i: Instance, j: Instance)
    requires SeenOk(rows, i) && StateFree(i) && !StateFree(j)
    requires |j.mem.history| == |i.mem.history| + 1 <= |rows| && i.mem.next <= j.mem.next
    requires forall x :: x in j.loops && j.loops[x].seen.Some? ==> x in i.loops && j.loops[x].seen == i.loops[x].seen
    ensures SeenOk(rows, j)
  {
    forall x | x in j.loops && j.loops[x].seen.Some?
      ensures exists f :: SeenAt(rows, j.mem, StateFree(j), j.loops[x].seen.value, f)
    {
      var f :| SeenAt(rows, i.mem, StateFree(i), i.loops[x].seen.value, f);
      assert SeenAt(rows, j.mem, StateFree(j), j.loops[x].seen.value, f);
    }
  }

  lemma ExecuteKeepsInst(b: Behaviour, db: Db, i: Instance, id: nat, step: LoopStep)
    requires TableOk(db) && InstOk(b, db, i) && step.Execute? && LoopEnabled(b, i, id, step)
    requires i.loops[id].batch[0].seqNo >= i.mem.next
    ensures InstOk(b, db, LoopApply(b, i, db.rows, id, step))
  {
    var l, j := i.loops[id], LoopApply(b, i, db.rows, id, step);
    FreshBatch(b, db, i.mem, l);
    ExecutedSnap(b, db, i.mem, step.after, step.outcome);
    ExecutedInst(b, db, i, j, id);
  }

  lemma ExecutedInst(b: Behaviour, db: Db, i: Instance, j: Instance, id: nat)
    requires InstOk(b, db, i) && StateFree(i) && SnapOk(b, db.rows, db.nextSeq, j.mem) && j.chans == i.chans
    requires id in i.loops && id in j.loops && j.loops == i.loops[id := j.loops[id]]
    requires var l, k := i.loops[id], |i.mem.history|;
             && l.batch != [] && SliceAt(db.rows, l.batch, k)
             && |j.mem.history| == k + 1 && i.mem.history <= j.mem.history
             && i.mem.next <= j.mem.next && j.loops[id] == l.(pc := Executed, outcome := j.mem.history[k].outcome)
    ensures InstOk(b, db, j)
  {
    HolderMoves(i, j, id);
    OneMoreExecuted(b, db, i, j);
    ExecutedNow(db.rows, i.mem, j.mem, i.loops[id], j.loops[id]);
    ExecuteKeepsBatches(db.rows, i, j, id);
    assert HoldsState(j.loops[id]);
    SeenSurvivesExecute(db.rows, i, j);
  }

  lemma OneMoreExecuted(b: Behaviour, db: Db, i: Instance, j: Instance)
    requires MemOk(b, db, i) && StateFree(i) && Ahead(j) && SnapOk(b, db.rows, db.nextSeq, j.mem)
    requires |j.mem.history| == |i.mem.history| + 1 && i.mem.history <= j.mem.history
    ensures MemOk(b, db, j)
  {
    assert !Ahead(i);
  }

  lemma ExecutedNow(rows: seq<Row>, mem: Snapshot, mem': Snapshot, l: Loop, m: Loop)
    requires l.batch != [] && SliceAt(rows, l.batch, |mem.history|)
    requires |mem'.history| == |mem.history| + 1 && m.outcome == mem'.history[|mem.history|].outcome
    requires m.pc == Executed && m.batch == l.batch
    ensures BatchOk(rows, mem', m)
  {
  }

  lemma SavedInst(b: Behaviour, db: Db, i: Instance, id: nat)
    requires TableOk(db) && RowsOk(b, db) && InstOk(b, db, i) && id in i.loops && i.loops[id].pc == Executed
    ensures InstOk(b, db.(saved := Some(i.mem)), Put(i, id, i.loops[id].(pc := Saved)))
  {
    var l := i.loops[id];
    assert Ahead(i) && BatchOk(db.rows, i.mem, l);
    HolderMoves(i, Put(i, id, l.(pc := Saved)), id);
    assert HoldsState(Put(i, id, l.(pc := Saved)).loops[id]);
    SeenKept(b, db, i, Put(i, id, l.(pc := Saved)));
    ExecutedIsDecided(b, db, i.mem, l);
  }

  lemma ExecutedIsDecided(b: Behaviour, db: Db, mem: Snapshot, l: Loop)
    requires RowsOk(b, db) && SnapOk(b, db.rows, db.nextSeq, mem) && l.pc == Executed && BatchOk(db.rows, mem, l)
    requires |mem.history| == |Load(b, db).history| + 1
    ensures BatchOk(db.rows, mem, l.(pc := Saved))
  {
    var k := |mem.history|;
    var last := mem.history[k - 1];
    assert CanRun(b, last.before, db.rows[..k][k - 1], last.after, last.outcome);
  }

  lemma SavedRows(b: Behaviour, db: Db, mem: Snapshot)
    requires RowsOk(b, db) && Load(b, db).history <= mem.history
    ensures RowsOk(b, db.(saved := Some(mem)))
  {
  }

  lemma AheadFacts(b: Behaviour, db: Db, i: Instance, id: nat)
    requires InstOk(b, db, i) && id in i.loops && i.loops[id].pc == Executed
    ensures SnapOk(b, db.rows, db.nextSeq, i.mem)
    ensures Load(b, db).history <= i.mem.history
  {
    assert Ahead(i);
  }

  /** The state after the executed call is saved. */
  function Stored(s: State, id: nat): State
    requires s.inst.Some? && id in s.inst.value.loops
  {
    var i := s.inst.value;
    State(s.db.(saved := Some(i.mem)), Some(Put(i, id, i.loops[id].(pc := Saved))), s.answers)
  }

  lemma StoredInv(b: Behaviour, s: State, id: nat)
    requires Inv(b, s) && s.inst.Some? && id in s.inst.value.loops && s.inst.value.loops[id].pc == Executed
    ensures Inv(b, Stored(s, id))
  {
    AheadFacts(b, s.db, s.inst.value, id);
    SavedInst(b, s.db, s.inst.value, id);
    SavedRows(b, s.db, s.inst.value.mem);
  }

  lemma SaveKeepsInv(b: Behaviour, s: State, id: nat)
    requires Inv(b, s) && Enabled(b, s, Do(id, Save))
    ensures Inv(b, Apply(b, s, Do(id, Save)))
  {
    assert Apply(b, s, Do(id, Save)) == Stored(s, id);
    StoredInv(b, s, id);
  }

  // ----- Fetching -----

  lemma {:induction false} PendingIsTail(rows: seq<Row>, next: int, k: nat)
    requires k <= |rows|
    requires forall j :: 0 <= j < k ==> rows[j].seqNo < next || rows[j].outcome.status != Pending
    requires forall j :: k <= j < |rows| ==> next <= rows[j].seqNo && rows[j].outcome == UNDECIDED
    ensures PendingFrom(rows, next) == rows[k..]
  {
    if rows != [] {
      PendingIsTail(rows[1..], next, if k > 0 then k - 1 else 0);
      if k > 0 { assert rows[1..][k - 1..] == rows[k..]; }
      else { assert rows == [rows[0]] + rows[1..]; }
    }
  }

  lemma {:induction false} PendingIsAhead(rows: seq<Row>, next: int)
    ensures forall j :: 0 <= j < |PendingFrom(rows, next)| ==> PendingFrom(rows, next)[j].seqNo >= next
  {
    if rows != [] { PendingIsAhead(rows[1..], next); }
  }

  /** What a query returns: exactly the pending rows at or above the marker. */
  lemma {:induction false} PendingExactly(rows: seq<Row>, next: int)
    ensures forall r :: r in PendingFrom(rows, next) <==> r in rows && r.seqNo >= next && r.outcome.status == Pending
  {
    if rows != [] {
      PendingExactly(rows[1..], next);
      assert rows == [rows[0]] + rows[1..];
    }
  }

  /** A row that says pending says nothing else, and rows beyond memory's history all do. */
  lemma PendingRow(b: Behaviour, db: Db, i: Instance, j: nat)
    requires RowsOk(b, db) && MemOk(b, db, i) && j < |db.rows|
    ensures db.rows[j].outcome.status == Pending || j >= |i.mem.history| ==> db.rows[j].outcome == UNDECIDED
  {
    var h := i.mem.history;
    assert Load(b, db).history <= h;
    if j < |h| { assert CanRun(b, h[j].before, db.rows[..|h|][j], h[j].after, h[j].outcome); }
  }

  /** Whatever another loop has run since this one read the marker, the query gives a stretch of the
      table that starts no later than where memory stands. */
  lemma FetchedBatch(b: Behaviour, db: Db, i: Instance, seen: int, f: nat) returns (p: nat)
    requires RowsOk(b, db) && MemOk(b, db, i) && SeenAt(db.rows, i.mem, StateFree(i), seen, f)
    ensures p <= |i.mem.history| && SliceAt(db.rows, PendingFrom(db.rows, seen), p)
  {
    var k := |i.mem.history|;
    p := if f < k && db.rows[k - 1].outcome.status == Pending then k - 1 else k;
    forall j | p <= j < |db.rows| ensures db.rows[j].outcome == UNDECIDED { PendingRow(b, db, i, j); }
    PendingIsTail(db.rows, seen, p);
  }

  lemma OthersBatches(rows: seq<Row>, i: Instance, j: Instance, id: nat)
    requires BatchesOk(rows, i) && j.mem == i.mem && id in j.loops && j.loops == i.loops[id := j.loops[id]]
    requires BatchOk(rows, j.mem, j.loops[id])
    ensures BatchesOk(rows, j)
  {
  }

  /** Steps that leave memory and the state lock alone. */
  lemma BystanderKeepsInst(b: Behaviour, db: Db, i: Instance, j: Instance, id: nat)
    requires InstOk(b, db, i) && j.mem == i.mem && SentOk(db.rows, j.chans)
    requires id in i.loops && id in j.loops && j.loops == i.loops[id := j.loops[id]]
    requires !HoldsState(i.loops[id]) && !HoldsState(j.loops[id]) && BatchOk(db.rows, i.mem, j.loops[id])
    requires j.loops[id].seen == None || j.loops[id].seen == i.loops[id].seen || j.loops[id].seen == Some(i.mem.next)
    ensures InstOk(b, db, j)
  {
    BystanderMoves(i, j, id);
    SeenKept(b, db, i, j);
    OthersBatches(db.rows, i, j, id);
  }

  lemma FetchKeepsInst(b: Behaviour, db: Db, i: Instance, id: nat)
    requires RowsOk(b, db) && InstOk(b, db, i) && LoopEnabled(b, i, id, Fetch)
    ensures InstOk(b, db, LoopApply(b, i, db.rows, id, Fetch))
  {
    var seen := i.loops[id].seen.value;
    var f :| SeenAt(db.rows, i.mem, StateFree(i), seen, f);
    var p := FetchedBatch(b, db, i, seen, f);
    BystanderKeepsInst(b, db, i, LoopApply(b, i, db.rows, id, Fetch), id);
  }

  // ----- The other loop steps -----

  lemma DeliverSends(rows: seq<Row>, mem: Snapshot, l: Loop)
    requires l.pc == Notifying && BatchOk(rows, mem, l)
    ensures l.batch != [] && l.batch[0].(outcome := l.outcome) in rows && l.outcome.status != Pending
  {
    var p :| 0 <= p < |mem.history| && ToldAt(rows, l, p);
    assert l.batch[0].(outcome := l.outcome) == rows[p];
  }

  lemma SentOneMore(rows: seq<Row>, chans: map<nat, Channel>, ch: nat, call: Row)
    requires SentOk(rows, chans) && call in rows && call.outcome.status != Pending
    ensures SentOk(rows, AddEvent(chans, ch, Sent(call)))
  {
  }

  lemma SameCallSameBatch(rows: seq<Row>, mem: Snapshot, l: Loop, m: Loop)
    requires BatchOk(rows, mem, l) && m.pc == l.pc && m.batch == l.batch && m.outcome == l.outcome
    ensures BatchOk(rows, mem, m)
  {
    if l.pc == Recorded || l.pc == Notifying {
      var p :| 0 <= p < |mem.history| && ToldAt(rows, l, p);
      assert ToldAt(rows, m, p);
    }
  }

  lemma DeliverKeepsInst(b: Behaviour, db: Db, i: Instance, id: nat)
    requires InstOk(b, db, i) && LoopEnabled(b, i, id, Deliver)
    ensures InstOk(b, db, LoopApply(b, i, db.rows, id, Deliver))
  {
    var l, j := i.loops[id], LoopApply(b, i, db.rows, id, Deliver);
    DeliverSends(db.rows, i.mem, l);
    SentOneMore(db.rows, i.chans, l.toNotify[0], l.batch[0].(outcome := l.outcome));
    SameCallSameBatch(db.rows, i.mem, l, j.loops[id]);
    BystanderKeepsInst(b, db, i, j, id);
  }

  predicate Plain(step: LoopStep) {
    || step.Stop? || step.Look? || step.Sweep? || step.FetchFails?
    || step.Again? || step.Notify? || step.NextCall? || step.TryExit?
  }

  lemma NextCallBatch(rows: seq<Row>, mem: Snapshot, l: Loop)
    requires l.pc == Notifying && BatchOk(rows, mem, l)
    ensures l.batch != [] && BatchOk(rows, mem, l.(pc := Draining, batch := l.batch[1..]))
  {
    var p :| 0 <= p < |mem.history| && ToldAt(rows, l, p);
    assert SliceAt(rows, l.batch[1..], p + 1);
  }

  lemma PlainBatch(b: Behaviour, i: Instance, rows: seq<Row>, id: nat, step: LoopStep)
    requires Plain(step) && LoopEnabled(b, i, id, step) && BatchOk(rows, i.mem, i.loops[id])
    ensures id in LoopApply(b, i, rows, id, step).loops
    ensures BatchOk(rows, i.mem, LoopApply(b, i, rows, id, step).loops[id])
  {
    var l, m := i.loops[id], LoopApply(b, i, rows, id, step).loops[id];
    if step.NextCall? {
      NextCallBatch(rows, i.mem, l);
    } else if step.Notify? {
      var p :| 0 <= p < |i.mem.history| && ToldAt(rows, l, p);
      assert ToldAt(rows, m, p);
    }
  }

  lemma PlainFrame(b: Behaviour, i: Instance, rows: seq<Row>, id: nat, step: LoopStep)
    requires Plain(step) && LoopEnabled(b, i, id, step)
    ensures var j := LoopApply(b, i, rows, id, step);
            && j.mem == i.mem && j.chans == i.chans && id in j.loops && j.loops == i.loops[id := j.loops[id]]
            && !HoldsState(i.loops[id]) && !HoldsState(j.loops[id])
            && (|| j.loops[id].seen == None
                || j.loops[id].seen == i.loops[id].seen || j.loops[id].seen == Some(i.mem.next))
  {
    if step.Sweep? || step.Notify? { } else if step.TryExit? { } else { }
  }

  lemma PlainKeepsInst(b: Behaviour, db: Db, i: Instance, id: nat, step: LoopStep)
    requires InstOk(b, db, i) && Plain(step) && LoopEnabled(b, i, id, step)
    ensures InstOk(b, db, LoopApply(b, i, db.rows, id, step))
  {
    PlainBatch(b, i, db.rows, id, step);
    PlainFrame(b, i, db.rows, id, step);
    BystanderKeepsInst(b, db, i, LoopApply(b, i, db.rows, id, step), id);
  }

  lemma ClosedOneMore(rows: seq<Row>, chans: map<nat, Channel>, ch: nat)
    requires SentOk(rows, chans)
    ensures SentOk(rows, AddEvent(chans, ch, Closed))
  {
  }

  /** Closing changes only a loop's list of channels, whatever the loop is at. */
  lemma CloseOneKeepsInst(b: Behaviour, db: Db, i: Instance, id: nat)
    requires InstOk(b, db, i) && LoopEnabled(b, i, id, CloseOne)
    ensures InstOk(b, db, LoopApply(b, i, db.rows, id, CloseOne))
  {
    var l, j := i.loops[id], LoopApply(b, i, db.rows, id, CloseOne);
    ClosedOneMore(db.rows, i.chans, l.toClose[0]);
    SameCallSameBatch(db.rows, i.mem, l, j.loops[id]);
    OthersBatches(db.rows, i, j, id);
    NobodyMoves(i, j);
    SeenKept(b, db, i, j);
  }

  lemma CleanupKeepsInst(b: Behaviour, db: Db, i: Instance, id: nat)
    requires InstOk(b, db, i) && LoopEnabled(b, i, id, Cleanup)
    ensures InstOk(b, db, LoopApply(b, i, db.rows, id, Cleanup))
  {
    var j := LoopApply(b, i, db.rows, id, Cleanup);
    assert forall x :: x in j.loops <==> x in i.loops && x != id;
    assert StateFree(j) ==> StateFree(i) by { assert forall x :: x in j.loops ==> j.loops[x] == i.loops[x]; }
    SeenKept(b, db, i, j);
    assert Ahead(j) <==> Ahead(i) by {
      if x :| x in i.loops && i.loops[x].pc == Executed { assert x in j.loops && j.loops[x].pc == Executed; }
    }
  }

  /** All steps but the two that write to the tables. */
  lemma LoopStepKeepsInst(b: Behaviour, db: Db, i: Instance, id: nat, step: LoopStep)
    requires TableOk(db) && RowsOk(b, db) && InstOk(b, db, i) && LoopEnabled(b, i, id, step) && !step.Save?
    requires !step.Record?
    requires step.Execute? ==> i.loops[id].batch[0].seqNo >= i.mem.next
    ensures InstOk(b, db, LoopApply(b, i, db.rows, id, step))
  {
    match step
    case Execute(_, _) => ExecuteKeepsInst(b, db, i, id, step);
    case Fetch => FetchKeepsInst(b, db, i, id);
    case Deliver => DeliverKeepsInst(b, db, i, id);
    case CloseOne => CloseOneKeepsInst(b, db, i, id);
    case Cleanup => CleanupKeepsInst(b, db, i, id);
    case _ => PlainKeepsInst(b, db, i, id, step);
  }

  lemma LoopStepKeepsInv(b: Behaviour, s: State, id: nat, step: LoopStep)
    requires Inv(b, s) && Enabled(b, s, Do(id, step)) && !Stale(s, Do(id, step))
    ensures Inv(b, Apply(b, s, Do(id, step)))
  {
    if step.Save? {
      SaveKeepsInv(b, s, id);
    } else if step.Record? {
      RecordKeepsInv(b, s, id);
    } else {
      LoopStepKeepsInst(b, s.db, s.inst.value, id, step);
    }
  }

  // ----- The instance's life and the callers -----

  lemma StartKeepsInst(b: Behaviour, db: Db, i: Instance, j: Instance, id: nat)
    requires InstOk(b, db, i) && id !in i.loops
    requires j.mem == i.mem && j.loops == (if i.processing then i.loops else i.loops[id := NEW_LOOP])
    requires SentOk(db.rows, j.chans)
    ensures InstOk(b, db, j)
  {
    assert BatchOk(db.rows, j.mem, NEW_LOOP);
    assert forall x :: x in i.loops ==> x in j.loops && j.loops[x] == i.loops[x];
    SeenKept(b, db, i, j);
    assert Ahead(i) <==> Ahead(j) by {
      if x :| x in i.loops && i.loops[x].pc == Executed { assert x in j.loops && j.loops[x].pc == Executed; }
    }
  }

  lemma QuietFacts(b: Behaviour, db: Db, i: Instance)
    requires InstOk(b, db, i) && StateFree(i)
    ensures i.mem == Load(b, db)
  {
    assert forall x :: x in i.loops ==> !HoldsState(i.loops[x]);
  }

  /** Saving again what is saved already changes nothing that matters. */
  lemma ResaveKeepsInv(b: Behaviour, s: State)
    requires Inv(b, s) && s.inst.Some? && StateFree(s.inst.value)
    ensures Inv(b, s.(db := s.db.(saved := Some(s.inst.value.mem))))
  {
    QuietFacts(b, s.db, s.inst.value);
    assert Load(b, s.db.(saved := Some(s.inst.value.mem))) == Load(b, s.db);
  }

  lemma ReadKeepsAnswers(rows: seq<Row>, answers: set<Answer>, callId: string)
    requires AnswersOk(rows, answers)
    ensures AnswersOk(rows, answers + AnswersFor(rows, callId))
  {
    forall a | a in AnswersFor(rows, callId) ensures InRows(rows, a) {
      var k :| 0 <= k < |rows| && rows[k].callId == callId && rows[k].outcome.status != Pending
               && a == Answer(callId, rows[k].outcome);
      assert rows[k].outcome == a.outcome;
    }
  }

  lemma ReceiveKeepsAnswers(rows: seq<Row>, answers: set<Answer>, call: Row)
    requires AnswersOk(rows, answers) && call in rows && call.outcome.status != Pending
    ensures AnswersOk(rows, answers + {Answer(call.callId, call.outcome)})
  {
    var k :| 0 <= k < |rows| && rows[k] == call;
    assert InRows(rows, Answer(call.callId, rows[k].outcome));
  }

  lemma StarterKeepsInv(b: Behaviour, s: State, a: Action)
    requires Inv(b, s) && Enabled(b, s, a) && (a.Register? || a.StartDrain?)
    ensures Inv(b, Apply(b, s, a))
  {
    StartKeepsInst(b, s.db, s.inst.value, Apply(b, s, a).inst.value, a.id);
  }

  /** Whatever a caller is told is in the table. */
  lemma AnswersAreRows(b: Behaviour, s: State, a: Action)
    requires Enabled(b, s, a) && AnswersOk(s.db.rows, s.answers)
    requires s.inst.Some? ==> SentOk(s.db.rows, s.inst.value.chans)
    ensures AnswersOk(s.db.rows, Apply(b, s, a).answers)
  {
    match a
    case Receive(ch) => ReceiveKeepsAnswers(s.db.rows, s.answers, s.inst.value.chans[ch].events[0].call);
    case Read(callId) => ReadKeepsAnswers(s.db.rows, s.answers, callId);
    case _ =>
  }

  lemma CallerKeepsInv(b: Behaviour, s: State, a: Action)
    requires Inv(b, s) && Enabled(b, s, a)
    requires a.Register? || a.CloseNow? || a.StartDrain? || a.Receive? || a.Read?
    ensures Inv(b, Apply(b, s, a))
  {
    if a.CloseNow? {
      MemKept(b, s.db, s.inst.value, Apply(b, s, a).inst.value);
    } else if a.Receive? || a.Read? {
      AnswersAreRows(b, s, a);
    } else {
      StarterKeepsInv(b, s, a);
    }
  }

  lemma MemKept(b: Behaviour, db: Db, i: Instance, j: Instance)
    requires InstOk(b, db, i) && j.mem == i.mem && j.loops == i.loops && SentOk(db.rows, j.chans)
    ensures InstOk(b, db, j)
  {
    assert Ahead(j) <==> Ahead(i);
    SeenKept(b, db, i, j);
  }

  lemma StepKeepsInv(b: Behaviour, s: State, a: Action)
    requires Inv(b, s) && Enabled(b, s, a) && !Stale(s, a)
    ensures Inv(b, Apply(b, s, a))
  {
    match a
    case Insert(_, _, _) => InsertKeepsInv(b, s, a);
    case Do(id, step) => LoopStepKeepsInv(b, s, id, step);
    case PeriodicSave => ResaveKeepsInv(b, s);
    case Evict => ResaveKeepsInv(b, s);
    case Destroy => MemKept(b, s.db, s.inst.value, Apply(b, s, a).inst.value);
    case SkipSeq => SkipKeepsInv(b, s);
    case Activate =>
    case Crash =>
    case _ => CallerKeepsInv(b, s, a);
  }

  lemma SkipKeepsInv(b: Behaviour, s: State)
    requires Inv(b, s)
    ensures Inv(b, s.(db := s.db.(nextSeq := s.db.nextSeq + 1)))
  {
    assert Load(b, s.db.(nextSeq := s.db.nextSeq + 1)) == Load(b, s.db);
  }

  lemma {:induction false} FreshInv(b: Behaviour, acts: seq<Action>, states: seq<State>, k: nat)
    requires FreshRun(b, acts, states) && k < |states|
    ensures Inv(b, states[k])
  {
    if k > 0 {
      FreshInv(b, acts, states, k - 1);
      StepKeepsInv(b, states[k - 1], acts[k - 1]);
    }
  }
}
