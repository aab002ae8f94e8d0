/** Eviction in two steps (EvictObject of node/node.go), and saves whose errors are dropped.

    An eviction saves the object, which gives up the state lock, and only then cancels the instance and
    takes it off the map. A loop that is already past its shutdown test goes on with an instance that
    nobody can reach any more, possibly beside a new one. Here such instances linger and keep taking
    loop steps, whatever the live instance does. Callers hold the object's lifecycle lock, which an
    eviction waits for, so an evicted instance has no callers left.

    A loop's save may also fail: processing a call ignores the error (object/object.go:710), and the loop
    goes on to write the call's status and to tell its callers. */
module CallEviction {
  import opened Options
  import opened CallEngine
  import opened CallSafety
  import opened CallFlag
  import opened CallGuarantees

  /** The engine's state and the evicted instances that may still be at work. */
  datatype World = World(main: State, gone: map<nat, Instance>)

  const START := World(INITIAL, map[])

  /** A step of the engine, the end of an eviction, a step of an evicted instance's loop, or a save that
      fails, of a loop of the live instance (`None`) or of an evicted one. The save that an eviction begins
      with is the engine's own. */
  datatype Move =
    | Main(a: Action)
    | Detach(e: nat)
    | Linger(e: nat, id: nat, step: LoopStep)
    | DropSave(who: Option<nat>, id: nat)

  /** The live instance, or the evicted one of that number. */
  function Whose(w: World, who: Option<nat>): Option<Instance> {
    if who.None? then w.main.inst else if who.value in w.gone then Some(w.gone[who.value]) else None
  }

  predicate CanMove(b: Behaviour, w: World, m: Move) {
    match m
    case Main(a) => Enabled(b, w.main, a) && !a.Evict?
    case Detach(e) => w.main.inst.Some? && e !in w.gone
    case Linger(e, id, step) => e in w.gone && LoopEnabled(b, w.gone[e], id, step)
    case DropSave(who, id) => Whose(w, who).Some? && LoopEnabled(b, Whose(w, who).value, id, Save)
  }

  function Moved(b: Behaviour, w: World, m: Move): World
    requires CanMove(b, w, m)
  {
    match m
    case Main(a) => w.(main := Apply(b, w.main, a))
    case Detach(e) => World(w.main.(inst := None), w.gone[e := w.main.inst.value.(done := true)])
    case Linger(e, id, step) =>
      var i := w.gone[e];
      World(w.main.(db := DbApply(w.main.db, i, i.loops[id], step)),
            w.gone[e := LoopApply(b, i, w.main.db.rows, id, step)])
    case DropSave(who, id) =>
      var j := LoopApply(b, Whose(w, who).value, w.main.db.rows, id, Save);
      if who.None? then w.(main := w.main.(inst := Some(j))) else w.(gone := w.gone[who.value := j])
  }

  ghost predicate IsWorldRun(b: Behaviour, moves: seq<Move>, worlds: seq<World>) {
    && |worlds| == |moves| + 1 && worlds[0] == START
    && forall k :: 0 <= k < |moves| ==>
         CanMove(b, worlds[k], moves[k]) && worlds[k + 1] == Moved(b, worlds[k], moves[k])
  }

  // ----- What can go wrong -----

  /** The call is not the first inserted one at or above the marker. */
  ghost predicate OutOfTurn(rows: seq<Row>, mem: Snapshot, call: Row) {
    call.seqNo < mem.next || exists j :: 0 <= j < |rows| && mem.next <= rows[j].seqNo < call.seqNo
  }

  /** The history has an execution of this call with this outcome. */
  ghost predicate Has(history: seq<Ran>, seqNo: int, out: Outcome) {
    exists k :: 0 <= k < |history| && history[k].seqNo == seqNo && history[k].outcome == out
  }

  /** Saving the snapshot would lose a call whose outcome callers can already be told. */
  ghost predicate Forgets(rows: seq<Row>, mem: Snapshot) {
    exists j :: 0 <= j < |rows| && rows[j].outcome.status != Pending
                && !Has(mem.history, rows[j].seqNo, rows[j].outcome)
  }

  /** The loop step executes a call out of turn, saves a snapshot that lacks a decided call, or records
      an outcome that the saved history does not have. */
  ghost predicate StepHarms(b: Behaviour, db: Db, i: Instance, id: nat, step: LoopStep) {
    && id in i.loops
    && var l := i.loops[id];
       match step
       case Execute(_, _) => l.batch != [] && OutOfTurn(db.rows, i.mem, l.batch[0])
       case Save => Forgets(db.rows, i.mem)
       case Record => l.batch != [] && !Has(Load(b, db).history, l.batch[0].seqNo, l.outcome)
       case _ => false
  }

  ghost predicate ActHarms(b: Behaviour, s: State, a: Action) {
    && s.inst.Some?
    && (|| (a.Do? && StepHarms(b, s.db, s.inst.value, a.id, a.step))
        || (a.PeriodicSave? && Forgets(s.db.rows, s.inst.value.mem)))
  }

  ghost predicate MoveHarms(b: Behaviour, w: World, m: Move) {
    || (m.Main? && ActHarms(b, w.main, m.a))
    || (m.Linger? && m.e in w.gone && StepHarms(b, w.main.db, w.gone[m.e], m.id, m.step))
  }

  /** The object row and the memory of every instance, live or evicted, are each the replay of exactly
      the inserted calls below their marker. */
  ghost predicate AllReplays(b: Behaviour, w: World) {
    ExactlyOnce(b, w.main) && forall e :: e in w.gone ==> IsReplay(b, w.main.db.rows, w.gone[e].mem)
  }

  /** Exactly-once effect: all states are replays, and every decided call is in the saved one with the
      outcome that its row tells. */
  ghost predicate Effect(b: Behaviour, w: World) {
    AllReplays(b, w) && RowsOk(b, w.main.db)
  }

  // ----- Replays against the table -----

  /** How many calls of an ordered table lie below a marker. */
  lemma {:induction false} Below(db: Db, next: int, n: nat) returns (k: nat)
    requires TableOk(db) && n <= |db.rows|
    ensures k <= n && forall j :: 0 <= j < k ==> db.rows[j].seqNo < next
    ensures forall j :: k <= j < n ==> next <= db.rows[j].seqNo
  {
    k := 0;
    if n > 0 {
      k := Below(db, next, n - 1);
      if db.rows[n - 1].seqNo < next { k := n; }
    }
  }

  /** A replay's history has one entry for each call below its marker. */
  lemma ReplaySplits(b: Behaviour, db: Db, sn: Snapshot)
    requires TableOk(db) && IsReplay(b, db.rows, sn)
    ensures |sn.history| <= |db.rows| && CallsBefore(db.rows, sn.next) == db.rows[..|sn.history|]
    ensures forall j :: 0 <= j < |sn.history| ==> db.rows[j].seqNo < sn.next
    ensures forall j :: |sn.history| <= j < |db.rows| ==> sn.next <= db.rows[j].seqNo
  {
    var k := Below(db, sn.next, |db.rows|);
    CallsBeforeIsPrefix(db.rows, sn.next, k);
  }

  /** Executing row `p` keeps a replay exactly if `p` is the next one. */
  lemma ExecuteReplay(b: Behaviour, db: Db, mem: Snapshot, p: nat, after: string, out: Outcome)
    requires TableOk(db) && IsReplay(b, db.rows, mem) && p < |db.rows| && CanRun(b, mem.data, db.rows[p], after, out)
    ensures var ran := Ran(db.rows[p].seqNo, mem.data, after, out);
            IsReplay(b, db.rows, Snapshot(after, ran.seqNo + 1, mem.history + [ran])) <==> p == |mem.history|
  {
    var ran := Ran(db.rows[p].seqNo, mem.data, after, out);
    ReplaySplits(b, db, mem);
    CallsBeforeIsPrefix(db.rows, ran.seqNo + 1, p + 1);
    if p == |mem.history| { HistoryExtends(b, db.rows, mem.history, ran); }
  }

  /** Being out of turn is being another row than the next one. */
  lemma TurnIsNextRow(b: Behaviour, db: Db, mem: Snapshot, p: nat, call: Row)
    requires TableOk(db) && IsReplay(b, db.rows, mem) && p < |db.rows| && call.seqNo == db.rows[p].seqNo
    ensures OutOfTurn(db.rows, mem, call) <==> p != |mem.history|
  {
    ReplaySplits(b, db, mem);
    if p > |mem.history| { assert mem.next <= db.rows[|mem.history|].seqNo < call.seqNo; }
  }

  lemma {:induction false} CallsBeforeAppend(rows: seq<Row>, row: Row, next: int)
    requires next <= row.seqNo
    ensures CallsBefore(rows + [row], next) == CallsBefore(rows, next)
  {
    if rows == [] {
      assert [] + [row] == [row];
    } else {
      assert (rows + [row])[1..] == rows[1..] + [row];
      CallsBeforeAppend(rows[1..], row, next);
    }
  }

  /** The tables hold the same calls, up to their outcomes. */
  ghost predicate SameCalls(rows: seq<Row>, rows': seq<Row>) {
    && |rows| == |rows'|
    && forall j :: 0 <= j < |rows| ==> rows'[j].(outcome := UNDECIDED) == rows[j].(outcome := UNDECIDED)
  }

  lemma {:induction false} CallsBeforeSame(rows: seq<Row>, rows': seq<Row>, next: int)
    requires SameCalls(rows, rows')
    ensures SameCalls(CallsBefore(rows, next), CallsBefore(rows', next))
  {
    if rows != [] {
      assert rows'[0].(outcome := UNDECIDED) == rows[0].(outcome := UNDECIDED);
      CallsBeforeSame(rows[1..], rows'[1..], next);
    }
  }

  lemma SameCallsSameReplay(b: Behaviour, rows: seq<Row>, rows': seq<Row>, sn: Snapshot)
    requires SameCalls(rows, rows') && IsReplay(b, rows, sn)
    ensures IsReplay(b, rows', sn)
  {
    CallsBeforeSame(rows, rows', sn.next);
    var calls, calls' := CallsBefore(rows, sn.next), CallsBefore(rows', sn.next);
    forall k | 0 <= k < |sn.history|
      ensures sn.history[k].seqNo == calls'[k].seqNo && sn.history[k].before == DataAt(b, sn.history, k)
              && CanRun(b, sn.history[k].before, calls'[k], sn.history[k].after, sn.history[k].outcome)
    {
      assert calls'[k].(outcome := UNDECIDED) == calls[k].(outcome := UNDECIDED);
    }
  }

  // ----- Decided rows against the saved history -----

  /** A replay has the call of row `j` in place `j` or not at all. */
  lemma HasAt(b: Behaviour, db: Db, sn: Snapshot, j: nat, out: Outcome)
    requires TableOk(db) && IsReplay(b, db.rows, sn) && j < |db.rows|
    ensures Has(sn.history, db.rows[j].seqNo, out) <==> j < |sn.history| && sn.history[j].outcome == out
  {
    ReplaySplits(b, db, sn);
    var h := sn.history;
    assert forall k :: 0 <= k < |h| ==> h[k].seqNo == db.rows[..|h|][k].seqNo == db.rows[k].seqNo;
  }

  lemma TerminalRow(b: Behaviour, db: Db, j: nat)
    requires TableOk(db) && IsReplay(b, db.rows, Load(b, db)) && RowsOk(b, db) && j < |db.rows|
    ensures db.rows[j].outcome == UNDECIDED <==> db.rows[j].outcome.status == Pending
  {
    var h := Load(b, db).history;
    ReplaySplits(b, db, Load(b, db));
    if db.rows[j].outcome != UNDECIDED {
      assert CanRun(b, h[j].before, db.rows[..|h|][j], h[j].after, h[j].outcome);
    }
  }

  /** Saving a replay keeps the decided rows true exactly if it forgets none of them. */
  lemma SaveKeepsRows(b: Behaviour, db: Db, mem: Snapshot)
    requires TableOk(db) && IsReplay(b, db.rows, Load(b, db)) && RowsOk(b, db) && IsReplay(b, db.rows, mem)
    ensures RowsOk(b, db.(saved := Some(mem))) <==> !Forgets(db.rows, mem)
  {
    forall j | 0 <= j < |db.rows|
      ensures db.rows[j].outcome == UNDECIDED <==> db.rows[j].outcome.status == Pending
      ensures Has(mem.history, db.rows[j].seqNo, db.rows[j].outcome)
         <==> j < |mem.history| && mem.history[j].outcome == db.rows[j].outcome
    {
      TerminalRow(b, db, j);
      HasAt(b, db, mem, j, db.rows[j].outcome);
    }
  }

  /** Recording an outcome keeps the decided rows true exactly if the saved history has it. */
  lemma RecordKeepsRows(b: Behaviour, db: Db, p: nat, out: Outcome)
    requires TableOk(db) && IsReplay(b, db.rows, Load(b, db)) && RowsOk(b, db) && p < |db.rows| && out.status != Pending
    ensures RowsOk(b, Decide(db, p, out)) <==> Has(Load(b, db).history, db.rows[p].seqNo, out)
  {
    HasAt(b, db, Load(b, db), p, out);
    var rows', h := Decide(db, p, out).rows, Load(b, db).history;
    assert rows'[p].outcome == out && forall j :: 0 <= j < |rows'| && j != p ==> rows'[j] == db.rows[j];
  }

  // ----- What holds in every world -----

  /** The call is a row of the table, up to its outcome. */
  ghost predicate InTable(rows: seq<Row>, call: Row) {
    exists p :: 0 <= p < |rows| && rows[p].(outcome := UNDECIDED) == call.(outcome := UNDECIDED)
  }

  /** A loop that holds the state lock has executed a call and knows how it ended. */
  predicate Knows(l: Loop) {
    HoldsState(l) ==> l.batch != [] && l.outcome.status != Pending
  }

  ghost predicate HoldersKnow(i: Instance) {
    forall x :: x in i.loops ==> Knows(i.loops[x])
  }

  ghost predicate InstanceFits(db: Db, i: Instance) {
    && i.mem.next <= db.nextSeq && HoldersKnow(i)
    && forall x, j :: x in i.loops && 0 <= j < |i.loops[x].batch| ==> InTable(db.rows, i.loops[x].batch[j])
  }

  ghost predicate Fits(b: Behaviour, w: World) {
    && TableOk(w.main.db) && Load(b, w.main.db).next <= w.main.db.nextSeq
    && (w.main.inst.Some? ==> InstanceFits(w.main.db, w.main.inst.value))
    && forall e :: e in w.gone ==> InstanceFits(w.main.db, w.gone[e])
  }

  /** The table had outcomes written, or one row appended. */
  ghost predicate Grows(db: Db, db': Db) {
    && db.nextSeq <= db'.nextSeq
    && (|| SameCalls(db.rows, db'.rows)
        || (&& |db'.rows| == |db.rows| + 1 && db'.rows[..|db.rows|] == db.rows
            && db'.rows[|db.rows|].seqNo >= db.nextSeq && db'.rows[|db.rows|].outcome == UNDECIDED))
  }

  lemma StillInTable(db: Db, db': Db, call: Row)
    requires Grows(db, db') && InTable(db.rows, call)
    ensures InTable(db'.rows, call)
  {
    var p :| 0 <= p < |db.rows| && db.rows[p].(outcome := UNDECIDED) == call.(outcome := UNDECIDED);
    if !SameCalls(db.rows, db'.rows) { assert db'.rows[..|db.rows|][p] == db'.rows[p]; }
    assert db'.rows[p].(outcome := UNDECIDED) == call.(outcome := UNDECIDED);
  }

  lemma StillReplays(b: Behaviour, db: Db, db': Db, sn: Snapshot)
    requires Grows(db, db') && IsReplay(b, db.rows, sn) && sn.next <= db.nextSeq
    ensures IsReplay(b, db'.rows, sn)
  {
    if SameCalls(db.rows, db'.rows) {
      SameCallsSameReplay(b, db.rows, db'.rows, sn);
    } else {
      assert db'.rows == db.rows + [db'.rows[|db.rows|]];
      CallsBeforeAppend(db.rows, db'.rows[|db.rows|], sn.next);
    }
  }

  lemma StillFits(db: Db, db': Db, i: Instance)
    requires Grows(db, db') && InstanceFits(db, i)
    ensures InstanceFits(db', i)
  {
    forall x, j | x in i.loops && 0 <= j < |i.loops[x].batch| ensures InTable(db'.rows, i.loops[x].batch[j]) {
      StillInTable(db, db', i.loops[x].batch[j]);
    }
  }

  lemma {:induction false} PendingInTable(rows: seq<Row>, all: seq<Row>, next: int)
    requires forall p :: 0 <= p < |rows| ==> InTable(all, rows[p])
    ensures forall j :: 0 <= j < |PendingFrom(rows, next)| ==> InTable(all, PendingFrom(rows, next)[j])
  {
    if rows != [] {
      assert forall p :: 0 <= p < |rows[1..]| ==> rows[1..][p] == rows[p + 1];
      PendingInTable(rows[1..], all, next);
    }
  }

  lemma PendingFits(db: Db, next: int)
    ensures forall j :: 0 <= j < |PendingFrom(db.rows, next)| ==> InTable(db.rows, PendingFrom(db.rows, next)[j])
  {
    forall p | 0 <= p < |db.rows| ensures InTable(db.rows, db.rows[p]) { }
    PendingInTable(db.rows, db.rows, next);
  }

  // ----- One loop step, of a live or an evicted instance -----

  lemma StillKnows(b: Behaviour, i: Instance, rows: seq<Row>, id: nat, step: LoopStep)
    requires LoopEnabled(b, i, id, step) && !step.Cleanup? && Knows(i.loops[id])
    ensures id in LoopApply(b, i, rows, id, step).loops && Knows(LoopApply(b, i, rows, id, step).loops[id])
  {
    if Plain(step) { PlainFrame(b, i, rows, id, step); }
  }

  lemma HoldersStillKnow(b: Behaviour, i: Instance, rows: seq<Row>, id: nat, step: LoopStep)
    requires HoldersKnow(i) && LoopEnabled(b, i, id, step)
    ensures HoldersKnow(LoopApply(b, i, rows, id, step))
  {
    if !step.Cleanup? {
      StepFrame(b, i, rows, id, step);
      StillKnows(b, i, rows, id, step);
    }
  }

  lemma LoopStepFits(b: Behaviour, db: Db, i: Instance, id: nat, step: LoopStep)
    requires TableOk(db) && InstanceFits(db, i) && LoopEnabled(b, i, id, step)
    ensures InstanceFits(db, LoopApply(b, i, db.rows, id, step))
  {
    if step.Fetch? { PendingFits(db, i.loops[id].seen.value); }
    HoldersStillKnow(b, i, db.rows, id, step);
    LoopMarker(b, i, db.rows, id, step);
    if step.Execute? { assert InTable(db.rows, i.loops[id].batch[0]); }
    BatchesStay(b, i, db.rows, id, step);
  }

  lemma LoopStepGrows(b: Behaviour, db: Db, i: Instance, id: nat, step: LoopStep)
    requires TableOk(db) && LoopEnabled(b, i, id, step)
    ensures var db' := DbApply(db, i, i.loops[id], step);
            && TableOk(db') && Grows(db, db') && SameCalls(db.rows, db'.rows)
            && db'.saved == if step.Save? then Some(i.mem) else db.saved
  {
  }

  lemma InTableAt(rows: seq<Row>, call: Row) returns (p: nat)
    requires InTable(rows, call)
    ensures p < |rows| && rows[p].(outcome := UNDECIDED) == call.(outcome := UNDECIDED)
  {
    p :| 0 <= p < |rows| && rows[p].(outcome := UNDECIDED) == call.(outcome := UNDECIDED);
  }

  /** Executing a call of the table keeps a replay exactly if it is the call's turn. */
  lemma ExecuteInTurn(b: Behaviour, db: Db, mem: Snapshot, call: Row, after: string, out: Outcome)
    requires TableOk(db) && IsReplay(b, db.rows, mem) && InTable(db.rows, call) && CanRun(b, mem.data, call, after, out)
    ensures var ran := Ran(call.seqNo, mem.data, after, out);
            var mem' := Snapshot(after, call.seqNo + 1, mem.history + [ran]);
            IsReplay(b, db.rows, mem') <==> !OutOfTurn(db.rows, mem, call)
  {
    var p := InTableAt(db.rows, call);
    ExecuteReplay(b, db, mem, p, after, out);
    TurnIsNextRow(b, db, mem, p, call);
  }

  /** The instance's memory stays a replay exactly if the step does not execute out of turn. */
  lemma LoopStepReplays(b: Behaviour, db: Db, i: Instance, id: nat, step: LoopStep)
    requires TableOk(db) && InstanceFits(db, i) && LoopEnabled(b, i, id, step) && IsReplay(b, db.rows, i.mem)
    ensures IsReplay(b, db.rows, LoopApply(b, i, db.rows, id, step).mem)
       <==> !(step.Execute? && OutOfTurn(db.rows, i.mem, i.loops[id].batch[0]))
  {
    LoopMarker(b, i, db.rows, id, step);
    if step.Execute? {
      assert InTable(db.rows, i.loops[id].batch[0]);
      ExecuteInTurn(b, db, i.mem, i.loops[id].batch[0], step.after, step.outcome);
    }
  }

  /** What the step writes agrees with the decided rows exactly if it neither forgets nor contradicts. */
  lemma LoopStepRows(b: Behaviour, db: Db, i: Instance, id: nat, step: LoopStep)
    requires TableOk(db) && InstanceFits(db, i) && LoopEnabled(b, i, id, step) && IsReplay(b, db.rows, i.mem)
    requires IsReplay(b, db.rows, Load(b, db)) && RowsOk(b, db)
    ensures RowsOk(b, DbApply(db, i, i.loops[id], step))
       <==> !(step.Save? && Forgets(db.rows, i.mem))
            && !(step.Record? && !Has(Load(b, db).history, i.loops[id].batch[0].seqNo, i.loops[id].outcome))
  {
    var l := i.loops[id];
    if step.Save? {
      SaveKeepsRows(b, db, i.mem);
    } else if step.Record? {
      assert InTable(db.rows, l.batch[0]);
      var p := InTableAt(db.rows, l.batch[0]);
      assert db.rows[p].seqNo == l.batch[0].seqNo;
      RecordIsOneRow(db, p, l.outcome);
      RecordKeepsRows(b, db, p, l.outcome);
    }
  }

  // ----- The steps of a world -----

  lemma OthersGrow(b: Behaviour, s: State, a: Action)
    requires TableOk(s.db) && Enabled(b, s, a) && !a.Do?
    ensures TableOk(Apply(b, s, a).db) && Grows(s.db, Apply(b, s, a).db)
  {
  }

  /** What a step of the engine other than a loop's does to its instance and to the object row. */
  lemma OthersKeepMem(b: Behaviour, s: State, a: Action)
    requires Enabled(b, s, a) && !a.Do? && !a.Evict?
    ensures var s' := Apply(b, s, a);
            && (s'.inst.Some? ==> s'.inst.value.mem == if s.inst.Some? then s.inst.value.mem else Load(b, s.db))
            && (Load(b, s'.db) == Load(b, s.db) || (s.inst.Some? && Load(b, s'.db) == s.inst.value.mem))
            && (s'.inst.Some? ==> forall x :: x in s'.inst.value.loops ==>
                  || s'.inst.value.loops[x] == NEW_LOOP
                  || (s.inst.Some? && x in s.inst.value.loops && s'.inst.value.loops[x] == s.inst.value.loops[x]))
  {
  }

  lemma MainFits(b: Behaviour, s: State, a: Action)
    requires TableOk(s.db) && Load(b, s.db).next <= s.db.nextSeq && (s.inst.Some? ==> InstanceFits(s.db, s.inst.value))
    requires Enabled(b, s, a) && !a.Evict?
    ensures var s' := Apply(b, s, a);
            && TableOk(s'.db) && Grows(s.db, s'.db) && Load(b, s'.db).next <= s'.db.nextSeq
            && (s'.inst.Some? ==> InstanceFits(s'.db, s'.inst.value))
  {
    var s' := Apply(b, s, a);
    if a.Do? {
      LoopStepGrows(b, s.db, s.inst.value, a.id, a.step);
      LoopStepFits(b, s.db, s.inst.value, a.id, a.step);
      StillFits(s.db, s'.db, s'.inst.value);
    } else {
      OthersGrow(b, s, a);
      OthersKeepMem(b, s, a);
      if s.inst.Some? { StillFits(s.db, s'.db, s.inst.value); }
    }
  }

  lemma MoveFits(b: Behaviour, w: World, m: Move)
    requires Fits(b, w) && CanMove(b, w, m)
    ensures Fits(b, Moved(b, w, m)) && Grows(w.main.db, Moved(b, w, m).main.db)
  {
    var w' := Moved(b, w, m);
    match m
    case Main(a) => MainFits(b, w.main, a);
    case Detach(e) => assert InstanceFits(w'.main.db, w'.gone[e]);
    case Linger(e, id, step) =>
      LoopStepGrows(b, w.main.db, w.gone[e], id, step);
      LoopStepFits(b, w.main.db, w.gone[e], id, step);
      StillFits(w.main.db, w'.main.db, w'.gone[e]);
      if w.main.inst.Some? { StillFits(w.main.db, w'.main.db, w.main.inst.value); }
    case DropSave(who, id) => LoopStepFits(b, w.main.db, Whose(w, who).value, id, Save);
    forall e | e in w'.gone ensures InstanceFits(w'.main.db, w'.gone[e]) {
      if e in w.gone && w'.gone[e] == w.gone[e] { StillFits(w.main.db, w'.main.db, w.gone[e]); }
    }
  }

  lemma LoopExact(b: Behaviour, db: Db, i: Instance, id: nat, step: LoopStep)
    requires TableOk(db) && InstanceFits(db, i) && LoopEnabled(b, i, id, step) && IsReplay(b, db.rows, i.mem)
    requires IsReplay(b, db.rows, Load(b, db)) && Load(b, db).next <= db.nextSeq && RowsOk(b, db)
    ensures var db' := DbApply(db, i, i.loops[id], step);
            && (IsReplay(b, db'.rows, LoopApply(b, i, db.rows, id, step).mem) && RowsOk(b, db')
                <==> !StepHarms(b, db, i, id, step))
            && IsReplay(b, db'.rows, Load(b, db'))
  {
    var db' := DbApply(db, i, i.loops[id], step);
    LoopStepGrows(b, db, i, id, step);
    LoopStepReplays(b, db, i, id, step);
    LoopStepRows(b, db, i, id, step);
    StillReplays(b, db, db', Load(b, db));
    StillReplays(b, db, db', i.mem);
    if step.Execute? { assert db' == db; } else { LoopMarker(b, i, db.rows, id, step); }
  }

  lemma OthersKeepRows(b: Behaviour, s: State, a: Action)
    requires TableOk(s.db) && Enabled(b, s, a) && !a.Do? && !a.Evict? && ExactlyOnce(b, s) && RowsOk(b, s.db)
    ensures RowsOk(b, Apply(b, s, a).db) <==> !ActHarms(b, s, a)
  {
    if a.PeriodicSave? { SaveKeepsRows(b, s.db, s.inst.value.mem); }
  }

  lemma MainExact(b: Behaviour, s: State, a: Action)
    requires TableOk(s.db) && Load(b, s.db).next <= s.db.nextSeq && (s.inst.Some? ==> InstanceFits(s.db, s.inst.value))
    requires Enabled(b, s, a) && !a.Evict? && ExactlyOnce(b, s) && RowsOk(b, s.db)
    ensures ExactlyOnce(b, Apply(b, s, a)) && RowsOk(b, Apply(b, s, a).db) <==> !ActHarms(b, s, a)
  {
    var s' := Apply(b, s, a);
    if a.Do? {
      LoopExact(b, s.db, s.inst.value, a.id, a.step);
    } else {
      OthersGrow(b, s, a);
      OthersKeepMem(b, s, a);
      OthersKeepRows(b, s, a);
      StillReplays(b, s.db, s'.db, Load(b, s.db));
      if s.inst.Some? { StillReplays(b, s.db, s'.db, s.inst.value.mem); }
    }
  }

  lemma GoneReplay(b: Behaviour, w: World, db': Db, e: nat)
    requires AllReplays(b, w) && Fits(b, w) && Grows(w.main.db, db') && e in w.gone
    ensures IsReplay(b, db'.rows, w.gone[e].mem)
  {
    StillReplays(b, w.main.db, db', w.gone[e].mem);
  }

  lemma LingerExact(b: Behaviour, w: World, m: Move)
    requires Fits(b, w) && Effect(b, w) && CanMove(b, w, m) && m.Linger?
    requires Grows(w.main.db, Moved(b, w, m).main.db)
    requires forall e :: e in w.gone ==> IsReplay(b, Moved(b, w, m).main.db.rows, w.gone[e].mem)
    ensures Effect(b, Moved(b, w, m)) <==> !MoveHarms(b, w, m)
  {
    var w' := Moved(b, w, m);
    LoopExact(b, w.main.db, w.gone[m.e], m.id, m.step);
    if w.main.inst.Some? { StillReplays(b, w.main.db, w'.main.db, w.main.inst.value.mem); }
    assert w'.gone[m.e].mem == LoopApply(b, w.gone[m.e], w.main.db.rows, m.id, m.step).mem;
  }

  /** A save that fails changes no memory and no table. */
  lemma DropKeepsMem(b: Behaviour, w: World, who: Option<nat>, id: nat)
    requires CanMove(b, w, DropSave(who, id))
    ensures var w' := Moved(b, w, DropSave(who, id));
            && w'.main.db == w.main.db && w'.gone.Keys == w.gone.Keys && w'.main.inst.Some? == w.main.inst.Some?
            && (w.main.inst.Some? ==> w'.main.inst.value.mem == w.main.inst.value.mem)
            && forall e :: e in w.gone ==> w'.gone[e].mem == w.gone[e].mem
  {
    LoopMarker(b, Whose(w, who).value, w.main.db.rows, id, Save);
  }

  lemma MoveExact(b: Behaviour, w: World, m: Move)
    requires Fits(b, w) && Effect(b, w) && CanMove(b, w, m)
    ensures Effect(b, Moved(b, w, m)) <==> !MoveHarms(b, w, m)
  {
    var w' := Moved(b, w, m);
    MoveFits(b, w, m);
    forall e | e in w.gone ensures IsReplay(b, w'.main.db.rows, w.gone[e].mem) { GoneReplay(b, w, w'.main.db, e); }
    match m
    case Main(a) => MainExact(b, w.main, a);
    case Detach(e) =>
    case Linger(_, _, _) => LingerExact(b, w, m);
    case DropSave(who, id) => DropKeepsMem(b, w, who, id);
  }

  // ----- Runs -----

  lemma {:induction false} WorldFits(b: Behaviour, moves: seq<Move>, worlds: seq<World>, k: nat)
    requires IsWorldRun(b, moves, worlds) && k < |worlds|
    ensures Fits(b, worlds[k])
  {
    if k > 0 {
      WorldFits(b, moves, worlds, k - 1);
      MoveFits(b, worlds[k - 1], moves[k - 1]);
    }
  }

  /** A run without a harmful move. */
  ghost predicate UnharmedRun(b: Behaviour, moves: seq<Move>, worlds: seq<World>) {
    IsWorldRun(b, moves, worlds) && forall k :: 0 <= k < |moves| ==> !MoveHarms(b, worlds[k], moves[k])
  }

  lemma {:induction false} UnharmedEffect(b: Behaviour, moves: seq<Move>, worlds: seq<World>, k: nat)
    requires UnharmedRun(b, moves, worlds) && k < |worlds|
    ensures Effect(b, worlds[k])
  {
    if k > 0 {
      UnharmedEffect(b, moves, worlds, k - 1);
      WorldFits(b, moves, worlds, k - 1);
      MoveExact(b, worlds[k - 1], moves[k - 1]);
    }
  }

  /** Exactly-once effect with evicted instances still at work and failing saves ignored. In all states of a
      run the saved state and every instance's memory replay exactly the calls below their markers, and every
      decided call is in the saved state with the outcome that callers are told, if and only if nobody, live
      or evicted, executes a call other than the first inserted one at or above its own marker, saves a
      snapshot that lacks a decided call, or records an outcome that the saved history does not have. */
  lemma EffectIffUnharmed(b: Behaviour, moves: seq<Move>, worlds: seq<World>)
    requires IsWorldRun(b, moves, worlds)
    ensures (forall k :: 0 <= k < |worlds| ==> Effect(b, worlds[k])) <==> UnharmedRun(b, moves, worlds)
  {
    if UnharmedRun(b, moves, worlds) {
      forall k | 0 <= k < |worlds| ensures Effect(b, worlds[k]) { UnharmedEffect(b, moves, worlds, k); }
    } else {
      var k :| 0 <= k < |moves| && MoveHarms(b, worlds[k], moves[k]);
      WorldFits(b, moves, worlds, k);
      if Effect(b, worlds[k]) {
        MoveExact(b, worlds[k], moves[k]);
        assert !Effect(b, worlds[k + 1]);
      }
    }
  }
}
