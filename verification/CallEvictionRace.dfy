/** Runs that lose an effect or tell two outcomes.

    In the first two an evicted instance and its successor both have one call in hand. In the first both
    execute it, each in turn: the saved state stays an exact replay, but the two executions need not end
    alike, and callers are told both outcomes. In the second only the evicted one does, and the successor's
    own eviction then saves a state without the call. The third needs no eviction: a save fails, its error
    is dropped, and the process dies. */
module CallEvictionRace {
  import opened Options
  import opened Waiters
  import opened CallEngine
  import opened CallGuarantees
  import opened CallEviction

  const HEADS := Outcome(Success, "heads", "")
  const TAILS := Outcome(Success, "tails", "")

  /** An object whose one method marks it and tosses a coin. */
  const COIN := Behaviour("", (r: string) => true,
    (before: string, m: string, r: string, after: string, out: Outcome) =>
      after == "x" && (out == HEADS || out == TAILS))

  const ROW := Row(1, "call", "Toss", "", UNDECIDED)
  const FRESH := Snapshot("", 0, [])
  const FETCHED := NEW_LOOP.(pc := Draining, batch := [ROW])

  /** An instance whose activation drain is at work. */
  function Drained(l: Loop): Instance {
    Instance(FRESH, true, [], map[1 := l], false, map[])
  }

  /** The drain has fetched the call. */
  const DRAINING := Drained(FETCHED)

  ghost predicate Reachable(w: World) {
    exists moves, worlds :: IsWorldRun(COIN, moves, worlds) && worlds[|moves|] == w
  }

  lemma Go(w: World, m: Move)
    requires Reachable(w) && CanMove(COIN, w, m)
    ensures Reachable(Moved(COIN, w, m))
  {
    var moves, worlds :| IsWorldRun(COIN, moves, worlds) && worlds[|moves|] == w;
    var more := worlds + [Moved(COIN, w, m)];
    assert IsWorldRun(COIN, moves + [m], more) && more[|moves + [m]|] == Moved(COIN, w, m);
  }

  /** A live instance whose one loop stands so. */
  function Live(db: Db, told: set<Answer>, gone: map<nat, Instance>, l: Loop): World {
    World(State(db, Some(Drained(l)), told), gone)
  }

  lemma ActivateAndStart(db: Db, told: set<Answer>, gone: map<nat, Instance>)
    requires Reachable(World(State(db, None, told), gone)) && Load(COIN, db) == FRESH
    ensures Reachable(Live(db, told, gone, NEW_LOOP))
  {
    var w := World(State(db, None, told), gone);
    Go(w, Main(Activate));
    var w1 := Moved(COIN, w, Main(Activate));
    Go(w1, Main(StartDrain(1)));
    assert Moved(COIN, w1, Main(StartDrain(1))).main.inst.value.loops == Drained(NEW_LOOP).loops;
  }

  /** The call was inserted and its process died before the drain got to it. */
  const PENDING := Db([ROW], 2, None)

  lemma ReachInserted()
    ensures Reachable(Live(PENDING, {}, map[], NEW_LOOP))
  {
    var none: seq<Move> := [];
    assert IsWorldRun(COIN, none, [START]) && [START][|none|] == START;
    ActivateAndStart(START.main.db, {}, map[]);
    var w := Live(START.main.db, {}, map[], NEW_LOOP);
    var call := CallEngine.Insert("call", "Toss", "");
    Go(w, Main(call));
    assert Moved(COIN, w, Main(call)) == Live(PENDING, {}, map[], NEW_LOOP);
  }

  lemma ReachPending()
    ensures Reachable(World(State(PENDING, None, {}), map[]))
  {
    ReachInserted();
    Go(Live(PENDING, {}, map[], NEW_LOOP), Main(Crash));
  }

  lemma LoopGoes(db: Db, told: set<Answer>, gone: map<nat, Instance>, l: Loop, step: LoopStep, l': Loop)
    requires Reachable(Live(db, told, gone, l)) && LoopEnabled(COIN, Drained(l), 1, step)
    requires !step.Save? && !step.Record?
    requires LoopApply(COIN, Drained(l), db.rows, 1, step) == Drained(l')
    ensures Reachable(Live(db, told, gone, l'))
  {
    Go(Live(db, told, gone, l), Main(Do(1, step)));
    assert Moved(COIN, Live(db, told, gone, l), Main(Do(1, step))) == Live(db, told, gone, l');
  }

  lemma DrainSweeps(db: Db, told: set<Answer>, gone: map<nat, Instance>)
    requires Reachable(Live(db, told, gone, NEW_LOOP))
    ensures Reachable(Live(db, told, gone, NEW_LOOP.(pc := Sweeping)))
  {
    var looked := NEW_LOOP.(seen := Some(0));
    assert LoopApply(COIN, Drained(NEW_LOOP), db.rows, 1, Look).loops == Drained(looked).loops;
    LoopGoes(db, told, gone, NEW_LOOP, Look, looked);
    assert Chans([]) == [];
    assert LoopApply(COIN, Drained(looked), db.rows, 1, Sweep).loops == Drained(NEW_LOOP.(pc := Sweeping)).loops;
    LoopGoes(db, told, gone, looked, Sweep, NEW_LOOP.(pc := Sweeping));
  }

  lemma DrainFetches(db: Db, told: set<Answer>, gone: map<nat, Instance>)
    requires Reachable(Live(db, told, gone, NEW_LOOP.(pc := Sweeping))) && db.rows == [ROW]
    ensures Reachable(Live(db, told, gone, FETCHED))
  {
    var swept := NEW_LOOP.(pc := Sweeping);
    var looked := swept.(seen := Some(0));
    assert LoopApply(COIN, Drained(swept), db.rows, 1, Look).loops == Drained(looked).loops;
    LoopGoes(db, told, gone, swept, Look, looked);
    assert PendingFrom([ROW], 0) == [ROW] + PendingFrom([ROW][1..], 0) == [ROW];
    assert LoopApply(COIN, Drained(looked), db.rows, 1, Fetch).loops == DRAINING.loops;
    LoopGoes(db, told, gone, looked, Fetch, FETCHED);
  }

  /** A new instance is activated and its drain fetches the call. */
  lemma ActivateAndFetch(db: Db, told: set<Answer>, gone: map<nat, Instance>)
    requires Reachable(World(State(db, None, told), gone)) && Load(COIN, db) == FRESH && db.rows == [ROW]
    ensures Reachable(Live(db, told, gone, FETCHED))
  {
    ActivateAndStart(db, told, gone);
    DrainSweeps(db, told, gone);
    DrainFetches(db, told, gone);
  }

  const STORED := Db([ROW], 2, Some(FRESH))
  const LINGERING := DRAINING.(done := true)

  /** The instance was evicted while its drain had the call in hand, and a second one has it too. */
  const TWO := Live(STORED, {}, map[0 := LINGERING], FETCHED)

  lemma ReachTwo()
    ensures Reachable(TWO)
  {
    ReachPending();
    ActivateAndFetch(PENDING, {}, map[]);
    var w := Live(PENDING, {}, map[], FETCHED);
    assert StateFree(DRAINING);
    Go(w, Main(PeriodicSave));
    var w1 := Live(STORED, {}, map[], FETCHED);
    assert Moved(COIN, w, Main(PeriodicSave)) == w1;
    Go(w1, Detach(0));
    assert Moved(COIN, w1, Detach(0)).gone == map[0 := LINGERING];
    ActivateAndFetch(STORED, {}, map[0 := LINGERING]);
  }

  function Ran1(out: Outcome): Snapshot {
    Snapshot("x", 2, [Ran(1, "", "x", out)])
  }

  /** The instance has executed the call and stands at `pc`. */
  function After(i: Instance, pc: Pc, out: Outcome): Instance {
    i.(mem := Ran1(out), loops := map[1 := FETCHED.(pc := pc, outcome := out)])
  }

  lemma ExecutedBy(i: Instance, out: Outcome)
    requires i.mem == FRESH && i.loops == map[1 := FETCHED] && (out == HEADS || out == TAILS)
    ensures LoopEnabled(COIN, i, 1, Execute("x", out))
    ensures forall rows :: LoopApply(COIN, i, rows, 1, Execute("x", out)) == After(i, Executed, out)
  {
    assert StateFree(i);
    assert i.loops[1 := FETCHED.(pc := Executed, outcome := out)] == After(i, Executed, out).loops;
    assert FRESH.history + [Ran(1, "", "x", out)] == Ran1(out).history;
  }

  lemma SavedBy(i: Instance, pc: Pc, next: Pc, step: LoopStep, out: Outcome)
    requires (pc == Executed && step == Save && next == Saved) || (pc == Saved && step == Record && next == Recorded)
    ensures LoopEnabled(COIN, After(i, pc, out), 1, step)
    ensures forall rows :: LoopApply(COIN, After(i, pc, out), rows, 1, step) == After(i, next, out)
  {
    assert After(i, pc, out).loops[1 := FETCHED.(pc := next, outcome := out)] == After(i, next, out).loops;
  }

  /** The live instance has executed the call and stands at `pc`. */
  function LiveAfter(db: Db, pc: Pc): World {
    World(State(db, Some(After(DRAINING, pc, HEADS)), {}), TWO.gone)
  }

  lemma LiveExecutes()
    ensures Reachable(LiveAfter(STORED, Executed))
  {
    ReachTwo();
    ExecutedBy(DRAINING, HEADS);
    Go(TWO, Main(Do(1, Execute("x", HEADS))));
    assert Moved(COIN, TWO, Main(Do(1, Execute("x", HEADS)))) == LiveAfter(STORED, Executed);
  }

  lemma LiveSaves()
    ensures Reachable(LiveAfter(Db([ROW], 2, Some(Ran1(HEADS))), Saved))
  {
    LiveExecutes();
    SavedBy(DRAINING, Executed, Saved, Save, HEADS);
    var w := LiveAfter(STORED, Executed);
    Go(w, Main(Do(1, Save)));
    assert Moved(COIN, w, Main(Do(1, Save))) == LiveAfter(Db([ROW], 2, Some(Ran1(HEADS))), Saved);
  }

  /** The tables after an instance has executed, saved and recorded the call. */
  function Done(out: Outcome): Db {
    Db([ROW.(outcome := out)], 2, Some(Ran1(out)))
  }

  /** The live instance executes, saves and records the call. */
  lemma LiveRuns()
    ensures Reachable(LiveAfter(Done(HEADS), Recorded))
  {
    LiveSaves();
    SavedBy(DRAINING, Saved, Recorded, Record, HEADS);
    var w := LiveAfter(Db([ROW], 2, Some(Ran1(HEADS))), Saved);
    Go(w, Main(Do(1, Record)));
    assert RecordOutcome([ROW], 1, HEADS) == [ROW.(outcome := HEADS)];
    assert Moved(COIN, w, Main(Do(1, Record))) == LiveAfter(Done(HEADS), Recorded);
  }

  /** A caller reads the row. */
  lemma ReadRow(w: World, out: Outcome)
    requires Reachable(w) && w.main.db.rows == [ROW.(outcome := out)] && out.status != Pending
    ensures Reachable(w.(main := w.main.(answers := w.main.answers + {Answer("call", out)})))
  {
    assert w.main.db.rows[0].callId == "call";
    Go(w, Main(Read("call")));
    assert AnswersFor(w.main.db.rows, "call") == {Answer("call", out)};
  }

  /** A step of the one evicted instance. */
  lemma EvictedGoes(main: State, i: Instance, step: LoopStep, j: Instance)
    requires Reachable(World(main, map[0 := i])) && LoopEnabled(COIN, i, 1, step)
    requires LoopApply(COIN, i, main.db.rows, 1, step) == j
    ensures Reachable(World(main.(db := DbApply(main.db, i, i.loops[1], step)), map[0 := j]))
  {
    var w := World(main, map[0 := i]);
    Go(w, Linger(0, 1, step));
    assert Moved(COIN, w, Linger(0, 1, step)).gone == map[0 := j];
  }

  lemma EvictedSaves(main: State)
    requires Reachable(World(main, TWO.gone))
    ensures var saved := main.(db := main.db.(saved := Some(Ran1(TAILS))));
            Reachable(World(saved, map[0 := After(LINGERING, Saved, TAILS)]))
  {
    ExecutedBy(LINGERING, TAILS);
    EvictedGoes(main, LINGERING, Execute("x", TAILS), After(LINGERING, Executed, TAILS));
    SavedBy(LINGERING, Executed, Saved, Save, TAILS);
    EvictedGoes(main, After(LINGERING, Executed, TAILS), Save, After(LINGERING, Saved, TAILS));
  }

  /** The evicted instance goes on to execute, save and record the call. */
  lemma EvictedRuns(main: State)
    requires Reachable(World(main, TWO.gone)) && main.db.nextSeq == 2
    requires |main.db.rows| == 1 && main.db.rows[0].(outcome := UNDECIDED) == ROW
    ensures Reachable(World(main.(db := Done(TAILS)), map[0 := After(LINGERING, Recorded, TAILS)]))
  {
    EvictedSaves(main);
    var saved := main.(db := main.db.(saved := Some(Ran1(TAILS))));
    SavedBy(LINGERING, Saved, Recorded, Record, TAILS);
    EvictedGoes(saved, After(LINGERING, Saved, TAILS), Record, After(LINGERING, Recorded, TAILS));
    assert RecordOutcome(main.db.rows, 1, TAILS) == [ROW.(outcome := TAILS)];
  }

  /** After an eviction that a busy loop outlives, one call can be executed by two instances and two
      callers can be told different outcomes, although the saved state is still an exact replay. */
  lemma EvictedLoopRepeatsACall()
    ensures exists w :: Reachable(w) && |w.main.db.rows| == 1 && IsReplay(COIN, w.main.db.rows, Load(COIN, w.main.db))
              && Answer("call", HEADS) in w.main.answers && Answer("call", TAILS) in w.main.answers
  {
    LiveRuns();
    var w := LiveAfter(Done(HEADS), Recorded);
    ReadRow(w, HEADS);
    var w1 := w.(main := w.main.(answers := w.main.answers + {Answer("call", HEADS)}));
    EvictedRuns(w1.main);
    ReadRow(World(w1.main.(db := Done(TAILS)), map[0 := After(LINGERING, Recorded, TAILS)]), TAILS);
    StillAReplay();
  }

  lemma StillAReplay()
    ensures IsReplay(COIN, [ROW.(outcome := TAILS)], Ran1(TAILS))
  {
    var rows := [ROW.(outcome := TAILS)];
    assert CallsBefore(rows, 2) == rows + CallsBefore(rows[1..], 2) == rows;
  }

  /** The tables when the call is decided and the saved object does not have it. */
  const LOST := State(Done(TAILS).(saved := Some(FRESH)), None, {Answer("call", TAILS)})

  /** Both evicted instances are past executing anything. */
  const IDLERS := map[
    0 := After(LINGERING, Recorded, TAILS),
    1 := LINGERING.(loops := map[1 := FETCHED.(pc := Stopping)])]

  /** The other way round: the evicted loop executes, saves and records the call, and a caller is told. */
  lemma ReachTold()
    ensures Reachable(World(State(Done(TAILS), Some(DRAINING), LOST.answers), map[0 := IDLERS[0]]))
  {
    ReachTwo();
    EvictedRuns(TWO.main);
    var w := World(TWO.main.(db := Done(TAILS)), map[0 := IDLERS[0]]);
    ReadRow(w, TAILS);
    assert w.main.answers + {Answer("call", TAILS)} == LOST.answers;
  }

  /** Then the successor, which has not executed it, is evicted in turn. */
  lemma ReachLosing()
    ensures Reachable(World(LOST, map[0 := IDLERS[0], 1 := LINGERING]))
  {
    ReachTold();
    var w := World(State(Done(TAILS), Some(DRAINING), LOST.answers), map[0 := IDLERS[0]]);
    assert StateFree(DRAINING);
    Go(w, Main(PeriodicSave));
    var w1 := Moved(COIN, w, Main(PeriodicSave));
    Go(w1, Detach(1));
    assert Moved(COIN, w1, Detach(1)) == World(LOST, map[0 := IDLERS[0], 1 := LINGERING]);
  }

  /** Its loop sees the shutdown. */
  lemma ReachLost()
    ensures Reachable(World(LOST, IDLERS))
  {
    ReachLosing();
    var w := World(LOST, map[0 := IDLERS[0], 1 := LINGERING]);
    Go(w, Linger(1, 1, Stop));
    assert LINGERING.loops[1 := FETCHED.(pc := Stopping)] == IDLERS[1].loops;
    assert Moved(COIN, w, Linger(1, 1, Stop)).gone == IDLERS;
  }

  /** An answered call whose effect is gone for good: a caller was told that the call succeeded, but the saved
      object has not executed it, no instance is live, no evicted loop has it in hand, and no later fetch
      will find its row. */
  lemma EvictionLosesAnEffect()
    ensures exists w :: Reachable(w) && w.main.inst.None? && Answer("call", TAILS) in w.main.answers
              && Load(COIN, w.main.db).history == [] && PendingFrom(w.main.db.rows, Load(COIN, w.main.db).next) == []
              && forall e, x :: e in w.gone && x in w.gone[e].loops ==> w.gone[e].loops[x].pc != Draining
  {
    ReachLost();
    assert PendingFrom(LOST.db.rows, 0) == [] + PendingFrom(LOST.db.rows[1..], 0) == [];
  }

  // ----- A save that fails -----

  /** A step of the live instance's loop. */
  lemma LiveGoes(w: World, i: Instance, step: LoopStep, j: Instance)
    requires Reachable(w) && w.main.inst == Some(i) && LoopEnabled(COIN, i, 1, step)
    requires LoopApply(COIN, i, w.main.db.rows, 1, step) == j
    ensures Reachable(World(State(DbApply(w.main.db, i, i.loops[1], step), Some(j), w.main.answers), w.gone))
  {
    Go(w, Main(Do(1, step)));
  }

  /** Its save fails. */
  lemma LiveDrops(w: World, i: Instance, j: Instance)
    requires Reachable(w) && w.main.inst == Some(i) && LoopEnabled(COIN, i, 1, Save)
    requires LoopApply(COIN, i, w.main.db.rows, 1, Save) == j
    ensures Reachable(w.(main := w.main.(inst := Some(j))))
  {
    Go(w, DropSave(None, 1));
  }

  /** An instance that has fetched the call executes it and fails to save it. */
  lemma ExecuteUnsaved(w: World, i: Instance)
    requires Reachable(w) && w.main.inst == Some(i) && i.mem == FRESH && i.loops == map[1 := FETCHED]
    ensures Reachable(w.(main := w.main.(inst := Some(After(i, Saved, HEADS)))))
  {
    ExecutedBy(i, HEADS);
    LiveGoes(w, i, Execute("x", HEADS), After(i, Executed, HEADS));
    SavedBy(i, Executed, Saved, Save, HEADS);
    var w1 := w.(main := w.main.(inst := Some(After(i, Executed, HEADS))));
    LiveDrops(w1, After(i, Executed, HEADS), After(i, Saved, HEADS));
  }

  /** The call is recorded although the object was never saved. */
  lemma ReachRecorded()
    ensures var db := Db([ROW.(outcome := HEADS)], 2, None);
            Reachable(World(State(db, Some(After(DRAINING, Recorded, HEADS)), {}), map[]))
  {
    ReachPending();
    ActivateAndFetch(PENDING, {}, map[]);
    var w := Live(PENDING, {}, map[], FETCHED);
    ExecuteUnsaved(w, DRAINING);
    SavedBy(DRAINING, Saved, Recorded, Record, HEADS);
    assert RecordOutcome([ROW], 1, HEADS) == [ROW.(outcome := HEADS)];
    LiveGoes(w.(main := w.main.(inst := Some(After(DRAINING, Saved, HEADS)))),
             After(DRAINING, Saved, HEADS), Record, After(DRAINING, Recorded, HEADS));
  }

  /** One instance, one dropped save error and a crash: a caller was told that the call succeeded, the object
      was never saved with it, and no later fetch will find its row. */
  lemma DroppedSaveLosesAnEffect()
    ensures exists w :: Reachable(w) && w.gone == map[] && w.main.inst.None? && Answer("call", HEADS) in w.main.answers
              && Load(COIN, w.main.db).history == [] && PendingFrom(w.main.db.rows, Load(COIN, w.main.db).next) == []
  {
    ReachRecorded();
    var rows := [ROW.(outcome := HEADS)];
    var w := World(State(Db(rows, 2, None), Some(After(DRAINING, Recorded, HEADS)), {}), map[]);
    ReadRow(w, HEADS);
    var w1 := w.(main := w.main.(answers := w.main.answers + {Answer("call", HEADS)}));
    Go(w1, Main(Crash));
    assert PendingFrom(rows, 0) == [] + PendingFrom(rows[1..], 0) == [];
  }
}
