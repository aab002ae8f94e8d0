/** What callers are told while evicted instances may still be at work.

    Callers of a call agree in a run if and only if no status write of the run changes a row that is
    decided already, a test that UpdateReliableCallStatus does not make. Runs that keep exactly-once
    effect pass it, and so do runs whose evicted instances write nothing: those are runs of the engine. */
module CallEvictionAnswers {
  import opened CallEngine
  import opened CallSafety
  import opened CallFlag
  import opened CallGuarantees
  import opened CallEviction

  // ----- Agreement and its condition -----

  /** A caller has been given this answer, or would be by polling now. */
  ghost predicate Tellable(w: World, a: Answer) {
    a in w.main.answers || InRows(w.main.db.rows, a)
  }

  /** Whoever asks for a call, now or later, is told the same outcome. */
  ghost predicate Agree(worlds: seq<World>) {
    forall k, m, x, y :: 0 <= k <= m < |worlds| && Tellable(worlds[k], x) && Tellable(worlds[m], y) ==>
      x.callId == y.callId ==> x.outcome == y.outcome
  }

  /** The loop step records another outcome for a call than its row already has. */
  ghost predicate Overwrites(rows: seq<Row>, i: Instance, id: nat, step: LoopStep) {
    && step.Record? && id in i.loops && i.loops[id].batch != []
    && exists p :: 0 <= p < |rows| && rows[p].seqNo == i.loops[id].batch[0].seqNo
                   && rows[p].outcome.status != Pending && rows[p].outcome != i.loops[id].outcome
  }

  ghost predicate MoveOverwrites(w: World, m: Move) {
    || (m.Main? && m.a.Do? && w.main.inst.Some? && Overwrites(w.main.db.rows, w.main.inst.value, m.a.id, m.a.step))
    || (m.Linger? && m.e in w.gone && Overwrites(w.main.db.rows, w.gone[m.e], m.id, m.step))
  }

  // ----- Decided rows stay -----

  lemma LoopDecidedStay(b: Behaviour, db: Db, i: Instance, id: nat, step: LoopStep)
    requires TableOk(db) && LoopEnabled(b, i, id, step) && !Overwrites(db.rows, i, id, step)
    ensures DecidedStay(db.rows, DbApply(db, i, i.loops[id], step).rows)
  {
  }

  lemma MoveDecidedStay(b: Behaviour, w: World, m: Move)
    requires TableOk(w.main.db) && CanMove(b, w, m) && !MoveOverwrites(w, m)
    ensures DecidedStay(w.main.db.rows, Moved(b, w, m).main.db.rows)
  {
    match m
    case Main(a) => if a.Do? { LoopDecidedStay(b, w.main.db, w.main.inst.value, a.id, a.step); }
    case Detach(_) =>
    case Linger(e, id, step) => LoopDecidedStay(b, w.main.db, w.gone[e], id, step);
    case DropSave(_, _) =>
  }

  // ----- What the live instance tells is in the table -----

  /** A loop that has recorded its call tells what the call's row says. */
  ghost predicate Truthful(rows: seq<Row>, l: Loop) {
    l.pc == Recorded || l.pc == Notifying ==>
      l.batch != [] && l.batch[0].(outcome := l.outcome) in rows && l.outcome.status != Pending
  }

  ghost predicate InstTruthful(rows: seq<Row>, i: Instance) {
    SentOk(rows, i.chans) && forall x :: x in i.loops ==> Truthful(rows, i.loops[x])
  }

  ghost predicate Told(w: World) {
    && AnswersOk(w.main.db.rows, w.main.answers)
    && (w.main.inst.Some? ==> InstTruthful(w.main.db.rows, w.main.inst.value))
  }

  lemma InstTruthStays(rows: seq<Row>, rows': seq<Row>, i: Instance)
    requires InstTruthful(rows, i) && DecidedStay(rows, rows')
    ensures InstTruthful(rows', i)
  {
    SentStay(rows, rows', i.chans);
    forall x | x in i.loops ensures Truthful(rows', i.loops[x]) { LoopTruthStays(rows, rows', i.loops[x]); }
  }

  lemma LoopTruthStays(rows: seq<Row>, rows': seq<Row>, l: Loop)
    requires Truthful(rows, l) && DecidedStay(rows, rows')
    ensures Truthful(rows', l)
  {
    if l.pc == Recorded || l.pc == Notifying {
      var k :| 0 <= k < |rows| && rows[k] == l.batch[0].(outcome := l.outcome);
      assert rows'[k] == rows[k];
    }
  }

  lemma RecordIsTrue(db: Db, i: Instance, id: nat)
    requires TableOk(db) && InstanceFits(db, i) && id in i.loops && i.loops[id].pc == Saved && i.loops[id].batch != []
    ensures Truthful(DbApply(db, i, i.loops[id], Record).rows, i.loops[id].(pc := Recorded))
  {
    var l := i.loops[id];
    assert InTable(db.rows, l.batch[0]) && Knows(l);
    var p := InTableAt(db.rows, l.batch[0]);
    assert RecordOutcome(db.rows, l.batch[0].seqNo, l.outcome)[p] == l.batch[0].(outcome := l.outcome);
  }

  /** The loop that takes the step is truthful afterwards. */
  lemma MoverIsTrue(b: Behaviour, db: Db, i: Instance, id: nat, step: LoopStep)
    requires TableOk(db) && InstanceFits(db, i) && LoopEnabled(b, i, id, step) && !step.Cleanup?
    requires Truthful(db.rows, i.loops[id]) && DecidedStay(db.rows, DbApply(db, i, i.loops[id], step).rows)
    ensures var j := LoopApply(b, i, db.rows, id, step);
            id in j.loops && Truthful(DbApply(db, i, i.loops[id], step).rows, j.loops[id])
  {
    if step.Record? {
      RecordIsTrue(db, i, id);
    } else if Plain(step) {
      PlainFrame(b, i, db.rows, id, step);
    }
  }

  lemma ChansStepTrue(b: Behaviour, i: Instance, rows: seq<Row>, id: nat, step: LoopStep)
    requires LoopEnabled(b, i, id, step) && InstTruthful(rows, i)
    ensures SentOk(rows, LoopApply(b, i, rows, id, step).chans)
  {
    var l := i.loops[id];
    if step.Deliver? {
      SentOneMore(rows, i.chans, l.toNotify[0], l.batch[0].(outcome := l.outcome));
    } else if step.CloseOne? {
      ClosedOneMore(rows, i.chans, l.toClose[0]);
    }
  }

  lemma LoopStepTrue(b: Behaviour, db: Db, i: Instance, id: nat, step: LoopStep)
    requires TableOk(db) && InstanceFits(db, i) && LoopEnabled(b, i, id, step) && InstTruthful(db.rows, i)
    requires DecidedStay(db.rows, DbApply(db, i, i.loops[id], step).rows)
    ensures InstTruthful(DbApply(db, i, i.loops[id], step).rows, LoopApply(b, i, db.rows, id, step))
  {
    var rows', j := DbApply(db, i, i.loops[id], step).rows, LoopApply(b, i, db.rows, id, step);
    ChansStepTrue(b, i, db.rows, id, step);
    SentStay(db.rows, rows', j.chans);
    InstTruthStays(db.rows, rows', i);
    if !step.Cleanup? {
      StepFrame(b, i, db.rows, id, step);
      MoverIsTrue(b, db, i, id, step);
    }
  }

  lemma OthersTrue(b: Behaviour, s: State, a: Action)
    requires Enabled(b, s, a) && !a.Do? && (s.inst.Some? ==> InstTruthful(s.db.rows, s.inst.value))
    ensures Apply(b, s, a).inst.Some? ==> InstTruthful(s.db.rows, Apply(b, s, a).inst.value)
  {
  }

  lemma MainTrue(b: Behaviour, s: State, a: Action)
    requires TableOk(s.db) && (s.inst.Some? ==> InstanceFits(s.db, s.inst.value)) && Enabled(b, s, a)
    requires s.inst.Some? ==> InstTruthful(s.db.rows, s.inst.value)
    requires DecidedStay(s.db.rows, Apply(b, s, a).db.rows)
    ensures Apply(b, s, a).inst.Some? ==> InstTruthful(Apply(b, s, a).db.rows, Apply(b, s, a).inst.value)
  {
    if a.Do? {
      LoopStepTrue(b, s.db, s.inst.value, a.id, a.step);
    } else {
      OthersTrue(b, s, a);
      if Apply(b, s, a).inst.Some? { InstTruthStays(s.db.rows, Apply(b, s, a).db.rows, Apply(b, s, a).inst.value); }
    }
  }

  lemma MoveTold(b: Behaviour, w: World, m: Move)
    requires Fits(b, w) && Told(w) && CanMove(b, w, m) && !MoveOverwrites(w, m)
    ensures Told(Moved(b, w, m)) && DecidedStay(w.main.db.rows, Moved(b, w, m).main.db.rows)
  {
    var w' := Moved(b, w, m);
    MoveDecidedStay(b, w, m);
    if m.Main? { AnswersAreRows(b, w.main, m.a); }
    AnswersStay(w.main.db.rows, w'.main.db.rows, w'.main.answers);
    match m
    case Main(a) => MainTrue(b, w.main, a);
    case Detach(_) =>
    case Linger(_, _, _) =>
      if w.main.inst.Some? { InstTruthStays(w.main.db.rows, w'.main.db.rows, w.main.inst.value); }
    case DropSave(who, id) => if who.None? { DroppedSaveTrue(b, w.main.inst.value, w.main.db.rows, id); }
  }

  lemma DroppedSaveTrue(b: Behaviour, i: Instance, rows: seq<Row>, id: nat)
    requires InstTruthful(rows, i) && LoopEnabled(b, i, id, Save)
    ensures InstTruthful(rows, LoopApply(b, i, rows, id, Save))
  {
  }

  // ----- Runs -----

  /** A run in which no record changes a decided row. */
  ghost predicate NothingOverwritten(b: Behaviour, moves: seq<Move>, worlds: seq<World>) {
    IsWorldRun(b, moves, worlds) && forall k :: 0 <= k < |moves| ==> !MoveOverwrites(worlds[k], moves[k])
  }

  lemma {:induction false} ToldAlways(b: Behaviour, moves: seq<Move>, worlds: seq<World>, k: nat)
    requires NothingOverwritten(b, moves, worlds) && k < |worlds|
    ensures Told(worlds[k])
  {
    if k > 0 {
      ToldAlways(b, moves, worlds, k - 1);
      WorldFits(b, moves, worlds, k - 1);
      MoveTold(b, worlds[k - 1], moves[k - 1]);
    }
  }

  lemma {:induction false} InRowsForGood(b: Behaviour, moves: seq<Move>, worlds: seq<World>, k: nat, m: nat, x: Answer)
    requires NothingOverwritten(b, moves, worlds) && k <= m < |worlds| && Tellable(worlds[k], x)
    ensures InRows(worlds[m].main.db.rows, x)
    decreases m - k
  {
    if k == m {
      ToldAlways(b, moves, worlds, k);
    } else {
      InRowsForGood(b, moves, worlds, k, m - 1, x);
      WorldFits(b, moves, worlds, m - 1);
      MoveDecidedStay(b, worlds[m - 1], moves[m - 1]);
      AnswerStays(worlds[m - 1].main.db.rows, worlds[m].main.db.rows, x);
    }
  }

  lemma AgreeIfNotOverwritten(b: Behaviour, moves: seq<Move>, worlds: seq<World>)
    requires NothingOverwritten(b, moves, worlds)
    ensures Agree(worlds)
  {
    forall k, m, x, y |
      0 <= k <= m < |worlds| && Tellable(worlds[k], x) && Tellable(worlds[m], y) && x.callId == y.callId
      ensures x.outcome == y.outcome
    {
      InRowsForGood(b, moves, worlds, k, m, x);
      InRowsForGood(b, moves, worlds, m, m, y);
      WorldFits(b, moves, worlds, m);
      RowsAgree(worlds[m].main.db, x, y);
    }
  }

  /** The row that a record changes tells two callers different things. */
  lemma OverwriteTellsTwo(b: Behaviour, db: Db, i: Instance, id: nat) returns (x: Answer, y: Answer)
    requires TableOk(db) && InstanceFits(db, i) && LoopEnabled(b, i, id, Record) && Overwrites(db.rows, i, id, Record)
    ensures InRows(db.rows, x) && InRows(DbApply(db, i, i.loops[id], Record).rows, y)
    ensures x.callId == y.callId && x.outcome != y.outcome
  {
    var l := i.loops[id];
    var p :| 0 <= p < |db.rows| && db.rows[p].seqNo == l.batch[0].seqNo
             && db.rows[p].outcome.status != Pending && db.rows[p].outcome != l.outcome;
    assert Knows(l);
    x, y := Answer(db.rows[p].callId, db.rows[p].outcome), Answer(db.rows[p].callId, l.outcome);
    var rows' := DbApply(db, i, l, Record).rows;
    assert rows'[p] == db.rows[p].(outcome := l.outcome);
  }

  lemma OverwriteBreaksAgreement(b: Behaviour, moves: seq<Move>, worlds: seq<World>, k: nat)
    requires IsWorldRun(b, moves, worlds) && k < |moves| && MoveOverwrites(worlds[k], moves[k])
    ensures !Agree(worlds)
  {
    var w, m := worlds[k], moves[k];
    WorldFits(b, moves, worlds, k);
    var x, y;
    if m.Main? {
      x, y := OverwriteTellsTwo(b, w.main.db, w.main.inst.value, m.a.id);
    } else {
      x, y := OverwriteTellsTwo(b, w.main.db, w.gone[m.e], m.id);
    }
    assert Tellable(worlds[k], x) && Tellable(worlds[k + 1], y);
  }

  /** Result agreement with evicted instances still at work and failing saves ignored, over every run: all
      callers of a call, by channel, on retry or by polling, now or later, are told the same outcome if and
      only if no loop, live or evicted, records another outcome for a row that is decided already. */
  lemma AgreeIffNotOverwritten(b: Behaviour, moves: seq<Move>, worlds: seq<World>)
    requires IsWorldRun(b, moves, worlds)
    ensures Agree(worlds) <==> forall k :: 0 <= k < |moves| ==> !MoveOverwrites(worlds[k], moves[k])
  {
    if k :| 0 <= k < |moves| && MoveOverwrites(worlds[k], moves[k]) {
      OverwriteBreaksAgreement(b, moves, worlds, k);
    } else {
      AgreeIfNotOverwritten(b, moves, worlds);
    }
  }

  // ----- Runs with exactly-once effect -----

  lemma RecordedIsSaved(b: Behaviour, db: Db, i: Instance, id: nat, step: LoopStep)
    requires TableOk(db) && IsReplay(b, db.rows, Load(b, db)) && RowsOk(b, db) && !StepHarms(b, db, i, id, step)
    ensures !Overwrites(db.rows, i, id, step)
  {
    if Overwrites(db.rows, i, id, step) {
      var l := i.loops[id];
      var p :| 0 <= p < |db.rows| && db.rows[p].seqNo == l.batch[0].seqNo
               && db.rows[p].outcome.status != Pending && db.rows[p].outcome != l.outcome;
      HasAt(b, db, Load(b, db), p, l.outcome);
      assert false;
    }
  }

  lemma UnharmedIsNotOverwritten(b: Behaviour, moves: seq<Move>, worlds: seq<World>)
    requires UnharmedRun(b, moves, worlds)
    ensures NothingOverwritten(b, moves, worlds)
  {
    forall k | 0 <= k < |moves| ensures !MoveOverwrites(worlds[k], moves[k]) {
      WorldFits(b, moves, worlds, k);
      UnharmedEffect(b, moves, worlds, k);
      var w, m := worlds[k], moves[k];
      if m.Linger? {
        RecordedIsSaved(b, w.main.db, w.gone[m.e], m.id, m.step);
      } else if m.Main? && m.a.Do? {
        RecordedIsSaved(b, w.main.db, w.main.inst.value, m.a.id, m.a.step);
      }
    }
  }

  /** Exactly-once effect carries agreement with it: in a run without a harmful move all callers of a call
      are told the same outcome, and from then on the saved state has the execution it comes from. */
  lemma UnharmedAgree(b: Behaviour, moves: seq<Move>, worlds: seq<World>, k: nat, m: nat, x: Answer)
    requires UnharmedRun(b, moves, worlds) && k <= m < |worlds| && Tellable(worlds[k], x)
    ensures Agree(worlds)
    ensures var db := worlds[m].main.db;
            exists j :: 0 <= j < |db.rows| && db.rows[j].callId == x.callId
                        && Has(Load(b, db).history, db.rows[j].seqNo, x.outcome)
  {
    UnharmedIsNotOverwritten(b, moves, worlds);
    AgreeIfNotOverwritten(b, moves, worlds);
    InRowsForGood(b, moves, worlds, k, m, x);
    WorldFits(b, moves, worlds, m);
    UnharmedEffect(b, moves, worlds, m);
    var db := worlds[m].main.db;
    var j :| 0 <= j < |db.rows| && db.rows[j].callId == x.callId && db.rows[j].outcome == x.outcome;
    HasAt(b, db, Load(b, db), j, x.outcome);
  }

  // ----- Evicted instances that write nothing -----

  /** Not a write by an evicted instance, and not a save of the live one that fails. */
  predicate QuietMove(m: Move) {
    (m.Linger? ==> !m.step.Save? && !m.step.Record?) && (m.DropSave? ==> m.who.Some?)
  }

  /** No evicted instance saves or records, and the live one's saves succeed. */
  ghost predicate QuietEvictions(moves: seq<Move>) {
    forall k :: 0 <= k < |moves| ==> QuietMove(moves[k])
  }

  /** What the engine sees of a move: an eviction's end looks like a crash. */
  function Seen(m: Move): seq<Action> {
    match m
    case Main(a) => [a]
    case Detach(_) => [Crash]
    case Linger(_, _, _) => []
    case DropSave(_, _) => []
  }

  function SeenActs(moves: seq<Move>): seq<Action> {
    if moves == [] then [] else SeenActs(moves[..|moves| - 1]) + Seen(moves[|moves| - 1])
  }

  lemma SeenActsStep(moves: seq<Move>, n: nat)
    requires n < |moves|
    ensures SeenActs(moves[..n + 1]) == SeenActs(moves[..n]) + Seen(moves[n])
  {
    assert moves[..n + 1][..n] == moves[..n];
  }

  /** No step of the live instance is stale. */
  ghost predicate NoneStale(moves: seq<Move>, worlds: seq<World>)
    requires |moves| <= |worlds|
  {
    forall k :: 0 <= k < |moves| && moves[k].Main? ==> !Stale(worlds[k].main, moves[k].a)
  }

  lemma RunGoesOn(b: Behaviour, acts: seq<Action>, states: seq<State>, a: Action)
    requires IsRun(b, acts, states) && Enabled(b, states[|acts|], a)
    ensures IsRun(b, acts + [a], states + [Apply(b, states[|acts|], a)])
    ensures FreshRun(b, acts, states) && !Stale(states[|acts|], a)
        ==> FreshRun(b, acts + [a], states + [Apply(b, states[|acts|], a)])
  {
  }

  lemma SeenStep(b: Behaviour, w: World, m: Move)
    requires CanMove(b, w, m) && QuietMove(m)
    ensures Seen(m) == [] ==> Moved(b, w, m).main == w.main
    ensures Seen(m) != [] ==> Enabled(b, w.main, Seen(m)[0]) && Moved(b, w, m).main == Apply(b, w.main, Seen(m)[0])
  {
  }

  lemma SeenGoesOn(b: Behaviour, acts: seq<Action>, states: seq<State>, w: World, m: Move) returns (more: seq<State>)
    requires IsRun(b, acts, states) && states[|acts|] == w.main && CanMove(b, w, m) && QuietMove(m)
    ensures IsRun(b, acts + Seen(m), more) && more[|acts + Seen(m)|] == Moved(b, w, m).main
    ensures FreshRun(b, acts, states) && (m.Main? ==> !Stale(w.main, m.a)) ==> FreshRun(b, acts + Seen(m), more)
  {
    SeenStep(b, w, m);
    if Seen(m) == [] {
      more := states;
      assert acts + Seen(m) == acts;
    } else {
      more := states + [Apply(b, w.main, Seen(m)[0])];
      RunGoesOn(b, acts, states, Seen(m)[0]);
    }
  }

  /** If evicted instances write nothing and no save of the live one fails, the live instance, the tables
      and the callers go through a run of the engine in which every eviction is a crash. */
  lemma {:induction false} QuietIsEngineRun(b: Behaviour, moves: seq<Move>, worlds: seq<World>, n: nat)
    returns (states: seq<State>)
    requires IsWorldRun(b, moves, worlds) && QuietEvictions(moves) && n < |worlds|
    ensures IsRun(b, SeenActs(moves[..n]), states) && states[|SeenActs(moves[..n])|] == worlds[n].main
    ensures NoneStale(moves, worlds) ==> FreshRun(b, SeenActs(moves[..n]), states)
  {
    if n == 0 {
      states := [INITIAL];
    } else {
      states := QuietIsEngineRun(b, moves, worlds, n - 1);
      SeenActsStep(moves, n - 1);
      states := SeenGoesOn(b, SeenActs(moves[..n - 1]), states, worlds[n - 1], moves[n - 1]);
    }
  }

  /** In such runs the saved object and the live one are exactly-once in all states if and only if no step of
      the live instance is stale, and then every decided call is in the saved state and callers agree. */
  lemma QuietEvictionsAreSafe(b: Behaviour, moves: seq<Move>, worlds: seq<World>)
    requires IsWorldRun(b, moves, worlds) && QuietEvictions(moves)
    ensures (forall k :: 0 <= k < |worlds| ==> ExactlyOnce(b, worlds[k].main)) <==> NoneStale(moves, worlds)
    ensures NoneStale(moves, worlds) ==> Agree(worlds) && forall k :: 0 <= k < |worlds| ==> RowsOk(b, worlds[k].main.db)
  {
    if NoneStale(moves, worlds) {
      forall k | 0 <= k < |worlds| ensures ExactlyOnce(b, worlds[k].main) && Inv(b, worlds[k].main) {
        var acts := SeenActs(moves[..k]);
        var states := QuietIsEngineRun(b, moves, worlds, k);
        FreshIsExactlyOnce(b, acts, states, |acts|);
        FreshInv(b, acts, states, |acts|);
      }
      QuietAgree(b, moves, worlds);
    } else {
      var k :| 0 <= k < |moves| && moves[k].Main? && Stale(worlds[k].main, moves[k].a);
      if ExactlyOnce(b, worlds[k].main) {
        StaleBreaksIt(b, worlds[k].main, moves[k].a);
        assert !ExactlyOnce(b, worlds[k + 1].main);
      }
    }
  }

  /** In the engine's invariant the row of a saved call is still undecided. */
  lemma SavedRowUndecided(db: Db, i: Instance, id: nat)
    requires TableOk(db) && id in i.loops && i.loops[id].pc == Saved && BatchOk(db.rows, i.mem, i.loops[id])
    ensures !Overwrites(db.rows, i, id, Record)
  {
    SavedRow(db.rows, i.mem, i.loops[id]);
  }

  lemma QuietKeepsRows(b: Behaviour, w: World, m: Move)
    requires TableOk(w.main.db) && (w.main.inst.Some? ==> BatchesOk(w.main.db.rows, w.main.inst.value))
    requires CanMove(b, w, m) && QuietMove(m)
    ensures !MoveOverwrites(w, m)
  {
    if m.Main? && m.a.Do? && m.a.step.Record? {
      SavedRowUndecided(w.main.db, w.main.inst.value, m.a.id);
    }
  }

  lemma QuietAgree(b: Behaviour, moves: seq<Move>, worlds: seq<World>)
    requires IsWorldRun(b, moves, worlds) && QuietEvictions(moves)
    requires forall k :: 0 <= k < |worlds| ==> Inv(b, worlds[k].main)
    ensures Agree(worlds)
  {
    forall k | 0 <= k < |moves| ensures !MoveOverwrites(worlds[k], moves[k]) { QuietKeepsRows(b, worlds[k], moves[k]); }
    AgreeIfNotOverwritten(b, moves, worlds);
  }
}
