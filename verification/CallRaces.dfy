/** Concrete runs of the engine that break what fresh runs promise.

    `OverlapRunsACallTwice` drives the deferred cleanup of an exiting loop over the flag of its
    successor, with two callers of one call. `CrashLosesTheAnswer` kills the process between the two
    writes of `finalize`. `HarmlessClobber` shows that such a cleanup alone does no harm. */
module CallRaces {
  import opened Options
  import opened Waiters
  import opened CallEngine
  import opened CallSafety
  import opened CallFlag
  import opened CallGuarantees

  /** Some run ends in `s`; if `orderly`, one without overlapping loops. */
  ghost predicate Reachable(b: Behaviour, orderly: bool, s: State) {
    exists acts, states :: IsRun(b, acts, states) && (orderly ==> OrderlyRun(b, acts, states)) && states[|acts|] == s
  }

  lemma Start(b: Behaviour, orderly: bool)
    ensures Reachable(b, orderly, INITIAL)
  {
    var none: seq<Action> := [];
    assert IsRun(b, none, [INITIAL]) && [INITIAL][|none|] == INITIAL && OrderlyRun(b, none, [INITIAL]);
  }

  lemma Go(b: Behaviour, orderly: bool, s: State, a: Action)
    requires Reachable(b, orderly, s) && Enabled(b, s, a) && (orderly ==> !Clobbers(s, a))
    ensures Reachable(b, orderly, Apply(b, s, a))
  {
    var acts, states :| IsRun(b, acts, states) && (orderly ==> OrderlyRun(b, acts, states)) && states[|acts|] == s;
    var more := states + [Apply(b, s, a)];
    assert IsRun(b, acts + [a], more) && more[|acts + [a]|] == Apply(b, s, a);
    if orderly { assert OrderlyRun(b, acts + [a], more); }
  }

  /** An object whose one method appends its request to the state and returns the new state. */
  const APPENDER := Behaviour("", (r: string) => true,
    (before: string, m: string, r: string, after: string, out: Outcome) =>
      after == before + r && out == Outcome(Success, after, ""))

  const ROW := Row(1, "call", "Append", "x", UNDECIDED)
  const DONE_ONCE := Outcome(Success, "x", "")
  const DONE_TWICE := Outcome(Success, "xx", "")
  const FRESH := Snapshot("", 0, [])

  /** One loop with nothing to drain, standing at `pc`. */
  function Solo(pc: Pc, seen: Option<int>): State {
    State(Db([], 1, None),
          Some(Instance(FRESH, pc != Exiting, [], map[1 := Loop(pc, seen, [], UNDECIDED, [], [])], false, map[])), {})
  }

  predicate SoloMove(step: LoopStep, from: Pc, to: Pc, seen: Option<int>, seen': Option<int>) {
    || (step == Look && from == to && (from == Top || from == Sweeping) && seen == None && seen' == Some(0))
    || (step == Sweep && from == Top && to == Sweeping && seen == Some(0) && seen' == None)
    || (step == Fetch && from == Sweeping && to == Idle && seen == Some(0) && seen' == None)
    || (step == TryExit && from == Idle && to == Exiting && seen == None && seen' == None)
  }

  lemma SoloStep(step: LoopStep, from: Pc, to: Pc, seen: Option<int>, seen': Option<int>)
    requires SoloMove(step, from, to, seen, seen') && Reachable(APPENDER, false, Solo(from, seen))
    ensures Reachable(APPENDER, false, Solo(to, seen'))
  {
    var s := Solo(from, seen);
    Go(APPENDER, false, s, Do(1, step));
    assert Chans(s.inst.value.waiters) == [];
    assert Apply(APPENDER, s, Do(1, step)).inst.value.loops == Solo(to, seen').inst.value.loops;
    assert Apply(APPENDER, s, Do(1, step)) == Solo(to, seen');
  }

  lemma ReachTop(orderly: bool)
    ensures Reachable(APPENDER, orderly, Solo(Top, None))
  {
    var b := APPENDER;
    Start(b, orderly);
    Go(b, orderly, INITIAL, Activate);
    var s := Apply(b, INITIAL, Activate);
    Go(b, orderly, s, StartDrain(1));
    assert Apply(b, s, StartDrain(1)).inst.value.loops == map[1 := NEW_LOOP];
    assert Apply(b, s, StartDrain(1)) == Solo(Top, None);
  }

  lemma ReachSolo()
    ensures Reachable(APPENDER, false, Solo(Exiting, None))
  {
    ReachTop(false);
    SoloStep(Look, Top, Top, None, Some(0));
    SoloStep(Sweep, Top, Sweeping, Some(0), None);
    SoloStep(Look, Sweeping, Sweeping, None, Some(0));
    SoloStep(Fetch, Sweeping, Idle, Some(0), None);
    SoloStep(TryExit, Idle, Exiting, None, None);
  }

  const FIRST := Waiter(1, 1)
  const SECOND := Waiter(1, 2)
  const LEAVING := Loop(Exiting, None, [], UNDECIDED, [], [])
  const FETCHED := Loop(Draining, None, [ROW], UNDECIDED, [], [])

  /** The activation drain found nothing and passed its no-waiters test; then the first caller inserted
      the call, registered on channel 1 and started loop 2. */
  const HANDOVER := State(Db([ROW], 2, None),
    Some(Instance(FRESH, true, [FIRST], map[1 := LEAVING, 2 := NEW_LOOP], false, map[1 := Channel(1, [])])), {})

  lemma ReachHandover()
    ensures Reachable(APPENDER, false, HANDOVER)
  {
    var b, call := APPENDER, CallEngine.Insert("call", "Append", "x");
    ReachSolo();
    var s := Solo(Exiting, None);
    Go(b, false, s, call);
    var t := s.(db := Db([ROW], 2, None));
    assert Apply(b, s, call) == t;
    assert t.db.rows[0].seqNo == 1;
    Go(b, false, t, Register(1, 1, 2));
    var u := Apply(b, t, Register(1, 1, 2));
    assert u.inst.value.waiters == [FIRST];
    assert u.inst.value.loops == HANDOVER.inst.value.loops && u.inst.value.chans == HANDOVER.inst.value.chans;
  }

  /** Loop 1 cleaned up over loop 2's flag and closed the first caller's channel. */
  const CLOBBERED := State(Db([ROW], 2, None),
    Some(Instance(FRESH, false, [], map[2 := NEW_LOOP], false, map[1 := Channel(1, [Closed])])), {})

  lemma FirstIsClosed()
    ensures CloseAll(map[1 := Channel(1, [])], Chans([FIRST])) == map[1 := Channel(1, [Closed])]
  {
    assert Chans([FIRST])[0] == 1 && 1 in Chans([FIRST]) && [] + [Closed] == [Closed];
  }

  lemma ReachClobbered()
    ensures Clobbers(HANDOVER, Do(1, Cleanup)) && Reachable(APPENDER, false, CLOBBERED)
  {
    ReachHandover();
    assert 2 in HANDOVER.inst.value.loops && Alive(HANDOVER.inst.value.loops[2]);
    Go(APPENDER, false, HANDOVER, Do(1, Cleanup));
    var u := Apply(APPENDER, HANDOVER, Do(1, Cleanup));
    assert u.inst.value.loops == map[2 := NEW_LOOP];
    FirstIsClosed();
  }

  /** A cleanup over another loop's flag is not yet a fault: nothing is stale, and exactly-once holds
      before and after it. */
  lemma HarmlessClobber()
    ensures exists s :: Reachable(APPENDER, false, s) && Clobbers(s, Do(1, Cleanup)) && !Stale(s, Do(1, Cleanup))
              && Enabled(APPENDER, s, Do(1, Cleanup)) && ExactlyOnce(APPENDER, s)
              && ExactlyOnce(APPENDER, Apply(APPENDER, s, Do(1, Cleanup)))
  {
    ReachHandover();
    ReachClobbered();
    assert CallsBefore([ROW], 0) == [] + CallsBefore([ROW][1..], 0) == [];
    assert ExactlyOnce(APPENDER, HANDOVER) && ExactlyOnce(APPENDER, Apply(APPENDER, HANDOVER, Do(1, Cleanup)));
  }

  const CHANS := map[1 := Channel(1, [Closed]), 2 := Channel(1, [])]

  /** The second caller retried the call, registered on channel 2 and started loop 3; both loops have
      fetched the call. */
  const OVERLAP := State(Db([ROW], 2, None),
    Some(Instance(FRESH, true, [SECOND], map[2 := FETCHED, 3 := FETCHED], false, CHANS)), {})

  lemma LookOnce(orderly: bool, s: State, id: nat, pc: Pc)
    requires Reachable(APPENDER, orderly, s) && s.inst.Some? && s.inst.value.mem == FRESH
    requires pc == Top || pc == Sweeping
    requires id in s.inst.value.loops && s.inst.value.loops[id] == NEW_LOOP.(pc := pc)
    ensures Reachable(APPENDER, orderly, s.(inst := Some(Put(s.inst.value, id, NEW_LOOP.(pc := pc, seen := Some(0))))))
  {
    Go(APPENDER, orderly, s, Do(id, Look));
  }

  lemma SweepNobody(orderly: bool, s: State, id: nat)
    requires Reachable(APPENDER, orderly, s) && s.inst.Some? && s.inst.value.mem == FRESH
    requires DueCount(s.inst.value.waiters, -1) == 0
    requires id in s.inst.value.loops && s.inst.value.loops[id] == NEW_LOOP
    ensures Reachable(APPENDER, orderly, s.(inst := Some(Put(s.inst.value, id, NEW_LOOP.(pc := Sweeping)))))
  {
    var i := s.inst.value;
    LookOnce(orderly, s, id, Top);
    var t := s.(inst := Some(Put(i, id, NEW_LOOP.(seen := Some(0)))));
    Go(APPENDER, orderly, t, Do(id, Sweep));
    assert Chans(i.waiters[..0]) == [] && i.waiters[0..] == i.waiters;
    assert Apply(APPENDER, t, Do(id, Sweep)).inst.value.loops == i.loops[id := NEW_LOOP.(pc := Sweeping)];
    assert Apply(APPENDER, t, Do(id, Sweep)) == s.(inst := Some(Put(i, id, NEW_LOOP.(pc := Sweeping))));
  }

  lemma FetchRow(orderly: bool, s: State, id: nat)
    requires Reachable(APPENDER, orderly, s) && s.inst.Some? && s.inst.value.mem == FRESH && s.db.rows == [ROW]
    requires id in s.inst.value.loops && s.inst.value.loops[id] == NEW_LOOP.(pc := Sweeping)
    ensures Reachable(APPENDER, orderly, s.(inst := Some(Put(s.inst.value, id, FETCHED))))
  {
    var i := s.inst.value;
    LookOnce(orderly, s, id, Sweeping);
    var t := s.(inst := Some(Put(i, id, NEW_LOOP.(pc := Sweeping, seen := Some(0)))));
    Go(APPENDER, orderly, t, Do(id, Fetch));
    assert PendingFrom([ROW], 0) == [ROW] + PendingFrom([ROW][1..], 0) == [ROW];
    assert Apply(APPENDER, t, Do(id, Fetch)).inst.value.loops == i.loops[id := FETCHED];
    assert Apply(APPENDER, t, Do(id, Fetch)) == s.(inst := Some(Put(i, id, FETCHED)));
  }

  lemma SweepAndFetch(orderly: bool, s: State, id: nat)
    requires Reachable(APPENDER, orderly, s) && s.inst.Some? && s.db == Db([ROW], 2, None)
    requires s.inst.value.mem == FRESH && DueCount(s.inst.value.waiters, -1) == 0
    requires id in s.inst.value.loops && s.inst.value.loops[id] == NEW_LOOP
    ensures Reachable(APPENDER, orderly, s.(inst := Some(Put(s.inst.value, id, FETCHED))))
  {
    var i := s.inst.value;
    SweepNobody(orderly, s, id);
    var t := s.(inst := Some(Put(i, id, NEW_LOOP.(pc := Sweeping))));
    FetchRow(orderly, t, id);
    assert Put(t.inst.value, id, FETCHED).loops == Put(i, id, FETCHED).loops;
  }

  const RETRIED := State(Db([ROW], 2, None),
    Some(Instance(FRESH, true, [SECOND], map[2 := NEW_LOOP, 3 := NEW_LOOP], false, CHANS)), {})

  lemma ReachRetried()
    ensures Reachable(APPENDER, false, RETRIED)
  {
    ReachClobbered();
    assert CLOBBERED.db.rows[0].seqNo == 1;
    Go(APPENDER, false, CLOBBERED, Register(2, 1, 3));
    var u := Apply(APPENDER, CLOBBERED, Register(2, 1, 3));
    assert u.inst.value.waiters == [SECOND];
    assert u.inst.value.loops == RETRIED.inst.value.loops && u.inst.value.chans == CHANS;
  }

  lemma ReachOverlap()
    ensures Reachable(APPENDER, false, OVERLAP)
  {
    ReachRetried();
    SweepAndFetch(false, RETRIED, 2);
    var s := RETRIED.(inst := Some(Put(RETRIED.inst.value, 2, FETCHED)));
    SweepAndFetch(false, s, 3);
    assert Put(s.inst.value, 3, FETCHED).loops == OVERLAP.inst.value.loops;
  }

  /** Execute, save and record the fetched call in one loop. */
  lemma RunCall(s: State, id: nat, out: Outcome)
    requires Reachable(APPENDER, false, s) && s.inst.Some? && |s.db.rows| == 1
    requires s.db.rows[0].(outcome := UNDECIDED) == ROW
    requires id in s.inst.value.loops && s.inst.value.loops[id] == FETCHED && StateFree(s.inst.value)
    requires out == Outcome(Success, s.inst.value.mem.data + "x", "")
    ensures var i := s.inst.value;
            var mem := Snapshot(i.mem.data + "x", 2, i.mem.history + [Ran(1, i.mem.data, i.mem.data + "x", out)]);
            Reachable(APPENDER, false,
                      State(Db([ROW.(outcome := out)], s.db.nextSeq, Some(mem)),
                            Some(Put(i.(mem := mem), id, FETCHED.(pc := Recorded, outcome := out))), s.answers))
  {
    var b, i := APPENDER, s.inst.value;
    var mem := Snapshot(i.mem.data + "x", 2, i.mem.history + [Ran(1, i.mem.data, i.mem.data + "x", out)]);
    Go(b, false, s, Do(id, Execute(i.mem.data + "x", out)));
    var s1 := s.(inst := Some(Put(i.(mem := mem), id, FETCHED.(pc := Executed, outcome := out))));
    assert Apply(b, s, Do(id, Execute(i.mem.data + "x", out))) == s1;
    SaveAndRecord(s1, id, out);
    assert Put(s1.inst.value, id, FETCHED.(pc := Recorded, outcome := out)).loops
        == Put(i.(mem := mem), id, FETCHED.(pc := Recorded, outcome := out)).loops;
  }

  lemma SaveCall(s: State, id: nat)
    requires Reachable(APPENDER, false, s) && s.inst.Some? && id in s.inst.value.loops
    requires s.inst.value.loops[id].pc == Executed
    ensures Reachable(APPENDER, false, State(s.db.(saved := Some(s.inst.value.mem)),
                                      Some(Put(s.inst.value, id, s.inst.value.loops[id].(pc := Saved))), s.answers))
  {
    Go(APPENDER, false, s, Do(id, Save));
  }

  lemma SaveAndRecord(s: State, id: nat, out: Outcome)
    requires Reachable(APPENDER, false, s) && s.inst.Some? && |s.db.rows| == 1
    requires s.db.rows[0].(outcome := UNDECIDED) == ROW
    requires id in s.inst.value.loops && s.inst.value.loops[id] == FETCHED.(pc := Executed, outcome := out)
    ensures Reachable(APPENDER, false, State(Db([ROW.(outcome := out)], s.db.nextSeq, Some(s.inst.value.mem)),
                                      Some(Put(s.inst.value, id, FETCHED.(pc := Recorded, outcome := out))), s.answers))
  {
    var b, i := APPENDER, s.inst.value;
    SaveCall(s, id);
    var t := State(s.db.(saved := Some(i.mem)), Some(Put(i, id, i.loops[id].(pc := Saved))), s.answers);
    Go(b, false, t, Do(id, Record));
    var u := Apply(b, t, Do(id, Record));
    assert u.db.rows == [ROW.(outcome := out)];
    assert u.inst.value.loops == i.loops[id := FETCHED.(pc := Recorded, outcome := out)];
  }

  lemma ReadRow(s: State, out: Outcome)
    requires Reachable(APPENDER, false, s) && s.db.rows == [ROW.(outcome := out)] && out.status != Pending
    ensures Reachable(APPENDER, false, s.(answers := s.answers + {Answer("call", out)}))
  {
    assert s.db.rows[0].callId == "call";
    Go(APPENDER, false, s, Read("call"));
    assert AnswersFor(s.db.rows, "call") == {Answer("call", out)};
  }

  /** The loop pops the waiting channel and sends the call on it; the caller takes it. */
  lemma NotifyAndReceive(s: State, id: nat, out: Outcome)
    requires Reachable(APPENDER, false, s) && s.inst.Some? && s.inst.value.waiters == [SECOND]
    requires id in s.inst.value.loops && s.inst.value.loops[id] == FETCHED.(pc := Recorded, outcome := out)
    requires s.inst.value.chans == CHANS
    ensures exists t :: Reachable(APPENDER, false, t) && t.db == s.db && t.answers == s.answers + {Answer("call", out)}
  {
    var b, i := APPENDER, s.inst.value;
    Go(b, false, s, Do(id, Notify));
    assert DueCount([SECOND], 1) == 1 + DueCount([SECOND][1..], 1) == 1 && DueCount([SECOND], 0) == 0;
    var t := Apply(b, s, Do(id, Notify));
    assert t.inst.value.loops[id] == FETCHED.(pc := Notifying, outcome := out, toClose := [], toNotify := [2]) by {
      assert Chans([SECOND][..0]) == [] && Chans([SECOND][0..1]) == [2];
    }
    DeliverAndReceive(t, id, out);
  }

  lemma DeliverAndReceive(s: State, id: nat, out: Outcome)
    requires Reachable(APPENDER, false, s) && s.inst.Some? && id in s.inst.value.loops && s.inst.value.chans == CHANS
    requires s.inst.value.loops[id] == FETCHED.(pc := Notifying, outcome := out, toClose := [], toNotify := [2])
    ensures exists t :: Reachable(APPENDER, false, t) && t.db == s.db && t.answers == s.answers + {Answer("call", out)}
  {
    var b := APPENDER;
    Go(b, false, s, Do(id, Deliver));
    var t := Apply(b, s, Do(id, Deliver));
    assert t.inst.value.chans[2].events == [Sent(ROW.(outcome := out))];
    Go(b, false, t, Receive(2));
  }

  /** With the two-step loop exit a second loop can overlap a first: the one inserted call is then
      run twice and its effect saved twice. The caller whose channel was closed polls the row and the
      caller who retried gets its channel's value, and they are told different outcomes. */
  lemma OverlapRunsACallTwice()
    ensures exists s :: Reachable(APPENDER, false, s)
              && |s.db.rows| == 1 && s.db.saved.Some?
              && s.db.saved.value.data == "xx" && |s.db.saved.value.history| == 2
              && Answer("call", DONE_ONCE) in s.answers && Answer("call", DONE_TWICE) in s.answers
  {
    ReachOverlap();
    assert StateFree(OVERLAP.inst.value);
    RunCall(OVERLAP, 2, DONE_ONCE);
    var mem := Snapshot("x", 2, [Ran(1, "", "x", DONE_ONCE)]);
    var s := State(Db([ROW.(outcome := DONE_ONCE)], 2, Some(mem)),
                   Some(Put(OVERLAP.inst.value.(mem := mem), 2, FETCHED.(pc := Recorded, outcome := DONE_ONCE))), {});
    assert FRESH.history + [Ran(1, "", "x", DONE_ONCE)] == [Ran(1, "", "x", DONE_ONCE)];
    assert Reachable(APPENDER, false, s);
    ReadRow(s, DONE_ONCE);
    SecondRun(s.(answers := s.answers + {Answer("call", DONE_ONCE)}), mem);
  }

  lemma SecondRun(s: State, mem: Snapshot)
    requires Reachable(APPENDER, false, s) && s.inst.Some? && s.db.rows == [ROW.(outcome := DONE_ONCE)]
    requires mem == Snapshot("x", 2, [Ran(1, "", "x", DONE_ONCE)])
    requires s.inst.value == Put(OVERLAP.inst.value.(mem := mem), 2, FETCHED.(pc := Recorded, outcome := DONE_ONCE))
    requires Answer("call", DONE_ONCE) in s.answers
    ensures exists t :: Reachable(APPENDER, false, t)
              && |t.db.rows| == 1 && t.db.saved.Some?
              && t.db.saved.value.data == "xx" && |t.db.saved.value.history| == 2
              && Answer("call", DONE_ONCE) in t.answers && Answer("call", DONE_TWICE) in t.answers
  {
    assert StateFree(s.inst.value);
    RunCall(s, 3, DONE_TWICE);
    var mem' := Snapshot("xx", 2, mem.history + [Ran(1, "x", "xx", DONE_TWICE)]);
    var u := State(Db([ROW.(outcome := DONE_TWICE)], s.db.nextSeq, Some(mem')),
                   Some(Put(s.inst.value.(mem := mem'), 3, FETCHED.(pc := Recorded, outcome := DONE_TWICE))),
                   s.answers);
    assert Reachable(APPENDER, false, u);
    NotifyAndReceive(u, 3, DONE_TWICE);
  }

  /** Even without overlap the answer can be lost: an orderly run reaches a state in which the call's
      effect is saved, its row says pending, and (see `StrandedForever`) always will. The call is made
      by a caller who registers while the activation drain is still under way. */
  lemma CrashLosesTheAnswer()
    ensures exists s :: Reachable(APPENDER, true, s) && Stranded(APPENDER, s, 1)
              && s.db.rows == [ROW] && s.db.saved.Some? && s.db.saved.value.data == "x"
  {
    ReachWaiting();
    assert DueCount([FIRST], -1) == 0;
    SweepAndFetch(true, WAITING, 1);
    assert Put(WAITING.inst.value, 1, FETCHED).loops == map[1 := FETCHED];
    ExecuteSaveCrash(WAITING.(inst := Some(Put(WAITING.inst.value, 1, FETCHED))));
  }

  /** The activation drain has started and the caller waits for it. */
  const WAITING := State(Db([ROW], 2, None),
    Some(Instance(FRESH, true, [FIRST], map[1 := NEW_LOOP], false, map[1 := Channel(1, [])])), {})

  lemma ReachWaiting()
    ensures Reachable(APPENDER, true, WAITING)
  {
    var b, call := APPENDER, CallEngine.Insert("call", "Append", "x");
    ReachTop(true);
    Go(b, true, Solo(Top, None), call);
    var s := Solo(Top, None).(db := Db([ROW], 2, None));
    assert Apply(b, Solo(Top, None), call) == s;
    assert s.db.rows[0].seqNo == 1;
    Go(b, true, s, Register(1, 1, 2));
    var u := Apply(b, s, Register(1, 1, 2));
    assert u.inst.value.waiters == [FIRST];
    assert u.inst.value.loops == WAITING.inst.value.loops && u.inst.value.chans == WAITING.inst.value.chans;
  }

  const RAN_ONCE := Snapshot("x", 2, [Ran(1, "", "x", DONE_ONCE)])

  /** The state after loop 1 has executed the call. */
  function OnceRun(s: State): State
    requires s.inst.Some?
  {
    s.(inst := Some(Put(s.inst.value.(mem := RAN_ONCE), 1, FETCHED.(pc := Executed, outcome := DONE_ONCE))))
  }

  lemma ExecuteOnce(s: State)
    requires Reachable(APPENDER, true, s) && s.inst.Some? && s.inst.value.mem == FRESH
    requires s.inst.value.loops == map[1 := FETCHED]
    ensures Reachable(APPENDER, true, OnceRun(s))
  {
    var run := Do(1, Execute("x", DONE_ONCE));
    assert StateFree(s.inst.value);
    Go(APPENDER, true, s, run);
    assert FRESH.history + [Ran(1, "", "x", DONE_ONCE)] == RAN_ONCE.history;
  }

  lemma ExecuteAndSave(s: State)
    requires Reachable(APPENDER, true, s) && s.inst.Some? && s.db == Db([ROW], 2, None)
    requires s.inst.value.mem == FRESH && s.inst.value.loops == map[1 := FETCHED]
    ensures exists t :: Reachable(APPENDER, true, t) && t.inst.Some? && t.db.rows == [ROW] && t.db.saved.Some?
              && t.db.saved.value.data == "x" && t.db.saved.value.next == 2
  {
    ExecuteOnce(s);
    Go(APPENDER, true, OnceRun(s), Do(1, Save));
  }

  lemma ExecuteSaveCrash(s: State)
    requires Reachable(APPENDER, true, s) && s.inst.Some? && s.db == Db([ROW], 2, None)
    requires s.inst.value.mem == FRESH && s.inst.value.loops == map[1 := FETCHED]
    ensures exists t :: Reachable(APPENDER, true, t) && Stranded(APPENDER, t, 1)
              && t.db.rows == [ROW] && t.db.saved.Some? && t.db.saved.value.data == "x"
  {
    ExecuteAndSave(s);
    var u :| Reachable(APPENDER, true, u) && u.inst.Some? && u.db.rows == [ROW] && u.db.saved.Some?
             && u.db.saved.value.data == "x" && u.db.saved.value.next == 2;
    Go(APPENDER, true, u, Crash);
    var t := Apply(APPENDER, u, Crash);
    assert t.db.rows[0].seqNo == 1;
    assert Stranded(APPENDER, t, 1);
  }
}
