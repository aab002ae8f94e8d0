/** The reliable-call engine of one persistent object as a step system.

    The state has a durable half (the call table and the object row of
    util/postgres/persistence.go) and a volatile half (the live instance of object/object.go:
    its memory, its waiter list, its processing loops and the callers' channels). Every
    critical section of the source is one action, and so are a loop's reads of the marker, which take
    no lock. Two actions of different goroutines can interleave anywhere the source lets go of a lock,
    and a crash can fall between any two. */
module CallEngine {
  import opened Options
  import opened Waiters

  datatype Status = Pending | Success | Failed | Skipped

  datatype Outcome = Outcome(status: Status, resultData: string, errorMessage: string)

  const UNDECIDED := Outcome(Pending, "", "")

  /** A row of the call table. */
  datatype Row = Row(seqNo: int, callId: string, methodName: string, requestData: string, outcome: Outcome)

  /** What the object's type does: the state of a new object, which requests deserialize, and
      which (state, method, request, new state, outcome) combinations an invocation allows.
      The last is a relation: a method may read a clock, so re-running it may answer differently. */
  datatype Behaviour = Behaviour(
    blank: string,
    decodes: string -> bool,
    invoke: (string, string, string, string, Outcome) -> bool)

  /** One execution of a call may take the object from `before` to `after` with this outcome. */
  predicate CanRun(b: Behaviour, before: string, row: Row, after: string, out: Outcome) {
    if !b.decodes(row.requestData) then
      after == before && out.status == Skipped && out.resultData == ""
    else
      && ((out.status == Success && out.errorMessage == "") || (out.status == Failed && out.resultData == ""))
      && b.invoke(before, row.methodName, row.requestData, after, out)
  }

  /** History entry: one execution of one call. */
  datatype Ran = Ran(seqNo: int, before: string, after: string, outcome: Outcome)

  /** Object state with its progress marker. `history` is a history variable: the executions
      that produced `data`, carried along wherever `data` is saved or loaded. */
  datatype Snapshot = Snapshot(data: string, next: int, history: seq<Ran>)

  datatype Db = Db(rows: seq<Row>, nextSeq: int, saved: Option<Snapshot>)

  datatype Event = Sent(call: Row) | Closed

  /** A result channel: the sequence number its caller waits for and everything done to it. */
  datatype Channel = Channel(seqNo: int, events: seq<Event>)

  /** Where a processing loop stands. `Executed` and `Saved` hold the state lock; `Exiting` has
      passed the no-waiters test, `Stopping` has seen the shutdown; both still owe their cleanup.
      `seen` is the marker as the loop last read it, until its sweep or its query has used it. */
  datatype Pc = Top | Sweeping | Draining | Executed | Saved | Recorded | Notifying | Idle | Exiting | Stopping

  datatype Loop = Loop(
    pc: Pc,
    seen: Option<int>,
    batch: seq<Row>,
    outcome: Outcome,
    toClose: seq<nat>,
    toNotify: seq<nat>)

  const NEW_LOOP := Loop(Top, None, [], UNDECIDED, [], [])

  datatype Instance = Instance(
    mem: Snapshot,
    processing: bool,
    waiters: seq<Waiter>,
    loops: map<nat, Loop>,
    done: bool,
    chans: map<nat, Channel>)

  /** A terminal answer some caller was given. */
  datatype Answer = Answer(callId: string, outcome: Outcome)

  datatype State = State(db: Db, inst: Option<Instance>, answers: set<Answer>)

  const INITIAL := State(Db([], 1, None), None, {})

  /** One critical section of a processing loop. */
  datatype LoopStep =
    | Stop
    | Look
    | Sweep
    | CloseOne
    | Deliver
    | Fetch
    | FetchFails
    | Again
    | Execute(after: string, outcome: Outcome)
    | Save
    | Record
    | Notify
    | NextCall
    | TryExit
    | Cleanup

  /** Everything that can happen next. The call table is fed by `Insert`; `SkipSeq` is a sequence
      number used up elsewhere. `Activate`, `Crash`, `Evict` and `Destroy` are the instance's life.
      `Register`, `CloseNow`, `Receive` and `Read` are the callers'. */
  datatype Action =
    | Insert(callId: string, methodName: string, requestData: string)
    | SkipSeq
    | Activate
    | Crash
    | Evict
    | Destroy
    | PeriodicSave
    | Register(ch: nat, seqNo: int, id: nat)
    | CloseNow(ch: nat, seqNo: int)
    | StartDrain(id: nat)
    | Receive(ch: nat)
    | Read(callId: string)
    | Do(id: nat, step: LoopStep)

  // ----- Table operations -----

  /** The object row, or what a missing row stands for. */
  function Load(b: Behaviour, db: Db): Snapshot {
    if db.saved.Some? then db.saved.value else Snapshot(b.blank, 0, [])
  }

  function PendingFrom(rows: seq<Row>, next: int): seq<Row> {
    if rows == [] then []
    else (if rows[0].seqNo >= next && rows[0].outcome.status == Pending then [rows[0]] else [])
         + PendingFrom(rows[1..], next)
  }

  function RecordOutcome(rows: seq<Row>, seqNo: int, out: Outcome): (r: seq<Row>)
    ensures |r| == |rows|
    ensures forall i :: 0 <= i < |rows| ==>
      r[i] == if rows[i].seqNo == seqNo then rows[i].(outcome := out) else rows[i]
  {
    seq(|rows|, i requires 0 <= i < |rows| =>
      if rows[i].seqNo == seqNo then rows[i].(outcome := out) else rows[i])
  }

  predicate HasCall(rows: seq<Row>, callId: string) {
    exists i :: 0 <= i < |rows| && rows[i].callId == callId
  }

  predicate HasSeq(rows: seq<Row>, seqNo: int) {
    exists i :: 0 <= i < |rows| && rows[i].seqNo == seqNo
  }

  predicate Answered(rows: seq<Row>, callId: string) {
    exists i :: 0 <= i < |rows| && rows[i].callId == callId && rows[i].outcome.status != Pending
  }

  function AnswersFor(rows: seq<Row>, callId: string): set<Answer> {
    set i | 0 <= i < |rows| && rows[i].callId == callId && rows[i].outcome.status != Pending
      :: Answer(callId, rows[i].outcome)
  }

  // ----- Instance operations -----

  function Put(i: Instance, id: nat, l: Loop): Instance {
    i.(loops := i.loops[id := l])
  }

  predicate HoldsState(l: Loop) {
    l.pc == Executed || l.pc == Saved
  }

  predicate StateFree(i: Instance) {
    forall id :: id in i.loops ==> !HoldsState(i.loops[id])
  }

  function AddEvent(chans: map<nat, Channel>, ch: nat, e: Event): map<nat, Channel> {
    if ch in chans then chans[ch := chans[ch].(events := chans[ch].events + [e])] else chans
  }

  function CloseAll(chans: map<nat, Channel>, cs: seq<nat>): map<nat, Channel> {
    map c | c in chans :: if c in cs then chans[c].(events := chans[c].events + [Closed]) else chans[c]
  }

  function Started(i: Instance, id: nat): Instance {
    if i.processing then i else i.(processing := true, loops := i.loops[id := NEW_LOOP])
  }

  /** The loop has read the marker for its query and not queried yet. */
  predicate Querying(l: Loop) {
    l.pc == Sweeping && l.toClose == [] && l.seen.Some?
  }

  /** Loop `id` may take this step now. */
  predicate LoopEnabled(b: Behaviour, i: Instance, id: nat, step: LoopStep) {
    && id in i.loops
    && var l := i.loops[id];
       match step
       case Stop => i.done && ((l.pc == Top && l.seen.None?) || l.pc == Draining || Querying(l))
       case Look => l.seen.None? && (l.pc == Top || (l.pc == Sweeping && l.toClose == []))
       case Sweep => l.pc == Top && l.seen.Some?
       case CloseOne => l.toClose != []
       case Deliver => l.pc == Notifying && l.toClose == [] && l.toNotify != [] && l.batch != []
       case Fetch => Querying(l)
       case FetchFails => Querying(l)
       case Again => l.pc == Draining && l.batch == []
       case Execute(after, out) =>
         l.pc == Draining && l.batch != [] && StateFree(i) && CanRun(b, i.mem.data, l.batch[0], after, out)
       case Save => l.pc == Executed
       case Record => l.pc == Saved && l.batch != []
       case Notify => l.pc == Recorded && l.batch != []
       case NextCall => l.pc == Notifying && l.toClose == [] && l.toNotify == [] && l.batch != []
       case TryExit => l.pc == Idle
       case Cleanup => l.pc == Exiting || l.pc == Stopping
  }

  /** What the step does to the instance; `rows` is what a fetch reads. */
  function LoopApply(b: Behaviour, i: Instance, rows: seq<Row>, id: nat, step: LoopStep): Instance
    requires LoopEnabled(b, i, id, step)
  {
    var l := i.loops[id];
    match step
    case Stop => Put(i, id, l.(pc := Stopping, seen := None))
    case Look => Put(i, id, l.(seen := Some(i.mem.next)))
    case Sweep =>
      var due := DueCount(i.waiters, l.seen.value - 1);
      Put(i.(waiters := i.waiters[due..]), id, l.(pc := Sweeping, seen := None, toClose := Chans(i.waiters[..due])))
    case CloseOne =>
      Put(i.(chans := AddEvent(i.chans, l.toClose[0], Closed)), id, l.(toClose := l.toClose[1..]))
    case Deliver =>
      var ch := l.toNotify[0];
      Put(i.(chans := AddEvent(i.chans, ch, Sent(l.batch[0].(outcome := l.outcome)))), id,
          l.(toClose := [ch], toNotify := l.toNotify[1..]))
    case Fetch =>
      var batch := PendingFrom(rows, l.seen.value);
      Put(i, id, l.(pc := if batch == [] then Idle else Draining, seen := None, batch := batch))
    case FetchFails => Put(i, id, l.(pc := Idle, seen := None, batch := []))
    case Again => Put(i, id, l.(pc := Top))
    case Execute(after, out) =>
      var ran := Ran(l.batch[0].seqNo, i.mem.data, after, out);
      Put(i.(mem := Snapshot(after, l.batch[0].seqNo + 1, i.mem.history + [ran])), id,
          l.(pc := Executed, outcome := out))
    case Save => Put(i, id, l.(pc := Saved))
    case Record => Put(i, id, l.(pc := Recorded))
    case Notify =>
      var s := l.batch[0].seqNo;
      Put(i.(waiters := Rest(i.waiters, s)), id,
          l.(pc := Notifying, toClose := Missed(i.waiters, s), toNotify := Matched(i.waiters, s)))
    case NextCall => Put(i, id, l.(pc := Draining, batch := l.batch[1..]))
    case TryExit =>
      if i.waiters == [] then Put(i.(processing := false), id, l.(pc := Exiting))
      else Put(i, id, l.(pc := Top))
    case Cleanup =>
      i.(processing := false, waiters := [], chans := CloseAll(i.chans, Chans(i.waiters)), loops := i.loops - {id})
  }

  /** What the step does to the tables. */
  function DbApply(db: Db, i: Instance, l: Loop, step: LoopStep): Db {
    if step.Save? then db.(saved := Some(i.mem))
    else if step.Record? && l.batch != [] then db.(rows := RecordOutcome(db.rows, l.batch[0].seqNo, l.outcome))
    else db
  }

  predicate Enabled(b: Behaviour, s: State, a: Action) {
    match a
    case Insert(callId, _, _) => s.inst.Some? && !HasCall(s.db.rows, callId)
    case SkipSeq => true
    case Activate => s.inst.None?
    case Crash => s.inst.Some?
    case Evict => s.inst.Some? && StateFree(s.inst.value)
    case Destroy => s.inst.Some?
    case PeriodicSave => s.inst.Some? && StateFree(s.inst.value)
    case Register(ch, seqNo, id) =>
      s.inst.Some? && HasSeq(s.db.rows, seqNo) && ch !in s.inst.value.chans && id !in s.inst.value.loops
    case CloseNow(ch, seqNo) =>
      s.inst.Some? && HasSeq(s.db.rows, seqNo) && ch !in s.inst.value.chans && seqNo < s.inst.value.mem.next
    case StartDrain(id) => s.inst.Some? && id !in s.inst.value.loops
    case Receive(ch) =>
      && s.inst.Some? && ch in s.inst.value.chans
      && s.inst.value.chans[ch].events != [] && s.inst.value.chans[ch].events[0].Sent?
    case Read(callId) => Answered(s.db.rows, callId)
    case Do(id, step) => s.inst.Some? && LoopEnabled(b, s.inst.value, id, step)
  }

  function Apply(b: Behaviour, s: State, a: Action): State
    requires Enabled(b, s, a)
  {
    match a
    case Insert(callId, methodName, requestData) =>
      var row := Row(s.db.nextSeq, callId, methodName, requestData, UNDECIDED);
      s.(db := s.db.(rows := s.db.rows + [row], nextSeq := s.db.nextSeq + 1))
    case SkipSeq => s.(db := s.db.(nextSeq := s.db.nextSeq + 1))
    case Activate => s.(inst := Some(Instance(Load(b, s.db), false, [], map[], false, map[])))
    case Crash => s.(inst := None)
    case Evict => s.(db := s.db.(saved := Some(s.inst.value.mem)), inst := None)
    case Destroy => s.(inst := Some(s.inst.value.(done := true)))
    case PeriodicSave => s.(db := s.db.(saved := Some(s.inst.value.mem)))
    case Register(ch, seqNo, id) =>
      var i := s.inst.value;
      var j := i.(waiters := Waiters.Insert(i.waiters, Waiter(seqNo, ch)), chans := i.chans[ch := Channel(seqNo, [])]);
      s.(inst := Some(Started(j, id)))
    case CloseNow(ch, seqNo) =>
      s.(inst := Some(s.inst.value.(chans := s.inst.value.chans[ch := Channel(seqNo, [Closed])])))
    case StartDrain(id) => s.(inst := Some(Started(s.inst.value, id)))
    case Receive(ch) =>
      var call := s.inst.value.chans[ch].events[0].call;
      s.(answers := s.answers + {Answer(call.callId, call.outcome)})
    case Read(callId) => s.(answers := s.answers + AnswersFor(s.db.rows, callId))
    case Do(id, step) =>
      var i := s.inst.value;
      s.(db := DbApply(s.db, i, i.loops[id], step), inst := Some(LoopApply(b, i, s.db.rows, id, step)))
  }

  // ----- Runs -----

  /** `states` is the run that `acts` drives from the initial state. */
  ghost predicate IsRun(b: Behaviour, acts: seq<Action>, states: seq<State>) {
    && |states| == |acts| + 1
    && states[0] == INITIAL
    && forall k :: 0 <= k < |acts| ==> Enabled(b, states[k], acts[k]) && states[k + 1] == Apply(b, states[k], acts[k])
  }
}
