/** The per-key lock manager (util/keylock/keylock.go) under every interleaving.

    Entries are created on demand, counted, and deleted when the count reaches zero. The critical
    sections under the manager's own mutex are single steps, and so are the steps of an entry's
    read-write mutex: a writer first claims it, which bars new readers, then waits for the readers inside
    to leave; when it unlocks, the readers it barred get in before the next writer can claim. */
module KeyLocks {
  import opened Sets

  datatype Mode = Read | Write

  /** Where one acquisition is: counted, asking for the entry's mutex, holding it, or past unlocking the
      entry but not yet uncounted. */
  datatype Phase = Entered | Asking | Holding | Releasing

  datatype Token = Token(key: string, entry: nat, mode: Mode, phase: Phase)

  /** An entry: its reference count and its mutex, which is claimed by at most one writer, is held by
      that writer or by some readers, and has a number of readers blocked. */
  datatype Entry = Entry(refCount: int, claimed: bool, writer: bool, readers: int, blocked: int)

  const NEW_ENTRY := Entry(0, false, false, 0, 0)

  datatype State = State(entries: map<nat, Entry>, locks: map<string, nat>, nextEntry: nat, tokens: map<nat, Token>)

  const INIT := State(map[], map[], 0, map[])

  datatype Action =
    | Enter(t: nat, key: string, mode: Mode)
    | Ask(t: nat)
    | Grant(t: nat)
    | Unlock(t: nat)
    | Release(t: nat)

  predicate InPhase(s: State, t: nat, phase: Phase) {
    t in s.tokens && s.tokens[t].phase == phase && s.tokens[t].entry in s.entries
  }

  predicate Enabled(s: State, a: Action) {
    match a
    case Enter(t, _, _) => t !in s.tokens
    case Ask(t) => InPhase(s, t, Entered) && (s.tokens[t].mode == Write ==> !s.entries[s.tokens[t].entry].claimed)
    case Grant(t) => InPhase(s, t, Asking) && s.tokens[t].mode == Write && s.entries[s.tokens[t].entry].readers == 0
    case Unlock(t) => InPhase(s, t, Holding)
    case Release(t) => t in s.tokens && s.tokens[t].phase == Releasing
  }

  /** The entry of a key, created if there is none. */
  function Obtain(s: State, key: string): State {
    if key in s.locks then s
    else State(s.entries[s.nextEntry := NEW_ENTRY], s.locks[key := s.nextEntry], s.nextEntry + 1, s.tokens)
  }

  /** The end of an acquisition: look the key up again, uncount, and delete the entry at zero. */
  function Uncount(s: State, key: string): State {
    if key !in s.locks || s.locks[key] !in s.entries then s
    else
      var id := s.locks[key];
      var e := s.entries[id].(refCount := s.entries[id].refCount - 1);
      s.(entries := s.entries[id := e], locks := if e.refCount == 0 then s.locks - {key} else s.locks)
  }

  /** The mutex after a request: a writer claims it, a reader goes in unless it is claimed. */
  function Asked(e: Entry, mode: Mode): Entry {
    if mode == Write then e.(claimed := true)
    else if e.claimed then e.(blocked := e.blocked + 1)
    else e.(readers := e.readers + 1)
  }

  function AskedPhase(e: Entry, mode: Mode): Phase {
    if mode == Read && !e.claimed then Holding else Asking
  }

  /** The mutex after an unlock: a leaving writer lets in all readers it blocked. */
  function Unlocked(e: Entry, mode: Mode): Entry {
    if mode == Write then e.(claimed := false, writer := false, readers := e.readers + e.blocked, blocked := 0)
    else e.(readers := e.readers - 1)
  }

  /** The tokens after token `t` unlocked. */
  function LetIn(tokens: map<nat, Token>, t: nat): map<nat, Token>
    requires t in tokens
  {
    map x | x in tokens ::
      if x == t then tokens[x].(phase := Releasing)
      else if tokens[t].mode == Write && tokens[x].entry == tokens[t].entry
              && tokens[x].mode == Read && tokens[x].phase == Asking
      then tokens[x].(phase := Holding)
      else tokens[x]
  }

  /** Token `t` moves to another phase and its entry changes. */
  function Moved(s: State, t: nat, phase: Phase, e: Entry): State
    requires t in s.tokens
  {
    s.(entries := s.entries[s.tokens[t].entry := e], tokens := s.tokens[t := s.tokens[t].(phase := phase)])
  }

  function Apply(s: State, a: Action): State
    requires Enabled(s, a)
  {
    match a
    case Enter(t, key, mode) =>
      var o := Obtain(s, key);
      var id := o.locks[key];
      var e := if id in o.entries then o.entries[id] else NEW_ENTRY;
      o.(entries := o.entries[id := e.(refCount := e.refCount + 1)],
         tokens := o.tokens[t := Token(key, id, mode, Entered)])
    case Ask(t) =>
      var e := s.entries[s.tokens[t].entry];
      Moved(s, t, AskedPhase(e, s.tokens[t].mode), Asked(e, s.tokens[t].mode))
    case Grant(t) => Moved(s, t, Holding, s.entries[s.tokens[t].entry].(writer := true))
    case Unlock(t) =>
      var k := s.tokens[t];
      s.(entries := s.entries[k.entry := Unlocked(s.entries[k.entry], k.mode)], tokens := LetIn(s.tokens, t))
    case Release(t) =>
      Uncount(s, s.tokens[t].key).(tokens := s.tokens - {t})
  }

  ghost predicate IsRun(actions: seq<Action>, states: seq<State>) {
    && |states| == |actions| + 1 && states[0] == INIT
    && forall i :: 0 <= i < |actions| ==>
         Enabled(states[i], actions[i]) && states[i + 1] == Apply(states[i], actions[i])
  }

  // ----- The invariant -----

  /** The acquisitions that refer to an entry. */
  function Users(tokens: map<nat, Token>, id: nat): set<nat> {
    set t | t in tokens && tokens[t].entry == id
  }

  predicate Matches(k: Token, id: nat, mode: Mode, phase: Phase) {
    k.entry == id && k.mode == mode && k.phase == phase
  }

  /** Those of one mode in one phase. */
  function Those(tokens: map<nat, Token>, id: nat, mode: Mode, phase: Phase): set<nat> {
    set t | t in tokens && Matches(tokens[t], id, mode, phase)
  }

  function One(c: bool): nat {
    if c then 1 else 0
  }

  /** The mutex reflects who holds and who asks for it. */
  ghost predicate MutexOk(tokens: map<nat, Token>, id: nat, e: Entry) {
    && e.readers == |Those(tokens, id, Read, Holding)| && e.blocked == |Those(tokens, id, Read, Asking)|
    && |Those(tokens, id, Write, Holding)| == One(e.writer)
    && |Those(tokens, id, Write, Asking)| == One(e.claimed && !e.writer)
    && (e.writer ==> e.claimed && e.readers == 0) && (!e.claimed ==> e.blocked == 0)
  }

  /** A mapped entry's count is its number of users. */
  ghost predicate EntryOk(s: State, id: nat) {
    id in s.entries && s.entries[id].refCount == |Users(s.tokens, id)| > 0 && MutexOk(s.tokens, id, s.entries[id])
  }

  ghost predicate Inv(s: State) {
    && (forall t :: t in s.tokens ==> s.tokens[t].key in s.locks && s.locks[s.tokens[t].key] == s.tokens[t].entry)
    && (forall k :: k in s.locks ==> s.locks[k] < s.nextEntry && EntryOk(s, s.locks[k]))
    && (forall k, k' :: k in s.locks && k' in s.locks && s.locks[k] == s.locks[k'] ==> k == k')
  }

  // ----- How token changes show in the counts -----

  lemma TokenAdded(tokens: map<nat, Token>, t: nat, k: Token, id: nat)
    requires t !in tokens && k.phase == Entered
    ensures |Users(tokens[t := k], id)| == |Users(tokens, id)| + One(k.entry == id)
    ensures forall e :: MutexOk(tokens, id, e) ==> MutexOk(tokens[t := k], id, e)
  {
    if k.entry == id {
      assert Users(tokens[t := k], id) == Users(tokens, id) + {t};
    } else {
      assert Users(tokens[t := k], id) == Users(tokens, id);
    }
    SameThose(tokens, tokens[t := k], id);
  }

  /** Tokens that differ only where nobody holds or asks for the entry. */
  lemma SameThose(tokens: map<nat, Token>, tokens': map<nat, Token>, id: nat)
    requires forall x ::
      x in tokens && tokens[x].entry == id && (tokens[x].phase == Holding || tokens[x].phase == Asking) ==>
      x in tokens' && tokens'[x] == tokens[x]
    requires forall x ::
      x in tokens' && tokens'[x].entry == id && (tokens'[x].phase == Holding || tokens'[x].phase == Asking) ==>
      x in tokens && tokens'[x] == tokens[x]
    ensures forall e :: MutexOk(tokens, id, e) ==> MutexOk(tokens', id, e)
  {
    forall mode, phase | phase == Holding || phase == Asking
      ensures Those(tokens', id, mode, phase) == Those(tokens, id, mode, phase)
    {
    }
  }

  lemma TokenMoved(tokens: map<nat, Token>, t: nat, phase: Phase, id: nat)
    requires t in tokens
    ensures Users(tokens[t := tokens[t].(phase := phase)], id) == Users(tokens, id)
  {
  }

  /** A group changes by the one token that moves to another phase. */
  ghost predicate GroupShifts(tokens: map<nat, Token>, t: nat, next: Phase, id: nat, mode: Mode, phase: Phase)
    requires t in tokens
  {
    |Those(tokens[t := tokens[t].(phase := next)], id, mode, phase)|
    == |Those(tokens, id, mode, phase)| - One(Matches(tokens[t], id, mode, phase))
       + One(Matches(tokens[t].(phase := next), id, mode, phase))
  }

  lemma GroupAfter(tokens: map<nat, Token>, t: nat, next: Phase, id: nat, mode: Mode, phase: Phase)
    requires t in tokens
    ensures GroupShifts(tokens, t, next, id, mode, phase)
  {
    OthersInGroup(tokens, t, tokens[t].(phase := next), id, mode, phase);
    SizeWithout(Those(tokens, id, mode, phase), t);
    SizeWithout(Those(tokens[t := tokens[t].(phase := next)], id, mode, phase), t);
  }

  lemma OthersInGroup(tokens: map<nat, Token>, t: nat, k: Token, id: nat, mode: Mode, phase: Phase)
    requires t in tokens
    ensures Those(tokens[t := k], id, mode, phase) - {t} == Those(tokens, id, mode, phase) - {t}
    ensures t in Those(tokens, id, mode, phase) <==> Matches(tokens[t], id, mode, phase)
    ensures t in Those(tokens[t := k], id, mode, phase) <==> Matches(k, id, mode, phase)
  {
  }

  lemma GroupsAfter(tokens: map<nat, Token>, t: nat, next: Phase, id: nat)
    requires t in tokens
    ensures GroupShifts(tokens, t, next, id, Read, Holding) && GroupShifts(tokens, t, next, id, Read, Asking)
    ensures GroupShifts(tokens, t, next, id, Write, Holding) && GroupShifts(tokens, t, next, id, Write, Asking)
  {
    GroupAfter(tokens, t, next, id, Read, Holding);
    GroupAfter(tokens, t, next, id, Read, Asking);
    GroupAfter(tokens, t, next, id, Write, Holding);
    GroupAfter(tokens, t, next, id, Write, Asking);
  }

  lemma MemberCounts(tokens: map<nat, Token>, t: nat)
    requires t in tokens
    ensures |Those(tokens, tokens[t].entry, tokens[t].mode, tokens[t].phase)| > 0
  {
    assert t in Those(tokens, tokens[t].entry, tokens[t].mode, tokens[t].phase);
  }

  lemma TokenRemoved(tokens: map<nat, Token>, t: nat, id: nat)
    requires t in tokens && tokens[t].phase == Releasing
    ensures |Users(tokens - {t}, id)| == |Users(tokens, id)| - One(tokens[t].entry == id)
    ensures forall e :: MutexOk(tokens, id, e) ==> MutexOk(tokens - {t}, id, e)
  {
    if tokens[t].entry == id {
      assert Users(tokens - {t}, id) == Users(tokens, id) - {t};
    } else {
      assert Users(tokens - {t}, id) == Users(tokens, id);
    }
    SameThose(tokens, tokens - {t}, id);
  }

  // ----- Every step keeps the invariant -----

  lemma {:induction false} FreshEntryIsUnused(s: State, id: nat)
    requires Inv(s) && id >= s.nextEntry
    ensures Users(s.tokens, id) == {} && MutexOk(s.tokens, id, NEW_ENTRY)
  {
    forall mode, phase ensures Those(s.tokens, id, mode, phase) == {} { }
  }

  lemma EnterKeepsEntries(s: State, a: Action, k: string)
    requires Inv(s) && a.Enter? && Enabled(s, a) && k in Apply(s, a).locks
    ensures var s' := Apply(s, a); s'.locks[k] < s'.nextEntry && EntryOk(s', s'.locks[k])
  {
    var s' := Apply(s, a);
    var id := s'.locks[k];
    FreshEntryIsUnused(s, s.nextEntry);
    TokenAdded(s.tokens, a.t, s'.tokens[a.t], id);
    assert k in s.locks ==> EntryOk(s, s.locks[k]);
  }

  lemma EnterKeepsInv(s: State, a: Action)
    requires Inv(s) && a.Enter? && Enabled(s, a)
    ensures Inv(Apply(s, a))
  {
    var s' := Apply(s, a);
    forall k | k in s'.locks ensures s'.locks[k] < s'.nextEntry && EntryOk(s', s'.locks[k]) {
      EnterKeepsEntries(s, a, k);
    }
    EnterKeepsKeys(s, a);
  }

  lemma EnterKeepsKeys(s: State, a: Action)
    requires Inv(s) && a.Enter? && Enabled(s, a)
    ensures var s' := Apply(s, a);
            && (forall t :: t in s'.tokens ==>
                  s'.tokens[t].key in s'.locks && s'.locks[s'.tokens[t].key] == s'.tokens[t].entry)
            && (forall k, k' :: k in s'.locks && k' in s'.locks && s'.locks[k] == s'.locks[k'] ==> k == k')
  {
    var s' := Apply(s, a);
    assert s'.locks == if a.key in s.locks then s.locks else s.locks[a.key := s.nextEntry];
    assert s'.tokens == s.tokens[a.t := Token(a.key, s'.locks[a.key], a.mode, Entered)];
  }

  /** A writer claims the mutex, or a reader asks for it. */
  lemma AskKeepsMutex(tokens: map<nat, Token>, t: nat, e: Entry)
    requires t in tokens && MutexOk(tokens, tokens[t].entry, e) && tokens[t].phase == Entered
    requires tokens[t].mode == Write ==> !e.claimed
    ensures var after := tokens[t := tokens[t].(phase := AskedPhase(e, tokens[t].mode))];
            MutexOk(after, tokens[t].entry, Asked(e, tokens[t].mode))
  {
    GroupsAfter(tokens, t, AskedPhase(e, tokens[t].mode), tokens[t].entry);
  }

  lemma GrantKeepsMutex(tokens: map<nat, Token>, t: nat, e: Entry)
    requires t in tokens && MutexOk(tokens, tokens[t].entry, e)
    requires tokens[t].phase == Asking && tokens[t].mode == Write && e.readers == 0
    ensures MutexOk(tokens[t := tokens[t].(phase := Holding)], tokens[t].entry, e.(writer := true))
  {
    MemberCounts(tokens, t);
    GroupsAfter(tokens, t, Holding, tokens[t].entry);
  }

  lemma MoveKeepsInv(s: State, a: Action)
    requires Inv(s) && (a.Ask? || a.Grant?) && Enabled(s, a)
    ensures Inv(Apply(s, a))
  {
    forall id | EntryOk(s, id) ensures EntryOk(Apply(s, a), id) { MoveKeepsEntry(s, a, id); }
    MoveFrame(s, a);
    SameKeys(s, Apply(s, a));
  }

  lemma MoveKeepsEntry(s: State, a: Action, id: nat)
    requires (a.Ask? || a.Grant?) && Enabled(s, a) && EntryOk(s, id)
    ensures EntryOk(Apply(s, a), id)
  {
    TokenMoved(s.tokens, a.t, Apply(s, a).tokens[a.t].phase, id);
    if s.tokens[a.t].entry != id {
      SameThose(s.tokens, Apply(s, a).tokens, id);
    } else if a.Ask? {
      AskKeepsMutex(s.tokens, a.t, s.entries[id]);
    } else {
      GrantKeepsMutex(s.tokens, a.t, s.entries[id]);
    }
  }

  /** The two states have the same keys, entries and tokens, up to phases and counters. */
  ghost predicate SameShape(s: State, s': State) {
    && s'.locks == s.locks && s'.nextEntry == s.nextEntry && s'.tokens.Keys == s.tokens.Keys
    && forall t :: t in s.tokens ==> s'.tokens[t].key == s.tokens[t].key && s'.tokens[t].entry == s.tokens[t].entry
  }

  lemma MoveFrame(s: State, a: Action)
    requires Enabled(s, a) && (a.Ask? || a.Grant? || a.Unlock?)
    ensures SameShape(s, Apply(s, a))
  {
  }

  lemma SameKeys(s: State, s': State)
    requires Inv(s) && SameShape(s, s') && forall id :: EntryOk(s, id) ==> EntryOk(s', id)
    ensures Inv(s')
  {
  }

  lemma ReaderUnlocks(tokens: map<nat, Token>, t: nat, e: Entry)
    requires t in tokens && tokens[t].phase == Holding && tokens[t].mode == Read && MutexOk(tokens, tokens[t].entry, e)
    ensures LetIn(tokens, t) == tokens[t := tokens[t].(phase := Releasing)]
    ensures MutexOk(LetIn(tokens, t), tokens[t].entry, Unlocked(e, Read))
  {
    MemberCounts(tokens, t);
    GroupsAfter(tokens, t, Releasing, tokens[t].entry);
  }

  /** The writer leaves, and exactly the readers it blocked are inside. */
  lemma WriterUnlocks(tokens: map<nat, Token>, t: nat, e: Entry)
    requires t in tokens && tokens[t].phase == Holding && tokens[t].mode == Write && MutexOk(tokens, tokens[t].entry, e)
    ensures MutexOk(LetIn(tokens, t), tokens[t].entry, Unlocked(e, Write))
  {
    var id, after := tokens[t].entry, LetIn(tokens, t);
    MemberCounts(tokens, t);
    assert e.writer;
    OnlyMember(Those(tokens, id, Write, Holding), t);
    assert Those(tokens, id, Read, Holding) == {} && Those(tokens, id, Write, Asking) == {};
    forall x | x in tokens && tokens[x].entry == id
      ensures x !in Those(tokens, id, Read, Holding) && x !in Those(tokens, id, Write, Asking)
      ensures x in Those(tokens, id, Write, Holding) ==> x == t
    {
    }
    ReadersLetIn(tokens, t);
  }

  /** With nobody else inside and no writer asking, a writer's unlock leaves the blocked readers inside. */
  lemma ReadersLetIn(tokens: map<nat, Token>, t: nat)
    requires t in tokens && tokens[t].mode == Write
    requires forall x :: x in tokens && tokens[x].entry == tokens[t].entry ==>
      !Matches(tokens[x], tokens[t].entry, Read, Holding) && !Matches(tokens[x], tokens[t].entry, Write, Asking)
      && (Matches(tokens[x], tokens[t].entry, Write, Holding) ==> x == t)
    ensures var id, after := tokens[t].entry, LetIn(tokens, t);
            && Those(after, id, Read, Holding) == Those(tokens, id, Read, Asking)
            && Those(after, id, Read, Asking) == {} && Those(after, id, Write, Asking) == {}
            && Those(after, id, Write, Holding) == {}
  {
  }

  lemma OthersUnlock(tokens: map<nat, Token>, t: nat, id: nat)
    requires t in tokens
    ensures Users(LetIn(tokens, t), id) == Users(tokens, id)
    ensures tokens[t].entry != id ==> forall e :: MutexOk(tokens, id, e) ==> MutexOk(LetIn(tokens, t), id, e)
  {
    if tokens[t].entry != id { SameThose(tokens, LetIn(tokens, t), id); }
  }

  lemma UnlockKeepsEntry(s: State, a: Action, id: nat)
    requires a.Unlock? && Enabled(s, a) && EntryOk(s, id)
    ensures EntryOk(Apply(s, a), id)
  {
    OthersUnlock(s.tokens, a.t, id);
    if s.tokens[a.t].entry == id {
      if s.tokens[a.t].mode == Read {
        ReaderUnlocks(s.tokens, a.t, s.entries[id]);
      } else {
        WriterUnlocks(s.tokens, a.t, s.entries[id]);
      }
    }
  }

  lemma UnlockKeepsInv(s: State, a: Action)
    requires Inv(s) && a.Unlock? && Enabled(s, a)
    ensures Inv(Apply(s, a))
  {
    forall id | EntryOk(s, id) ensures EntryOk(Apply(s, a), id) { UnlockKeepsEntry(s, a, id); }
    MoveFrame(s, a);
    SameKeys(s, Apply(s, a));
  }

  /** A key whose last user leaves has no other user: nobody is left with a deleted entry. */
  lemma LastUserIsAlone(s: State, t: nat, t': nat)
    requires Inv(s) && t in s.tokens && t' in s.tokens && s.tokens[t].key == s.tokens[t'].key
    requires s.entries[s.tokens[t].entry].refCount == 1
    ensures t == t'
  {
    var id := s.tokens[t].entry;
    assert EntryOk(s, id);
    OnlyMember(Users(s.tokens, id), t);
    assert t' in Users(s.tokens, id);
  }

  lemma ReleaseKeepsTokens(s: State, a: Action)
    requires Inv(s) && a.Release? && Enabled(s, a)
    ensures var s' := Apply(s, a);
            forall t :: t in s'.tokens ==>
              s'.tokens[t].key in s'.locks && s'.locks[s'.tokens[t].key] == s'.tokens[t].entry
  {
    var s', tok := Apply(s, a), s.tokens[a.t];
    assert EntryOk(s, tok.entry);
    forall t | t in s'.tokens ensures s'.tokens[t].key in s'.locks && s'.locks[s'.tokens[t].key] == s'.tokens[t].entry {
      if s'.tokens[t].key == tok.key && s.entries[tok.entry].refCount == 1 { LastUserIsAlone(s, a.t, t); }
    }
  }

  lemma ReleaseKeepsInv(s: State, a: Action)
    requires Inv(s) && a.Release? && Enabled(s, a)
    ensures Inv(Apply(s, a))
  {
    var s' := Apply(s, a);
    ReleaseKeepsTokens(s, a);
    assert EntryOk(s, s.tokens[a.t].entry);
    forall k | k in s'.locks ensures s'.locks[k] < s'.nextEntry && EntryOk(s', s'.locks[k]) {
      ReleaseKeepsEntry(s, a, k);
    }
  }

  lemma ReleaseKeepsEntry(s: State, a: Action, k: string)
    requires Inv(s) && a.Release? && Enabled(s, a) && k in Apply(s, a).locks
    ensures k in s.locks && Apply(s, a).locks[k] == s.locks[k] && EntryOk(Apply(s, a), s.locks[k])
  {
    assert EntryOk(s, s.locks[k]);
    TokenRemoved(s.tokens, a.t, s.locks[k]);
  }

  lemma StepKeepsInv(s: State, a: Action)
    requires Inv(s) && Enabled(s, a)
    ensures Inv(Apply(s, a))
  {
    match a {
      case Enter(_, _, _) => EnterKeepsInv(s, a);
      case Ask(_) => MoveKeepsInv(s, a);
      case Grant(_) => MoveKeepsInv(s, a);
      case Unlock(_) => UnlockKeepsInv(s, a);
      case Release(_) => ReleaseKeepsInv(s, a);
    }
  }

  lemma {:induction false} RunInv(actions: seq<Action>, states: seq<State>, i: nat)
    requires IsRun(actions, states) && i < |states|
    ensures Inv(states[i])
  {
    if i > 0 {
      RunInv(actions, states, i - 1);
      StepKeepsInv(states[i - 1], actions[i - 1]);
    }
  }

  // ----- What every run guarantees -----

  /** The acquisitions of a key, in any phase. */
  function UsersOf(s: State, key: string): set<nat> {
    set t | t in s.tokens && s.tokens[t].key == key
  }

  /** A key is mapped exactly while somebody uses it; all its users share the one mapped entry, and the
      entry's count is their number. */
  lemma CountIsUsers(actions: seq<Action>, states: seq<State>, i: nat, key: string)
    requires IsRun(actions, states) && i < |states|
    ensures var s := states[i];
            && (key in s.locks <==> UsersOf(s, key) != {})
            && (key in s.locks ==>
                  && s.locks[key] in s.entries && s.entries[s.locks[key]].refCount == |UsersOf(s, key)|
                  && forall t :: t in UsersOf(s, key) ==> s.tokens[t].entry == s.locks[key])
  {
    RunInv(actions, states, i);
    var s := states[i];
    if key in s.locks {
      assert EntryOk(s, s.locks[key]);
      assert UsersOf(s, key) == Users(s.tokens, s.locks[key]);
    }
  }

  /** Some acquisition of the key is in this mode and phase. */
  ghost predicate Present(s: State, key: string, mode: Mode, phase: Phase) {
    exists t :: t in s.tokens && s.tokens[t].key == key && s.tokens[t].mode == mode && s.tokens[t].phase == phase
  }

  /** The groups of an entry are the groups of its key. */
  lemma GroupOfKey(s: State, t: nat, mode: Mode, phase: Phase)
    requires Inv(s) && t in s.tokens
    ensures Present(s, s.tokens[t].key, mode, phase) <==> |Those(s.tokens, s.tokens[t].entry, mode, phase)| > 0
  {
    var id := s.tokens[t].entry;
    if Present(s, s.tokens[t].key, mode, phase) {
      var x :| x in s.tokens && s.tokens[x].key == s.tokens[t].key
               && s.tokens[x].mode == mode && s.tokens[x].phase == phase;
      MemberCounts(s.tokens, x);
    }
    if |Those(s.tokens, id, mode, phase)| > 0 {
      var x := Member(Those(s.tokens, id, mode, phase));
      assert x in s.tokens && s.tokens[x].key == s.tokens[t].key;
    }
  }

  lemma GroupsOfKey(s: State, t: nat)
    requires Inv(s) && t in s.tokens
    ensures s.tokens[t].entry in s.entries
    ensures var key, e := s.tokens[t].key, s.entries[s.tokens[t].entry];
            && (Present(s, key, Read, Holding) <==> e.readers > 0) && (Present(s, key, Write, Holding) <==> e.writer)
            && (Present(s, key, Write, Asking) <==> e.claimed && !e.writer)
            && (Present(s, key, Read, Asking) <==> e.blocked > 0)
            && (e.writer ==> e.claimed && e.readers == 0) && (e.blocked > 0 ==> e.claimed)
  {
    assert EntryOk(s, s.tokens[t].entry);
    GroupOfKey(s, t, Read, Holding);
    GroupOfKey(s, t, Write, Holding);
    GroupOfKey(s, t, Write, Asking);
    GroupOfKey(s, t, Read, Asking);
  }

  /** Readers and writers of one key exclude each other, although entries come and go. */
  lemma Exclusion(actions: seq<Action>, states: seq<State>, i: nat, t: nat, t': nat)
    requires IsRun(actions, states) && i < |states|
    requires var s := states[i]; t in s.tokens && t' in s.tokens && t != t' && s.tokens[t].key == s.tokens[t'].key
    requires states[i].tokens[t].phase == Holding && states[i].tokens[t'].phase == Holding
    ensures states[i].tokens[t].mode == Read && states[i].tokens[t'].mode == Read
  {
    RunInv(actions, states, i);
    var s := states[i];
    var id := s.tokens[t].entry;
    assert EntryOk(s, id);
    MemberCounts(s.tokens, t);
    MemberCounts(s.tokens, t');
    assert s.tokens[t'].mode == Write ==> t' in Those(s.tokens, id, Write, Holding);
    if s.tokens[t].mode == Write { OnlyMember(Those(s.tokens, id, Write, Holding), t); }
  }

  // ----- Who asked for what -----

  /** No step from `j` on, up to `i`, ends acquisition `t`. */
  ghost predicate Unreleased(actions: seq<Action>, t: nat, j: nat, i: nat)
    requires j <= i <= |actions|
  {
    forall m :: j <= m < i ==> actions[m] != Release(t)
  }

  /** A step changes neither key nor mode of an acquisition, and brings in none but the one that enters. */
  lemma StepKeepsRequest(s: State, a: Action, t: nat)
    requires Enabled(s, a) && t in Apply(s, a).tokens
    ensures if t in s.tokens
            then && a != Release(t) && !(a.Enter? && a.t == t)
                 && Apply(s, a).tokens[t].key == s.tokens[t].key && Apply(s, a).tokens[t].mode == s.tokens[t].mode
            else a == Enter(t, Apply(s, a).tokens[t].key, Apply(s, a).tokens[t].mode)
  {
  }

  lemma StepKeepsToken(s: State, a: Action, t: nat)
    requires Enabled(s, a) && t in s.tokens && a != Release(t)
    ensures t in Apply(s, a).tokens
  {
  }

  /** Every acquisition has the key and the mode of the request that began it. */
  lemma {:induction false} TokenIsRequest(actions: seq<Action>, states: seq<State>, i: nat, t: nat) returns (j: nat)
    requires IsRun(actions, states) && i < |states| && t in states[i].tokens
    ensures j < i && actions[j] == Enter(t, states[i].tokens[t].key, states[i].tokens[t].mode)
    ensures Unreleased(actions, t, j, i)
  {
    StepKeepsRequest(states[i - 1], actions[i - 1], t);
    if t in states[i - 1].tokens {
      j := TokenIsRequest(actions, states, i - 1, t);
    } else {
      j := i - 1;
    }
  }

  /** And a request that was made and not ended is an acquisition with that key and mode. */
  lemma {:induction false} RequestIsToken(actions: seq<Action>, states: seq<State>, j: nat, i: nat)
    requires IsRun(actions, states) && j < i < |states| && actions[j].Enter? && Unreleased(actions, actions[j].t, j, i)
    ensures var a := actions[j];
            a.t in states[i].tokens && states[i].tokens[a.t].key == a.key && states[i].tokens[a.t].mode == a.mode
  {
    var t := actions[j].t;
    if i == j + 1 {
      StepKeepsRequest(states[j], actions[j], t);
    } else {
      RequestIsToken(actions, states, j, i - 1);
      StepKeepsToken(states[i - 1], actions[i - 1], t);
      StepKeepsRequest(states[i - 1], actions[i - 1], t);
    }
  }

  /** Exclusion in terms of the requests: of two calls for one key that have been made and not ended, at least
      one of them to Lock, at most one is through. */
  lemma LockExcludes(actions: seq<Action>, states: seq<State>, i: nat, j: nat, j': nat)
    requires IsRun(actions, states) && i < |states| && j < i && j' < i && actions[j].Enter? && actions[j'].Enter?
    requires actions[j].t != actions[j'].t && actions[j].key == actions[j'].key && actions[j].mode == Write
    requires Unreleased(actions, actions[j].t, j, i) && Unreleased(actions, actions[j'].t, j', i)
    ensures var s, t, t' := states[i], actions[j].t, actions[j'].t;
            t in s.tokens && t' in s.tokens && !(s.tokens[t].phase == Holding && s.tokens[t'].phase == Holding)
  {
    RequestIsToken(actions, states, j, i);
    RequestIsToken(actions, states, j', i);
    var s, t, t' := states[i], actions[j].t, actions[j'].t;
    if s.tokens[t].phase == Holding && s.tokens[t'].phase == Holding { Exclusion(actions, states, i, t, t'); }
  }

  // ----- Who waits for whom -----

  /** What can hold a writer up: it can claim the key if and only if no writer holds or has claimed it,
      and having claimed it, it gets the lock if and only if nobody holds the key. */
  lemma WriterBlockedBy(actions: seq<Action>, states: seq<State>, i: nat, t: nat)
    requires IsRun(actions, states) && i < |states| && t in states[i].tokens && states[i].tokens[t].mode == Write
    ensures var s := states[i];
            var key := s.tokens[t].key;
            && (s.tokens[t].phase == Entered ==>
                  (Enabled(s, Ask(t)) <==> !Present(s, key, Write, Holding) && !Present(s, key, Write, Asking)))
            && (s.tokens[t].phase == Asking ==>
                  (Enabled(s, Grant(t)) <==> !Present(s, key, Write, Holding) && !Present(s, key, Read, Holding)))
            && (Enabled(s, Ask(t)) ==> Apply(s, Ask(t)).tokens[t].phase == Asking)
            && (Enabled(s, Grant(t)) ==> Apply(s, Grant(t)).tokens[t].phase == Holding)
  {
    RunInv(actions, states, i);
    GroupsOfKey(states[i], t);
    assert states[i].tokens[t].phase == Asking ==> Present(states[i], states[i].tokens[t].key, Write, Asking);
  }

  /** What can hold a reader up: it gets in at once if and only if no writer holds the key or has claimed
      it; a reader is blocked only while there is such a writer, and that writer's unlock lets it in. */
  lemma ReaderBlockedBy(actions: seq<Action>, states: seq<State>, i: nat, t: nat)
    requires IsRun(actions, states) && i < |states| && t in states[i].tokens && states[i].tokens[t].mode == Read
    ensures var s := states[i];
            var key := s.tokens[t].key;
            && (s.tokens[t].phase == Entered ==>
                  && Enabled(s, Ask(t))
                  && (Apply(s, Ask(t)).tokens[t].phase == Holding
                      <==> !Present(s, key, Write, Holding) && !Present(s, key, Write, Asking)))
            && (s.tokens[t].phase == Asking ==> Present(s, key, Write, Holding) || Present(s, key, Write, Asking))
            && (s.tokens[t].phase == Asking ==>
                  forall w :: Enabled(s, Unlock(w)) && s.tokens[w].key == key && s.tokens[w].mode == Write ==>
                    Apply(s, Unlock(w)).tokens[t].phase == Holding)
  {
    RunInv(actions, states, i);
    GroupsOfKey(states[i], t);
    assert states[i].tokens[t].phase == Asking ==> Present(states[i], states[i].tokens[t].key, Read, Asking);
  }

  // ----- The critical sections as the source writes them -----

  /** The number of users that a key's entry records. */
  function CountOf(s: State, key: string): int {
    if key in s.locks && s.locks[key] in s.entries then s.entries[s.locks[key]].refCount else 0
  }

  /** The machine's two critical sections do to the counts what the methods below do. */
  lemma EnterCounts(s: State, a: Action, key: string)
    requires Inv(s) && a.Enter? && Enabled(s, a)
    ensures CountOf(Apply(s, a), key) == CountOf(s, key) + (if key == a.key then 1 else 0)
  {
    assert key in s.locks ==> EntryOk(s, s.locks[key]);
  }

  lemma ReleaseCounts(s: State, a: Action, key: string)
    requires Inv(s) && a.Release? && Enabled(s, a)
    ensures CountOf(Apply(s, a), key) == CountOf(s, key) - (if key == s.tokens[a.t].key then 1 else 0)
  {
    assert EntryOk(s, s.tokens[a.t].entry);
  }

  class KeyLockEntry {
    var refCount: int

    constructor ()
      ensures refCount == 0
    {
      refCount := 0;
    }
  }

  class KeyLock {
    var locks: map<string, KeyLockEntry>

    /** Keys do not share entries, and mapped entries are in use. */
    ghost predicate Valid()
      reads this, locks.Values
    {
      && (forall k, k' :: k in locks && k' in locks && locks[k] == locks[k'] ==> k == k')
      && (forall k :: k in locks ==> locks[k].refCount > 0)
    }

    ghost function Count(key: string): int
      reads this, locks.Values
    {
      if key in locks then locks[key].refCount else 0
    }

    constructor ()
      ensures Valid() && locks == map[]
    {
      locks := map[];
    }

    /** The critical section at the start of Lock and RLock: every user of a key gets the same entry. */
    method Acquire(key: string) returns (entry: KeyLockEntry)
      requires Valid()
      modifies this, locks.Values
      ensures Valid() && key in locks && entry == locks[key]
      ensures if key in old(locks) then locks == old(locks) else fresh(entry) && locks == old(locks)[key := entry]
      ensures forall k :: Count(k) == old(Count(k)) + (if k == key then 1 else 0)
    {
      if key in locks {
        entry := locks[key];
      } else {
        entry := new KeyLockEntry();
        locks := locks[key := entry];
      }
      entry.refCount := entry.refCount + 1;
    }

    /** The critical section of release: the entry goes when its last user does. */
    method Release(key: string)
      requires Valid()
      modifies this, locks.Values
      ensures Valid()
      ensures locks == if old(Count(key)) == 1 then old(locks) - {key} else old(locks)
      ensures forall k :: Count(k) == old(Count(k)) - (if k == key && key in old(locks) then 1 else 0)
    {
      if key !in locks { return; }
      var entry := locks[key];
      entry.refCount := entry.refCount - 1;
      if entry.refCount == 0 { locks := locks - {key}; }
    }
  }
}
