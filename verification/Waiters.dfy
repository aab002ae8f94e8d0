/** The list of callers parked on a reliable call.

    `BaseObject.seqWaiters` (object/object.go) is kept sorted by sequence number and is only
    ever touched in three ways: a caller is inserted, a prefix is popped, or the whole list is
    closed. This module gives the list operations as functions and proves what they keep. */
module Waiters {

  /** A parked caller: the sequence number it waits for and the channel it reads. */
  datatype Waiter = Waiter(seqNo: int, ch: nat)

  ghost predicate Sorted(ws: seq<Waiter>) {
    forall i, j :: 0 <= i < j < |ws| ==> ws[i].seqNo <= ws[j].seqNo
  }

  ghost predicate DistinctChans(ws: seq<Waiter>) {
    forall i, j :: 0 <= i < j < |ws| ==> ws[i].ch != ws[j].ch
  }

  function Chans(ws: seq<Waiter>): (cs: seq<nat>)
    ensures |cs| == |ws|
    ensures forall i :: 0 <= i < |ws| ==> cs[i] == ws[i].ch
  {
    seq(|ws|, i requires 0 <= i < |ws| => ws[i].ch)
  }

  /** How many waiters at the front are due once the call numbered `s` is done. */
  function DueCount(ws: seq<Waiter>, s: int): (n: nat)
    ensures n <= |ws|
    ensures forall i :: 0 <= i < n ==> ws[i].seqNo <= s
    ensures n < |ws| ==> ws[n].seqNo > s
  {
    if ws == [] || ws[0].seqNo > s then 0 else 1 + DueCount(ws[1..], s)
  }

  /** In a sorted list the due prefix is everyone who is due, not just the first few. */
  lemma DueIsEveryoneDue(ws: seq<Waiter>, s: int)
    requires Sorted(ws)
    ensures forall i :: 0 <= i < |ws| ==> (ws[i].seqNo <= s <==> i < DueCount(ws, s))
  {
    var n := DueCount(ws, s);
    forall i | n <= i < |ws| ensures ws[i].seqNo > s {
      assert ws[n].seqNo <= ws[i].seqNo;
    }
  }

  /** The list after a caller is added: it goes behind everyone waiting for the same or an
      earlier call and in front of everyone waiting for a later one. */
  function Insert(ws: seq<Waiter>, w: Waiter): (r: seq<Waiter>)
    ensures |r| == |ws| + 1
    ensures r[DueCount(ws, w.seqNo)] == w
    ensures forall i :: 0 <= i < DueCount(ws, w.seqNo) ==> r[i] == ws[i]
    ensures forall i :: DueCount(ws, w.seqNo) <= i < |ws| ==> r[i + 1] == ws[i]
  {
    var p := DueCount(ws, w.seqNo);
    ws[..p] + [w] + ws[p..]
  }

  lemma InsertSorted(ws: seq<Waiter>, w: Waiter)
    requires Sorted(ws)
    ensures Sorted(Insert(ws, w))
  {
    DueIsEveryoneDue(ws, w.seqNo);
    var p, r := DueCount(ws, w.seqNo), Insert(ws, w);
    forall i, j | 0 <= i < j < |r| ensures r[i].seqNo <= r[j].seqNo {
      if j > p { assert r[j] == ws[j - 1]; }
      if i > p { assert r[i] == ws[i - 1]; }
    }
  }

  lemma InsertMembers(ws: seq<Waiter>, w: Waiter)
    ensures multiset(Insert(ws, w)) == multiset(ws) + multiset{w}
  {
    var p := DueCount(ws, w.seqNo);
    assert ws == ws[..p] + ws[p..];
  }

  lemma InsertDistinct(ws: seq<Waiter>, w: Waiter)
    requires DistinctChans(ws)
    requires forall i :: 0 <= i < |ws| ==> ws[i].ch != w.ch
    ensures DistinctChans(Insert(ws, w))
  {
    var p, r := DueCount(ws, w.seqNo), Insert(ws, w);
    forall i, j | 0 <= i < j < |r| ensures r[i].ch != r[j].ch {
      if j > p { assert r[j] == ws[j - 1]; }
      if i > p { assert r[i] == ws[i - 1]; }
    }
  }

  lemma InsertedOrOld(ws: seq<Waiter>, w: Waiter, k: nat)
    requires k < |Insert(ws, w)|
    ensures Insert(ws, w)[k] == w || Insert(ws, w)[k] in ws
  {
    var p, r := DueCount(ws, w.seqNo), Insert(ws, w);
    if k < p { assert r[k] == ws[k]; }
    if k > p { assert r[k] == ws[k - 1]; }
  }

  lemma InsertChans(ws: seq<Waiter>, w: Waiter)
    ensures forall c :: c in Chans(Insert(ws, w)) <==> c in Chans(ws) || c == w.ch
  {
    var p, r := DueCount(ws, w.seqNo), Insert(ws, w);
    forall k | 0 <= k < |r| ensures Chans(r)[k] in Chans(ws) || Chans(r)[k] == w.ch {
      if k < p { assert Chans(r)[k] == Chans(ws)[k]; }
      if k > p { assert r[k] == ws[k - 1] && Chans(r)[k] == Chans(ws)[k - 1]; }
    }
    forall k | 0 <= k < |ws| ensures Chans(ws)[k] in Chans(r) {
      assert Chans(ws)[k] == Chans(r)[if k < p then k else k + 1];
    }
    assert Chans(r)[p] == w.ch;
  }

  /** Where the missed waiters end and the matched ones begin. */
  function MissedCount(ws: seq<Waiter>, s: int): (n: nat)
    ensures n <= DueCount(ws, s)
  {
    var m, n := DueCount(ws, s - 1), DueCount(ws, s);
    if m <= n then m else n
  }

  /** Channels of the due waiters that missed their call. */
  function Missed(ws: seq<Waiter>, s: int): (cs: seq<nat>) {
    Chans(ws[..MissedCount(ws, s)])
  }

  /** Channels of the due waiters whose own call is `s`. */
  function Matched(ws: seq<Waiter>, s: int): (cs: seq<nat>) {
    Chans(ws[MissedCount(ws, s)..DueCount(ws, s)])
  }

  /** The waiters left once `s` is done. */
  function Rest(ws: seq<Waiter>, s: int): (r: seq<Waiter>) {
    ws[DueCount(ws, s)..]
  }

  /** Popping splits the list into missed, matched and left over, and loses nobody. */
  lemma PopLosesNobody(ws: seq<Waiter>, s: int)
    ensures Missed(ws, s) + Matched(ws, s) + Chans(Rest(ws, s)) == Chans(ws)
  {
  }

  lemma DueAreMissedOrMatched(ws: seq<Waiter>, s: int)
    ensures Missed(ws, s) + Matched(ws, s) == Chans(ws[..DueCount(ws, s)])
  {
    ChansSplit(ws, MissedCount(ws, s), DueCount(ws, s));
  }

  lemma ChansSnoc(ws: seq<Waiter>, m: nat, n: nat)
    requires m <= n < |ws|
    ensures Chans(ws[m..n + 1]) == Chans(ws[m..n]) + [ws[n].ch]
  {
  }

  lemma ChansSplit(ws: seq<Waiter>, m: nat, n: nat)
    requires m <= n <= |ws|
    ensures Chans(ws[..m]) + Chans(ws[m..n]) == Chans(ws[..n])
  {
  }

  /** In a sorted list the three parts are told apart by the sequence number alone. */
  lemma PopBySeq(ws: seq<Waiter>, s: int)
    requires Sorted(ws)
    ensures forall i :: 0 <= i < MissedCount(ws, s) ==> ws[i].seqNo < s
    ensures forall i :: MissedCount(ws, s) <= i < DueCount(ws, s) ==> ws[i].seqNo == s
    ensures forall i :: DueCount(ws, s) <= i < |ws| ==> ws[i].seqNo > s
  {
    DueIsEveryoneDue(ws, s);
    DueIsEveryoneDue(ws, s - 1);
  }
}
