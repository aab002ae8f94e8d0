/** Dealing k items to n places in turn, from any starting place: every place gets k/n rounded down
    or up. */
module RoundRobin {

  /** The place that gets the i-th item. */
  function Slot(offset: nat, i: nat, n: nat): nat
    requires n > 0
  {
    (offset + i) % n
  }

  /** How many of the first k items go to place j. */
  function Hits(offset: nat, k: nat, n: nat, j: nat): nat
    requires n > 0
  {
    if k == 0 then 0 else Hits(offset, k - 1, n, j) + (if Slot(offset, k - 1, n) == j then 1 else 0)
  }

  lemma DivModUnique(x: int, n: int, q: int, r: int)
    requires n > 0 && x == n * q + r && 0 <= r < n
    ensures x / n == q && x % n == r
  {
    var d := x / n - q;
    assert x == n * (x / n) + x % n;
    assert n * d == r - x % n by { assert n * (x / n) - n * q == n * (x / n - q); }
    assert d >= 1 ==> n * d >= n;
    assert d <= -1 ==> n * d <= -n;
  }

  lemma NextSlot(x: nat, n: nat)
    requires n > 0
    ensures (x + 1) % n == if x % n + 1 == n then 0 else x % n + 1
  {
    var q, r := x / n, x % n;
    assert x == n * q + r;
    if r + 1 == n {
      assert x + 1 == n * (q + 1) + 0;
      DivModUnique(x + 1, n, q + 1, 0);
    } else {
      DivModUnique(x + 1, n, q, r + 1);
    }
  }

  /** How many places lie between the start and place j, going round. */
  function Distance(offset: nat, n: nat, j: nat): int {
    if j >= offset then j - offset else j - offset + n
  }

  /** After q full rounds and r more items, the next place is r beyond the start and exactly the places
      passed in the open round have one more than q. */
  ghost predicate Dealt(offset: nat, k: nat, n: nat, q: nat, r: nat)
    requires n > 0
  {
    && k == n * q + r && r < n
    && Slot(offset, k, n) == (if offset + r < n then offset + r else offset + r - n)
    && forall j :: 0 <= j < n ==> Hits(offset, k, n, j) == q + (if Distance(offset, n, j) < r then 1 else 0)
  }

  /** One more item goes to the place r beyond the start. */
  lemma NextHit(offset: nat, k: nat, n: nat, q: nat, r: nat, j: nat)
    requires n > 0 && offset < n && j < n && Dealt(offset, k, n, q, r)
    ensures Hits(offset, k + 1, n, j) == q + (if Distance(offset, n, j) <= r then 1 else 0)
  {
    assert Slot(offset, k, n) == j <==> Distance(offset, n, j) == r;
  }

  lemma {:induction false} Deal(offset: nat, k: nat, n: nat) returns (q: nat, r: nat)
    requires n > 0 && offset < n
    ensures Dealt(offset, k, n, q, r)
  {
    if k == 0 {
      q, r := 0, 0;
      DivModUnique(offset, n, 0, offset);
    } else {
      var q0, r0 := Deal(offset, k - 1, n);
      NextSlot(offset + k - 1, n);
      forall j | 0 <= j < n ensures Hits(offset, k, n, j) == q0 + (if Distance(offset, n, j) <= r0 then 1 else 0) {
        NextHit(offset, k - 1, n, q0, r0, j);
      }
      if r0 + 1 == n {
        q, r := q0 + 1, 0;
        assert n * (q0 + 1) == n * q0 + n;
      } else {
        q, r := q0, r0 + 1;
      }
    }
  }

  lemma FairShare(offset: nat, k: nat, n: nat, j: nat)
    requires n > 0 && offset < n && j < n
    ensures k / n <= Hits(offset, k, n, j) <= k / n + 1
    ensures k % n == 0 ==> Hits(offset, k, n, j) == k / n
  {
    var q, r := Deal(offset, k, n);
    DivModUnique(k, n, q, r);
  }
}
