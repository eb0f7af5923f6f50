/** Circular block indices and the unbounded tickets they stand for.

    A ticket counts claims since the ring was created.  `Slot(t, n)` is the block that ticket `t` uses: the
    block reached from block 0 by following `Next` t times round a ring of n blocks. */
module Slots {

  function Succ(i: nat, n: nat): (j: nat)
    requires i < n
    ensures j < n
  {
    if i + 1 == n then 0 else i + 1
  }

  function Pred(i: nat, n: nat): (j: nat)
    requires i < n
    ensures j < n
  {
    if i == 0 then n - 1 else i - 1
  }

  function Slot(t: nat, n: nat): (i: nat)
    requires n > 0
    ensures i < n
  {
    if t == 0 then 0 else Succ(Slot(t - 1, n), n)
  }

  /** The ticket in the lap starting at `lo` whose block is i. */
  function TicketAt(lo: nat, i: nat, n: nat): (t: nat)
    requires i < n
    ensures lo <= t < lo + n
  {
    var s := Slot(lo, n);
    if i >= s then lo + (i - s) else lo + n - (s - i)
  }

  lemma {:induction false} SlotShift(t: nat, d: nat, n: nat)
    requires d < n
    ensures Slot(t + d, n) == if Slot(t, n) + d < n then Slot(t, n) + d else Slot(t, n) + d - n
  {
    if d > 0 {
      SlotShift(t, d - 1, n);
    }
  }

  lemma SlotInjective(a: nat, b: nat, n: nat)
    requires n > 0 && a <= b < a + n && Slot(a, n) == Slot(b, n)
    ensures a == b
  {
    SlotShift(a, b - a, n);
  }

  /** Within one lap distinct tickets use distinct blocks. */
  lemma LapInjective(lo: nat, n: nat)
    requires n > 0
    ensures forall a, b {:trigger Slot(a, n), Slot(b, n)} ::
              lo <= a < lo + n && lo <= b < lo + n && Slot(a, n) == Slot(b, n) ==> a == b
  {
    forall a, b {:trigger Slot(a, n), Slot(b, n)} | lo <= a < lo + n && lo <= b < lo + n && Slot(a, n) == Slot(b, n)
      ensures a == b
    {
      if a <= b { SlotInjective(a, b, n); } else { SlotInjective(b, a, n); }
    }
  }

  lemma TicketAtSlot(lo: nat, i: nat, n: nat)
    requires i < n
    ensures Slot(TicketAt(lo, i, n), n) == i
  {
    SlotShift(lo, TicketAt(lo, i, n) - lo, n);
  }

  /** A lap later the same block is used again. */
  lemma SlotPeriod(t: nat, n: nat)
    requires n > 0
    ensures Slot(t + n, n) == Slot(t, n)
  {
    SlotShift(t, n - 1, n);
  }

  /** A multiple of n that is smaller than n in size is zero. */
  lemma SmallMultiple(d: int, n: int)
    requires 0 < n && -n < d * n < n
    ensures d == 0
  {
  }

  lemma ModStep(t: nat, n: nat)
    requires 0 < n <= t
    ensures (t - n) % n == t % n
  {
    var d := t / n - (t - n) / n - 1;
    assert d * n == t / n * n - (t - n) / n * n - n;
    SmallMultiple(d, n);
  }

  lemma {:induction false} SlotMod(t: nat, n: nat)
    requires n > 0
    ensures Slot(t, n) == t % n
  {
    if t >= n {
      SlotMod(t - n, n);
      SlotPeriod(t - n, n);
      ModStep(t, n);
    } else {
      SlotShift(0, t, n);
    }
  }

  /** Two tickets use the same block only if they are equal or at least a lap apart. */
  lemma SameSlotLap(a: nat, b: nat, n: nat)
    requires n > 0 && a <= b && Slot(a, n) == Slot(b, n)
    ensures a == b || a + n <= b
  {
    if b < a + n { SlotInjective(a, b, n); }
  }

  /** The block links written by the initialisation loop. */
  ghost predicate Links(next: seq<nat>, prev: seq<nat>, n: nat)
  {
    && |next| == n && |prev| == n
    && (forall i :: 0 <= i < n ==> next[i] == Succ(i, n))
    && (forall i :: 0 <= i < n ==> prev[i] == Pred(i, n))
  }

  /** `k` steps along the stored `Next` links. */
  function Follow(next: seq<nat>, b: nat, k: nat): (r: nat)
    requires b < |next| && forall i :: 0 <= i < |next| ==> next[i] < |next|
    ensures r < |next|
  {
    if k == 0 then b else next[Follow(next, b, k - 1)]
  }

  lemma {:induction false} FollowSlot(next: seq<nat>, prev: seq<nat>, b: nat, k: nat)
    requires b < |next| && Links(next, prev, |next|)
    ensures Follow(next, b, k) == Slot(b + k, |next|)
  {
    if k == 0 {
      SlotShift(0, b, |next|);
    } else {
      FollowSlot(next, prev, b, k - 1);
    }
  }

  ghost predicate Reaches(next: seq<nat>, b: nat, j: nat)
    requires b < |next| && forall i :: 0 <= i < |next| ==> next[i] < |next|
  {
    exists k :: 0 <= k < |next| && Follow(next, b, k) == j
  }

  /** The links form one cycle: `Next` and `Prev` undo each other, and following `Next` from any block visits
      every block exactly once before it is back after `n` steps. */
  lemma OneCycle(next: seq<nat>, prev: seq<nat>, n: nat, b: nat)
    requires n >= 2 && Links(next, prev, n) && b < n
    ensures prev[next[b]] == b && next[prev[b]] == b
    ensures Follow(next, b, n) == b
    ensures forall j :: 0 <= j < n ==> Reaches(next, b, j)
    ensures forall k, l :: 0 <= k < n && 0 <= l < n && Follow(next, b, k) == Follow(next, b, l) ==> k == l
  {
    FollowSlot(next, prev, b, n);
    SlotPeriod(b, n);
    FollowSlot(next, prev, b, 0);
    forall j | 0 <= j < n
      ensures Reaches(next, b, j)
    {
      var k := TicketAt(b, j, n) - b;
      TicketAtSlot(b, j, n);
      FollowSlot(next, prev, b, k);
      assert Follow(next, b, k) == j;
    }
    forall k, l | 0 <= k < n && 0 <= l < n && Follow(next, b, k) == Follow(next, b, l)
      ensures k == l
    {
      FollowSlot(next, prev, b, k);
      FollowSlot(next, prev, b, l);
      LapInjective(b, n);
    }
  }
}
