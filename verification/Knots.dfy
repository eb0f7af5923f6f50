/** The other half of the deadlock condition: lists that no ranking fits can always be driven into a circle of waits. */
module Knots {
  import opened LockOrder
  import opened Deadlock

  /** A list and two of its positions: the event at `at` comes before the event at `to`. */
  datatype Link = Link(list: seq<nat>, at: nat, to: nat)

  predicate LinkOk(n: nat, l: Link) {
    l.at < l.to < |l.list| && forall i :: 0 <= i < |l.list| ==> l.list[i] < n
  }

  function First(l: Link): nat {
    if l.at < |l.list| then l.list[l.at] else 0
  }

  function Second(l: Link): nat {
    if l.to < |l.list| then l.list[l.to] else 0
  }

  /** Event e is the first event of some link. */
  ghost predicate Names(knot: seq<Link>, e: nat) {
    exists b :: 0 <= b < |knot| && First(knot[b]) == e
  }

  /** Distinct events, each of which some list puts before another of them (or before itself). */
  ghost predicate Knot(n: nat, knot: seq<Link>) {
    && knot != []
    && (forall a :: 0 <= a < |knot| ==> LinkOk(n, knot[a]))
    && (forall a, b :: 0 <= a < b < |knot| ==> First(knot[a]) != First(knot[b]))
    && (forall a :: 0 <= a < |knot| ==> Names(knot, Second(knot[a])))
  }

  // ----- runs

  ghost predicate Reaches(lists: set<seq<nat>>, s0: State, s: State) {
    exists sched: Schedule :: From(lists, sched) && Leads(s0, sched, s)
  }

  lemma Go(lists: set<seq<nat>>, s0: State, s: State, t: nat, ch: Choice) returns (e: State)
    requires Base(s0) && Reaches(lists, s0, s) && t < |s.ths| && (ch.CallWaitMany? ==> ch.list in lists)
    ensures Base(s) && e == Step(s, t, ch) && Base(e) && Reaches(lists, s0, e) && |e.queues| == |s.queues|
  {
    hide OwnersOk, Step, Leads;
    var sched: Schedule :| From(lists, sched) && Leads(s0, sched, s);
    LeadsOn(s0, sched, s, t, ch);
    BaseKeeps(s, t, ch);
    e := Step(s, t, ch);
  }

  /** Call x of the knot holds its waiter mutex, is registered with its first event and wants its second. */
  ghost predicate Placed(s: State, knot: seq<Link>, x: nat)
    requires x < |knot|
  {
    var l := knot[x];
    && x < |s.lists| == |s.wOwner| && x < |s.ths| && l.at < l.to < |l.list|
    && s.lists[x] == l.list && s.ths[x] == Entering(x, l.to) && s.wOwner[x] == By(x)
    && First(l) < |s.queues| && x in s.queues[First(l)]
  }

  /** The first p calls are in place, and threads after the first q of them have not begun. */
  ghost predicate Gathered(s: State, knot: seq<Link>, p: nat, q: nat) {
    && Base(s) && p <= |knot| && |s.ths| == 2 * |knot|
    && (forall x :: 0 <= x < p ==> Placed(s, knot, x))
    && (forall t :: q <= t < |s.ths| ==> s.ths[t] == Idle)
  }

  /** Call p has been through the first i positions of its list; `o` owns the event at position i. */
  ghost predicate Calling(s: State, knot: seq<Link>, p: nat, i: nat, th: Thread, o: Owner) {
    && p < |knot| && Gathered(s, knot, p, p + 1) && LinkOk(|s.queues|, knot[p]) && i <= knot[p].to
    && |s.lists| == |s.wOwner| == p + 1 && s.lists[p] == knot[p].list && s.wOwner[p] == By(p) && s.ths[p] == th
    && (forall e :: 0 <= e < |s.eOwner| ==> s.eOwner[e] == if e == knot[p].list[i] then o else Free)
    && (i > knot[p].at ==> p in s.queues[First(knot[p])])
  }

  /** The clean-up finds every waiter mutex taken. */
  lemma {:induction false} SkipsAll(lists: set<seq<nat>>, s0: State, s: State, knot: seq<Link>, p: nat, i: nat, j: nat)
    returns (e: State)
    requires Base(s0) && Reaches(lists, s0, s)
    requires Calling(s, knot, p, i, Cleaning(p, i, j), By(p))
    requires j <= |s.queues[knot[p].list[i]]|
    ensures Reaches(lists, s0, e) && e.queues == s.queues
    ensures Calling(e, knot, p, i, Cleaning(p, i, |s.queues[knot[p].list[i]]|), By(p))
    decreases |s.queues[knot[p].list[i]]| - j
  {
    if j < |s.queues[knot[p].list[i]]| {
      var s1 := Go(lists, s0, s, p, Yes);
      SkipsOne(s, knot, p, i, j);
      hide Step, Base, Gathered;
      e := SkipsAll(lists, s0, s1, knot, p, i, j + 1);
    } else {
      e := s;
    }
  }

  lemma SkipsOne(s: State, knot: seq<Link>, p: nat, i: nat, j: nat)
    requires Calling(s, knot, p, i, Cleaning(p, i, j), By(p)) && Base(Step(s, p, Yes))
    requires j < |s.queues[knot[p].list[i]]|
    ensures var s1 := Step(s, p, Yes); s1.queues == s.queues && Calling(s1, knot, p, i, Cleaning(p, i, j + 1), By(p))
  {
    var y := s.queues[knot[p].list[i]][j];
    assert y < p + 1;
    assert y < p ==> Placed(s, knot, y);
    var s1 := Step(s, p, Yes);
    assert s1 == s.(ths := s.ths[p := Cleaning(p, i, j + 1)]);
    hide Base, Step;
    forall x | 0 <= x < p
      ensures Placed(s1, knot, x)
    {
      assert Placed(s, knot, x);
    }
  }

  lemma Locks(s: State, knot: seq<Link>, p: nat, i: nat)
    requires Calling(s, knot, p, i, Entering(p, i), Free) && i < knot[p].to && Base(Step(s, p, Yes))
    ensures var s1 := Step(s, p, Yes); Calling(s1, knot, p, i, Cleaning(p, i, 0), By(p))
  {
    var s1 := Step(s, p, Yes);
    assert s1 == s.(ths := s.ths[p := Cleaning(p, i, 0)], eOwner := s.eOwner[knot[p].list[i] := By(p)]);
    hide Base, Step;
    forall x | 0 <= x < p
      ensures Placed(s1, knot, x)
    {
      assert Placed(s, knot, x);
    }
  }

  lemma Registers(s: State, knot: seq<Link>, p: nat, i: nat)
    requires p < |knot| && LinkOk(|s.queues|, knot[p]) && i < knot[p].to
    requires Calling(s, knot, p, i, Cleaning(p, i, |s.queues[knot[p].list[i]]|), By(p))
    requires Base(Step(s, p, Register))
    ensures Calling(Step(s, p, Register), knot, p, i + 1, Entering(p, i + 1), Free)
  {
    var s1, f := Step(s, p, Register), knot[p].list[i];
    assert s1 == s.(ths := s.ths[p := Entering(p, i + 1)], eOwner := s.eOwner[f := Free],
                    queues := s.queues[f := s.queues[f] + [p]]);
    hide Base, Step;
    forall x | 0 <= x < p
      ensures Placed(s1, knot, x)
    {
      assert Placed(s, knot, x);
    }
  }

  /** Call p goes through its list, registering with every event, until it wants its second event. */
  lemma {:induction false} GoesThrough(lists: set<seq<nat>>, s0: State, s: State, knot: seq<Link>, p: nat, i: nat)
    returns (e: State)
    requires Base(s0) && Reaches(lists, s0, s) && Calling(s, knot, p, i, Entering(p, i), Free)
    ensures Reaches(lists, s0, e) && |e.queues| == |s.queues|
    ensures Calling(e, knot, p, knot[p].to, Entering(p, knot[p].to), Free)
    decreases knot[p].to - i
  {
    if i == knot[p].to {
      e := s;
    } else {
      var s1 := Go(lists, s0, s, p, Yes);
      Locks(s, knot, p, i);
      hide Step, Base, Gathered;
      var s2 := SkipsAll(lists, s0, s1, knot, p, i, 0);
      var s3 := Go(lists, s0, s2, p, Register);
      Registers(s2, knot, p, i);
      e := GoesThrough(lists, s0, s3, knot, p, i + 1);
    }
  }

  /** All event mutexes are free and the first p calls are in place. */
  ghost predicate Ready(s: State, knot: seq<Link>, p: nat) {
    && Gathered(s, knot, p, p) && |s.lists| == |s.wOwner| == p
    && (forall e :: 0 <= e < |s.eOwner| ==> s.eOwner[e] == Free)
  }

  lemma Calls(s: State, knot: seq<Link>, p: nat)
    requires Ready(s, knot, p) && p < |knot| && LinkOk(|s.queues|, knot[p])
    requires Base(Step(s, p, CallWaitMany(knot[p].list)))
    ensures Calling(Step(s, p, CallWaitMany(knot[p].list)), knot, p, 0, Entering(p, 0), Free)
  {
    var s1 := Step(s, p, CallWaitMany(knot[p].list));
    assert s1 == s.(ths := s.ths[p := Entering(p, 0)], lists := s.lists + [knot[p].list], wOwner := s.wOwner + [By(p)]);
    hide Base, Step;
    forall x | 0 <= x < p
      ensures Placed(s1, knot, x)
    {
      assert Placed(s, knot, x);
    }
  }

  lemma Arrives(s: State, knot: seq<Link>, p: nat)
    requires p < |knot| && LinkOk(|s.queues|, knot[p]) && Calling(s, knot, p, knot[p].to, Entering(p, knot[p].to), Free)
    ensures Ready(s, knot, p + 1)
  {
    assert Placed(s, knot, p);
  }

  lemma OneCall(lists: set<seq<nat>>, s0: State, s: State, knot: seq<Link>, p: nat) returns (e: State)
    requires Base(s0) && Reaches(lists, s0, s) && Ready(s, knot, p) && p < |knot|
    requires LinkOk(|s.queues|, knot[p]) && knot[p].list in lists
    ensures Reaches(lists, s0, e) && Ready(e, knot, p + 1) && |e.queues| == |s.queues|
  {
    hide Step, Base, Placed, Leads;
    var s1 := Go(lists, s0, s, p, CallWaitMany(knot[p].list));
    Calls(s, knot, p);
    var s2 := GoesThrough(lists, s0, s1, knot, p, 0);
    Arrives(s2, knot, p);
    e := s2;
  }

  lemma KnotNonempty(n: nat, knot: seq<Link>)
    requires Knot(n, knot)
    ensures knot != []
  {
  }

  lemma KnotLink(n: nat, knot: seq<Link>, a: nat)
    requires Knot(n, knot) && a < |knot|
    ensures LinkOk(n, knot[a])
  {
  }

  lemma {:induction false} AllCalls(lists: set<seq<nat>>, s0: State, s: State, knot: seq<Link>, p: nat)
    returns (e: State)
    requires Base(s0) && Reaches(lists, s0, s) && Knot(|s.queues|, knot) && Ready(s, knot, p) && p <= |knot|
    requires forall a :: 0 <= a < |knot| ==> knot[a].list in lists
    ensures Reaches(lists, s0, e) && Ready(e, knot, |knot|) && |e.queues| == |s.queues|
    decreases |knot| - p
  {
    hide *;
    if p == |knot| {
      e := s;
    } else {
      KnotLink(|s.queues|, knot, p);
      e := OneCall(lists, s0, s, knot, p);
      e := AllCalls(lists, s0, e, knot, p + 1);
    }
  }

  // ----- the setters

  /** All calls are in place, and setters 0..q hold the first events of the knot and want a waiter mutex. */
  ghost predicate Closing(s: State, knot: seq<Link>, q: nat) {
    && Gathered(s, knot, |knot|, |knot| + q) && |s.lists| == |s.wOwner| == |knot| && q <= |knot|
    && (forall a :: 0 <= a < q ==>
          && s.ths[|knot| + a] == WantWaiter(First(knot[a]), 0) && s.eOwner[First(knot[a])] == By(|knot| + a))
    && (forall e :: 0 <= e < |s.eOwner| && (forall a :: 0 <= a < q ==> First(knot[a]) != e) ==> s.eOwner[e] == Free)
  }

  lemma ClosingStart(s: State, knot: seq<Link>)
    requires Ready(s, knot, |knot|)
    ensures Closing(s, knot, 0)
  {
  }

  /** Setter q with its call at `th`; `o` owns its event. */
  ghost predicate Closer(s: State, e: State, knot: seq<Link>, q: nat, th: Thread, o: Owner) {
    && |s.ths| == 2 * |knot| && q < |knot| && First(knot[q]) < |s.eOwner|
    && e == s.(ths := s.ths[|knot| + q := th], eOwner := s.eOwner[First(knot[q]) := o])
  }

  lemma Sets(s: State, knot: seq<Link>, q: nat)
    requires Closing(s, knot, q) && q < |knot| && First(knot[q]) < |s.eOwner| && s.eOwner[First(knot[q])] == Free
    ensures Closer(s, Step(s, |knot| + q, CallSet(First(knot[q]))), knot, q, WantEvent(First(knot[q]), true), Free)
  {
    hide OwnersOk, Placed;
  }

  lemma SetLocks(s: State, s1: State, knot: seq<Link>, q: nat)
    requires q < |knot| && Closer(s, s1, knot, q, WantEvent(First(knot[q]), true), Free) && Sized(s1)
    ensures Closer(s, Step(s1, |knot| + q, Yes), knot, q, Setting(First(knot[q]), 0), By(|knot| + q))
  {
  }

  lemma SetFindsEntry(s: State, s2: State, knot: seq<Link>, q: nat)
    requires q < |knot| && Closer(s, s2, knot, q, Setting(First(knot[q]), 0), By(|knot| + q)) && Sized(s2)
    requires First(knot[q]) < |s.queues| && s.queues[First(knot[q])] != []
    ensures Closer(s, Step(s2, |knot| + q, Yes), knot, q, WantWaiter(First(knot[q]), 0), By(|knot| + q))
  {
  }

  lemma ClosingNext(s: State, e: State, knot: seq<Link>, q: nat)
    requires q < |knot| && Closing(s, knot, q) && Base(e)
    requires Closer(s, e, knot, q, WantWaiter(First(knot[q]), 0), By(|knot| + q))
    requires forall a, b :: 0 <= a < b < |knot| ==> First(knot[a]) != First(knot[b])
    ensures Closing(e, knot, q + 1)
  {
    hide OwnersOk, ThreadOk;
    forall x | 0 <= x < |knot|
      ensures Placed(e, knot, x)
    {
      assert Placed(s, knot, x);
    }
    forall a | 0 <= a < q + 1
      ensures First(knot[a]) < |e.eOwner| && e.eOwner[First(knot[a])] == By(|knot| + a)
    {
      assert Placed(s, knot, a);
      if a < q { assert s.eOwner[First(knot[a])] == By(|knot| + a); }
    }
    forall f | 0 <= f < |e.eOwner| && (forall a :: 0 <= a < q + 1 ==> First(knot[a]) != f)
      ensures e.eOwner[f] == Free
    {
      assert f != First(knot[q]);
    }
  }

  lemma OwnEventFree(s: State, knot: seq<Link>, q: nat)
    requires Closing(s, knot, q) && q < |knot|
    requires forall a, b :: 0 <= a < b < |knot| ==> First(knot[a]) != First(knot[b])
    ensures First(knot[q]) < |s.eOwner| == |s.queues| && s.eOwner[First(knot[q])] == Free && s.queues[First(knot[q])] != []
    ensures |s.ths| == 2 * |knot|
  {
    assert Placed(s, knot, q);
  }

  /** Setter q calls SetEvent on the first event of link q, locks it, and finds an entry in its queue. */
  lemma OneSetter(lists: set<seq<nat>>, s0: State, s: State, knot: seq<Link>, q: nat) returns (e: State)
    requires Base(s0) && Reaches(lists, s0, s) && Closing(s, knot, q) && q < |knot|
    requires forall a, b :: 0 <= a < b < |knot| ==> First(knot[a]) != First(knot[b])
    ensures Reaches(lists, s0, e) && Closing(e, knot, q + 1) && e.queues == s.queues
  {
    hide Step, OwnersOk, Sized, Closing, Reaches, First;
    var t, f := |knot| + q, First(knot[q]);
    OwnEventFree(s, knot, q);
    var s1 := Go(lists, s0, s, t, CallSet(f));
    Sets(s, knot, q);
    var s2 := Go(lists, s0, s1, t, Yes);
    SetLocks(s, s1, knot, q);
    e := Go(lists, s0, s2, t, Yes);
    SetFindsEntry(s, s2, knot, q);
    ClosingNext(s, e, knot, q);
  }

  lemma {:induction false} AllSetters(lists: set<seq<nat>>, s0: State, s: State, knot: seq<Link>, q: nat)
    returns (e: State)
    requires Base(s0) && Reaches(lists, s0, s) && Closing(s, knot, q) && q <= |knot|
    requires forall a, b :: 0 <= a < b < |knot| ==> First(knot[a]) != First(knot[b])
    ensures Reaches(lists, s0, e) && Closing(e, knot, |knot|) && e.queues == s.queues
    decreases |knot| - q
  {
    hide *;
    if q == |knot| {
      e := s;
    } else {
      e := OneSetter(lists, s0, s, knot, q);
      e := AllSetters(lists, s0, e, knot, q + 1);
    }
  }

  // ----- the circle

  /** Every call is blocked by a setter and every setter by a call. */
  ghost predicate Interlocked(s: State, k: nat) {
    && Sized(s) && |s.ths| == 2 * k
    && (forall t :: 0 <= t < k ==> Blocked(s, t) && k <= Blocker(s, t) < 2 * k)
    && (forall t :: k <= t < 2 * k ==> Blocked(s, t) && Blocker(s, t) < k)
  }

  lemma CallBlocked(s: State, knot: seq<Link>, t: nat)
    requires Closing(s, knot, |knot|) && Knot(|s.queues|, knot) && t < |knot|
    ensures Blocked(s, t) && |knot| <= Blocker(s, t) < 2 * |knot|
  {
    hide OwnersOk, Knot, ThreadOk;
    assert Placed(s, knot, t);
    var b := KnotClosed(|s.queues|, knot, t);
    assert s.eOwner[First(knot[b])] == By(|knot| + b);
  }

  lemma KnotClosed(n: nat, knot: seq<Link>, a: nat) returns (b: nat)
    requires Knot(n, knot) && a < |knot|
    ensures b < |knot| && First(knot[b]) == Second(knot[a]) && LinkOk(n, knot[a])
  {
    assert Names(knot, Second(knot[a]));
    b :| 0 <= b < |knot| && First(knot[b]) == Second(knot[a]);
  }

  lemma SetterBlocked(s: State, knot: seq<Link>, a: nat)
    requires Closing(s, knot, |knot|) && a < |knot|
    ensures Blocked(s, |knot| + a) && Blocker(s, |knot| + a) < |knot|
  {
    hide OwnersOk;
    assert s.ths[|knot| + a] == WantWaiter(First(knot[a]), 0);
    assert Placed(s, knot, a);
    var y := s.queues[First(knot[a])][0];
    assert y < |s.lists|;
    assert Placed(s, knot, y);
  }

  lemma Closed(s: State, knot: seq<Link>)
    requires Closing(s, knot, |knot|) && Knot(|s.queues|, knot)
    ensures Interlocked(s, |knot|)
  {
    hide OwnersOk, Knot, Blocked, Blocker, Placed;
    var k := |knot|;
    forall t | 0 <= t < k
      ensures Blocked(s, t) && k <= Blocker(s, t) < 2 * k
    {
      CallBlocked(s, knot, t);
    }
    forall t | k <= t < 2 * k
      ensures Blocked(s, t) && Blocker(s, t) < k
    {
      SetterBlocked(s, knot, t - k);
    }
  }

  /** From any start with enough threads, calls on the lists of a knot and one SetEvent for each of its events end in
      mutual blocking: each call holds its waiter mutex and wants an event mutex, and each SetEvent the reverse. */
  lemma KnotDeadlocks(lists: set<seq<nat>>, s0: State, knot: seq<Link>) returns (e: State)
    requires Start(s0) && |s0.ths| == 2 * |knot| && Knot(|s0.queues|, knot)
    requires forall a :: 0 <= a < |knot| ==> knot[a].list in lists
    ensures Reaches(lists, s0, e) && Base(e) && Interlocked(e, |knot|)
  {
    assert Leads(s0, [], s0) && Ready(s0, knot, 0);
    e := AllCalls(lists, s0, s0, knot, 0);
    ClosingStart(e, knot);
    e := AllSetters(lists, s0, e, knot, 0);
    Closed(e, knot);
  }

  function Below(k: nat): (d: set<nat>)
    ensures forall t: nat :: t in d <==> t < k
  {
    if k == 0 then {} else Below(k - 1) + {k - 1}
  }

  lemma InterlockedIsDeadlock(s: State, k: nat)
    requires Interlocked(s, k) && k > 0
    ensures !DeadlockFree(s)
  {
    hide Blocked, Blocker, DeadlockFree;
    assert 0 in Below(2 * k);
    CircleIsDeadlock(s, Below(2 * k));
  }

  // ----- without a ranking there is a knot

  /** Event a comes before some event of `among` in one of the lists. */
  ghost predicate Precedes(lists: set<seq<nat>>, a: nat, among: set<nat>, l: Link) {
    l.list in lists && l.at < l.to < |l.list| && First(l) == a && Second(l) in among
  }

  /** The lists restricted to `among` climb. */
  ghost predicate RanksAmong(lists: set<seq<nat>>, rank: map<nat, nat>, among: set<nat>) {
    && rank.Keys == among && (forall e :: e in among ==> rank[e] < |among|)
    && (forall l: Link :: l.list in lists && l.at < l.to < |l.list| && First(l) in among && Second(l) in among ==>
          rank[First(l)] < rank[Second(l)])
  }

  /** Every event of the set comes before another of the set (or before itself). */
  ghost predicate NoTop(lists: set<seq<nat>>, among: set<nat>) {
    forall a :: a in among ==> exists l :: Precedes(lists, a, among, l)
  }

  /** Either the events can be ranked, or some of them have no top. */
  lemma {:induction false} Sort(lists: set<seq<nat>>, among: set<nat>) returns (rank: map<nat, nat>, stuck: set<nat>)
    ensures if stuck == {} then RanksAmong(lists, rank, among) else stuck <= among && NoTop(lists, stuck)
    decreases |among|
  {
    rank, stuck := map[], {};
    if NoTop(lists, among) {
      stuck := among;
    } else {
      var a :| a in among && !exists l :: Precedes(lists, a, among, l);
      rank, stuck := Sort(lists, among - {a});
      if stuck == {} {
        rank := rank[a := |among| - 1];
        forall l: Link | l.list in lists && l.at < l.to < |l.list| && First(l) in among && Second(l) in among
          ensures rank[First(l)] < rank[Second(l)]
        {
          assert !Precedes(lists, a, among, l);
        }
      }
    }
  }

  /** One link for each event of `todo`. */
  ghost predicate Ties(lists: set<seq<nat>>, among: set<nat>, todo: set<nat>, knot: seq<Link>) {
    && (forall a :: 0 <= a < |knot| ==> First(knot[a]) in todo && Precedes(lists, First(knot[a]), among, knot[a]))
    && (forall a, b :: 0 <= a < b < |knot| ==> First(knot[a]) != First(knot[b]))
    && (forall e :: e in todo ==> Names(knot, e))
  }

  lemma {:induction false} Tie(lists: set<seq<nat>>, among: set<nat>, todo: set<nat>) returns (knot: seq<Link>)
    requires NoTop(lists, among) && todo <= among
    ensures Ties(lists, among, todo, knot)
    decreases |todo|
  {
    if todo == {} {
      knot := [];
    } else {
      hide Ties, Precedes;
      var a :| a in todo;
      knot := Tie(lists, among, todo - {a});
      var l :| Precedes(lists, a, among, l);
      TieNext(lists, among, todo, a, knot, l);
      knot := knot + [l];
    }
  }

  lemma TieNext(lists: set<seq<nat>>, among: set<nat>, todo: set<nat>, a: nat, rest: seq<Link>, l: Link)
    requires a in todo && Ties(lists, among, todo - {a}, rest) && Precedes(lists, a, among, l)
    ensures Ties(lists, among, todo, rest + [l])
  {
    var knot := rest + [l];
    forall i | 0 <= i < |knot|
      ensures First(knot[i]) in todo && Precedes(lists, First(knot[i]), among, knot[i])
    {
      if i < |rest| { assert knot[i] == rest[i]; }
    }
    forall e | e in todo
      ensures Names(knot, e)
    {
      if e == a {
        assert First(knot[|rest|]) == e;
      } else {
        assert Names(rest, e);
        var b :| 0 <= b < |rest| && First(rest[b]) == e;
        assert First(knot[b]) == e;
      }
    }
  }

  ghost predicate InRange(n: nat, lists: set<seq<nat>>) {
    forall list :: list in lists ==> forall i :: 0 <= i < |list| ==> list[i] < n
  }

  lemma TieOk(n: nat, lists: set<seq<nat>>, among: set<nat>, l: Link)
    requires InRange(n, lists) && Precedes(lists, First(l), among, l)
    ensures LinkOk(n, l) && l.list in lists && Second(l) in among
  {
  }

  lemma TiesAreKnot(n: nat, lists: set<seq<nat>>, among: set<nat>, knot: seq<Link>)
    requires InRange(n, lists) && among != {} && Ties(lists, among, among, knot)
    ensures Knot(n, knot) && forall a :: 0 <= a < |knot| ==> knot[a].list in lists
  {
    hide InRange, Precedes, LinkOk, First, Second, Names;
    forall a | 0 <= a < |knot|
      ensures knot[a].list in lists && LinkOk(n, knot[a]) && Names(knot, Second(knot[a]))
    {
      TieOk(n, lists, among, knot[a]);
    }
    var e :| e in among;
    NamesNonempty(knot, e);
  }

  lemma NamesNonempty(knot: seq<Link>, e: nat)
    requires Names(knot, e)
    ensures knot != []
  {
  }

  lemma SortedIsRankable(n: nat, lists: set<seq<nat>>, rank: map<nat, nat>)
    requires InRange(n, lists) && RanksAmong(lists, rank, Below(n))
    ensures Rankable(n, lists)
  {
    var r := seq(n, e requires 0 <= e < n => rank[e] as int);
    forall list | list in lists
      ensures Climbs(r, list)
    {
      forall i, j | 0 <= i < j < |list|
        ensures r[list[i]] < r[list[j]]
      {
        var l := Link(list, i, j);
        assert First(l) in Below(n) && Second(l) in Below(n);
      }
    }
    assert |r| == n && Ranks(r, lists);
  }

  // ----- the exact condition

  /** A freshly created set of events and idle threads. */
  function Fresh(auto: seq<bool>, threads: nat): State {
    State(auto, seq(|auto|, _ => []), seq(|auto|, _ => Free), [], [], seq(threads, _ => Idle))
  }

  lemma UnrankedDeadlocks(auto: seq<bool>, lists: set<seq<nat>>)
    requires InRange(|auto|, lists) && !Rankable(|auto|, lists)
    ensures !NeverDeadlocks(auto, lists)
  {
    hide InRange, Rankable, Knot, Ties, NoTop, RanksAmong, Interlocked, DeadlockFree;
    var rank, stuck := Sort(lists, Below(|auto|));
    if stuck == {} {
      SortedIsRankable(|auto|, lists, rank);
    } else {
      var knot := Tie(lists, stuck, stuck);
      TiesAreKnot(|auto|, lists, stuck, knot);
      assert knot != [] by { KnotNonempty(|auto|, knot); }
      var s0 := Fresh(auto, 2 * |knot|);
      var e := KnotDeadlocks(lists, s0, knot);
      InterlockedIsDeadlock(e, |knot|);
      var sched: Schedule :| From(lists, sched) && Leads(s0, sched, e);
    }
  }

  /** WaitForMultipleEvents calls on these lists, with any SetEvent, ResetEvent and WaitForEvent calls on any number of
      threads, never deadlock if and only if some ranking of the events makes every list strictly increasing. */
  lemma DeadlockExactly(auto: seq<bool>, lists: set<seq<nat>>)
    requires InRange(|auto|, lists)
    ensures NeverDeadlocks(auto, lists) <==> Rankable(|auto|, lists)
  {
    if Rankable(|auto|, lists) {
      RankedNeverDeadlocks(auto, lists);
    } else {
      UnrankedDeadlocks(auto, lists);
    }
  }

  // ----- single lists, and two lists in opposite orders

  predicate NoRepeat(list: seq<nat>) {
    forall i, j :: 0 <= i < j < |list| ==> list[i] != list[j]
  }

  /** Position of e in the list, or its length. */
  function IndexOf(list: seq<nat>, e: nat): (i: nat)
    ensures i <= |list| && (i < |list| ==> list[i] == e)
    ensures forall j :: 0 <= j < i ==> list[j] != e
  {
    if list == [] || list[0] == e then 0 else 1 + IndexOf(list[1..], e)
  }

  lemma NoRepeatRanks(n: nat, list: seq<nat>)
    requires NoRepeat(list) && InRange(n, {list})
    ensures Rankable(n, {list})
  {
    var rank := seq(n, e requires 0 <= e < n => IndexOf(list, e) as int);
    assert list in {list};
    forall i | 0 <= i < |list|
      ensures list[i] < n && rank[list[i]] == i
    {
      var j := IndexOf(list, list[i]);
      assert j <= i;
    }
    assert |rank| == n && Ranks(rank, {list});
  }

  lemma RankableNoRepeat(n: nat, list: seq<nat>)
    requires Rankable(n, {list})
    ensures NoRepeat(list)
  {
    var rank: seq<int> :| |rank| == n && Ranks(rank, {list});
    assert Climbs(rank, list);
  }

  /** Calls on one list never deadlock, however many there are at once, if and only if it names no event twice. */
  lemma SingleListExactly(auto: seq<bool>, list: seq<nat>)
    requires InRange(|auto|, {list})
    ensures NeverDeadlocks(auto, {list}) <==> NoRepeat(list)
  {
    hide NeverDeadlocks, Rankable;
    DeadlockExactly(auto, {list});
    if Rankable(|auto|, {list}) { RankableNoRepeat(|auto|, list); }
    if NoRepeat(list) { NoRepeatRanks(|auto|, list); }
  }

  /** For every list that names an event twice, one call on it and one SetEvent can block each other for good: the call
      holds its waiter mutex and wants the event mutex a second time, SetEvent the reverse. */
  lemma RepeatedEventDeadlocks(s0: State, list: seq<nat>, i: nat, j: nat) returns (e: State)
    requires Start(s0) && |s0.ths| == 2 && InRange(|s0.queues|, {list}) && i < j < |list| && list[i] == list[j]
    ensures Reaches({list}, s0, e) && Base(e) && |e.ths| == 2
    ensures Blocked(e, 0) && Blocker(e, 0) == 1 && Blocked(e, 1) && Blocker(e, 1) == 0
  {
    hide Start, Reaches, Blocked, Blocker, Base;
    var knot := [Link(list, i, j)];
    assert list in {list};
    assert First(knot[0]) == Second(knot[0]);
    assert Names(knot, Second(knot[0]));
    e := KnotDeadlocks({list}, s0, knot);
  }

  lemma RankableOneWay(n: nat, lists: set<seq<nat>>, p: Link, q: Link)
    requires Rankable(n, lists) && p.list in lists && q.list in lists
    requires p.at < p.to < |p.list| && q.at < q.to < |q.list|
    ensures !(First(p) == Second(q) && Second(p) == First(q))
  {
    var rank: seq<int> :| |rank| == n && Ranks(rank, lists);
    assert Climbs(rank, p.list) && Climbs(rank, q.list);
  }

  /** Two lists that name two events in opposite orders can deadlock, whatever else is allowed. */
  lemma OppositeOrdersDeadlock(auto: seq<bool>, lists: set<seq<nat>>, p: Link, q: Link)
    requires InRange(|auto|, lists) && p.list in lists && q.list in lists
    requires p.at < p.to < |p.list| && q.at < q.to < |q.list| && First(p) == Second(q) && Second(p) == First(q)
    ensures !NeverDeadlocks(auto, lists)
  {
    hide NeverDeadlocks, Rankable, First, Second, InRange;
    if NeverDeadlocks(auto, lists) {
      DeadlockExactly(auto, lists);
      RankableOneWay(|auto|, lists, p, q);
    }
  }
}
