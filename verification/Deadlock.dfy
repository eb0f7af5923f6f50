/** When WaitForMultipleEvents and SetEvent can deadlock: exactly when no ranking of the events makes every list of the
    calls strictly increasing. */
module Deadlock {
  import opened LockOrder

  // ----- rankings

  /** The list stays below |rank| and climbs strictly. */
  predicate Climbs(rank: seq<int>, list: seq<nat>) {
    && (forall i :: 0 <= i < |list| ==> list[i] < |rank|)
    && (forall i, j :: 0 <= i < j < |list| ==> rank[list[i]] < rank[list[j]])
  }

  ghost predicate Ranks(rank: seq<int>, lists: set<seq<nat>>) {
    forall list :: list in lists ==> Climbs(rank, list)
  }

  /** Some ranking of n events makes every list climb. */
  ghost predicate Rankable(n: nat, lists: set<seq<nat>>) {
    exists rank: seq<int> :: |rank| == n && Ranks(rank, lists)
  }

  /** A waiter whose call is still going through its list is registered only with events of lower rank. */
  ghost predicate Climbing(rank: seq<int>, s: State, th: Thread)
    requires Tables(s) && ThreadOk(s, th) && |rank| == |s.queues|
  {
    (th.Entering? && th.i < |s.lists[th.x]|) || th.Cleaning? || th.Probing? ==>
      forall e :: 0 <= e < |s.queues| && th.x in s.queues[e] ==>
        rank[e] < rank[s.lists[th.x][th.i]]
  }

  ghost predicate Inv(rank: seq<int>, s: State) {
    && Base(s) && |rank| == |s.queues|
    && (forall x :: 0 <= x < |s.lists| ==> Climbs(rank, s.lists[x]))
    && (forall t :: 0 <= t < |s.ths| ==> Climbing(rank, s, s.ths[t]))
  }

  // ----- the chain of waits climbs

  function Low(rank: seq<int>): (low: int)
    ensures forall e :: 0 <= e < |rank| ==> low <= rank[e]
  {
    if rank == [] then 0 else
      var k := |rank| - 1;
      var low := Low(rank[..k]);
      if low < rank[k] then low else rank[k]
  }

  function High(rank: seq<int>): (high: int)
    ensures forall e :: 0 <= e < |rank| ==> rank[e] <= high
  {
    if rank == [] then 0 else
      var k := |rank| - 1;
      var high := High(rank[..k]);
      if high > rank[k] then high else rank[k]
  }

  /** Twice the rank of the event a blocked thread is about to lock, and one more once it has locked it. */
  function Height(rank: seq<int>, s: State, t: nat): int
    requires Sized(s) && t < |s.ths| && |rank| == |s.queues|
  {
    match s.ths[t]
    case WantEvent(e, _) => 2 * rank[e]
    case WantWaiter(e, _) => 2 * rank[e] + 1
    case Entering(x, i) => if i < |s.lists[x]| then 2 * rank[s.lists[x][i]] else 2 * Low(rank) - 1
    case _ => 2 * Low(rank) - 1
  }

  /** The thread that holds the mutex a blocked thread wants. */
  function Blocker(s: State, t: nat): (u: nat)
    requires Sized(s) && t < |s.ths| && Blocked(s, t)
  {
    OwnerOf(s, Wants(s, s.ths[t])).thread
  }

  lemma BlockerHolds(s: State, t: nat)
    requires Base(s) && t < |s.ths| && Blocked(s, t)
    ensures var u, w := Blocker(s, t), Wants(s, s.ths[t]);
      && u < |s.ths|
      && (if w.Event? then HoldsEvent(s, s.ths[u], w.e) else w.Waiter? && HoldsWaiter(s, s.ths[u], w.x))
  {
  }

  /** A blocked thread waits for a thread that is not blocked, or that is further up the ranking. */
  lemma WaitClimbs(rank: seq<int>, s: State, t: nat)
    requires Inv(rank, s) && t < |s.ths| && Blocked(s, t)
    ensures Blocker(s, t) < |s.ths|
    ensures Blocked(s, Blocker(s, t)) ==> Height(rank, s, Blocker(s, t)) > Height(rank, s, t)
  {
    BlockerHolds(s, t);
    var u := Blocker(s, t);
    if Blocked(s, u) && s.ths[t].WantWaiter? {
      assert s.ths[u].Entering? ==> Climbing(rank, s, s.ths[u]);
    }
  }

  // ----- every step keeps the climb

  /** How queues and lists change: entries only disappear, except that a call registers its waiter with the event it
      has just cleaned, and moves on. */
  lemma QueueGrowth(s: State, t: nat, ch: Choice, e: nat, x: nat)
    requires Base(s) && t < |s.ths| && e < |s.queues| == |Step(s, t, ch).queues| && x in Step(s, t, ch).queues[e]
    ensures var th := s.ths[t];
      || x in s.queues[e]
      || (th.Cleaning? && x == th.x && e == s.lists[x][th.i] && Step(s, t, ch).ths[t] == Entering(x, th.i + 1))
  {
    hide OwnersOk;
  }

  /** How a thread gets into the part of a call where it climbs through its list. */
  lemma ClimbMoves(s: State, t: nat, ch: Choice)
    requires Base(s) && t < |s.ths|
    ensures var s', th := Step(s, t, ch), s.ths[t]; var th' := s'.ths[t];
      && (th'.Entering? ==>
            || (th.Idle? && th'.x == |s.lists| && ch.CallWaitMany? && s'.lists == s.lists + [ch.list])
            || (th.Entering? && th' == th && s' == s)
            || (th.Cleaning? && th'.x == th.x && th'.i == th.i + 1 && s'.lists == s.lists)
            || (th.WantBack? && th'.x == th.x && th'.i == |s.lists[th.x]| && s'.lists == s.lists))
      && (th'.Cleaning? || th'.Probing? ==>
            && (th.Entering? || th.Cleaning? || th.Probing?) && th'.x == th.x && th'.i == th.i
            && th.i < |s.lists[th.x]| && s'.lists == s.lists)
      && (s'.lists == s.lists || (ch.CallWaitMany? && s'.lists == s.lists + [ch.list]))
  {
    hide OwnersOk, Blocked, Wants, OwnerOf;
  }

  lemma ClimbHere(rank: seq<int>, s: State, t: nat, ch: Choice)
    requires Inv(rank, s) && t < |s.ths| && ThreadOk(Step(s, t, ch), Step(s, t, ch).ths[t])
    requires Tables(Step(s, t, ch)) && |Step(s, t, ch).queues| == |s.queues|
    ensures Climbing(rank, Step(s, t, ch), Step(s, t, ch).ths[t])
  {
    hide Step, OwnersOk, Climbs, Blocked;
    var s', th := Step(s, t, ch), s.ths[t];
    assert ThreadOk(s, th);
    ClimbMoves(s, t, ch);
    assert Climbing(rank, s, th);
    var th' := s'.ths[t];
    if (th'.Entering? && th'.i < |s'.lists[th'.x]|) || th'.Cleaning? || th'.Probing? {
      forall e | 0 <= e < |s'.queues| && th'.x in s'.queues[e]
        ensures rank[e] < rank[s'.lists[th'.x][th'.i]]
      {
        QueueGrowth(s, t, ch, e, th'.x);
        if th.Cleaning? && th'.Entering? {
          NextIsHigher(rank, s.lists[th.x], th.i);
        } else {
          assert th'.x in s.queues[e];
          RegisteredHasList(s, e, th'.x);
        }
      }
    }
  }

  lemma RegisteredHasList(s: State, e: nat, x: nat)
    requires Tables(s) && e < |s.queues| && x in s.queues[e]
    ensures x < |s.lists|
  {
    var j :| 0 <= j < |s.queues[e]| && s.queues[e][j] == x;
  }

  lemma NextIsHigher(rank: seq<int>, list: seq<nat>, i: nat)
    requires Climbs(rank, list) && i + 1 < |list|
    ensures list[i] < |rank| && list[i + 1] < |rank| && rank[list[i]] < rank[list[i + 1]]
  {
  }

  lemma ClimbElsewhere(rank: seq<int>, s: State, t: nat, ch: Choice, u: nat)
    requires Inv(rank, s) && t < |s.ths| && u < |s.ths| && u != t
    requires Step(s, t, ch).ths[u] == s.ths[u] && ThreadOk(Step(s, t, ch), s.ths[u])
    requires Tables(Step(s, t, ch)) && |Step(s, t, ch).queues| == |s.queues|
    ensures Climbing(rank, Step(s, t, ch), s.ths[u])
  {
    hide Step, Climbs;
    var s', th := Step(s, t, ch), s.ths[u];
    ClimbMoves(s, t, ch);
    assert Climbing(rank, s, th);
    if (th.Entering? && th.i < |s.lists[th.x]|) || th.Cleaning? || th.Probing? {
      assert HoldsWaiter(s, th, th.x) && s.wOwner[th.x] == By(u);
      forall e | 0 <= e < |s'.queues| && th.x in s'.queues[e]
        ensures rank[e] < rank[s'.lists[th.x][th.i]]
      {
        QueueGrowth(s, t, ch, e, th.x);
        assert s.ths[t].Cleaning? ==> HoldsWaiter(s, s.ths[t], s.ths[t].x);
      }
    }
  }

  lemma StepKeeps(rank: seq<int>, s: State, t: nat, ch: Choice)
    requires Inv(rank, s) && t < |s.ths| && (ch.CallWaitMany? ==> Climbs(rank, ch.list))
    ensures Inv(rank, Step(s, t, ch))
  {
    hide Step, OwnersOk, Climbing, ThreadOk, Climbs;
    var s' := Step(s, t, ch);
    BaseKeeps(s, t, ch);
    ClimbMoves(s, t, ch);
    forall u | 0 <= u < |s'.ths|
      ensures Climbing(rank, s', s'.ths[u])
    {
      if u == t { ClimbHere(rank, s, t, ch); } else { ClimbElsewhere(rank, s, t, ch, u); }
    }
  }

  // ----- no deadlock

  predicate HoldsSomething(s: State, t: nat)
    requires Sized(s) && t < |s.ths|
  {
    || (exists e: nat :: e < |s.eOwner| && HoldsEvent(s, s.ths[t], e))
    || (exists x: nat :: x < |s.wOwner| && HoldsWaiter(s, s.ths[t], x))
  }

  /** A list of threads each of which waits for the next. */
  ghost predicate WaitChain(s: State, c: seq<nat>)
    requires Sized(s)
  {
    && (forall i :: 0 <= i < |c| ==> c[i] < |s.ths|)
    && (forall i :: 0 <= i < |c| - 1 ==> Blocked(s, c[i]) && Blocker(s, c[i]) == c[i + 1])
  }

  /** From a blocked thread the waits lead, up the ranking, to a thread that holds a mutex and is not blocked. */
  lemma {:induction false} Runner(rank: seq<int>, s: State, t: nat) returns (c: seq<nat>)
    requires Inv(rank, s) && t < |s.ths| && Blocked(s, t)
    ensures |c| >= 2 && WaitChain(s, c) && c[0] == t
    ensures !Blocked(s, c[|c| - 1]) && HoldsSomething(s, c[|c| - 1])
    decreases 2 * High(rank) + 1 - Height(rank, s, t)
  {
    WaitClimbs(rank, s, t);
    BlockerHolds(s, t);
    var u := Blocker(s, t);
    if Blocked(s, u) {
      HeightBound(rank, s, u);
      c := Runner(rank, s, u);
      c := [t] + c;
    } else {
      assert HoldsSomething(s, u);
      c := [t, u];
    }
  }

  lemma HeightBound(rank: seq<int>, s: State, t: nat)
    requires Inv(rank, s) && t < |s.ths| && Blocked(s, t)
    ensures Height(rank, s, t) <= 2 * High(rank) + 1
  {
  }

  /** A thread that holds a mutex and is not blocked takes a step, whatever the choice. */
  lemma RunnerMoves(s: State, u: nat, ch: Choice)
    requires Sized(s) && u < |s.ths| && !Blocked(s, u) && HoldsSomething(s, u)
    ensures Step(s, u, ch).ths[u] != s.ths[u]
  {
    assert !s.ths[u].Idle?;
  }

  /** A thread that holds a mutex, is not blocked, and has a next step whatever it decides. */
  ghost predicate CanGoOn(s: State, u: nat)
    requires Sized(s) && u < |s.ths|
  {
    !Blocked(s, u) && HoldsSomething(s, u) && forall ch :: Step(s, u, ch).ths[u] != s.ths[u]
  }

  /** The waits of thread t end at a thread that can go on. */
  ghost predicate WayOut(s: State, t: nat, c: seq<nat>)
    requires Sized(s)
  {
    |c| >= 2 && WaitChain(s, c) && c[0] == t && CanGoOn(s, c[|c| - 1])
  }

  /** Behind every blocked thread the chain of waits ends at a thread that holds a mutex and can take its next step. */
  ghost predicate DeadlockFree(s: State)
    requires Sized(s)
  {
    forall t :: 0 <= t < |s.ths| && Blocked(s, t) ==> exists c :: WayOut(s, t, c)
  }

  lemma InvIsFree(rank: seq<int>, s: State)
    requires Sized(s) && Inv(rank, s)
    ensures DeadlockFree(s)
  {
    hide Inv, Step, Blocked, HoldsSomething, WaitChain;
    forall t | 0 <= t < |s.ths| && Blocked(s, t)
      ensures exists c :: WayOut(s, t, c)
    {
      var c := Runner(rank, s, t);
      var u := c[|c| - 1];
      LastInRange(s, c);
      forall ch
        ensures Step(s, u, ch).ths[u] != s.ths[u]
      {
        RunnerMoves(s, u, ch);
      }
      assert WayOut(s, t, c);
    }
  }

  lemma LastInRange(s: State, c: seq<nat>)
    requires Sized(s) && WaitChain(s, c) && c != []
    ensures c[|c| - 1] < |s.ths|
  {
  }

  /** A set of threads in which everybody is blocked by somebody in the set. */
  ghost predicate Circular(s: State, d: set<nat>)
    requires Sized(s)
  {
    d != {} && forall t :: t in d ==> t < |s.ths| && Blocked(s, t) && Blocker(s, t) in d
  }

  lemma {:induction false} ChainStays(s: State, d: set<nat>, c: seq<nat>)
    requires Sized(s) && Circular(s, d) && WaitChain(s, c) && c != [] && c[0] in d
    ensures c[|c| - 1] in d
    decreases |c|
  {
    if |c| > 1 {
      var k := |c| - 1;
      assert forall i :: 0 <= i < k ==> c[..k][i] == c[i];
      ChainStays(s, d, c[..k]);
    }
  }

  /** No way leads out of a circle. */
  lemma CircleIsDeadlock(s: State, d: set<nat>)
    requires Sized(s) && Circular(s, d)
    ensures !DeadlockFree(s)
  {
    var t :| t in d;
    forall c
      ensures !WayOut(s, t, c)
    {
      if WayOut(s, t, c) { ChainStays(s, d, c); }
    }
  }

  /** Every WaitForMultipleEvents call of the run uses one of the lists. */
  ghost predicate From(lists: set<seq<nat>>, sched: Schedule) {
    forall i :: 0 <= i < |sched| && sched[i].1.CallWaitMany? ==> sched[i].1.list in lists
  }

  lemma {:induction false} RunKeeps(rank: seq<int>, lists: set<seq<nat>>, s: State, sched: Schedule, e: State)
    requires Inv(rank, s) && Ranks(rank, lists) && From(lists, sched) && Leads(s, sched, e)
    ensures Inv(rank, e)
    decreases |sched|
  {
    hide Step, OwnersOk, Climbing, ThreadOk, Climbs, Inv;
    if sched != [] {
      StepKeeps(rank, s, sched[0].0, sched[0].1);
      RunKeeps(rank, lists, Step(s, sched[0].0, sched[0].1), sched[1..], e);
    }
  }

  /** Events of the given kinds, calls on the given lists only, any number of threads, any schedule: no deadlock. */
  ghost predicate NeverDeadlocks(auto: seq<bool>, lists: set<seq<nat>>) {
    forall s: State, sched: Schedule, e: State ::
      Start(s) && s.auto == auto && From(lists, sched) && Leads(s, sched, e) ==> Base(e) && DeadlockFree(e)
  }

  /** If some ranking makes every list strictly increasing, no run deadlocks. */
  lemma RankedNeverDeadlocks(auto: seq<bool>, lists: set<seq<nat>>)
    requires Rankable(|auto|, lists)
    ensures NeverDeadlocks(auto, lists)
  {
    var rank: seq<int> :| |rank| == |auto| && Ranks(rank, lists);
    hide DeadlockFree, Ranks;
    forall s: State, sched: Schedule, e: State | Start(s) && s.auto == auto && From(lists, sched) && Leads(s, sched, e)
      ensures Base(e) && DeadlockFree(e)
    {
      RunKeeps(rank, lists, s, sched, e);
      assert Base(e);
      InvIsFree(rank, e);
    }
  }
}
