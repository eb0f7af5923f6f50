/** Why pevents.h does not deadlock: which mutexes its calls hold and want.

    `SetEvent` takes an event mutex and then waiter mutexes; `WaitForMultipleEvents` takes its waiter mutex and then
    event mutexes.  Here taking a mutex is a step of its own, and what the mutexes protect is reduced to the queues:
    whether an event is signalled, a waiter expired or a wait over is left to a free choice at each step. */
module LockOrder {

  datatype Owner = Free | By(thread: nat)

  /** Where a thread is.  x is the call's own waiter, i its position in the list, k and j positions in a queue. */
  datatype Thread =
    | Idle
    | WantEvent(e: nat, setter: bool) // about to lock the event: SetEvent, or ResetEvent and WaitForEvent
    | Setting(e: nat, k: nat)         // SetEvent with the event mutex, at its loop test
    | WantWaiter(e: nat, k: nat)      // about to lock the waiter of entry k
    | Serving(e: nat, k: nat)         // with both mutexes
    | Holding(e: nat)                 // ResetEvent or WaitForEvent with the event mutex
    | Sleeping(e: nat)                // condition wait of WaitForEvent, the mutex given up
    | Entering(x: nat, i: nat)        // WaitForMultipleEvents with its waiter mutex: about to lock event i, or past the list
    | Cleaning(x: nat, i: nat, j: nat)  // with the event mutex as well, about to try the waiter of entry j
    | Probing(x: nat, i: nat, j: nat)   // and with that waiter's mutex too
    | Parked(x: nat)                  // condition wait, the waiter mutex given up
    | WantBack(x: nat)                // woken, about to lock the waiter mutex again
    | Leaving(x: nat)                 // about to unlock the waiter mutex and return

  datatype State = State(
    auto: seq<bool>, queues: seq<seq<nat>>,   // per event: its kind, and the waiters registered
    eOwner: seq<Owner>, wOwner: seq<Owner>,   // who holds each event mutex and each waiter mutex
    lists: seq<seq<nat>>,                     // per waiter: the events of its call
    ths: seq<Thread>)

  /** `CallWaitEvent` is a blocking WaitForEvent or a ResetEvent; `CallTry` is WaitForEvent with a zero timeout. */
  datatype Choice = Yes | No | Register | CallSet(e: nat) | CallWaitEvent(e: nat) | CallTry(e: nat) | CallWaitMany(list: seq<nat>)

  // ----- what a thread holds and wants

  predicate ThreadOk(s: State, th: Thread) {
    match th
    case Idle => true
    case WantEvent(e, _) => e < |s.queues|
    case Setting(e, k) => e < |s.queues| && k <= |s.queues[e]|
    case WantWaiter(e, k) => e < |s.queues| && k < |s.queues[e]|
    case Serving(e, k) => e < |s.queues| && k < |s.queues[e]|
    case Holding(e) => e < |s.queues|
    case Sleeping(e) => e < |s.queues|
    case Entering(x, i) => x < |s.lists| && i <= |s.lists[x]|
    case Cleaning(x, i, j) =>
      x < |s.lists| && i < |s.lists[x]| && s.lists[x][i] < |s.queues| && j <= |s.queues[s.lists[x][i]]|
    case Probing(x, i, j) =>
      && x < |s.lists| && i < |s.lists[x]| && s.lists[x][i] < |s.queues|
      && j < |s.queues[s.lists[x][i]]| && s.queues[s.lists[x][i]][j] != x
    case Parked(x) => x < |s.lists|
    case WantBack(x) => x < |s.lists|
    case Leaving(x) => x < |s.lists|
  }

  predicate Tables(s: State) {
    && |s.auto| == |s.queues| == |s.eOwner| && |s.wOwner| == |s.lists|
    && (forall x :: 0 <= x < |s.lists| ==> forall i :: 0 <= i < |s.lists[x]| ==> s.lists[x][i] < |s.queues|)
    && (forall e :: 0 <= e < |s.queues| ==> forall j :: 0 <= j < |s.queues[e]| ==> s.queues[e][j] < |s.lists|)
  }

  predicate Sized(s: State) {
    Tables(s) && forall t :: 0 <= t < |s.ths| ==> ThreadOk(s, s.ths[t])
  }

  predicate HoldsEvent(s: State, th: Thread, e: nat)
    requires ThreadOk(s, th)
  {
    match th
    case Setting(f, _) => e == f
    case WantWaiter(f, _) => e == f
    case Serving(f, _) => e == f
    case Holding(f) => e == f
    case Cleaning(x, i, _) => e == s.lists[x][i]
    case Probing(x, i, _) => e == s.lists[x][i]
    case _ => false
  }

  predicate HoldsWaiter(s: State, th: Thread, x: nat)
    requires ThreadOk(s, th)
  {
    match th
    case Serving(e, k) => x == s.queues[e][k]
    case Entering(y, _) => x == y
    case Cleaning(y, _, _) => x == y
    case Probing(y, i, j) => x == y || x == s.queues[s.lists[y][i]][j]
    case Leaving(y) => x == y
    case _ => false
  }

  datatype Want = Nothing | Event(e: nat) | Waiter(x: nat)

  /** The mutex that the next statement locks and may have to wait for. */
  function Wants(s: State, th: Thread): (w: Want)
    requires Sized(s) && ThreadOk(s, th)
    ensures w.Event? ==> w.e < |s.eOwner|
    ensures w.Waiter? ==> w.x < |s.wOwner|
  {
    match th
    case WantEvent(e, _) => Event(e)
    case WantWaiter(e, k) => Waiter(s.queues[e][k])
    case Entering(x, i) => if i < |s.lists[x]| then Event(s.lists[x][i]) else Nothing
    case WantBack(x) => Waiter(x)
    case _ => Nothing
  }

  function OwnerOf(s: State, w: Want): Owner
    requires w.Event? ==> w.e < |s.eOwner|
    requires w.Waiter? ==> w.x < |s.wOwner|
  {
    match w
    case Nothing => Free
    case Event(e) => s.eOwner[e]
    case Waiter(x) => s.wOwner[x]
  }

  predicate Blocked(s: State, t: nat)
    requires Sized(s) && t < |s.ths|
  {
    OwnerOf(s, Wants(s, s.ths[t])).By?
  }

  // ----- steps

  function Goto(s: State, t: nat, th: Thread): State
    requires t < |s.ths|
  {
    s.(ths := s.ths[t := th])
  }

  function SetEventOwner(s: State, e: nat, o: Owner): State
    requires e < |s.eOwner|
  {
    s.(eOwner := s.eOwner[e := o])
  }

  function SetWaiterOwner(s: State, x: nat, o: Owner): State
    requires x < |s.wOwner|
  {
    s.(wOwner := s.wOwner[x := o])
  }

  predicate ListOk(s: State, list: seq<nat>) {
    forall i :: 0 <= i < |list| ==> list[i] < |s.queues|
  }

  function StartCall(s: State, t: nat, ch: Choice): State
    requires Sized(s) && t < |s.ths|
  {
    match ch
    case CallSet(e) => if e < |s.queues| then Goto(s, t, WantEvent(e, true)) else s
    case CallWaitEvent(e) => if e < |s.queues| then Goto(s, t, WantEvent(e, false)) else s
    case CallTry(e) => if e < |s.queues| && s.eOwner[e].Free?
        then Goto(SetEventOwner(s, e, By(t)), t, Holding(e)) else s
    case CallWaitMany(list) =>
      if ListOk(s, list) then
        Goto(s.(lists := s.lists + [list], wOwner := s.wOwner + [By(t)]), t, Entering(|s.lists|, 0))
      else s
    case _ => s
  }

  /** Thread t takes its next step; a thread that has to wait for a mutex stays where it is. */
  function Step(s: State, t: nat, ch: Choice): (s': State)
    requires Sized(s) && t < |s.ths|
    ensures |s'.ths| == |s.ths|
  {
    if Blocked(s, t) then s else
    match s.ths[t]
    case Idle => StartCall(s, t, ch)
    case WantEvent(e, setter) => Goto(SetEventOwner(s, e, By(t)), t, if setter then Setting(e, 0) else Holding(e))
    case Setting(e, k) =>
      if k < |s.queues[e]| then Goto(s, t, WantWaiter(e, k))
      else Goto(SetEventOwner(s.(queues := s.queues[e := []]), e, Free), t, Idle)
    case WantWaiter(e, k) => Goto(SetWaiterOwner(s, s.queues[e][k], By(t)), t, Serving(e, k))
    case Serving(e, k) =>
      var s1, q := SetWaiterOwner(s, s.queues[e][k], Free), s.queues[e];
      if !s.auto[e] then Goto(s1, t, Setting(e, k + 1))
      else
        var s2 := s1.(queues := s.queues[e := q[..k] + q[k + 1..]]);
        if ch.Yes? then Goto(SetEventOwner(s2, e, Free), t, Idle)   // the waiter was still waiting
        else Goto(s2, t, Setting(e, k))
    case Holding(e) => Goto(SetEventOwner(s, e, Free), t, if ch.Yes? then Sleeping(e) else Idle)
    case Sleeping(e) => Goto(s, t, WantEvent(e, false))
    case Entering(x, i) =>
      if i < |s.lists[x]| then Goto(SetEventOwner(s, s.lists[x][i], By(t)), t, Cleaning(x, i, 0))
      else if ch.Yes? then Goto(s, t, Leaving(x))
      else Goto(SetWaiterOwner(s, x, Free), t, Parked(x))
    case Cleaning(x, i, j) => CleanStep(s, t, ch)
    case Probing(x, i, j) =>
      var e := s.lists[x][i];
      var q := s.queues[e];
      var s1 := SetWaiterOwner(s, q[j], Free);
      if ch.Yes? then Goto(s1.(queues := s.queues[e := q[..j] + q[j + 1..]]), t, Cleaning(x, i, j))
      else Goto(s1, t, Cleaning(x, i, j + 1))
    case Parked(x) => Goto(s, t, WantBack(x))
    case WantBack(x) => Goto(SetWaiterOwner(s, x, By(t)), t, Entering(x, |s.lists[x]|))
    case Leaving(x) => Goto(SetWaiterOwner(s, x, Free), t, Idle)
  }

  /** The clean-up tries the next waiter mutex and skips it when it is taken; after the last entry the call takes the
      event or registers, and unlocks the event. */
  function CleanStep(s: State, t: nat, ch: Choice): (s': State)
    requires Sized(s) && t < |s.ths| && s.ths[t].Cleaning?
    ensures |s'.ths| == |s.ths|
  {
    var Cleaning(x, i, j) := s.ths[t];
    var e := s.lists[x][i];
    var q := s.queues[e];
    if j < |q| then
      if s.wOwner[q[j]].By? then Goto(s, t, Cleaning(x, i, j + 1))
      else Goto(SetWaiterOwner(s, q[j], By(t)), t, Probing(x, i, j))
    else
      var s1 := SetEventOwner(s, e, Free);
      match ch
      case Yes => Goto(s1, t, Entering(x, i + 1))      // wait-all, and the event was signalled
      case No => Goto(s1, t, Leaving(x))               // wait-any, and the event was signalled
      case _ => Goto(s1.(queues := s.queues[e := q + [x]]), t, Entering(x, i + 1))
  }

  // ----- the invariant

  ghost predicate OwnersOk(s: State)
    requires Sized(s)
  {
    && (forall e :: 0 <= e < |s.eOwner| && s.eOwner[e].By? ==> s.eOwner[e].thread < |s.ths|)
    && (forall x :: 0 <= x < |s.wOwner| && s.wOwner[x].By? ==> s.wOwner[x].thread < |s.ths|)
    && (forall e, t :: 0 <= e < |s.eOwner| && 0 <= t < |s.ths| ==> (s.eOwner[e] == By(t) <==> HoldsEvent(s, s.ths[t], e)))
    && (forall x, t :: 0 <= x < |s.wOwner| && 0 <= t < |s.ths| ==> (s.wOwner[x] == By(t) <==> HoldsWaiter(s, s.ths[t], x)))
  }

  /** Every mutex is owned by exactly the thread whose place in its call says so. */
  ghost predicate Base(s: State) {
    Sized(s) && OwnersOk(s)
  }

  ghost predicate Start(s: State) {
    && Sized(s) && s.lists == [] && (forall t :: 0 <= t < |s.ths| ==> s.ths[t] == Idle)
    && (forall e :: 0 <= e < |s.queues| ==> s.queues[e] == [] && s.eOwner[e] == Free)
  }

  // ----- every step keeps the invariant

  /** Thread t changes only owners that are free or itself, and only queues whose mutex it holds. */
  ghost predicate Frame(s: State, s': State, t: nat) {
    && t < |s.ths| == |s'.ths| && s'.ths == s.ths[t := s'.ths[t]] && s'.auto == s.auto && s.lists <= s'.lists
    && |s.queues| == |s.eOwner| == |s'.queues| == |s'.eOwner| && |s.wOwner| <= |s'.wOwner|
    && (forall e :: 0 <= e < |s.eOwner| ==>
          && (s'.eOwner[e] == s.eOwner[e] || (s.eOwner[e] in {Free, By(t)} && s'.eOwner[e] in {Free, By(t)}))
          && (s'.queues[e] == s.queues[e] || s.eOwner[e] == By(t)))
    && (forall x :: 0 <= x < |s'.wOwner| ==>
          if x < |s.wOwner| then s'.wOwner[x] == s.wOwner[x] || (s.wOwner[x] in {Free, By(t)} && s'.wOwner[x] in {Free, By(t)})
          else s'.wOwner[x] in {Free, By(t)})
  }

  ghost predicate OwnOk(s: State, t: nat)
    requires t < |s.ths|
  {
    && ThreadOk(s, s.ths[t])
    && (forall e :: 0 <= e < |s.eOwner| ==> (s.eOwner[e] == By(t) <==> HoldsEvent(s, s.ths[t], e)))
    && (forall x :: 0 <= x < |s.wOwner| ==> (s.wOwner[x] == By(t) <==> HoldsWaiter(s, s.ths[t], x)))
  }

  /** A queue position in the hands of another thread is protected by that thread's event mutex. */
  lemma OthersKeep(s: State, s': State, t: nat, u: nat)
    requires Base(s) && Frame(s, s', t) && u < |s.ths| && u != t && Tables(s')
    ensures OwnOk(s', u)
  {
    var th := s.ths[u];
    assert forall e :: 0 <= e < |s.eOwner| && HoldsEvent(s, th, e) ==> s'.queues[e] == s.queues[e];
    assert ThreadOk(s, th);
    assert ThreadOk(s', th);
  }

  lemma FrameKeeps(s: State, s': State, t: nat)
    requires Base(s) && Frame(s, s', t) && Tables(s') && OwnOk(s', t)
    ensures Base(s')
  {
    forall u | 0 <= u < |s'.ths|
      ensures OwnOk(s', u)
    {
      if u != t { OthersKeep(s, s', t, u); }
    }
    OwnersInRange(s, s', t);
    hide Sized, OwnersOk, OwnOk, Frame, Tables;
    Assemble(s');
  }

  lemma OwnersInRange(s: State, s': State, t: nat)
    requires Base(s) && Frame(s, s', t)
    ensures forall e :: 0 <= e < |s'.eOwner| && s'.eOwner[e].By? ==> s'.eOwner[e].thread < |s'.ths|
    ensures forall x :: 0 <= x < |s'.wOwner| && s'.wOwner[x].By? ==> s'.wOwner[x].thread < |s'.ths|
  {
    hide ThreadOk, HoldsEvent, HoldsWaiter;
  }

  lemma Assemble(s: State)
    requires Tables(s) && forall t :: 0 <= t < |s.ths| ==> OwnOk(s, t)
    requires forall e :: 0 <= e < |s.eOwner| && s.eOwner[e].By? ==> s.eOwner[e].thread < |s.ths|
    requires forall x :: 0 <= x < |s.wOwner| && s.wOwner[x].By? ==> s.wOwner[x].thread < |s.ths|
    ensures Base(s)
  {
    hide HoldsEvent, HoldsWaiter, ThreadOk;
    forall t | 0 <= t < |s.ths|
      ensures ThreadOk(s, s.ths[t])
    {
      assert OwnOk(s, t);
    }
    forall e, t | 0 <= e < |s.eOwner| && 0 <= t < |s.ths|
      ensures s.eOwner[e] == By(t) <==> HoldsEvent(s, s.ths[t], e)
    {
      assert OwnOk(s, t);
    }
    forall x, t | 0 <= x < |s.wOwner| && 0 <= t < |s.ths|
      ensures s.wOwner[x] == By(t) <==> HoldsWaiter(s, s.ths[t], x)
    {
      assert OwnOk(s, t);
    }
  }

  lemma StartKeeps(s: State, t: nat, ch: Choice)
    requires Base(s) && t < |s.ths| && s.ths[t].Idle?
    ensures var s' := Step(s, t, ch); Frame(s, s', t) && Tables(s') && OwnOk(s', t)
  {
  }

  lemma EventKeeps(s: State, t: nat, ch: Choice)
    requires Base(s) && t < |s.ths|
    requires var th := s.ths[t]; th.WantEvent? || th.Holding? || th.Sleeping?
    ensures var s' := Step(s, t, ch); Frame(s, s', t) && Tables(s') && OwnOk(s', t)
  {
  }

  lemma SettingKeeps(s: State, t: nat, ch: Choice)
    requires Base(s) && t < |s.ths|
    requires var th := s.ths[t]; th.Setting? || th.WantWaiter?
    ensures var s' := Step(s, t, ch); Frame(s, s', t) && Tables(s') && OwnOk(s', t)
  {
  }

  lemma ServingKeeps(s: State, t: nat, ch: Choice)
    requires Base(s) && t < |s.ths|
    requires var th := s.ths[t]; th.Serving?
    ensures var s' := Step(s, t, ch); Frame(s, s', t) && Tables(s') && OwnOk(s', t)
  {
  }

  lemma EnteringKeeps(s: State, t: nat, ch: Choice)
    requires Base(s) && t < |s.ths| && s.ths[t].Entering? && s.ths[t].i < |s.lists[s.ths[t].x]|
    ensures var s' := Step(s, t, ch); Frame(s, s', t) && Tables(s') && OwnOk(s', t)
  {
  }

  lemma PastListKeeps(s: State, t: nat, ch: Choice)
    requires Base(s) && t < |s.ths| && s.ths[t].Entering? && s.ths[t].i == |s.lists[s.ths[t].x]|
    ensures var s' := Step(s, t, ch); Frame(s, s', t) && Tables(s') && OwnOk(s', t)
  {
  }

  lemma ParkedKeeps(s: State, t: nat, ch: Choice)
    requires Base(s) && t < |s.ths|
    requires var th := s.ths[t]; th.Parked? || th.WantBack? || th.Leaving?
    ensures var s' := Step(s, t, ch); Frame(s, s', t) && Tables(s') && OwnOk(s', t)
  {
  }

  lemma CleanTryKeeps(s: State, t: nat, ch: Choice)
    requires Base(s) && t < |s.ths| && s.ths[t].Cleaning?
    requires s.ths[t].j < |s.queues[s.lists[s.ths[t].x][s.ths[t].i]]|
    ensures var s' := Step(s, t, ch); Frame(s, s', t) && Tables(s') && OwnOk(s', t)
  {
  }

  lemma CleanDoneKeeps(s: State, t: nat, ch: Choice)
    requires Base(s) && t < |s.ths| && s.ths[t].Cleaning?
    requires s.ths[t].j == |s.queues[s.lists[s.ths[t].x][s.ths[t].i]]|
    ensures var s' := Step(s, t, ch); Frame(s, s', t) && Tables(s') && OwnOk(s', t)
  {
  }

  lemma ProbingKeeps(s: State, t: nat, ch: Choice)
    requires Base(s) && t < |s.ths|
    requires var th := s.ths[t]; th.Probing?
    ensures var s' := Step(s, t, ch); Frame(s, s', t) && Tables(s') && OwnOk(s', t)
  {
  }

  lemma HereKeeps(s: State, t: nat, ch: Choice)
    requires Base(s) && t < |s.ths|
    ensures var s' := Step(s, t, ch); Frame(s, s', t) && Tables(s') && OwnOk(s', t)
  {
    assert ThreadOk(s, s.ths[t]);
    hide Step, OwnersOk, Frame, Tables, OwnOk;
    match s.ths[t]
    case Idle => StartKeeps(s, t, ch);
    case WantEvent(_, _) => EventKeeps(s, t, ch);
    case Holding(_) => EventKeeps(s, t, ch);
    case Sleeping(_) => EventKeeps(s, t, ch);
    case Setting(_, _) => SettingKeeps(s, t, ch);
    case WantWaiter(_, _) => SettingKeeps(s, t, ch);
    case Serving(_, _) => ServingKeeps(s, t, ch);
    case Cleaning(x, i, j) =>
      if j < |s.queues[s.lists[x][i]]| { CleanTryKeeps(s, t, ch); } else { CleanDoneKeeps(s, t, ch); }
    case Probing(_, _, _) => ProbingKeeps(s, t, ch);
    case Entering(x, i) => if i < |s.lists[x]| { EnteringKeeps(s, t, ch); } else { PastListKeeps(s, t, ch); }
    case _ => ParkedKeeps(s, t, ch);
  }

  lemma BaseKeeps(s: State, t: nat, ch: Choice)
    requires Base(s) && t < |s.ths|
    ensures Base(Step(s, t, ch)) && Frame(s, Step(s, t, ch), t)
  {
    hide Step, Frame, Tables, OwnOk;
    HereKeeps(s, t, ch);
    FrameKeeps(s, Step(s, t, ch), t);
  }

  // ----- runs

  type Schedule = seq<(nat, Choice)>

  /** The steps of a schedule, one after another. */
  ghost predicate Leads(s: State, sched: Schedule, e: State)
    decreases |sched|
  {
    if sched == [] then e == s
    else Sized(s) && sched[0].0 < |s.ths| && Leads(Step(s, sched[0].0, sched[0].1), sched[1..], e)
  }

  lemma {:induction false} LeadsOn(s: State, sched: Schedule, m: State, t: nat, ch: Choice)
    requires Base(s) && Leads(s, sched, m) && t < |m.ths|
    ensures Base(m) && Leads(s, sched + [(t, ch)], Step(m, t, ch))
    decreases |sched|
  {
    hide Step, OwnersOk, ThreadOk;
    var all := sched + [(t, ch)];
    if sched == [] {
      assert all[1..] == [] && Leads(Step(m, t, ch), [], Step(m, t, ch));
    } else {
      var s1 := Step(s, sched[0].0, sched[0].1);
      BaseKeeps(s, sched[0].0, sched[0].1);
      LeadsOn(s1, sched[1..], m, t, ch);
      assert all[1..] == sched[1..] + [(t, ch)];
    }
  }
}
