/** The two machines for pevents.h are views of one program: every run of `PEvents`, with its data, is followed step by
    step by a run of `LockOrder`, with its mutexes, in which the same calls hold the same mutexes.  So what is proved
    about deadlocks holds for the calls whose accounting is proved. */
module Mimic {
  import P = PEvents
  import A = Accounting
  import W = Waits
  import L = LockOrder
  import D = Deadlock

  // ----- what corresponds

  function WaitersOf(q: seq<P.Reg>): (r: seq<nat>)
    ensures |r| == |q| && forall j :: 0 <= j < |q| ==> r[j] == q[j].waiter
  {
    seq(|q|, j requires 0 <= j < |q| => q[j].waiter)
  }

  /** A SetEvent holds the event's mutex.  Once an auto-reset one has handed the event over, only its signal and unlock
      are left; `LockOrder` unlocks at once. */
  predicate SetHolds(ev: P.Event) {
    ev.lock.Setting? || (ev.lock.Signalling? && !ev.auto)
  }

  /** Which thread makes each call, and which sets each event. */
  datatype Cast = Cast(caller: seq<nat>, setter: seq<nat>)

  function EventOwner(p: P.State, c: Cast, e: nat): L.Owner
    requires e < |p.evs| == |c.setter| && |p.ws| == |c.caller|
  {
    var ev := p.evs[e];
    if ev.lock.Visited? && ev.lock.waiter < |p.ws| then L.By(c.caller[ev.lock.waiter])
    else if SetHolds(ev) then L.By(c.setter[e]) else L.Free
  }

  function WaiterOwner(p: P.State, c: Cast, w: nat): L.Owner
    requires w < |p.ws| == |c.caller|
  {
    if P.MutexHeld(p.ws[w]) then L.By(c.caller[w]) else L.Free
  }

  /** Where the thread of call w is; `Over` leaves it idle. */
  function PlaceOf(p: P.State, w: nat): L.Thread
    requires w < |p.ws|
  {
    match p.ws[w].phase
    case Registering(i) =>
      if i < |p.ws[w].events| && p.ws[w].events[i] < |p.evs| && P.VisitedBy(p.evs[p.ws[w].events[i]], w) then
        L.Cleaning(w, i, p.evs[p.ws[w].events[i]].lock.seen)
      else L.Entering(w, i)
    case Taken => L.Leaving(w)
    case Waiting => L.Parked(w)
    case Over => L.Idle
  }

  /** The lists, the kinds, the queues and the owners are the same. */
  ghost predicate SameTables(p: P.State, l: L.State, c: Cast) {
    && |p.evs| == |l.queues| == |l.auto| == |l.eOwner| == |c.setter|
    && |p.ws| == |l.lists| == |l.wOwner| == |c.caller|
    && (forall e :: 0 <= e < |p.evs| ==>
          l.auto[e] == p.evs[e].auto && l.queues[e] == WaitersOf(p.evs[e].queue) && l.eOwner[e] == EventOwner(p, c, e))
    && (forall w :: 0 <= w < |p.ws| ==> l.lists[w] == p.ws[w].events && l.wOwner[w] == WaiterOwner(p, c, w))
  }

  /** Threads from `used` on have not done anything yet; every other call has its own thread. */
  ghost predicate SamePlaces(p: P.State, l: L.State, c: Cast, used: nat)
    requires |p.evs| == |c.setter| && |p.ws| == |c.caller|
  {
    && (forall t :: used <= t < |l.ths| ==> l.ths[t] == L.Idle)
    && (forall w :: 0 <= w < |p.ws| ==> c.caller[w] < used && c.caller[w] < |l.ths| && l.ths[c.caller[w]] == PlaceOf(p, w))
    && (forall v, w :: 0 <= v < w < |p.ws| ==> c.caller[v] != c.caller[w])
    && (forall e :: 0 <= e < |p.evs| && SetHolds(p.evs[e]) ==>
          && c.setter[e] < used && c.setter[e] < |l.ths| && l.ths[c.setter[e]] == L.Setting(e, p.evs[e].lock.done)
          && (forall w :: 0 <= w < |p.ws| ==> c.caller[w] != c.setter[e])
          && (forall f :: 0 <= f < |p.evs| && f != e && SetHolds(p.evs[f]) ==> c.setter[f] != c.setter[e]))
  }

  ghost predicate Follows(p: P.State, l: L.State, c: Cast, used: nat) {
    L.Base(l) && SameTables(p, l, c) && SamePlaces(p, l, c, used)
  }

  // ----- runs of the lock machine

  /** A run from l0 whose calls use these lists leads to l. */
  ghost predicate Reaches(l0: L.State, lists: set<seq<nat>>, l: L.State) {
    exists sched: L.Schedule :: D.From(lists, sched) && L.Leads(l0, sched, l)
  }

  lemma ReachOn(l0: L.State, lists: set<seq<nat>>, l: L.State, t: nat, ch: L.Choice)
    requires L.Base(l0) && Reaches(l0, lists, l) && t < |l.ths| && (ch.CallWaitMany? ==> ch.list in lists)
    ensures L.Base(l) && L.Base(L.Step(l, t, ch)) && Reaches(l0, lists, L.Step(l, t, ch))
  {
    hide L.Step;
    var sched: L.Schedule :| D.From(lists, sched) && L.Leads(l0, sched, l);
    L.LeadsOn(l0, sched, l, t, ch);
    L.BaseKeeps(l, t, ch);
    assert D.From(lists, sched + [(t, ch)]);
  }

  // ----- keeping the two in step

  /** One event and the waiters change on both sides. */
  lemma TablesFit(p: P.State, l: L.State, c: Cast, p': P.State, l': L.State, e: nat)
    requires SameTables(p, l, c) && e < |p.evs| && |p'.evs| == |p.evs| && |p'.ws| == |p.ws|
    requires p'.evs == p.evs[e := p'.evs[e]] && p'.evs[e].auto == p.evs[e].auto
    requires forall w :: 0 <= w < |p.ws| ==> p'.ws[w].events == p.ws[w].events
    requires l'.auto == l.auto && l'.lists == l.lists && |l'.wOwner| == |l.wOwner|
    requires l'.queues == l.queues[e := WaitersOf(p'.evs[e].queue)]
    requires l'.eOwner == l.eOwner[e := EventOwner(p', c, e)]
    requires forall w :: 0 <= w < |p.ws| ==> l'.wOwner[w] == WaiterOwner(p', c, w)
    ensures SameTables(p', l', c)
  {
    hide P.MutexHeld;
  }

  /** A step of call u, at an event that nobody else is using. */
  lemma CallFits(p: P.State, l: L.State, c: Cast, used: nat, p': P.State, l': L.State, u: nat, e: nat)
    requires SameTables(p, l, c) && SamePlaces(p, l, c, used) && u < |p.ws| && e < |p.evs|
    requires |p'.evs| == |p.evs| && |p'.ws| == |p.ws| && p'.evs == p.evs[e := p'.evs[e]]
    requires !P.InSet(p.evs[e].lock) && !P.InSet(p'.evs[e].lock)
    requires forall v :: 0 <= v < |p.ws| && v != u ==> !P.VisitedBy(p.evs[e], v) && !P.VisitedBy(p'.evs[e], v)
    requires forall v :: 0 <= v < |p.ws| ==>
               p'.ws[v].events == p.ws[v].events && (v != u ==> p'.ws[v].phase == p.ws[v].phase)
    requires l'.ths == l.ths[c.caller[u] := PlaceOf(p', u)]
    ensures SamePlaces(p', l', c, used)
  {
    forall v | 0 <= v < |p.ws|
      ensures l'.ths[c.caller[v]] == PlaceOf(p', v)
    {
      if v != u { assert PlaceOf(p', v) == PlaceOf(p, v); }
    }
  }

  /** A step of call u that touches no event. */
  lemma WaitFits(p: P.State, l: L.State, c: Cast, used: nat, p': P.State, l': L.State, u: nat)
    requires SameTables(p, l, c) && SamePlaces(p, l, c, used) && u < |p.ws| && p'.evs == p.evs && |p'.ws| == |p.ws|
    requires forall v :: 0 <= v < |p.ws| ==>
               p'.ws[v].events == p.ws[v].events && (v != u ==> p'.ws[v] == p.ws[v])
    requires l'.auto == l.auto && l'.lists == l.lists && l'.queues == l.queues && l'.eOwner == l.eOwner
    requires l'.wOwner == l.wOwner[u := WaiterOwner(p', c, u)]
    requires l'.ths == l.ths[c.caller[u] := PlaceOf(p', u)]
    ensures SameTables(p', l', c) && SamePlaces(p', l', c, used)
  {
    hide P.MutexHeld;
    forall v | 0 <= v < |p.ws|
      ensures l'.ths[c.caller[v]] == PlaceOf(p', v)
    {
      if v != u { assert PlaceOf(p', v) == PlaceOf(p, v); }
    }
  }

  /** A step of the SetEvent of event e. */
  lemma SetFits(p: P.State, l: L.State, c: Cast, used: nat, p': P.State, l': L.State, e: nat, th: L.Thread)
    requires SameTables(p, l, c) && SamePlaces(p, l, c, used) && e < |p.evs|
    requires |p'.evs| == |p.evs| && |p'.ws| == |p.ws| && p'.evs == p.evs[e := p'.evs[e]]
    requires SetHolds(p.evs[e]) && !p'.evs[e].lock.Visited?
    requires forall v :: 0 <= v < |p.ws| ==>
               p'.ws[v].events == p.ws[v].events && p'.ws[v].phase == p.ws[v].phase
    requires l'.ths == l.ths[c.setter[e] := th]
    requires SetHolds(p'.evs[e]) ==> th == L.Setting(e, p'.evs[e].lock.done)
    ensures SamePlaces(p', l', c, used)
  {
    forall v | 0 <= v < |p.ws|
      ensures l'.ths[c.caller[v]] == PlaceOf(p', v)
    {
      assert PlaceOf(p', v) == PlaceOf(p, v);
    }
  }

  // ----- what one thread of the lock machine does in one or a few steps

  lemma Enters(l0: L.State, lists: set<seq<nat>>, l: L.State, t: nat, list: seq<nat>) returns (l': L.State)
    requires L.Base(l0) && Reaches(l0, lists, l) && L.Base(l) && t < |l.ths|
    requires l.ths[t].Idle? && L.ListOk(l, list) && list in lists
    ensures L.Base(l') && Reaches(l0, lists, l')
    ensures l' == l.(lists := l.lists + [list], wOwner := l.wOwner + [L.By(t)],
                     ths := l.ths[t := L.Entering(|l.lists|, 0)])
  {
    hide L.OwnersOk, L.Tables, Reaches;
    ReachOn(l0, lists, l, t, L.CallWaitMany(list));
    l' := L.Step(l, t, L.CallWaitMany(list));
  }

  lemma LocksNext(l0: L.State, lists: set<seq<nat>>, l: L.State, t: nat, x: nat, i: nat) returns (l': L.State)
    requires L.Base(l0) && Reaches(l0, lists, l) && L.Base(l) && t < |l.ths|
    requires l.ths[t] == L.Entering(x, i) && x < |l.lists| && i < |l.lists[x]|
    requires l.lists[x][i] < |l.eOwner| && l.eOwner[l.lists[x][i]].Free?
    ensures L.Base(l') && Reaches(l0, lists, l')
    ensures l' == l.(eOwner := l.eOwner[l.lists[x][i] := L.By(t)], ths := l.ths[t := L.Cleaning(x, i, 0)])
  {
    hide L.OwnersOk, L.Tables, Reaches;
    ReachOn(l0, lists, l, t, L.Yes);
    l' := L.Step(l, t, L.Yes);
  }

  /** The clean-up leaves an entry: its waiter's mutex is taken, or it is tried and given back. */
  lemma Passes(l0: L.State, lists: set<seq<nat>>, l: L.State, t: nat, x: nat, i: nat, j: nat, e: nat)
    returns (l': L.State)
    requires L.Base(l0) && Reaches(l0, lists, l) && L.Base(l) && t < |l.ths|
    requires l.ths[t] == L.Cleaning(x, i, j) && x < |l.lists| && i < |l.lists[x]| && l.lists[x][i] == e < |l.queues|
    requires j < |l.queues[e]| && l.queues[e][j] < |l.wOwner|
    ensures L.Base(l') && Reaches(l0, lists, l')
    ensures l' == l.(ths := l.ths[t := L.Cleaning(x, i, j + 1)])
  {
    hide L.OwnersOk, L.Tables, Reaches;
    ReachOn(l0, lists, l, t, L.No);
    l' := L.Step(l, t, L.No);
    if l.wOwner[l.queues[e][j]].Free? {
      var l1 := l';
      assert l1.ths[t] == L.Probing(x, i, j) && l1.wOwner == l.wOwner[l.queues[e][j] := L.By(t)];
      ReachOn(l0, lists, l1, t, L.No);
      l' := L.Step(l1, t, L.No);
      assert l'.wOwner == l.wOwner;
    }
  }

  /** It drops one. */
  lemma Drops(l0: L.State, lists: set<seq<nat>>, l: L.State, t: nat, x: nat, i: nat, j: nat, e: nat)
    returns (l': L.State)
    requires L.Base(l0) && Reaches(l0, lists, l) && L.Base(l) && t < |l.ths|
    requires l.ths[t] == L.Cleaning(x, i, j) && x < |l.lists| && i < |l.lists[x]| && l.lists[x][i] == e < |l.queues|
    requires j < |l.queues[e]| && l.queues[e][j] < |l.wOwner| && l.wOwner[l.queues[e][j]].Free?
    ensures L.Base(l') && Reaches(l0, lists, l')
    ensures l' == l.(queues := l.queues[e := l.queues[e][..j] + l.queues[e][j + 1..]])
  {
    hide L.OwnersOk, L.Tables, Reaches;
    ReachOn(l0, lists, l, t, L.No);
    var l1 := L.Step(l, t, L.No);
    assert l1.ths[t] == L.Probing(x, i, j) && l1.wOwner == l.wOwner[l.queues[e][j] := L.By(t)];
    ReachOn(l0, lists, l1, t, L.Yes);
    l' := L.Step(l1, t, L.Yes);
    assert l'.wOwner == l.wOwner && l'.ths == l.ths;
  }

  /** It takes the event, wait-all (`Yes`) or wait-any (`No`), or joins the queue, and unlocks the event. */
  lemma Joins(l0: L.State, lists: set<seq<nat>>, l: L.State, t: nat, x: nat, i: nat, e: nat, ch: L.Choice)
    returns (l': L.State)
    requires L.Base(l0) && Reaches(l0, lists, l) && L.Base(l) && t < |l.ths|
    requires e < |l.queues| == |l.eOwner| && !ch.CallWaitMany?
    requires l.ths[t] == L.Cleaning(x, i, |l.queues[e]|)
    requires x < |l.lists| && i < |l.lists[x]| && l.lists[x][i] == e < |l.queues|
    ensures L.Base(l') && Reaches(l0, lists, l')
    ensures l' == l.(eOwner := l.eOwner[e := L.Free],
                     queues := if ch.Yes? || ch.No? then l.queues else l.queues[e := l.queues[e] + [x]],
                     ths := l.ths[t := if ch.No? then L.Leaving(x) else L.Entering(x, i + 1)])
  {
    hide L.OwnersOk, L.Tables, Reaches;
    ReachOn(l0, lists, l, t, ch);
    l' := L.Step(l, t, ch);
  }

  lemma Parks(l0: L.State, lists: set<seq<nat>>, l: L.State, t: nat, x: nat) returns (l': L.State)
    requires L.Base(l0) && Reaches(l0, lists, l) && L.Base(l) && t < |l.ths|
    requires x < |l.lists| == |l.wOwner| && l.ths[t] == L.Entering(x, |l.lists[x]|)
    ensures L.Base(l') && Reaches(l0, lists, l')
    ensures l' == l.(wOwner := l.wOwner[x := L.Free], ths := l.ths[t := L.Parked(x)])
  {
    hide L.OwnersOk, L.Tables, Reaches;
    ReachOn(l0, lists, l, t, L.No);
    l' := L.Step(l, t, L.No);
  }

  lemma Returns(l0: L.State, lists: set<seq<nat>>, l: L.State, t: nat, x: nat) returns (l': L.State)
    requires L.Base(l0) && Reaches(l0, lists, l) && L.Base(l) && t < |l.ths|
    requires x < |l.lists| == |l.wOwner| && l.ths[t] == L.Leaving(x)
    ensures L.Base(l') && Reaches(l0, lists, l')
    ensures l' == l.(wOwner := l.wOwner[x := L.Free], ths := l.ths[t := L.Idle])
  {
    hide L.OwnersOk, L.Tables, Reaches;
    ReachOn(l0, lists, l, t, L.Yes);
    l' := L.Step(l, t, L.Yes);
  }

  lemma Leaves(l0: L.State, lists: set<seq<nat>>, l: L.State, t: nat, x: nat) returns (l': L.State)
    requires L.Base(l0) && Reaches(l0, lists, l) && L.Base(l) && t < |l.ths|
    requires x < |l.lists| == |l.wOwner| && l.ths[t] == L.Entering(x, |l.lists[x]|)
    ensures L.Base(l') && Reaches(l0, lists, l')
    ensures l' == l.(wOwner := l.wOwner[x := L.Free], ths := l.ths[t := L.Idle])
  {
    hide L.OwnersOk, L.Tables, Reaches;
    ReachOn(l0, lists, l, t, L.Yes);
    var l1 := L.Step(l, t, L.Yes);
    assert l1 == l.(ths := l.ths[t := L.Leaving(x)]);
    l' := Returns(l0, lists, l1, t, x);
    hide L.Step;
  }

  lemma Wakes(l0: L.State, lists: set<seq<nat>>, l: L.State, t: nat, x: nat) returns (l': L.State)
    requires L.Base(l0) && Reaches(l0, lists, l) && L.Base(l) && t < |l.ths|
    requires x < |l.lists| == |l.wOwner| && l.ths[t] == L.Parked(x) && l.wOwner[x].Free?
    ensures L.Base(l') && Reaches(l0, lists, l')
    ensures l' == l.(wOwner := l.wOwner[x := L.By(t)], ths := l.ths[t := L.Entering(x, |l.lists[x]|)])
  {
    hide L.OwnersOk, L.Tables, Reaches;
    ReachOn(l0, lists, l, t, L.Yes);
    var l1 := L.Step(l, t, L.Yes);
    assert l1 == l.(ths := l.ths[t := L.WantBack(x)]);
    ReachOn(l0, lists, l1, t, L.Yes);
    l' := L.Step(l1, t, L.Yes);
  }

  lemma LocksEvent(l0: L.State, lists: set<seq<nat>>, l: L.State, t: nat, e: nat, setter: bool) returns (l': L.State)
    requires L.Base(l0) && Reaches(l0, lists, l) && L.Base(l) && t < |l.ths|
    requires l.ths[t].Idle? && e < |l.queues| == |l.eOwner| && l.eOwner[e].Free?
    ensures L.Base(l') && Reaches(l0, lists, l')
    ensures l' == l.(eOwner := l.eOwner[e := L.By(t)], ths := l.ths[t := if setter then L.Setting(e, 0) else L.Holding(e)])
  {
    hide L.OwnersOk, L.Tables, Reaches;
    var ch := if setter then L.CallSet(e) else L.CallWaitEvent(e);
    ReachOn(l0, lists, l, t, ch);
    var l1 := L.Step(l, t, ch);
    assert l1 == l.(ths := l.ths[t := L.WantEvent(e, setter)]);
    ReachOn(l0, lists, l1, t, L.Yes);
    l' := L.Step(l1, t, L.Yes);
  }

  /** ResetEvent, or WaitForEvent on a signalled event: the mutex is taken and given back. */
  lemma TakesOrResets(l0: L.State, lists: set<seq<nat>>, l: L.State, t: nat, e: nat) returns (l': L.State)
    requires L.Base(l0) && Reaches(l0, lists, l) && L.Base(l) && t < |l.ths|
    requires l.ths[t].Idle? && e < |l.queues| == |l.eOwner| && l.eOwner[e].Free?
    ensures L.Base(l') && Reaches(l0, lists, l')
    ensures l' == l
  {
    hide L.OwnersOk, L.Tables, Reaches;
    var l1 := LocksEvent(l0, lists, l, t, e, false);
    ReachOn(l0, lists, l1, t, L.No);
    l' := L.Step(l1, t, L.No);
    assert l'.eOwner == l.eOwner && l'.ths == l.ths;
  }

  /** A round of SetEvent, on a waiter that still waits (`Yes`) or not. */
  lemma Serves(l0: L.State, lists: set<seq<nat>>, l: L.State, t: nat, e: nat, k: nat, ch: L.Choice)
    returns (l': L.State)
    requires L.Base(l0) && Reaches(l0, lists, l) && L.Base(l) && t < |l.ths|
    requires l.ths[t] == L.Setting(e, k) && e < |l.queues| == |l.eOwner| == |l.auto| && k < |l.queues[e]|
    requires l.queues[e][k] < |l.wOwner| && l.wOwner[l.queues[e][k]].Free? && (ch.Yes? || ch.No?)
    ensures L.Base(l') && Reaches(l0, lists, l')
    ensures var q := l.queues[e];
      l' == if !l.auto[e] then l.(ths := l.ths[t := L.Setting(e, k + 1)])
            else if ch.Yes? then
              l.(queues := l.queues[e := q[..k] + q[k + 1..]], eOwner := l.eOwner[e := L.Free], ths := l.ths[t := L.Idle])
            else l.(queues := l.queues[e := q[..k] + q[k + 1..]])
  {
    hide L.OwnersOk, L.Tables, Reaches;
    ReachOn(l0, lists, l, t, L.Yes);
    var l1 := L.Step(l, t, L.Yes);
    assert l1 == l.(ths := l.ths[t := L.WantWaiter(e, k)]);
    ReachOn(l0, lists, l1, t, L.Yes);
    var l2 := L.Step(l1, t, L.Yes);
    assert l2 == l.(ths := l.ths[t := L.Serving(e, k)], wOwner := l.wOwner[l.queues[e][k] := L.By(t)]);
    ReachOn(l0, lists, l2, t, ch);
    l' := L.Step(l2, t, ch);
    assert l'.wOwner == l.wOwner;
    assert l.auto[e] && ch.No? ==> l'.ths == l.ths;
  }

  lemma EndsSet(l0: L.State, lists: set<seq<nat>>, l: L.State, t: nat, e: nat) returns (l': L.State)
    requires L.Base(l0) && Reaches(l0, lists, l) && L.Base(l) && t < |l.ths|
    requires e < |l.queues| == |l.eOwner| && l.ths[t] == L.Setting(e, |l.queues[e]|)
    ensures L.Base(l') && Reaches(l0, lists, l')
    ensures l' == l.(queues := l.queues[e := []], eOwner := l.eOwner[e := L.Free], ths := l.ths[t := L.Idle])
  {
    hide L.OwnersOk, L.Tables, Reaches;
    ReachOn(l0, lists, l, t, L.Yes);
    l' := L.Step(l, t, L.Yes);
  }

  // ----- one action at a time

  lemma WaitersDrop(q: seq<P.Reg>, j: nat)
    requires j < |q|
    ensures WaitersOf(q[..j] + q[j + 1..]) == WaitersOf(q)[..j] + WaitersOf(q)[j + 1..]
  {
  }

  lemma EventInRange(p: P.State, e: nat)
    requires P.Inv(p) && e < |p.evs|
    ensures |p.tally| == |p.evs| && P.EventOk(p.ws, e, p.evs[e])
    ensures forall j :: 0 <= j < |p.evs[e].queue| ==> p.evs[e].queue[j].waiter < |p.ws|
  {
    hide P.WaiterOk, P.Regs;
    assert P.EventOk(p.ws, e, p.evs[e]);
    forall j | 0 <= j < |p.evs[e].queue|
      ensures p.evs[e].queue[j].waiter < |p.ws|
    {
      assert P.EntryOk(p.ws, e, p.evs[e].queue[j]);
    }
  }

  ghost predicate InStep(p: P.State, l: L.State, c: Cast, used: nat, l0: L.State, lists: set<seq<nat>>) {
    P.Inv(p) && |p.tally| == |p.evs| && Follows(p, l, c, used) && L.Base(l0) && Reaches(l0, lists, l)
  }

  lemma MimicVisit(p: P.State, l: L.State, c: Cast, used: nat, l0: L.State, lists: set<seq<nat>>, w: nat)
    returns (l': L.State)
    requires InStep(p, l, c, used, l0, lists) && P.Enabled(p, P.Visit(w))
    ensures L.Base(l') && Reaches(l0, lists, l') && Follows(P.Step(p, P.Visit(w)), l', c, used)
  {
    hide P.Inv, L.Base, L.Step, Reaches, P.WaiterOk, P.Regs, P.MutexHeld;
    var p', i := P.Step(p, P.Visit(w)), p.ws[w].phase.next;
    var e := p.ws[w].events[i];
    l' := LocksNext(l0, lists, l, c.caller[w], w, i);
    assert l'.queues == l.queues[e := l.queues[e]];
    TablesFit(p, l, c, p', l', e);
    CallFits(p, l, c, used, p', l', w, e);
  }

  /** Both machines pass an entry. */
  lemma PassFits(p: P.State, l: L.State, c: Cast, used: nat, p': P.State, l': L.State, e: nat, v: nat)
    requires SameTables(p, l, c) && SamePlaces(p, l, c, used) && e < |p.evs| && v < |p.ws| && P.VisitedBy(p.evs[e], v)
    requires p.ws[v].phase.Registering? && p.ws[v].phase.next < |p.ws[v].events| && p.ws[v].events[p.ws[v].phase.next] == e
    requires p'.ws == p.ws && p'.evs == p.evs[e := p.evs[e].(lock := P.Visited(v, p.evs[e].lock.seen + 1))]
    requires l' == l.(ths := l.ths[c.caller[v] := L.Cleaning(v, p.ws[v].phase.next, p.evs[e].lock.seen + 1)])
    ensures SameTables(p', l', c) && SamePlaces(p', l', c, used)
  {
    hide P.MutexHeld;
    assert l'.queues == l.queues[e := l.queues[e]] && l'.eOwner == l.eOwner[e := l.eOwner[e]];
    TablesFit(p, l, c, p', l', e);
    CallFits(p, l, c, used, p', l', v, e);
  }

  lemma MimicBusy(p: P.State, l: L.State, c: Cast, used: nat, l0: L.State, lists: set<seq<nat>>, e: nat)
    returns (l': L.State)
    requires InStep(p, l, c, used, l0, lists) && P.Enabled(p, P.Busy(e))
    ensures L.Base(l') && Reaches(l0, lists, l') && Follows(P.Step(p, P.Busy(e)), l', c, used)
  {
    hide P.Inv, L.Base, L.Step, Reaches, P.WaiterOk, P.Regs, P.MutexHeld;
    EventInRange(p, e);
    var ev, v := p.evs[e], p.evs[e].lock.waiter;
    var i, j := p.ws[v].phase.next, ev.lock.seen;
    assert PlaceOf(p, v) == L.Cleaning(v, i, j);
    l' := Passes(l0, lists, l, c.caller[v], v, i, j, e);
    PassFits(p, l, c, used, P.Step(p, P.Busy(e)), l', e, v);
  }

  lemma MimicClean(p: P.State, l: L.State, c: Cast, used: nat, l0: L.State, lists: set<seq<nat>>, e: nat)
    returns (l': L.State)
    requires InStep(p, l, c, used, l0, lists) && P.Enabled(p, P.Clean(e))
    ensures L.Base(l') && Reaches(l0, lists, l') && Follows(P.Step(p, P.Clean(e)), l', c, used)
  {
    hide P.Inv, L.Base, L.Step, Reaches, P.WaiterOk, P.Regs, P.MutexHeld;
    EventInRange(p, e);
    var ev, v := p.evs[e], p.evs[e].lock.waiter;
    var i, j := p.ws[v].phase.next, ev.lock.seen;
    assert PlaceOf(p, v) == L.Cleaning(v, i, j);
    var p', y := P.Step(p, P.Clean(e)), ev.queue[j].waiter;
    if P.Drops(p, e) {
      l' := Drops(l0, lists, l, c.caller[v], v, i, j, e);
      WaitersDrop(ev.queue, j);
      assert l'.eOwner == l.eOwner[e := l.eOwner[e]] && l'.ths == l.ths[c.caller[v] := l.ths[c.caller[v]]];
      HeldSame(p.ws[y], p'.ws[y]);
      TablesFit(p, l, c, p', l', e);
      CallFits(p, l, c, used, p', l', v, e);
    } else {
      l' := Passes(l0, lists, l, c.caller[v], v, i, j, e);
      PassFits(p, l, c, used, p', l', e, v);
    }
  }

  lemma HeldSame(x: P.Waiter, y: P.Waiter)
    requires x.phase == y.phase
    ensures P.MutexHeld(x) == P.MutexHeld(y)
  {
  }

  lemma PlaceAfterRegister(p: P.State, w: nat)
    requires P.Inv(p) && |p.tally| == |p.evs| && P.Enabled(p, P.Register(w))
    ensures var p', i := P.Step(p, P.Register(w)), p.ws[w].phase.next; var e := p.ws[w].events[i];
      && w < |p'.ws| && e < |p'.evs| == |p.evs| && p'.evs == p.evs[e := p'.evs[e]] && p'.evs[e].lock == P.Open
      && PlaceOf(p', w) == if p.evs[e].state && !p.ws[w].all then L.Leaving(w) else L.Entering(w, i + 1)
  {
    hide P.Inv, P.Step, P.WaiterOk, P.Regs, P.EventOk;
    A.RegisterEffect(p, w);
    A.RegisterEvent(p, w);
  }

  lemma AtRegister(p: P.State, l: L.State, c: Cast, used: nat, w: nat)
    requires P.Inv(p) && |p.tally| == |p.evs| && Follows(p, l, c, used) && P.Enabled(p, P.Register(w))
    ensures var i := p.ws[w].phase.next; var e := p.ws[w].events[i];
      && w < |c.caller| && c.caller[w] < |l.ths| && l.ths[c.caller[w]] == L.Cleaning(w, i, |p.evs[e].queue|)
      && w < |l.lists| && i < |l.lists[w]| && l.lists[w][i] == e < |l.queues| == |l.eOwner|
      && |l.queues[e]| == |p.evs[e].queue|
  {
    hide P.Inv, L.Base, P.MutexHeld;
  }

  lemma RegisterFits(p: P.State, l: L.State, c: Cast, used: nat, p': P.State, l': L.State, w: nat)
    requires P.Inv(p) && |p.tally| == |p.evs| && P.Enabled(p, P.Register(w)) && p' == P.Step(p, P.Register(w))
    requires SameTables(p, l, c) && SamePlaces(p, l, c, used)
    requires var i := p.ws[w].phase.next; var e := p.ws[w].events[i]; var on := p.evs[e].state;
      l' == l.(eOwner := l.eOwner[e := L.Free], queues := if on then l.queues else l.queues[e := l.queues[e] + [w]],
               ths := l.ths[c.caller[w] := if on && !p.ws[w].all then L.Leaving(w) else L.Entering(w, i + 1)])
    ensures SameTables(p', l', c) && SamePlaces(p', l', c, used)
  {
    hide P.Inv, P.WaiterOk, P.Regs, P.EventOk, P.MutexHeld, P.Step;
    var x := p.ws[w];
    var e := x.events[x.phase.next];
    A.RegisterEffect(p, w);
    PlaceAfterRegister(p, w);
    hide PlaceOf;
    assert !p.evs[e].state ==> WaitersOf(p'.evs[e].queue) == WaitersOf(p.evs[e].queue) + [w];
    assert p.evs[e].state ==> l'.queues == l.queues[e := l.queues[e]];
    BothHeld(x, p'.ws[w]);
    TablesFit(p, l, c, p', l', e);
    CallFits(p, l, c, used, p', l', w, e);
  }

  lemma MimicRegister(p: P.State, l: L.State, c: Cast, used: nat, l0: L.State, lists: set<seq<nat>>, w: nat)
    returns (l': L.State)
    requires InStep(p, l, c, used, l0, lists) && P.Enabled(p, P.Register(w))
    ensures L.Base(l') && Reaches(l0, lists, l') && Follows(P.Step(p, P.Register(w)), l', c, used)
  {
    hide P.Inv, L.Base, L.Step, Reaches, P.WaiterOk, P.Regs, P.MutexHeld, PlaceOf, SetHolds;
    var i := p.ws[w].phase.next;
    var e := p.ws[w].events[i];
    AtRegister(p, l, c, used, w);
    l' := Joins(l0, lists, l, c.caller[w], w, i, e,
                if !p.evs[e].state then L.Register else if p.ws[w].all then L.Yes else L.No);
    hide P.Step, L.Base, SamePlaces, SameTables;
    RegisterFits(p, l, c, used, P.Step(p, P.Register(w)), l', w);
  }

  lemma BothHeld(x: P.Waiter, y: P.Waiter)
    requires (x.phase.Registering? || x.phase.Taken?) && (y.phase.Registering? || y.phase.Taken?)
    ensures P.MutexHeld(x) && P.MutexHeld(y)
  {
  }

  lemma MimicPark(p: P.State, l: L.State, c: Cast, used: nat, l0: L.State, lists: set<seq<nat>>, w: nat)
    returns (l': L.State)
    requires InStep(p, l, c, used, l0, lists) && P.Enabled(p, P.Park(w))
    ensures L.Base(l') && Reaches(l0, lists, l') && Follows(P.Step(p, P.Park(w)), l', c, used)
  {
    hide P.Inv, L.Base, L.Step, Reaches, P.WaiterOk, P.Regs;
    var p', l1 := P.Step(p, P.Park(w)), l;
    if p.ws[w].phase.Waiting? { l1 := Wakes(l0, lists, l, c.caller[w], w); }
    l' := Parks(l0, lists, l1, c.caller[w], w);
    WaitFits(p, l, c, used, p', l', w);
  }

  lemma MimicFinish(p: P.State, l: L.State, c: Cast, used: nat, l0: L.State, lists: set<seq<nat>>, w: nat, timedOut: bool)
    returns (l': L.State)
    requires InStep(p, l, c, used, l0, lists) && P.Enabled(p, P.Finish(w, timedOut))
    ensures L.Base(l') && Reaches(l0, lists, l') && Follows(P.Step(p, P.Finish(w, timedOut)), l', c, used)
  {
    hide P.Inv, L.Base, L.Step, Reaches, P.WaiterOk, P.Regs;
    var p', l1 := P.Step(p, P.Finish(w, timedOut)), l;
    if p.ws[w].phase.Taken? {
      l' := Returns(l0, lists, l, c.caller[w], w);
    } else {
      if p.ws[w].phase.Waiting? { l1 := Wakes(l0, lists, l, c.caller[w], w); }
      l' := Leaves(l0, lists, l1, c.caller[w], w);
    }
    WaitFits(p, l, c, used, p', l', w);
  }

  lemma MimicSetNext(p: P.State, l: L.State, c: Cast, used: nat, l0: L.State, lists: set<seq<nat>>, e: nat)
    returns (l': L.State)
    requires InStep(p, l, c, used, l0, lists) && P.Enabled(p, P.SetNext(e))
    ensures L.Base(l') && Reaches(l0, lists, l') && Follows(P.Step(p, P.SetNext(e)), l', c, used)
  {
    hide P.Inv, L.Base, L.Step, Reaches, P.WaiterOk, P.Regs, P.MutexHeld;
    EventInRange(p, e);
    var p', ev := P.Step(p, P.SetNext(e)), p.evs[e];
    var k := ev.lock.done;
    var x := p.ws[ev.queue[k].waiter];
    l' := Serves(l0, lists, l, c.setter[e], e, k, if x.still then L.Yes else L.No);
    A.SetNextWaiters(p, e);
    if ev.auto { A.SetNextAuto(p, e); } else { A.SetNextManual(p, e); }
    hide P.Step;
    WaitersDrop(ev.queue, k);
    HeldSame(x, p'.ws[ev.queue[k].waiter]);
    assert l'.queues == l.queues[e := l'.queues[e]] && l'.eOwner == l.eOwner[e := l'.eOwner[e]];
    TablesFit(p, l, c, p', l', e);
    SetFits(p, l, c, used, p', l', e, l'.ths[c.setter[e]]);
  }

  lemma MimicSetEnd(p: P.State, l: L.State, c: Cast, used: nat, l0: L.State, lists: set<seq<nat>>, e: nat)
    returns (l': L.State)
    requires InStep(p, l, c, used, l0, lists) && P.Enabled(p, P.SetEnd(e))
    ensures L.Base(l') && Reaches(l0, lists, l') && Follows(P.Step(p, P.SetEnd(e)), l', c, used)
  {
    hide P.Inv, L.Base, L.Step, Reaches, P.WaiterOk, P.Regs, P.MutexHeld;
    EventInRange(p, e);
    var p' := P.Step(p, P.SetEnd(e));
    l' := EndsSet(l0, lists, l, c.setter[e], e);
    TablesFit(p, l, c, p', l', e);
    SetFits(p, l, c, used, p', l', e, L.Idle);
  }

  // ----- actions by threads that have not done anything yet

  lemma Later(p: P.State, l: L.State, c: Cast, used: nat)
    requires Follows(p, l, c, used)
    ensures Follows(p, l, c, used + 1)
  {
    hide L.Base, SameTables;
  }

  lemma CallTables(p: P.State, l: L.State, c: Cast, t: nat, p': P.State, l': L.State)
    requires P.Inv(p) && SameTables(p, l, c)
    requires p'.evs == p.evs && |p'.ws| == |p.ws| + 1 && p'.ws[..|p.ws|] == p.ws && p'.ws[|p.ws|].phase == P.Registering(0)
    requires l'.auto == l.auto && l'.queues == l.queues && l'.eOwner == l.eOwner
    requires l'.lists == l.lists + [p'.ws[|p.ws|].events] && l'.wOwner == l.wOwner + [L.By(t)]
    ensures SameTables(p', l', Cast(c.caller + [t], c.setter))
  {
    hide P.WaiterOk, P.Regs;
    var c' := Cast(c.caller + [t], c.setter);
    forall e | 0 <= e < |p.evs|
      ensures EventOwner(p', c', e) == EventOwner(p, c, e)
    {
      assert P.EventOk(p.ws, e, p.evs[e]);
    }
    forall v | 0 <= v < |p.ws|
      ensures p'.ws[v] == p.ws[v] && WaiterOwner(p', c', v) == WaiterOwner(p, c, v)
    {
      assert p'.ws[..|p.ws|][v] == p.ws[v];
    }
  }

  lemma CallPlaces(p: P.State, l: L.State, c: Cast, used: nat, p': P.State, l': L.State)
    requires P.Inv(p) && |p.evs| == |c.setter| && |p.ws| == |c.caller| && SamePlaces(p, l, c, used) && used < |l.ths|
    requires p'.evs == p.evs && |p'.ws| == |p.ws| + 1 && p'.ws[..|p.ws|] == p.ws && p'.ws[|p.ws|].phase == P.Registering(0)
    requires l'.ths == l.ths[used := L.Entering(|p.ws|, 0)]
    ensures SamePlaces(p', l', Cast(c.caller + [used], c.setter), used + 1)
  {
    hide P.WaiterOk, P.Regs;
    forall e | 0 <= e < |p.evs|
      ensures !P.VisitedBy(p.evs[e], |p.ws|)
    {
      assert P.EventOk(p.ws, e, p.evs[e]);
    }
    hide P.EventOk;
    forall v | 0 <= v < |p.ws|
      ensures PlaceOf(p', v) == PlaceOf(p, v) && p'.ws[v] == p.ws[v]
    {
      assert p'.ws[..|p.ws|][v] == p.ws[v];
    }
  }

  lemma MimicCall(p: P.State, l: L.State, c: Cast, used: nat, l0: L.State, lists: set<seq<nat>>, t: nat,
                  all: bool, events: seq<nat>)
    returns (l': L.State)
    requires t == used < |l.ths| && events in lists && InStep(p, l, c, used, l0, lists) && P.Enabled(p, P.Call(all, events))
    ensures L.Base(l') && Reaches(l0, lists, l')
    ensures Follows(P.Step(p, P.Call(all, events)), l', Cast(c.caller + [used], c.setter), used + 1)
  {
    hide P.Inv, L.Base, L.Step, Reaches, P.WaiterOk, P.Regs, P.MutexHeld;
    var p' := P.Step(p, P.Call(all, events));
    l' := Enters(l0, lists, l, t, events);
    assert p'.ws[..|p.ws|] == p.ws;
    CallTables(p, l, c, t, p', l');
    CallPlaces(p, l, c, t, p', l');
  }

  lemma SetPlaces(p: P.State, l: L.State, c: Cast, used: nat, p': P.State, l': L.State, e: nat)
    requires SameTables(p, l, c) && SamePlaces(p, l, c, used) && used < |l.ths| && e < |p.evs|
    requires p'.ws == p.ws && |p'.evs| == |p.evs| && p.evs[e].lock == P.Open
    requires p'.evs == p.evs[e := p'.evs[e]] && p'.evs[e] == p.evs[e].(state := p'.evs[e].state, lock := P.Setting(0))
    requires l' == l.(eOwner := l.eOwner[e := L.By(used)], ths := l.ths[used := L.Setting(e, 0)])
    ensures var c' := Cast(c.caller, c.setter[e := used]); SameTables(p', l', c') && SamePlaces(p', l', c', used + 1)
  {
    hide P.MutexHeld;
    var c' := Cast(c.caller, c.setter[e := used]);
    forall v | 0 <= v < |p.ws|
      ensures PlaceOf(p', v) == PlaceOf(p, v) && WaiterOwner(p', c', v) == WaiterOwner(p, c, v)
    {
    }
    forall f | 0 <= f < |p.evs| && f != e
      ensures EventOwner(p', c', f) == EventOwner(p, c, f)
    {
    }
  }

  lemma MimicSetBegin(p: P.State, l: L.State, c: Cast, used: nat, l0: L.State, lists: set<seq<nat>>, t: nat, e: nat)
    returns (l': L.State)
    requires t == used < |l.ths| && InStep(p, l, c, used, l0, lists) && P.Enabled(p, P.SetBegin(e))
    ensures e < |c.setter|
    ensures L.Base(l') && Reaches(l0, lists, l')
    ensures Follows(P.Step(p, P.SetBegin(e)), l', Cast(c.caller, c.setter[e := used]), used + 1)
  {
    hide P.Inv, L.Base, L.Step, Reaches, P.WaiterOk, P.Regs, P.MutexHeld;
    var p' := P.Step(p, P.SetBegin(e));
    l' := LocksEvent(l0, lists, l, t, e, true);
    SetPlaces(p, l, c, t, p', l', e);
  }

  /** A step that changes neither a mutex nor a queue nor a phase. */
  lemma StaysPut(p: P.State, l: L.State, c: Cast, used: nat, p': P.State, e: nat)
    requires Follows(p, l, c, used) && e < |p.evs| && |p'.evs| == |p.evs| && |p'.ws| == |p.ws|
    requires p'.evs == p.evs[e := p'.evs[e]] && p'.evs[e].queue == p.evs[e].queue && p'.evs[e].auto == p.evs[e].auto
    requires !p.evs[e].lock.Visited? && !p'.evs[e].lock.Visited? && SetHolds(p'.evs[e]) == SetHolds(p.evs[e])
    requires SetHolds(p.evs[e]) ==> p'.evs[e].lock.done == p.evs[e].lock.done
    requires forall v :: 0 <= v < |p.ws| ==> p'.ws[v].phase == p.ws[v].phase && p'.ws[v].events == p.ws[v].events
    ensures Follows(p', l, c, used)
  {
    hide L.Base;
    forall v | 0 <= v < |p.ws|
      ensures PlaceOf(p', v) == PlaceOf(p, v)
    {
    }
  }

  lemma MimicShort(p: P.State, l: L.State, c: Cast, used: nat, l0: L.State, lists: set<seq<nat>>, t: nat, a: P.Action)
    returns (l': L.State)
    requires t == used < |l.ths| && (a.Reset? || a.WaitTake?) && InStep(p, l, c, used, l0, lists) && P.Enabled(p, a)
    ensures L.Base(l') && Reaches(l0, lists, l') && Follows(P.Step(p, a), l', c, used)
  {
    hide P.Inv, L.Base, L.Step, Reaches, P.WaiterOk, P.Regs, P.MutexHeld;
    EventInRange(p, a.e);
    l' := TakesOrResets(l0, lists, l, t, a.e);
    StaysPut(p, l, c, used, P.Step(p, a), a.e);
  }

  lemma MimicSignal(p: P.State, l: L.State, c: Cast, used: nat, e: nat)
    requires P.Inv(p) && |p.tally| == |p.evs| && Follows(p, l, c, used) && P.Enabled(p, P.Signal(e))
    ensures Follows(P.Step(p, P.Signal(e)), l, c, used)
  {
    hide P.Inv, L.Base, P.WaiterOk, P.Regs;
    StaysPut(p, l, c, used, P.Step(p, P.Signal(e)), e);
  }

  // ----- whole runs

  /** The lists of the calls of a run. */
  predicate UsesLists(acts: seq<P.Action>, lists: set<seq<nat>>) {
    forall i :: 0 <= i < |acts| && acts[i].Call? ==> acts[i].events in lists
  }

  /** Every action of the one machine is some steps of one thread of the other. */
  lemma MimicStep(p: P.State, l: L.State, c: Cast, used: nat, l0: L.State, lists: set<seq<nat>>, a: P.Action)
    returns (l': L.State, c': Cast)
    requires InStep(p, l, c, used, l0, lists) && P.Enabled(p, a) && used < |l.ths| && (a.Call? ==> a.events in lists)
    ensures L.Base(l') && Reaches(l0, lists, l') && Follows(P.Step(p, a), l', c', used + 1)
  {
    hide P.Inv, L.Base, Reaches, SameTables, SamePlaces, P.Enabled, P.Step;
    c', l' := c, l;
    match a
    case Call(all, events) =>
      l' := MimicCall(p, l, c, used, l0, lists, used, all, events);
      c' := Cast(c.caller + [used], c.setter);
    case SetBegin(e) =>
      l' := MimicSetBegin(p, l, c, used, l0, lists, used, e);
      c' := Cast(c.caller, c.setter[e := used]);
    case Visit(w) => l' := MimicVisit(p, l, c, used, l0, lists, w); Later(P.Step(p, a), l', c, used);
    case Clean(e) => l' := MimicClean(p, l, c, used, l0, lists, e); Later(P.Step(p, a), l', c, used);
    case Busy(e) => l' := MimicBusy(p, l, c, used, l0, lists, e); Later(P.Step(p, a), l', c, used);
    case Register(w) => l' := MimicRegister(p, l, c, used, l0, lists, w); Later(P.Step(p, a), l', c, used);
    case Park(w) => l' := MimicPark(p, l, c, used, l0, lists, w); Later(P.Step(p, a), l', c, used);
    case Finish(w, timedOut) =>
      l' := MimicFinish(p, l, c, used, l0, lists, w, timedOut);
      Later(P.Step(p, a), l', c, used);
    case SetNext(e) => l' := MimicSetNext(p, l, c, used, l0, lists, e); Later(P.Step(p, a), l', c, used);
    case Signal(e) => MimicSignal(p, l, c, used, e); Later(P.Step(p, a), l', c, used);
    case SetEnd(e) => l' := MimicSetEnd(p, l, c, used, l0, lists, e); Later(P.Step(p, a), l', c, used);
    case Reset(e) => l' := MimicShort(p, l, c, used, l0, lists, used, a); Later(P.Step(p, a), l', c, used);
    case WaitTake(e) => l' := MimicShort(p, l, c, used, l0, lists, used, a); Later(P.Step(p, a), l', c, used);
  }

  lemma {:induction false} LeadsSize(s: L.State, sched: L.Schedule, e: L.State)
    requires L.Leads(s, sched, e)
    ensures |e.ths| == |s.ths|
    decreases |sched|
  {
    hide L.Step;
    if sched != [] { LeadsSize(L.Step(s, sched[0].0, sched[0].1), sched[1..], e); }
  }

  lemma SameThreads(l0: L.State, lists: set<seq<nat>>, l: L.State)
    requires Reaches(l0, lists, l)
    ensures |l.ths| == |l0.ths|
  {
    var sched: L.Schedule :| D.From(lists, sched) && L.Leads(l0, sched, l);
    LeadsSize(l0, sched, l);
  }

  lemma {:induction false} MimicRun(p: P.State, l: L.State, c: Cast, used: nat, l0: L.State, lists: set<seq<nat>>,
                                    acts: seq<P.Action>) returns (l': L.State, c': Cast)
    requires InStep(p, l, c, used, l0, lists) && W.Legal(p, acts) && UsesLists(acts, lists) && used + |acts| <= |l0.ths|
    ensures L.Base(l') && Reaches(l0, lists, l') && Follows(W.Run(p, acts), l', c', used + |acts|)
    decreases |acts|
  {
    hide P.Inv, L.Base, Reaches, SameTables, SamePlaces, P.Enabled, P.Step;
    l', c' := l, c;
    if acts != [] {
      SameThreads(l0, lists, l);
      var l1, c1 := MimicStep(p, l, c, used, l0, lists, acts[0]);
      A.StepKeeps(p, acts[0]);
      SameTally(P.Step(p, acts[0]));
      l', c' := MimicRun(P.Step(p, acts[0]), l1, c1, used + 1, l0, lists, acts[1..]);
    }
  }

  lemma SameTally(p: P.State)
    requires P.Inv(p)
    ensures |p.tally| == |p.evs|
  {
  }

  /** A start state of the lock machine with the same events. */
  ghost predicate StartsAs(p: P.State, l: L.State) {
    && W.Start(p) && L.Start(l) && |l.queues| == |p.evs| == |l.auto|
    && forall e :: 0 <= e < |p.evs| ==> l.auto[e] == p.evs[e].auto
  }

  lemma StartsInStep(p: P.State, l: L.State, lists: set<seq<nat>>)
    requires StartsAs(p, l)
    ensures InStep(p, l, Cast([], seq(|p.evs|, _ => 0)), 0, l, lists)
  {
    assert D.From(lists, []) && L.Leads(l, [], l);
  }

  /** Every run with the data is followed by a run of the lock machine on the same lists, with the same owner of every
      mutex and every thread at the same place.  If these lists cannot deadlock there, then behind every thread that is
      blocked at the end of the run somebody can go on. */
  lemma MimicTheorem(p: P.State, acts: seq<P.Action>, l0: L.State, lists: set<seq<nat>>) returns (l: L.State, c: Cast)
    requires StartsAs(p, l0) && W.Legal(p, acts) && UsesLists(acts, lists) && |acts| <= |l0.ths|
    ensures L.Base(l) && Reaches(l0, lists, l) && Follows(W.Run(p, acts), l, c, |acts|)
    ensures D.NeverDeadlocks(l0.auto, lists) ==> D.DeadlockFree(l)
  {
    hide W.Run, W.Legal, L.Base, Follows, SameTables, SamePlaces, D.DeadlockFree;
    StartsInStep(p, l0, lists);
    l, c := MimicRun(p, l0, Cast([], seq(|p.evs|, _ => 0)), 0, l0, lists, acts);
    var sched: L.Schedule :| D.From(lists, sched) && L.Leads(l0, sched, l);
  }
}
