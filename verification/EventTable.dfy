/** pevents.h as methods on the objects it updates.  The class holds all events and waiters; a method runs one region
    under a mutex, and the loops of the clean-up and of `SetEvent` run these regions one after another. */
module EventTable {
  import opened PEvents
  import opened Accounting
  import opened Waits

  /** Position of the first registration whose waiter is still waiting. */
  function FirstLive(ws: seq<Waiter>, q: seq<Reg>): (j: nat)
    requires forall r :: r in q ==> r.waiter < |ws|
    ensures j <= |q| && (j < |q| ==> ws[q[j].waiter].still)
    ensures forall i :: 0 <= i < j ==> !ws[q[i].waiter].still
  {
    if q == [] || ws[q[0].waiter].still then 0 else 1 + FirstLive(ws, q[1..])
  }

  /** Position of the first registration whose waiter mutex is taken. */
  function FirstHeld(ws: seq<Waiter>, q: seq<Reg>): (j: nat)
    requires forall r :: r in q ==> r.waiter < |ws|
    ensures j <= |q| && (j < |q| ==> MutexHeld(ws[q[j].waiter]))
    ensures forall i :: 0 <= i < j ==> !MutexHeld(ws[q[i].waiter])
  {
    if q == [] || MutexHeld(ws[q[0].waiter]) then 0 else 1 + FirstHeld(ws, q[1..])
  }

  predicate Stays(ws: seq<Waiter>, r: Reg) {
    r.waiter < |ws| ==> ws[r.waiter].still || MutexHeld(ws[r.waiter])
  }

  /** The registrations that the clean-up leaves in a queue. */
  function Kept(ws: seq<Waiter>, q: seq<Reg>): (k: seq<Reg>)
    ensures forall r :: r in k <==> r in q && Stays(ws, r)
  {
    if q == [] then [] else
      var i := |q| - 1;
      Kept(ws, q[..i]) + if Stays(ws, q[i]) then [q[i]] else []
  }

  lemma KeptNone(ws: seq<Waiter>)
    ensures Kept(ws, []) == []
  {
  }

  lemma KeptNext(ws: seq<Waiter>, q: seq<Reg>, i: nat)
    requires i < |q|
    ensures Kept(ws, q[..i + 1]) == Kept(ws, q[..i]) + if Stays(ws, q[i]) then [q[i]] else []
  {
    assert q[..i + 1][..i] == q[..i];
  }

  /** Only the reference count and the destruction record differ. */
  predicate SameButRefs(a: seq<Waiter>, b: seq<Waiter>) {
    |a| == |b| && forall w :: 0 <= w < |a| ==> b[w] == a[w].(refs := b[w].refs, destroyed := b[w].destroyed)
  }

  /** The waiters after one registration has been served: a waiter that still waits is given the event and signalled. */
  function Serve(ws: seq<Waiter>, r: Reg): (v: seq<Waiter>)
    ensures |v| == |ws|
  {
    if r.waiter >= |ws| then ws else
      var x := ws[r.waiter];
      ws[r.waiter := if x.still then Give(x.(refs := x.refs - 1), r.index).(signalled := true) else Unref(x)]
  }

  function ServeAll(ws: seq<Waiter>, q: seq<Reg>): (v: seq<Waiter>)
    ensures |v| == |ws|
  {
    if q == [] then ws else Serve(ServeAll(ws, q[..|q| - 1]), q[|q| - 1])
  }

  lemma ServeNext(ws: seq<Waiter>, q: seq<Reg>, i: nat)
    requires i < |q|
    ensures ServeAll(ws, q[..i + 1]) == Serve(ServeAll(ws, q[..i]), q[i])
  {
    assert q[..i + 1][..i] == q[..i];
  }

  lemma ServeNone(ws: seq<Waiter>, q: seq<Reg>)
    ensures ServeAll(ws, q[..0]) == ws
  {
  }

  lemma ServeEffect(ws: seq<Waiter>, r: Reg)
    ensures forall w :: 0 <= w < |ws| ==> MutexHeld(Serve(ws, r)[w]) == MutexHeld(ws[w])
    ensures r.waiter < |ws| && !ws[r.waiter].still ==> SameButRefs(ws, Serve(ws, r))
  {
  }

  /** Serving expired registrations gives nothing to anybody. */
  lemma {:induction false} ServeExpired(ws: seq<Waiter>, q: seq<Reg>)
    requires forall r :: r in q && r.waiter < |ws| ==> !ws[r.waiter].still
    ensures SameButRefs(ws, ServeAll(ws, q))
  {
    if q != [] { ServeExpired(ws, q[..|q| - 1]); }
  }

  /** The positions at which waiter w is registered in this queue, in queue order. */
  function Indices(q: seq<Reg>, w: nat): seq<nat> {
    if q == [] then [] else
      var i := |q| - 1;
      Indices(q[..i], w) + if q[i].waiter == w then [q[i].index] else []
  }

  /** What one waiter is given while registrations are served: nothing if its call is over or has been answered, one
      event in the wait-any mode, and an event for each of its registrations in the wait-all mode. */
  lemma {:induction false} ServeAllGives(ws: seq<Waiter>, q: seq<Reg>, w: nat)
    requires w < |ws|
    ensures var x, y, at := ws[w], ServeAll(ws, q)[w], Indices(q, w);
      && y.refs == x.refs - |at| && y.phase == x.phase && y.events == x.events && y.all == x.all
      && y.got == x.got + (if !x.still || at == [] then [] else if x.all then at else at[..1])
      && (y.still <==> x.still && (x.all || at == []))
      && y.status == if !x.still || at == [] then x.status else if x.all then x.status - |at| else at[0]
  {
    if q != [] {
      ServeAllGives(ws, q[..|q| - 1], w);
    }
  }

  /** The auto-reset SetEvent gives the event to the earliest live registration and to nobody else. */
  lemma FirstLiveGets(ws: seq<Waiter>, q: seq<Reg>)
    requires (forall r :: r in q ==> r.waiter < |ws|) && FirstLive(ws, q) < |q|
    ensures var j := FirstLive(ws, q); var v, r := ServeAll(ws, q[..j + 1]), q[j];
      && v[r.waiter].got == ws[r.waiter].got + [r.index]
      && forall w :: 0 <= w < |ws| && w != r.waiter ==>
           v[w].got == ws[w].got && v[w].status == ws[w].status && v[w].still == ws[w].still
  {
    var j := FirstLive(ws, q);
    ServeNext(ws, q, j);
    forall r | r in q[..j]
      ensures !ws[r.waiter].still
    {
      var i :| 0 <= i < j && q[i] == r;
    }
    ServeExpired(ws, q[..j]);
  }

  lemma EntriesInRange(s: State, e: nat)
    requires Inv(s) && e < |s.evs|
    ensures forall r :: r in s.evs[e].queue ==> r.waiter < |s.ws|
  {
    assert EventOk(s.ws, e, s.evs[e]);
    forall r | r in s.evs[e].queue
      ensures r.waiter < |s.ws|
    {
      var j :| 0 <= j < |s.evs[e].queue| && s.evs[e].queue[j] == r;
      assert EntryOk(s.ws, e, s.evs[e].queue[j]);
    }
  }

  /** What a round of SetEvent does, with its signal, in terms of `Serve`. */
  lemma RoundServes(s: State, e: nat)
    requires Inv(s) && Enabled(s, SetNext(e))
    ensures var s1, ev := Step(s, SetNext(e)), s.evs[e]; var k := ev.lock.done; var r := ev.queue[k];
      && r.waiter < |s.ws| && Inv(s1) && |s1.evs| == |s.evs| && (ev.auto ==> k == 0)
      && (s1.evs[e].lock.Signalling? <==> s.ws[r.waiter].still)
      && (s.ws[r.waiter].still ==> Enabled(s1, Signal(e)) && Inv(Step(s1, Signal(e))))
      && var s' := if s.ws[r.waiter].still then Step(s1, Signal(e)) else s1;
        s'.ws == Serve(s.ws, r)
        && s'.evs == s.evs[e := if !ev.auto then ev.(lock := Setting(k + 1))
                                else if s.ws[r.waiter].still
                                    then ev.(queue := ev.queue[1..], state := false, lock := Open)
                                else ev.(queue := ev.queue[1..])]
  {
    hide EventOk, WaiterOk, Regs;
    var s1 := Step(s, SetNext(e));
    StepKeeps(s, SetNext(e));
    SetNextWaiters(s, e);
    if s.evs[e].auto { SetNextAuto(s, e); } else { SetNextManual(s, e); }
    SignalEffect(s1, e);
    hide Step;
  }

  lemma SignalEffect(s: State, e: nat)
    requires Inv(s) && e < |s.evs|
    ensures Enabled(s, Signal(e)) <==> s.evs[e].lock.Signalling?
    ensures s.evs[e].lock.Signalling? ==>
      && Inv(Step(s, Signal(e)))
      && var w, s', ev := s.evs[e].lock.waiter, Step(s, Signal(e)), s.evs[e];
         && w < |s.ws| && s'.ws == s.ws[w := s.ws[w].(signalled := true)]
         && s'.evs == s.evs[e := ev.(lock := if ev.auto then Open else Setting(ev.lock.done))]
  {
    hide WaiterOk, Regs;
    if s.evs[e].lock.Signalling? {
      assert EventOk(s.ws, e, s.evs[e]);
      StepKeeps(s, Signal(e));
    }
  }

  lemma CleanEffect(s: State, e: nat)
    requires Enabled(s, Clean(e)) && |s.tally| == |s.evs|
    ensures var s', ev := Step(s, Clean(e)), s.evs[e]; var q, k := ev.queue, ev.lock.seen;
      && s'.tally == s.tally && SameButRefs(s.ws, s'.ws)
      && s'.evs == s.evs[e := if Stays(s.ws, q[k]) then ev.(lock := Visited(ev.lock.waiter, k + 1))
                              else ev.(queue := q[..k] + q[k + 1..])]
  {
  }

  lemma SameButRefsSelf(a: seq<Waiter>)
    ensures SameButRefs(a, a)
  {
  }

  /** The next waiter still waits and its mutex is taken, as they were at the start. */
  lemma BlockedAt(ws0: seq<Waiter>, ws: seq<Waiter>, q: seq<Reg>, i: nat)
    requires (forall r :: r in q ==> r.waiter < |ws0|) && SameButRefs(ws0, ws) && i < |q| && i <= FirstLive(ws0, q)
    requires ws[q[i].waiter].still && MutexHeld(ws[q[i].waiter])
    ensures FirstLive(ws0, q) == i && MutexHeld(ws0[q[i].waiter])
  {
    hide FirstLive;
    assert q[i] in q;
  }

  lemma SameButRefsChain(a: seq<Waiter>, b: seq<Waiter>, c: seq<Waiter>)
    requires SameButRefs(a, b) && SameButRefs(b, c)
    ensures SameButRefs(a, c)
  {
  }

  class EventTable {
    var evs: seq<Event>
    var ws: seq<Waiter>
    ghost var tally: seq<Tally>

    ghost function View(): State
      reads this
    {
      State(evs, ws, tally)
    }

    ghost predicate Ready(a: Action)
      reads this
    {
      Enabled(View(), a) && |tally| == |evs|
    }

    /** `new wfmo_t_`, its initial fields, and the lock of its mutex. */
    method Call(all: bool, events: seq<nat>) returns (w: nat)
      requires Ready(Action.Call(all, events))
      modifies this
      ensures View() == Step(old(View()), Action.Call(all, events)) && w == |old(ws)|
    {
      w := |ws|;
      ws := ws + [Waiter(all, events, Registering(0), true, 1, if all then |events| else -1, [], 0, false)];
    }

    method Visit(w: nat)
      requires Ready(Action.Visit(w))
      modifies this
      ensures View() == Step(old(View()), Action.Visit(w))
    {
      var e := ws[w].events[ws[w].phase.next];
      evs := evs[e := evs[e].(lock := Visited(w, 0))];
    }

    /** RemoveExpiredWaitHelper on the next entry: trylock, and drop the entry if its waiter has stopped waiting. */
    method Clean(e: nat)
      requires Ready(Action.Clean(e))
      modifies this
      ensures View() == Step(old(View()), Action.Clean(e))
    {
      var q, k := evs[e].queue, evs[e].lock.seen;
      var w := q[k].waiter;
      if MutexHeld(ws[w]) || ws[w].still {
        evs := evs[e := evs[e].(lock := Visited(evs[e].lock.waiter, k + 1))];
      } else {
        var refs := ws[w].refs - 1;
        ws := ws[w := ws[w].(refs := refs)];
        if refs == 0 { ws := ws[w := ws[w].(destroyed := ws[w].destroyed + 1)]; }
        evs := evs[e := evs[e].(queue := q[..k] + q[k + 1..])];
      }
    }

    /** The same, with a trylock that fails because another call is inside a region on that waiter: the entry stays. */
    method Busy(e: nat)
      requires Ready(Action.Busy(e))
      modifies this
      ensures View() == Step(old(View()), Action.Busy(e))
    {
      evs := evs[e := evs[e].(lock := Visited(evs[e].lock.waiter, evs[e].lock.seen + 1))];
    }

    /** UnlockedWaitForEvent with a zero timeout, then the take or the registration. */
    method Register(w: nat)
      requires Ready(Action.Register(w))
      modifies this
      ensures View() == Step(old(View()), Action.Register(w))
    {
      var i := ws[w].phase.next;
      var e := ws[w].events[i];
      if evs[e].state {
        if evs[e].auto { evs := evs[e := evs[e].(state := false)]; }
        evs := evs[e := evs[e].(lock := Open)];
        ws := ws[w := ws[w].(got := ws[w].got + [i])];
        if ws[w].all {
          ws := ws[w := ws[w].(status := ws[w].status - 1, phase := Registering(i + 1))];
        } else {
          ws := ws[w := ws[w].(status := i, phase := Taken)];
        }
      } else {
        evs := evs[e := evs[e].(queue := evs[e].queue + [Reg(w, i)], lock := Open)];
        ws := ws[w := ws[w].(refs := ws[w].refs + 1, phase := Registering(i + 1))];
      }
    }

    method Park(w: nat)
      requires Ready(Action.Park(w))
      modifies this
      ensures View() == Step(old(View()), Action.Park(w))
    {
      ws := ws[w := ws[w].(phase := Waiting, signalled := false)];
    }

    /** The end of `WaitForMultipleEvents`; `index` is its waitIndex. */
    method Finish(w: nat, timedOut: bool) returns (index: int)
      requires Ready(Action.Finish(w, timedOut))
      modifies this
      ensures View() == Step(old(View()), Action.Finish(w, timedOut)) && index == old(ws[w].status)
    {
      index := ws[w].status;
      var refs := ws[w].refs - 1;
      ws := ws[w := ws[w].(still := false, refs := refs, phase := Over)];
      if refs == 0 { ws := ws[w := ws[w].(destroyed := ws[w].destroyed + 1)]; }
    }

    method ResetEvent(e: nat)
      requires Ready(Action.Reset(e))
      modifies this
      ensures View() == Step(old(View()), Action.Reset(e))
    {
      tally := tally[e := tally[e].(cleared := tally[e].cleared + if evs[e].state then 1 else 0)];
      evs := evs[e := evs[e].(state := false)];
    }

    method WaitTake(e: nat)
      requires Ready(Action.WaitTake(e))
      modifies this
      ensures View() == Step(old(View()), Action.WaitTake(e))
    {
      if evs[e].auto { evs := evs[e := evs[e].(state := false)]; }
      tally := tally[e := tally[e].(taken := tally[e].taken + 1)];
    }

    method SetBegin(e: nat)
      requires Ready(Action.SetBegin(e))
      modifies this
      ensures View() == Step(old(View()), Action.SetBegin(e))
    {
      var t, merge := tally[e], evs[e].state;
      tally := tally[e := t.(sets := t.sets + 1, merged := t.merged + if merge then 1 else 0)];
      evs := evs[e := evs[e].(state := true, lock := Setting(0))];
    }

    method SetNext(e: nat)
      requires Ready(Action.SetNext(e))
      modifies this
      ensures View() == Step(old(View()), Action.SetNext(e))
    {
      var k := evs[e].lock.done;
      var r := evs[e].queue[k];
      var x := ws[r.waiter].(refs := ws[r.waiter].refs - 1);
      if evs[e].auto {
        evs := evs[e := evs[e].(queue := evs[e].queue[..k] + evs[e].queue[k + 1..])];
      } else {
        evs := evs[e := evs[e].(lock := Setting(k + 1))];
      }
      if !x.still {
        if x.refs == 0 { x := x.(destroyed := x.destroyed + 1); }
      } else {
        if evs[e].auto { evs := evs[e := evs[e].(state := false)]; }
        evs := evs[e := evs[e].(lock := Signalling(evs[e].lock.done, r.waiter))];
        x := x.(got := x.got + [r.index]);
        x := if x.all then x.(status := x.status - 1) else x.(status := r.index, still := false);
      }
      ws := ws[r.waiter := x];
    }

    /** The signal; an auto-reset SetEvent then unlocks the event and returns. */
    method Signal(e: nat)
      requires Ready(Action.Signal(e))
      modifies this
      ensures View() == Step(old(View()), Action.Signal(e))
    {
      var w := evs[e].lock.waiter;
      ws := ws[w := ws[w].(signalled := true)];
      evs := evs[e := evs[e].(lock := if evs[e].auto then Open else Setting(evs[e].lock.done))];
    }

    method SetEnd(e: nat)
      requires Ready(Action.SetEnd(e))
      modifies this
      ensures View() == Step(old(View()), Action.SetEnd(e))
    {
      evs := evs[e := evs[e].(queue := [], lock := Open)];
    }

    /** The clean-up has looked at i entries of the queue. */
    ghost predicate Cleaned(evs0: seq<Event>, ws0: seq<Waiter>, e: nat, i: nat)
      reads this
    {
      && e < |evs0| == |evs| && i <= |evs0[e].queue| && evs0[e].lock.Visited? && evs[e].lock.Visited?
      && var j := evs[e].lock.seen;
         && j <= |evs[e].queue| && |evs0[e].queue| - i == |evs[e].queue| - j
         && evs == evs0[e := evs[e]]
         && evs[e] == evs0[e].(queue := evs[e].queue, lock := Visited(evs0[e].lock.waiter, j))
         && evs[e].queue[..j] == Kept(ws0, evs0[e].queue[..i]) && evs[e].queue[j..] == evs0[e].queue[i..]
         && SameButRefs(ws0, ws)
    }

    method CleanNext(ghost evs0: seq<Event>, ghost ws0: seq<Waiter>, e: nat, ghost i: nat)
      requires Inv(View()) && Cleaned(evs0, ws0, e, i) && evs[e].lock.seen < |evs[e].queue|
      modifies this
      ensures Inv(View()) && i < |evs0[e].queue| && Cleaned(evs0, ws0, e, i + 1) && tally == old(tally)
    {
      hide Inv, Kept, Step;
      EntriesInRange(View(), e);
      TallyLength(View());
      ghost var was, before, k := evs[e].queue, ws, evs[e].lock.seen;
      assert was[k] == evs0[e].queue[i] && was[..k + 1] == was[..k] + [was[k]];
      KeptNext(ws0, evs0[e].queue, i);
      StepKeeps(View(), Action.Clean(e));
      CleanEffect(View(), e);
      Clean(e);
      SameButRefsChain(ws0, before, ws);
      assert Stays(before, was[k]) == Stays(ws0, was[k]);
      assert !Stays(before, was[k]) ==> evs[e].queue[..k] == was[..k] && evs[e].queue[k..] == was[k + 1..];
    }

    /** `remove_if` over the queue of an event whose mutex this caller holds. */
    method RemoveExpired(e: nat)
      requires Inv(View()) && e < |evs| && evs[e].lock.Visited? && evs[e].lock.seen == 0
      modifies this
      ensures Inv(View()) && SameButRefs(old(ws), ws) && tally == old(tally)
      ensures var ev := old(evs)[e]; var kept := Kept(old(ws), ev.queue);
        evs == old(evs)[e := ev.(queue := kept, lock := Visited(ev.lock.waiter, |kept|))]
    {
      hide Inv, Kept;
      ghost var q := evs[e].queue;
      assert q[..0] == [] && q[0..] == q && q[..|q|] == q && evs == evs[e := evs[e]];
      KeptNone(ws);
      ghost var i: nat := 0;
      while evs[e].lock.seen < |evs[e].queue|
        invariant e < |evs| && Inv(View()) && evs[e].lock.Visited?
        invariant Cleaned(old(evs), old(ws), e, i) && tally == old(tally)
        decreases |q| - i
      {
        CleanNext(old(evs), old(ws), e, i);
        i := i + 1;
      }
      assert evs[e].queue[..evs[e].lock.seen] == evs[e].queue;
      hide SameButRefs;
    }

    /** SetEvent, run until it returns or has to wait for a waiter mutex.  On an auto-reset event the loop drops expired
        registrations up to the earliest live one, which gets the event as soon as its mutex is free; without a live
        one State stays true and the queue is empty.  On a manual-reset event it serves every registration. */
    method SetEvent(e: nat) returns (done: bool)
      requires Inv(View()) && e < |evs| && evs[e].lock == Open
      modifies this
      ensures Inv(View()) && forall r :: r in old(evs[e].queue) ==> r.waiter < |old(ws)|
      ensures var q, ev := old(evs[e].queue), old(evs[e]).(state := true);
        var j := if ev.auto then FirstLive(old(ws), q) else FirstHeld(old(ws), q);
        && done == (j == |q| || !MutexHeld(old(ws)[q[j].waiter]))
        && if j == |q| then evs == old(evs)[e := ev.(queue := [])] && ws == ServeAll(old(ws), q)
           else if done then
             evs == old(evs)[e := ev.(state := false, queue := q[j + 1..])] && ws == ServeAll(old(ws), q[..j + 1])
           else
             && ws == ServeAll(old(ws), q[..j])
             && evs == old(evs)[e := if ev.auto then ev.(lock := Setting(0), queue := q[j..]) else ev.(lock := Setting(j))]
    {
      hide Inv, Step, FirstLive, FirstHeld, Serve, ServeAll, MutexHeld;
      ghost var q := evs[e].queue;
      EntriesInRange(View(), e);
      Begin(e);
      assert q[0..] == q && q[..|q|] == q;
      if evs[e].auto {
        done := SetAuto(e);
      } else {
        done := SetManual(e);
      }
    }

    method Begin(e: nat)
      requires Inv(View()) && e < |evs| && evs[e].lock == Open
      modifies this
      ensures Inv(View()) && ws == old(ws) && evs == old(evs)[e := old(evs[e]).(state := true, lock := Setting(0))]
    {
      StepKeeps(View(), Action.SetBegin(e));
      SetBegin(e);
      hide Inv;
    }

    method End(e: nat)
      requires Inv(View()) && e < |evs| && evs[e].lock == Setting(|evs[e].queue|)
      modifies this
      ensures Inv(View()) && ws == old(ws) && evs == old(evs)[e := old(evs[e]).(queue := [], lock := Open)]
    {
      StepKeeps(View(), Action.SetEnd(e));
      SetEnd(e);
      hide Inv;
    }

    method Round(e: nat)
      requires Inv(View()) && Ready(Action.SetNext(e))
      modifies this
      ensures var ev := old(evs[e]); var k := ev.lock.done; var r := ev.queue[k];
        && Inv(View()) && r.waiter < |old(ws)| && ws == Serve(old(ws), r)
        && evs == old(evs)[e := if !ev.auto then ev.(lock := Setting(k + 1))
                                else if old(ws)[r.waiter].still
                                    then ev.(queue := ev.queue[1..], state := false, lock := Open)
                                else ev.(queue := ev.queue[1..])]
    {
      hide Inv, Step, Serve;
      RoundServes(View(), e);
      TallyLength(View());
      SetNext(e);
      if evs[e].lock.Signalling? {
        TallyLength(View());
        Signal(e);
      }
    }

    /** A manual-reset SetEvent has served the first `k` of the registrations it had still to serve. */
    ghost predicate ManualAt(evs0: seq<Event>, ws0: seq<Waiter>, e: nat, q: seq<Reg>, k: nat)
      reads this
    {
      && e < |evs0| == |evs| && k <= |q| && evs0[e].lock.Setting? && evs0[e].lock.done <= |evs0[e].queue|
      && q == evs0[e].queue[evs0[e].lock.done..]
      && evs == evs0[e := evs[e]] && evs[e] == evs0[e].(lock := Setting(evs0[e].lock.done + k))
      && ws == ServeAll(ws0, q[..k]) && |ws| == |ws0|
      && (forall r :: r in q ==> r.waiter < |ws| && MutexHeld(ws[r.waiter]) == MutexHeld(ws0[r.waiter]))
      && k <= FirstHeld(ws0, q)
    }

    /** An auto-reset SetEvent has dropped the first `i` registrations, all of them expired. */
    ghost predicate AutoAt(evs0: seq<Event>, ws0: seq<Waiter>, e: nat, i: nat)
      reads this
    {
      && e < |evs0| == |evs| && i <= |evs0[e].queue|
      && evs == evs0[e := evs[e]] && evs[e] == evs0[e].(lock := Setting(0), queue := evs0[e].queue[i..])
      && ws == ServeAll(ws0, evs0[e].queue[..i]) && SameButRefs(ws0, ws)
      && (forall r :: r in evs0[e].queue ==> r.waiter < |ws|)
      && i <= FirstLive(ws0, evs0[e].queue)
    }

    method ManualRound(ghost evs0: seq<Event>, ghost ws0: seq<Waiter>, e: nat, ghost q: seq<Reg>, ghost k: nat)
      requires Inv(View()) && ManualAt(evs0, ws0, e, q, k) && !evs[e].auto && k < |q|
      requires !MutexHeld(ws[q[k].waiter])
      modifies this
      ensures Inv(View()) && ManualAt(evs0, ws0, e, q, k + 1)
    {
      hide Inv, Serve, ServeAll, MutexHeld, FirstHeld;
      ServeNext(ws0, q, k);
      ServeEffect(ws, q[k]);
      TallyLength(View());
      Round(e);
    }

    method AutoRound(ghost evs0: seq<Event>, ghost ws0: seq<Waiter>, e: nat, ghost i: nat) returns (handed: bool)
      requires Inv(View()) && AutoAt(evs0, ws0, e, i) && evs0[e].auto && evs[e].queue != []
      requires evs[e].queue[0].waiter < |ws| && !MutexHeld(ws[evs[e].queue[0].waiter])
      modifies this
      ensures Inv(View()) && i < |evs0[e].queue|
      ensures if handed then
                && evs == evs0[e := evs0[e].(lock := Open, state := false, queue := evs0[e].queue[i + 1..])]
                && ws == ServeAll(ws0, evs0[e].queue[..i + 1]) && i == FirstLive(ws0, evs0[e].queue)
                && !MutexHeld(ws0[evs0[e].queue[i].waiter])
              else AutoAt(evs0, ws0, e, i + 1)
    {
      hide Inv, Serve, ServeAll, FirstLive;
      var r := evs[e].queue[0];
      assert r == evs0[e].queue[i] && evs0[e].queue[i..][1..] == evs0[e].queue[i + 1..];
      ServeNext(ws0, evs0[e].queue, i);
      ServeEffect(ws, r);
      TallyLength(View());
      handed := ws[r.waiter].still;
      ghost var before := ws;
      Round(e);
      if !handed { SameButRefsChain(ws0, before, ws); }
    }

    /** The loop of a manual-reset SetEvent, from wherever it is. */
    method SetManual(e: nat) returns (done: bool)
      requires Inv(View()) && e < |evs| && evs[e].lock.Setting? && !evs[e].auto
      modifies this
      ensures Inv(View()) && old(evs[e].lock.done) <= |old(evs[e].queue)|
      ensures var ev := old(evs[e]); var q := ev.queue[ev.lock.done..];
        && (forall r :: r in q ==> r.waiter < |old(ws)|)
        && var j := FirstHeld(old(ws), q);
           && done == (j == |q|)
           && ws == ServeAll(old(ws), q[..j])
           && evs == old(evs)[e := if done then ev.(queue := [], lock := Open) else ev.(lock := Setting(ev.lock.done + j))]
    {
      hide Inv, ServeAll, MutexHeld, FirstHeld;
      EntriesInRange(View(), e);
      LockInRange(View(), e);
      ghost var q := evs[e].queue[evs[e].lock.done..];
      ServeNone(ws, q);
      ghost var k: nat := 0;
      while evs[e].lock.done < |evs[e].queue| && !MutexHeld(ws[evs[e].queue[evs[e].lock.done].waiter])
        invariant e < |evs| && evs[e].lock.Setting? && !evs[e].auto && evs[e].queue == old(evs[e].queue)
        invariant evs[e].lock.done <= |evs[e].queue| && forall r :: r in evs[e].queue ==> r.waiter < |ws|
        invariant Inv(View()) && ManualAt(old(evs), old(ws), e, q, k)
        decreases |q| - k
      {
        assert evs[e].queue[evs[e].lock.done] == q[k];
        ManualRound(old(evs), old(ws), e, q, k);
        k := k + 1;
      }
      done := evs[e].lock.done == |evs[e].queue|;
      assert !done ==> evs[e].queue[evs[e].lock.done] == q[k] && q[k] in q;
      if done { End(e); }
    }

    /** The loop of an auto-reset SetEvent, from wherever it is. */
    method SetAuto(e: nat) returns (done: bool)
      requires Inv(View()) && e < |evs| && evs[e].lock == Setting(0) && evs[e].auto
      modifies this
      ensures Inv(View()) && forall r :: r in old(evs[e].queue) ==> r.waiter < |old(ws)|
      ensures var q, ev := old(evs[e].queue), old(evs[e]); var j := FirstLive(old(ws), q);
        && done == (j == |q| || !MutexHeld(old(ws)[q[j].waiter]))
        && (if j == |q| then
              evs == old(evs)[e := ev.(lock := Open, queue := [])] && ws == ServeAll(old(ws), q)
            else if done then
              && evs == old(evs)[e := ev.(lock := Open, state := false, queue := q[j + 1..])]
              && ws == ServeAll(old(ws), q[..j + 1])
            else
              evs == old(evs)[e := ev.(queue := q[j..])] && ws == ServeAll(old(ws), q[..j]))
    {
      hide Inv, ServeAll, FirstLive, MutexHeld, SameButRefs;
      EntriesInRange(View(), e);
      ghost var q := evs[e].queue;
      ServeNone(ws, q);
      SameButRefsSelf(ws);
      assert q[..|q|] == q && q[0..] == q;
      ghost var i: nat := 0;
      while evs[e].queue != [] && !MutexHeld(ws[evs[e].queue[0].waiter])
        invariant e < |evs| && Inv(View()) && AutoAt(old(evs), old(ws), e, i)
        invariant forall r :: r in evs[e].queue ==> r.waiter < |ws|
        decreases |q| - i
      {
        done := AutoRound(old(evs), old(ws), e, i);
        if done { return; }
        i := i + 1;
      }
      done := evs[e].queue == [];
      if done {
        End(e);
      } else {
        assert evs[e].queue[0] == q[i];
        HeldStillWaits(View(), q[i].waiter);
        BlockedAt(old(ws), ws, q, i);
      }
    }

    /** Any region of any call. */
    method Perform(a: Action)
      requires Ready(a)
      modifies this
      ensures View() == Step(old(View()), a)
    {
      match a
      case Call(all, events) => var _ := Call(all, events);
      case Visit(w) => Visit(w);
      case Clean(e) => Clean(e);
      case Busy(e) => Busy(e);
      case Register(w) => Register(w);
      case Park(w) => Park(w);
      case Finish(w, timedOut) => var _ := Finish(w, timedOut);
      case SetBegin(e) => SetBegin(e);
      case SetNext(e) => SetNext(e);
      case Signal(e) => Signal(e);
      case SetEnd(e) => SetEnd(e);
      case Reset(e) => ResetEvent(e);
      case WaitTake(e) => WaitTake(e);
    }
  }

  /** Runs any interleaving of the regions of any number of calls on the object. */
  method Interleave(table: EventTable, acts: seq<Action>)
    requires Inv(table.View()) && Legal(table.View(), acts)
    modifies table
    ensures Inv(table.View()) && table.View() == Run(old(table.View()), acts)
  {
    ghost var s0 := table.View();
    var i := 0;
    while i < |acts|
      invariant 0 <= i <= |acts| && Inv(table.View())
      invariant Legal(table.View(), acts[i..]) && Run(table.View(), acts[i..]) == Run(s0, acts)
    {
      hide Inv, Step, Enabled;
      StepKeeps(table.View(), acts[i]);
      assert acts[i..][1..] == acts[i + 1..];
      table.Perform(acts[i]);
      i := i + 1;
    }
  }

  lemma TallyLength(s: State)
    requires Inv(s)
    ensures |s.tally| == |s.evs|
  {
  }

  lemma LockInRange(s: State, e: nat)
    requires Inv(s) && e < |s.evs| && s.evs[e].lock.Setting?
    ensures s.evs[e].lock.done <= |s.evs[e].queue|
  {
    assert EventOk(s.ws, e, s.evs[e]);
  }

  lemma HeldStillWaits(s: State, w: nat)
    requires Inv(s) && w < |s.ws| && MutexHeld(s.ws[w])
    ensures s.ws[w].still
  {
    assert WaiterOk(s.ws[w], Regs(s.evs, w));
  }
}
