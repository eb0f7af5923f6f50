/** Reference counts, deliveries and tokens of multi-event waits, over every run. */
module Accounting {
  import opened PEvents

  // ----- multiset bookkeeping

  lemma Cancel(a': multiset<nat>, l: multiset<nat>, a: multiset<nat>, l': multiset<nat>, i: multiset<nat>)
    requires a' + l == a + l' && l == l' + i
    ensures a == a' + i
  {
    forall p
      ensures a[p] == (a' + i)[p]
    {
      assert (a' + l)[p] == (a + l')[p];
    }
  }

  lemma CancelSame(a': multiset<nat>, l: multiset<nat>, a: multiset<nat>)
    requires a' + l == a + l
    ensures a == a'
  {
    Cancel(a', l, a, l, multiset{});
  }

  lemma {:induction false} RegsInNone(q: seq<Reg>, w: nat)
    requires forall j :: 0 <= j < |q| ==> q[j].waiter != w
    ensures RegsIn(q, w) == multiset{}
  {
    if q != [] { RegsInNone(q[..|q| - 1], w); }
  }

  lemma {:induction false} RegsOverNone(qs: seq<seq<Reg>>, w: nat)
    requires forall e :: 0 <= e < |qs| ==> forall j :: 0 <= j < |qs[e]| ==> qs[e][j].waiter != w
    ensures RegsOver(qs, w) == multiset{}
  {
    if qs != [] {
      RegsOverNone(qs[..|qs| - 1], w);
      RegsInNone(qs[|qs| - 1], w);
    }
  }

  lemma {:induction false} RegsOverHas(qs: seq<seq<Reg>>, e: nat, w: nat)
    requires e < |qs|
    ensures RegsIn(qs[e], w) <= RegsOver(qs, w)
  {
    var k := |qs| - 1;
    if e < k {
      RegsOverHas(qs[..k], e, w);
    }
  }

  /** Removing entry j of an event's queue, and nothing else, takes exactly that registration away. */
  lemma RegsDrop(evs: seq<Event>, e: nat, ev: Event, j: nat, w: nat)
    requires e < |evs| && j < |Live(evs[e])| && Live(ev) == Live(evs[e])[..j] + Live(evs[e])[j + 1..]
    ensures var r := Live(evs[e])[j];
      Regs(evs, w) == Regs(evs[e := ev], w) + if r.waiter == w then multiset{r.index} else multiset{}
  {
    var q := Live(evs[e]);
    RegsUpdate(evs, e, ev, w);
    RegsInRemove(q, j, w);
    Cancel(Regs(evs[e := ev], w), RegsIn(q, w), Regs(evs, w), RegsIn(Live(ev), w),
           if q[j].waiter == w then multiset{q[j].index} else multiset{});
  }

  lemma RegsJoin(evs: seq<Event>, e: nat, ev: Event, r: Reg, w: nat)
    requires e < |evs| && Live(ev) == Live(evs[e]) + [r]
    ensures Regs(evs[e := ev], w) == Regs(evs, w) + if r.waiter == w then multiset{r.index} else multiset{}
  {
    var q, i := Live(evs[e]), if r.waiter == w then multiset{r.index} else multiset{};
    RegsUpdate(evs, e, ev, w);
    assert (q + [r])[..|q|] == q;
    Cancel(Regs(evs, w), RegsIn(Live(ev), w), Regs(evs[e := ev], w), RegsIn(q, w), i);
  }

  lemma RegsSame(evs: seq<Event>, e: nat, ev: Event, w: nat)
    requires e < |evs| && Live(ev) == Live(evs[e])
    ensures Regs(evs[e := ev], w) == Regs(evs, w)
  {
    RegsUpdate(evs, e, ev, w);
    CancelSame(Regs(evs[e := ev], w), RegsIn(Live(ev), w), Regs(evs, w));
  }

  // ----- one waiter

  /** Dropping an expired registration. */
  lemma UnrefOk(x: Waiter, regs: multiset<nat>, i: nat)
    requires WaiterOk(x, regs + multiset{i}) && !x.still && !MutexHeld(x)
    ensures x.refs >= 1 && WaiterOk(Unref(x), regs)
  {
    assert |regs + multiset{i}| == |regs| + 1;
  }

  /** Handing an event to a live registration. */
  lemma GiveOk(x: Waiter, regs: multiset<nat>, i: nat)
    requires WaiterOk(x, regs + multiset{i}) && x.still && !MutexHeld(x) && i < |x.events|
    ensures x.refs >= 2 && (x.all ==> x.status >= 1)
    ensures WaiterOk(Give(x.(refs := x.refs - 1), i), regs)
  {
    hide Upto;
    assert |regs + multiset{i}| == |regs| + 1;
    if x.all { TakeOne(x.got, regs, i, |x.events|); }
  }

  /** Moving a position from the registrations to the deliveries of a wait-all waiter. */
  lemma TakeOne(got: seq<nat>, regs: multiset<nat>, i: nat, n: nat)
    requires multiset(got) + (regs + multiset{i}) == Upto(n)
    ensures multiset(got + [i]) + regs == Upto(n) && |got| < n
    ensures forall p :: multiset(got + [i])[p] <= 1 && (p in got + [i] ==> p < n)
  {
    assert multiset(got + [i]) == multiset(got) + multiset{i};
    assert multiset(got + [i]) + regs == Upto(n);
    UptoOnce(n, 0);
    assert |multiset(got) + (regs + multiset{i})| == |got| + |regs| + 1;
    forall p: nat
      ensures multiset(got + [i])[p] <= 1 && (p in got + [i] ==> p < n)
    {
      UptoOnce(n, p);
      assert (multiset(got + [i]) + regs)[p] == Upto(n)[p];
      assert p in got + [i] ==> multiset(got + [i])[p] >= 1;
    }
  }

  /** A registering waiter takes a signalled event. */
  lemma TakeOk(x: Waiter, regs: multiset<nat>)
    requires WaiterOk(x, regs) && x.phase.Registering? && x.phase.next < |x.events|
    ensures var i := x.phase.next;
      if x.all then x.status >= 1 && WaiterOk(x.(status := x.status - 1, got := x.got + [i], phase := Registering(i + 1)), regs)
      else WaiterOk(x.(status := i, got := x.got + [i], phase := Taken), regs)
  {
    if x.all { TakeAllOk(x, regs); }
  }

  lemma TakeAllOk(x: Waiter, regs: multiset<nat>)
    requires WaiterOk(x, regs) && x.all && x.phase.Registering? && x.phase.next < |x.events|
    ensures var i := x.phase.next;
      x.status >= 1 && WaiterOk(x.(status := x.status - 1, got := x.got + [i], phase := Registering(i + 1)), regs)
  {
    hide Upto;
    var i := x.phase.next;
    NextUpto(i);
    Associate(multiset(x.got), regs, multiset{i});
    TakeOne(x.got, regs, i, i + 1);
    UptoOnce(i, 0);
    assert |multiset(x.got) + regs| == |x.got| + |regs|;
  }

  lemma NextUpto(i: nat)
    ensures Upto(i + 1) == Upto(i) + multiset{i}
  {
  }

  /** A registering waiter joins a queue. */
  lemma JoinOk(x: Waiter, regs: multiset<nat>)
    requires WaiterOk(x, regs) && x.phase.Registering? && x.phase.next < |x.events|
    ensures var i := x.phase.next;
      WaiterOk(x.(refs := x.refs + 1, phase := Registering(i + 1)), regs + multiset{i})
  {
    hide Upto;
    var i := x.phase.next;
    NextUpto(i);
    assert |regs + multiset{i}| == |regs| + 1;
    Associate(multiset(x.got), regs, multiset{i});
  }

  lemma ParkOk(x: Waiter, regs: multiset<nat>)
    requires WaiterOk(x, regs) && (x.phase == Registering(|x.events|) || x.phase == Waiting) && !Satisfied(x)
    ensures WaiterOk(x.(phase := Waiting, signalled := false), regs)
  {
  }

  lemma FinishOk(x: Waiter, regs: multiset<nat>)
    requires WaiterOk(x, regs) && !x.phase.Over?
    ensures x.refs >= 1 && WaiterOk(Unref(x.(still := false, phase := Over)), regs)
  {
  }

  // ----- one step

  /** A step that changes one event and one waiter. */
  lemma Combine(s: State, s': State, e: nat, w: nat)
    requires Inv(s) && e < |s.evs| == |s'.evs| && w < |s.ws| == |s'.ws| && |s'.tally| == |s.tally|
    requires s'.evs == s.evs[e := s'.evs[e]] && s'.ws == s.ws[w := s'.ws[w]]
    requires s'.ws[w].events == s.ws[w].events
    requires EventOk(s'.ws, e, s'.evs[e]) && WaiterOk(s'.ws[w], Regs(s'.evs, w))
    requires forall y :: 0 <= y < |s.ws| && y != w ==> Regs(s'.evs, y) == Regs(s.evs, y)
    requires forall f :: 0 <= f < |s.evs| && f != e && VisitedBy(s.evs[f], w) ==> s'.ws[w].phase == s.ws[w].phase
    ensures Inv(s')
  {
    forall f | 0 <= f < |s'.evs|
      ensures EventOk(s'.ws, f, s'.evs[f])
    {
      assert EventOk(s.ws, f, s.evs[f]);
      if f != e {
        forall j | 0 <= j < |s.evs[f].queue|
          ensures EntryOk(s'.ws, f, s'.evs[f].queue[j])
        {
          assert EntryOk(s.ws, f, s.evs[f].queue[j]);
        }
      }
    }
  }

  /** Entries stay well-formed whatever happens to the other fields of the waiters. */
  lemma EntriesStay(ws: seq<Waiter>, ws': seq<Waiter>, e: nat, q: seq<Reg>)
    requires |ws| <= |ws'| && forall w :: 0 <= w < |ws| ==> ws'[w].events == ws[w].events
    requires forall j :: 0 <= j < |q| ==> EntryOk(ws, e, q[j])
    ensures forall j :: 0 <= j < |q| ==> EntryOk(ws', e, q[j])
  {
    forall j | 0 <= j < |q|
      ensures EntryOk(ws', e, q[j])
    {
      assert EntryOk(ws, e, q[j]);
    }
  }

  /** RemoveExpiredWaitHelper takes away one registration and one reference of an expired waiter, and nothing else. */
  lemma DropTakesOne(s: State, e: nat)
    requires Inv(s) && Drops(s, e)
    ensures var s', r := Step(s, Clean(e)), s.evs[e].queue[s.evs[e].lock.seen]; var w := r.waiter;
      && EntryOk(s.ws, e, r) && s'.ws == s.ws[w := Unref(s.ws[w])] && s'.evs == s.evs[e := s'.evs[e]]
      && forall y :: 0 <= y < |s.ws| ==>
           Regs(s.evs, y) == Regs(s'.evs, y) + if w == y then multiset{r.index} else multiset{}
  {
    var s', ev := Step(s, Clean(e)), s.evs[e];
    var j := ev.lock.seen;
    assert EventOk(s.ws, e, ev) && EntryOk(s.ws, e, ev.queue[j]);
    hide Inv, WaiterOk;
    forall y | 0 <= y < |s.ws|
      ensures Regs(s.evs, y) == Regs(s'.evs, y) + if ev.queue[j].waiter == y then multiset{ev.queue[j].index} else multiset{}
    {
      RegsDrop(s.evs, e, s'.evs[e], j, y);
    }
  }

  lemma DropKeeps(s: State, e: nat)
    requires Inv(s) && Drops(s, e)
    ensures Inv(Step(s, Clean(e)))
  {
    hide Regs, RegsIn, WaiterOk;
    var s', ev := Step(s, Clean(e)), s.evs[e];
    var r := ev.queue[ev.lock.seen];
    var w := r.waiter;
    DropTakesOne(s, e);
    assert EventOk(s.ws, e, ev);
    EntriesStay(s.ws, s'.ws, e, s'.evs[e].queue);
    assert WaiterOk(s.ws[w], Regs(s.evs, w));
    UnrefOk(s.ws[w], Regs(s'.evs, w), r.index);
    Combine(s, s', e, w);
  }

  lemma SetNextWaiters(s: State, e: nat)
    requires Inv(s) && Enabled(s, SetNext(e))
    ensures var s', r := Step(s, SetNext(e)), s.evs[e].queue[s.evs[e].lock.done]; var x := s.ws[r.waiter];
      && EntryOk(s.ws, e, r)
      && s'.ws == s.ws[r.waiter := s'.ws[r.waiter]] && |s'.ws| == |s.ws|
      && s'.ws[r.waiter] == (if x.still then Give(x.(refs := x.refs - 1), r.index) else Unref(x))
      && s'.tally == s.tally && s'.evs == s.evs[e := s'.evs[e]]
  {
    assert EventOk(s.ws, e, s.evs[e]);
  }

  lemma SetNextAuto(s: State, e: nat)
    requires Inv(s) && Enabled(s, SetNext(e)) && s.evs[e].auto
    ensures var s', ev := Step(s, SetNext(e)), s.evs[e]; var r := ev.queue[ev.lock.done];
      && ev.lock.done == 0 && EventOk(s.ws, e, ev)
      && s'.evs[e] == ev.(queue := ev.queue[1..], state := !s.ws[r.waiter].still,
                          lock := if s.ws[r.waiter].still then Signalling(0, r.waiter) else Setting(0))
  {
    hide WaiterOk, Regs;
    assert EventOk(s.ws, e, s.evs[e]);
  }

  lemma SetNextManual(s: State, e: nat)
    requires Inv(s) && Enabled(s, SetNext(e)) && !s.evs[e].auto
    ensures var ev := s.evs[e]; var k := ev.lock.done; var w := ev.queue[k].waiter;
      && ev.state
      && Step(s, SetNext(e)).evs[e] == ev.(lock := if s.ws[w].still then Signalling(k + 1, w) else Setting(k + 1))
  {
    hide WaiterOk, Regs;
    assert EventOk(s.ws, e, s.evs[e]);
  }

  lemma SetNextEvent(s: State, e: nat)
    requires Inv(s) && Enabled(s, SetNext(e))
    ensures var s', ev := Step(s, SetNext(e)), s.evs[e]; var r := ev.queue[ev.lock.done];
      && EventOk(s'.ws, e, s'.evs[e])
      && Live(ev) != [] && Live(ev)[0] == r && Live(s'.evs[e]) == Live(ev)[..0] + Live(ev)[1..]
  {
    hide Step, WaiterOk, Regs;
    var s', ev := Step(s, SetNext(e)), s.evs[e];
    SetNextWaiters(s, e);
    if ev.auto { SetNextAuto(s, e); } else { SetNextManual(s, e); }
    assert EventOk(s.ws, e, ev);
    EntriesStay(s.ws, s'.ws, e, ev.queue);
  }

  /** A round of SetEvent takes away one registration and one reference, and gives the event to the waiter exactly if it
      still waits. */
  lemma SetNextTakesOne(s: State, e: nat)
    requires Inv(s) && Enabled(s, SetNext(e))
    ensures var s', r := Step(s, SetNext(e)), s.evs[e].queue[s.evs[e].lock.done]; var w, x := r.waiter, s.ws[r.waiter];
      && EntryOk(s.ws, e, r) && |s'.ws| == |s.ws| && s'.ws == s.ws[w := s'.ws[w]] && s'.evs == s.evs[e := s'.evs[e]]
      && s'.ws[w].refs == x.refs - 1 && s'.ws[w].got == x.got + (if x.still then [r.index] else [])
      && (x.still && !x.all ==> s'.ws[w].status == r.index && !s'.ws[w].still)
      && (x.still && x.all ==> s'.ws[w].status == x.status - 1)
      && (!x.still ==> s'.ws[w].status == x.status)
      && forall y :: 0 <= y < |s.ws| ==>
           Regs(s.evs, y) == Regs(s'.evs, y) + if w == y then multiset{r.index} else multiset{}
  {
    hide Step, EventOk, RegsIn, Regs, WaiterOk;
    var s', ev := Step(s, SetNext(e)), s.evs[e];
    SetNextEvent(s, e);
    SetNextWaiters(s, e);
    forall y | 0 <= y < |s.ws|
      ensures Regs(s.evs, y) == Regs(s'.evs, y) + if Live(ev)[0].waiter == y then multiset{Live(ev)[0].index} else multiset{}
    {
      RegsDrop(s.evs, e, s'.evs[e], 0, y);
    }
  }

  lemma SetNextKeeps(s: State, e: nat)
    requires Inv(s) && Enabled(s, SetNext(e))
    ensures Inv(Step(s, SetNext(e)))
  {
    hide Step, EventOk, RegsIn, Regs, WaiterOk;
    var s', ev := Step(s, SetNext(e)), s.evs[e];
    var r := ev.queue[ev.lock.done];
    var w := r.waiter;
    SetNextEvent(s, e);
    SetNextWaiters(s, e);
    SetNextTakesOne(s, e);
    NoVisitor(s, w);
    assert WaiterOk(s.ws[w], Regs(s.evs, w));
    if s.ws[w].still {
      GiveOk(s.ws[w], Regs(s'.evs, w), r.index);
    } else {
      UnrefOk(s.ws[w], Regs(s'.evs, w), r.index);
    }
    Combine(s, s', e, w);
  }

  /** The signal changes nothing that is counted. */
  lemma SignalKeeps(s: State, e: nat)
    requires Inv(s) && Enabled(s, Signal(e))
    ensures Inv(Step(s, Signal(e)))
  {
    hide Regs, RegsIn;
    var s', w := Step(s, Signal(e)), s.evs[e].lock.waiter;
    assert EventOk(s.ws, e, s.evs[e]) && WaiterOk(s.ws[w], Regs(s.evs, w));
    EntriesStay(s.ws, s'.ws, e, s.evs[e].queue);
    forall y | 0 <= y < |s.ws|
      ensures Regs(s'.evs, y) == Regs(s.evs, y)
    {
      RegsSame(s.evs, e, s'.evs[e], y);
    }
    hide Inv, Step, Enabled;
    Combine(s, s', e, w);
  }

  /** An event is being visited only by a waiter that is registering. */
  lemma NoVisitor(s: State, w: nat)
    requires Inv(s) && w < |s.ws| && (s.ws[w].phase.Registering? ==> s.ws[w].phase.next == |s.ws[w].events|)
    ensures forall f :: 0 <= f < |s.evs| ==> !VisitedBy(s.evs[f], w)
  {
    forall f | 0 <= f < |s.evs|
      ensures !VisitedBy(s.evs[f], w)
    {
      assert EventOk(s.ws, f, s.evs[f]);
    }
  }

  lemma RegisterEffect(s: State, w: nat)
    requires Inv(s) && Enabled(s, Register(w))
    ensures var s', x := Step(s, Register(w)), s.ws[w]; var i := x.phase.next; var e := x.events[i]; var ev := s.evs[e];
      && s'.tally == s.tally && s'.evs == s.evs[e := s'.evs[e]] && s'.ws == s.ws[w := s'.ws[w]]
      && s'.evs[e] == (if ev.state then ev.(lock := Open, state := !ev.auto)
                       else ev.(lock := Open, queue := ev.queue + [Reg(w, i)]))
      && s'.ws[w] == (if !ev.state then x.(refs := x.refs + 1, phase := Registering(i + 1))
                      else if x.all then x.(status := x.status - 1, got := x.got + [i], phase := Registering(i + 1))
                      else x.(status := i, got := x.got + [i], phase := Taken))
  {
    hide WaiterOk, EventOk, Regs;
  }

  lemma RegisterEvent(s: State, w: nat)
    requires Inv(s) && Enabled(s, Register(w))
    ensures var s', i := Step(s, Register(w)), s.ws[w].phase.next; var e := s.ws[w].events[i]; var ev := s.evs[e];
      && EventOk(s'.ws, e, s'.evs[e])
      && Live(s'.evs[e]) == Live(ev) + (if ev.state then [] else [Reg(w, i)])
      && forall f :: 0 <= f < |s.evs| && f != e ==> !VisitedBy(s.evs[f], w)
  {
    hide WaiterOk, Regs;
    var s', e := Step(s, Register(w)), s.ws[w].events[s.ws[w].phase.next];
    assert EventOk(s.ws, e, s.evs[e]);
    RegisterEffect(s, w);
    hide Step;
    EntriesStay(s.ws, s'.ws, e, s.evs[e].queue);
    forall f | 0 <= f < |s.evs| && f != e
      ensures !VisitedBy(s.evs[f], w)
    {
      assert EventOk(s.ws, f, s.evs[f]);
    }
  }

  lemma RegisterRegs(s: State, w: nat, y: nat)
    requires Inv(s) && Enabled(s, Register(w)) && y < |s.ws|
    ensures var s', i := Step(s, Register(w)), s.ws[w].phase.next; var ev := s.evs[s.ws[w].events[i]];
      && (ev.state || w != y ==> Regs(s'.evs, y) == Regs(s.evs, y))
      && (!ev.state && w == y ==> Regs(s'.evs, y) == Regs(s.evs, y) + multiset{i})
  {
    var s', i := Step(s, Register(w)), s.ws[w].phase.next;
    var e := s.ws[w].events[i];
    RegisterEffect(s, w);
    RegisterEvent(s, w);
    hide Step, EventOk, WaiterOk, Inv, Regs;
    if s.evs[e].state { RegsSame(s.evs, e, s'.evs[e], y); } else { RegsJoin(s.evs, e, s'.evs[e], Reg(w, i), y); }
  }

  /** Registering moves the next position of the list to the deliveries, if the event is signalled, or to the
      registrations, with one more reference. */
  lemma RegisterMovesOne(s: State, w: nat)
    requires Inv(s) && Enabled(s, Register(w))
    ensures var s', x := Step(s, Register(w)), s.ws[w]; var i := x.phase.next; var on := s.evs[x.events[i]].state;
      && |s'.ws| == |s.ws| && s'.ws == s.ws[w := s'.ws[w]]
      && s'.ws[w].got == x.got + (if on then [i] else []) && s'.ws[w].refs == x.refs + (if on then 0 else 1)
      && forall y :: 0 <= y < |s.ws| ==>
           Regs(s'.evs, y) == if w == y && !on then Regs(s.evs, y) + multiset{i} else Regs(s.evs, y)
  {
    hide Step, EventOk, WaiterOk, Regs;
    var s', x := Step(s, Register(w)), s.ws[w];
    RegisterEffect(s, w);
    forall y | 0 <= y < |s.ws|
      ensures var i := x.phase.next;
        Regs(s'.evs, y) == if w == y && !s.evs[x.events[i]].state then Regs(s.evs, y) + multiset{i} else Regs(s.evs, y)
    {
      RegisterRegs(s, w, y);
    }
  }

  lemma VisitOk(x: Waiter, regs: multiset<nat>, x': Waiter, regs': multiset<nat>, signalled: bool)
    requires WaiterOk(x, regs) && x.phase.Registering? && x.phase.next < |x.events|
    requires signalled ==> regs' == regs
    requires !signalled ==> regs' == regs + multiset{x.phase.next}
    requires x' == var i := x.phase.next;
                   if !signalled then x.(refs := x.refs + 1, phase := Registering(i + 1))
                   else if x.all then x.(status := x.status - 1, got := x.got + [i], phase := Registering(i + 1))
                   else x.(status := i, got := x.got + [i], phase := Taken)
    ensures WaiterOk(x', regs')
  {
    hide WaiterOk;
    if signalled { TakeOk(x, regs); } else { JoinOk(x, regs); }
  }

  lemma RegisterWaiter(s: State, w: nat)
    requires Inv(s) && Enabled(s, Register(w))
    ensures WaiterOk(Step(s, Register(w)).ws[w], Regs(Step(s, Register(w)).evs, w))
  {
    var s', x := Step(s, Register(w)), s.ws[w];
    hide Step, Regs, WaiterOk, EventOk;
    assert WaiterOk(x, Regs(s.evs, w));
    RegisterEffect(s, w);
    RegisterRegs(s, w, w);
    VisitOk(x, Regs(s.evs, w), s'.ws[w], Regs(s'.evs, w), s.evs[x.events[x.phase.next]].state);
  }

  lemma RegisterKeeps(s: State, w: nat)
    requires Inv(s) && Enabled(s, Register(w))
    ensures Inv(Step(s, Register(w)))
  {
    var s', e := Step(s, Register(w)), s.ws[w].events[s.ws[w].phase.next];
    RegisterEffect(s, w);
    RegisterEvent(s, w);
    RegisterWaiter(s, w);
    hide Step, EventOk, Regs, WaiterOk;
    forall y | 0 <= y < |s.ws| && y != w
      ensures Regs(s'.evs, y) == Regs(s.evs, y)
    {
      RegisterRegs(s, w, y);
    }
    hide Inv, Enabled;
    Combine(s, s', e, w);
  }

  /** A step that changes one event but not its registrations, and no waiter. */
  lemma EventOnly(s: State, s': State, e: nat)
    requires Inv(s) && e < |s.evs| == |s'.evs| && s'.ws == s.ws && |s'.tally| == |s.tally|
    requires s'.evs == s.evs[e := s'.evs[e]] && EventOk(s.ws, e, s'.evs[e]) && Live(s'.evs[e]) == Live(s.evs[e])
    ensures Inv(s')
  {
    forall y | 0 <= y < |s.ws|
      ensures WaiterOk(s'.ws[y], Regs(s'.evs, y))
    {
      RegsSame(s.evs, e, s'.evs[e], y);
    }
    forall f | 0 <= f < |s'.evs|
      ensures EventOk(s'.ws, f, s'.evs[f])
    {
      assert EventOk(s.ws, f, s.evs[f]);
    }
  }

  /** A step that changes one waiter, and no event. */
  lemma WaiterOnly(s: State, s': State, w: nat)
    requires Inv(s) && s'.evs == s.evs && w < |s.ws| == |s'.ws| && s'.tally == s.tally
    requires s'.ws == s.ws[w := s'.ws[w]] && s'.ws[w].events == s.ws[w].events
    requires WaiterOk(s'.ws[w], Regs(s.evs, w))
    requires s.ws[w].phase.Registering? ==> s.ws[w].phase.next == |s.ws[w].events|
    ensures Inv(s')
  {
    NoVisitor(s, w);
    forall f | 0 <= f < |s'.evs|
      ensures EventOk(s'.ws, f, s'.evs[f])
    {
      assert EventOk(s.ws, f, s.evs[f]);
      EntriesStay(s.ws, s'.ws, f, s.evs[f].queue);
    }
  }

  /** Nobody is registered who has not called yet. */
  lemma NotYetRegistered(s: State)
    requires Inv(s)
    ensures Regs(s.evs, |s.ws|) == multiset{}
  {
    hide WaiterOk, EventOk;
    forall e, j | 0 <= e < |s.evs| && 0 <= j < |Live(s.evs[e])|
      ensures Live(s.evs[e])[j].waiter != |s.ws|
    {
      LiveEntry(s.ws, e, s.evs[e], j);
    }
    RegsOverNone(Lives(s.evs), |s.ws|);
  }

  lemma CallKeeps(s: State, all: bool, events: seq<nat>)
    requires Inv(s) && Enabled(s, Call(all, events))
    ensures Inv(Step(s, Call(all, events)))
  {
    hide Regs, RegsIn;
    var s' := Step(s, Call(all, events));
    NotYetRegistered(s);
    forall e | 0 <= e < |s.evs|
      ensures EventOk(s'.ws, e, s.evs[e])
    {
      assert EventOk(s.ws, e, s.evs[e]);
      EntriesStay(s.ws, s'.ws, e, s.evs[e].queue);
    }
  }

  lemma LiveEntry(ws: seq<Waiter>, e: nat, ev: Event, j: nat)
    requires EventOk(ws, e, ev) && j < |Live(ev)|
    ensures EntryOk(ws, e, Live(ev)[j])
  {
    assert EntryOk(ws, e, ev.queue[j + |ev.queue| - |Live(ev)|]);
  }

  /** The steps that change one event and leave its registrations as they are. */
  lemma EventKeeps(s: State, a: Action)
    requires Inv(s) && Enabled(s, a)
    requires a.Visit? || a.Busy? || a.SetBegin? || a.SetEnd? || a.Reset? || a.WaitTake?
    ensures Inv(Step(s, a))
  {
    hide WaiterOk, Regs;
    var s', e := Step(s, a), if a.Visit? then s.ws[a.w].events[s.ws[a.w].phase.next] else a.e;
    assert EventOk(s.ws, e, s.evs[e]);
    EventOnly(s, s', e);
  }

  lemma WaiterKeeps(s: State, a: Action)
    requires Inv(s) && Enabled(s, a) && (a.Park? || a.Finish?)
    ensures Inv(Step(s, a))
  {
    var s' := Step(s, a);
    match a
    case Park(w) => ParkOk(s.ws[w], Regs(s.evs, w)); WaiterOnly(s, s', w);
    case Finish(w, _) => FinishOk(s.ws[w], Regs(s.evs, w)); WaiterOnly(s, s', w);
  }

  lemma CleanKeeps(s: State, e: nat)
    requires Inv(s) && Enabled(s, Clean(e))
    ensures Inv(Step(s, Clean(e)))
  {
    if Drops(s, e) {
      DropKeeps(s, e);
    } else {
      hide WaiterOk, Regs;
      assert EventOk(s.ws, e, s.evs[e]);
      EventOnly(s, Step(s, Clean(e)), e);
    }
  }

  /** The accounting theorem, one step of any thread. */
  lemma StepKeeps(s: State, a: Action)
    requires Inv(s) && Enabled(s, a)
    ensures Inv(Step(s, a))
  {
    hide Inv, Enabled, Step;
    match a
    case Call(all, events) => CallKeeps(s, all, events);
    case Clean(e) => CleanKeeps(s, e);
    case Register(w) => RegisterKeeps(s, w);
    case SetNext(e) => SetNextKeeps(s, e);
    case Signal(e) => SignalKeeps(s, e);
    case Park(_) => WaiterKeeps(s, a);
    case Finish(_, _) => WaiterKeeps(s, a);
    case _ => EventKeeps(s, a);
  }
}
