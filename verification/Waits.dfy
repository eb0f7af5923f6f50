/** What the accounting invariant means for callers of pevents.h. */
module Waits {
  import opened PEvents
  import opened Accounting

  // ----- the program's assertions and the lifetime of waiters

  /** The waiter whose count an action decrements. */
  function Decremented(s: State, a: Action): (w: nat)
    requires Enabled(s, a) && ((a.Clean? && Drops(s, a.e)) || a.Finish? || a.SetNext?)
    ensures w < |s.ws|
  {
    match a
    case Clean(e) => s.evs[e].queue[s.evs[e].lock.seen].waiter
    case Finish(w, _) => w
    case SetNext(e) => s.evs[e].queue[s.evs[e].lock.done].waiter
  }

  lemma {:induction false} RegsInMember(q: seq<Reg>, j: nat)
    requires j < |q|
    ensures q[j].index in RegsIn(q, q[j].waiter)
  {
    if j < |q| - 1 { RegsInMember(q[..|q| - 1], j); }
  }

  /** No queue ever names a destroyed waiter, except entries a manual-reset SetEvent has been through and is about to
      clear; every entry still to be served counts as a reference. */
  lemma EntryAlive(s: State, e: nat, j: nat)
    requires Inv(s) && e < |s.evs| && j < |Live(s.evs[e])|
    ensures var r := Live(s.evs[e])[j];
      && r.waiter < |s.ws| && s.ws[r.waiter].refs >= 1 && s.ws[r.waiter].destroyed == 0
      && r.index in Regs(s.evs, r.waiter)
  {
    var r := Live(s.evs[e])[j];
    assert EventOk(s.ws, e, s.evs[e]);
    LiveEntry(s.ws, e, s.evs[e], j);
    RegsInMember(Live(s.evs[e]), j);
    RegsOverHas(Lives(s.evs), e, r.waiter);
    assert WaiterOk(s.ws[r.waiter], Regs(s.evs, r.waiter));
    assert |Regs(s.evs, r.waiter)| > 0;
  }

  /** A wait-all waiter with a registration left has an event left. */
  lemma LeftPositive(x: Waiter, regs: multiset<nat>)
    requires WaiterOk(x, regs) && |regs| > 0
    ensures x.all && x.still ==> x.status >= 1
  {
    assert |multiset(x.got) + regs| == |x.got| + |regs|;
    UptoOnce(Seen(x), 0);
  }

  lemma CleanAlive(s: State, e: nat)
    requires Inv(s) && Enabled(s, Clean(e))
    ensures var x := s.ws[s.evs[e].queue[s.evs[e].lock.seen].waiter]; x.refs >= 1 && x.destroyed == 0
  {
    hide EventOk, Regs, WaiterOk;
    EntryAlive(s, e, s.evs[e].lock.seen);
  }

  lemma RegisterAlive(s: State, w: nat)
    requires Inv(s) && Enabled(s, Register(w))
    ensures var x := s.ws[w]; x.destroyed == 0 && (x.all ==> x.status >= 1)
  {
    hide EventOk, Regs;
    assert WaiterOk(s.ws[w], Regs(s.evs, w));
    TakeOk(s.ws[w], Regs(s.evs, w));
  }

  lemma RoundAlive(s: State, e: nat)
    requires Inv(s) && Enabled(s, SetNext(e))
    ensures var x := s.ws[s.evs[e].queue[s.evs[e].lock.done].waiter];
      x.refs >= 1 && x.destroyed == 0 && (x.still && x.all ==> x.status >= 1)
  {
    hide EventOk, Regs, WaiterOk, Step;
    SetNextEvent(s, e);
    EntryAlive(s, e, 0);
    var w := s.evs[e].queue[s.evs[e].lock.done].waiter;
    assert WaiterOk(s.ws[w], Regs(s.evs, w));
    LeftPositive(s.ws[w], Regs(s.evs, w));
  }

  /** Reference counting is exact, and a waiter is destroyed once, when the count reaches 0. */
  lemma RefCountExact(s: State, w: nat)
    requires Inv(s) && w < |s.ws|
    ensures s.ws[w].refs == |Regs(s.evs, w)| + (if s.ws[w].phase.Over? then 0 else 1)
    ensures s.ws[w].destroyed <= 1 && (s.ws[w].destroyed == 1 <==> s.ws[w].refs == 0)
  {
    assert WaiterOk(s.ws[w], Regs(s.evs, w));
  }

  /** None of the program's assertions can fail: RefCount stays nonnegative at each decrement, EventsLeft stays
      nonnegative, and no step under a waiter mutex touches a waiter that has been destroyed.  The signal comes after that
      mutex is released: it finds its waiter alive unless the waiter's call is over and no queue refers to it. */
  lemma AssertionsHold(s: State, a: Action)
    requires Inv(s) && Enabled(s, a)
    ensures (a.Clean? && Drops(s, a.e)) || a.Finish? || a.SetNext? ==>
              s.ws[Decremented(s, a)].refs >= 1 && s.ws[Decremented(s, a)].destroyed == 0
    ensures a.SetNext? ==> var x := s.ws[Decremented(s, a)]; x.still && x.all ==> x.status >= 1
    ensures a.Register? ==> var x := s.ws[a.w]; x.destroyed == 0 && (x.all ==> x.status >= 1)
    ensures a.Signal? ==> var w := s.evs[a.e].lock.waiter;
      s.ws[w].destroyed > 0 <==> s.ws[w].phase.Over? && Regs(s.evs, w) == multiset{}
  {
    hide Inv, Regs;
    match a
    case Clean(e) => CleanAlive(s, e);
    case SetNext(e) => RoundAlive(s, e);
    case Register(w) => RegisterAlive(s, w);
    case Finish(w, t) => RefCountExact(s, w);
    case Signal(e) => RefCountExact(s, s.evs[e].lock.waiter);
    case _ =>
  }

  // ----- wait-all

  /** While a wait-all call waits, EventsLeft is the number of its registrations.  It is 0 exactly when every listed
      event has been given to it, each once, and then no queue refers to the waiter. */
  lemma WaitAllAccounting(s: State, w: nat)
    requires Inv(s) && w < |s.ws| && s.ws[w].all && s.ws[w].phase.Waiting?
    ensures var x := s.ws[w];
      && x.status == |Regs(s.evs, w)| && x.refs == x.status + 1
      && (x.status == 0 <==> multiset(x.got) == Upto(|x.events|))
      && (x.status == 0 <==> Regs(s.evs, w) == multiset{})
  {
    var x, regs := s.ws[w], Regs(s.evs, w);
    assert WaiterOk(x, regs);
    UptoOnce(|x.events|, 0);
    assert |multiset(x.got) + regs| == |x.got| + |regs|;
    if multiset(x.got) == Upto(|x.events|) {
      assert |multiset(x.got)| == |x.events|;
    }
  }

  /** A wait-all call that returns without a timeout has been given every event of its list exactly once. */
  lemma WaitAllReturns(s: State, w: nat)
    requires Inv(s) && Enabled(s, Finish(w, false)) && s.ws[w].all
    ensures multiset(s.ws[w].got) == Upto(|s.ws[w].events|) && Regs(s.evs, w) == multiset{}
  {
    var x, regs := s.ws[w], Regs(s.evs, w);
    assert WaiterOk(x, regs);
    UptoOnce(|x.events|, 0);
    assert |multiset(x.got) + regs| == |x.got| + |regs|;
  }

  // ----- wait-any

  /** A wait-any call is given at most one event, and the index it returns is -1 exactly when it was given none, also
      when its result is a timeout. */
  lemma WaitAnyTakesOne(s: State, w: nat, timedOut: bool)
    requires Inv(s) && Enabled(s, Finish(w, timedOut)) && !s.ws[w].all
    ensures var x := Step(s, Finish(w, timedOut)).ws[w];
      && (x.status == -1 <==> x.got == [])
      && (x.got != [] ==> x.got == [x.status] && 0 <= x.status < |x.events|)
      && (!timedOut ==> x.got != [])
  {
    var x := s.ws[w];
    assert WaiterOk(x, Regs(s.evs, w));
    assert x.got != [] ==> x.got[0] in x.got;
  }

  /** FiredEvent leaves -1 at most once, and nothing is given to a waiter whose call has returned. */
  lemma FiredOnce(s: State, a: Action, w: nat)
    requires Inv(s) && Enabled(s, a) && w < |s.ws|
    ensures var x, x' := s.ws[w], Step(s, a).ws[w];
      && (x'.got == x.got || exists i :: x'.got == x.got + [i])
      && (!x.all && x.status != -1 ==> x'.status == x.status && x'.got == x.got)
      && (x.phase.Over? ==> x'.got == x.got && x'.status == x.status)
  {
    hide EventOk, Regs, WaiterOk;
    FiredOnceWaiter(s, w);
    if a.SetNext? {
      SetNextWaiters(s, a.e);
      hide Step;
      var r := s.evs[a.e].queue[s.evs[a.e].lock.done];
      if r.waiter != w { assert Step(s, a).ws[w] == s.ws[w]; }
    }
  }

  /** A waiter that has been given its one event, or whose call is over, is not waiting any more. */
  lemma FiredOnceWaiter(s: State, w: nat)
    requires Inv(s) && w < |s.ws|
    ensures var x := s.ws[w];
      && (!x.all && x.status != -1 ==> (x.phase.Taken? || !x.still) && !x.phase.Registering?)
      && (x.phase.Over? ==> !x.still)
  {
    assert WaiterOk(s.ws[w], Regs(s.evs, w));
  }

  // ----- events

  /** A signalled event has no registered waiter whenever its mutex is free. */
  lemma SignalledHasNoWaiter(s: State, e: nat)
    requires Inv(s) && e < |s.evs| && s.evs[e].lock == Open
    ensures s.evs[e].state ==> s.evs[e].queue == [] && forall w :: RegsIn(Live(s.evs[e]), w) == multiset{}
  {
    assert EventOk(s.ws, e, s.evs[e]);
  }

  // ----- auto-reset tokens

  ghost function GivenBy(events: seq<nat>, got: seq<nat>, e: nat): nat {
    if got == [] then 0 else
      var k := |got| - 1;
      GivenBy(events, got[..k], e) + if got[k] < |events| && events[got[k]] == e then 1 else 0
  }

  /** How often event e has been given to some waiter. */
  ghost function Given(ws: seq<Waiter>, e: nat): nat {
    if ws == [] then 0 else
      var k := |ws| - 1;
      Given(ws[..k], e) + GivenBy(ws[k].events, ws[k].got, e)
  }

  lemma {:induction false} GivenUpdate(ws: seq<Waiter>, w: nat, x: Waiter, e: nat)
    requires w < |ws|
    ensures Given(ws[w := x], e) == Given(ws, e) + GivenBy(x.events, x.got, e) - GivenBy(ws[w].events, ws[w].got, e)
    decreases |ws|
  {
    var k := |ws| - 1;
    if w == k {
      assert ws[w := x][..k] == ws[..k];
    } else {
      GivenUpdate(ws[..k], w, x, e);
      assert ws[w := x][..k] == ws[..k][w := x];
    }
  }

  /** Every SetEvent on an auto-reset event is accounted for: given to a waiter, taken by a WaitForEvent, merged into
      a State that was already true, cleared by a reset, or still there. */
  ghost predicate Balanced(s: State, e: nat)
    requires e < |s.evs| == |s.tally|
  {
    var t := s.tally[e];
    s.evs[e].auto ==>
      t.sets == Given(s.ws, e) + t.taken + t.merged + t.cleared + if s.evs[e].state then 1 else 0
  }

  /** The event an action gives to a waiter, or -1. */
  function Gives(s: State, a: Action): int
    requires Enabled(s, a)
  {
    match a
    case Register(w) =>
      var e := s.ws[w].events[s.ws[w].phase.next];
      if s.evs[e].state then e else -1
    case SetNext(e) => if s.ws[s.evs[e].queue[s.evs[e].lock.done].waiter].still then e else -1
    case _ => -1
  }

  lemma OneGiven(ws: seq<Waiter>, w: nat, x: Waiter, i: nat, e: nat)
    requires w < |ws| && x.events == ws[w].events && x.got == ws[w].got + [i] && i < |x.events|
    ensures Given(ws[w := x], e) == Given(ws, e) + if x.events[i] == e then 1 else 0
  {
    GivenUpdate(ws, w, x, e);
    assert x.got[..|ws[w].got|] == ws[w].got;
  }

  lemma RegisterGives(s: State, w: nat, e: nat)
    requires Inv(s) && Enabled(s, Register(w))
    ensures Given(Step(s, Register(w)).ws, e) == Given(s.ws, e) + if Gives(s, Register(w)) == e then 1 else 0
  {
    var s', x := Step(s, Register(w)), s.ws[w];
    RegisterEffect(s, w);
    hide Step, Inv;
    if s.evs[x.events[x.phase.next]].state {
      OneGiven(s.ws, w, s'.ws[w], x.phase.next, e);
    } else {
      GivenUpdate(s.ws, w, s'.ws[w], e);
    }
  }

  lemma SetNextGives(s: State, f: nat, e: nat)
    requires Inv(s) && Enabled(s, SetNext(f))
    ensures Given(Step(s, SetNext(f)).ws, e) == Given(s.ws, e) + if Gives(s, SetNext(f)) == e then 1 else 0
  {
    var s', r := Step(s, SetNext(f)), s.evs[f].queue[s.evs[f].lock.done];
    SetNextWaiters(s, f);
    hide Step, Inv;
    if s.ws[r.waiter].still {
      OneGiven(s.ws, r.waiter, s'.ws[r.waiter], r.index, e);
    } else {
      GivenUpdate(s.ws, r.waiter, s'.ws[r.waiter], e);
    }
  }

  /** An action gives event e to a waiter once or not at all. */
  lemma GivenStep(s: State, a: Action, e: nat)
    requires Inv(s) && Enabled(s, a)
    ensures Given(Step(s, a).ws, e) == Given(s.ws, e) + if Gives(s, a) == e then 1 else 0
  {
    match a
    case Register(w) => RegisterGives(s, w, e);
    case SetNext(f) => SetNextGives(s, f, e);
    case Call(all, events) => assert Step(s, a).ws[..|s.ws|] == s.ws;
    case Clean(f) =>
      if Drops(s, f) {
        var w := s.evs[f].queue[s.evs[f].lock.seen].waiter;
        GivenUpdate(s.ws, w, Step(s, a).ws[w], e);
      }
    case Park(w) => GivenUpdate(s.ws, w, Step(s, a).ws[w], e);
    case Finish(w, _) => GivenUpdate(s.ws, w, Step(s, a).ws[w], e);
    case Signal(f) =>
      var w := s.evs[f].lock.waiter;
      GivenUpdate(s.ws, w, Step(s, a).ws[w], e);
    case _ =>
  }

  /** What an action does to the state and the tally of event e. */
  lemma TallyStep(s: State, a: Action, e: nat)
    requires Inv(s) && Enabled(s, a) && e < |s.evs| && s.evs[e].auto
    ensures |Step(s, a).evs| == |Step(s, a).tally| == |s.evs|
    ensures var t, t', ev' := s.tally[e], Step(s, a).tally[e], Step(s, a).evs[e];
      var b, b' := if s.evs[e].state then 1 else 0, if ev'.state then 1 else 0;
      ev'.auto && t'.sets - t'.taken - t'.merged - t'.cleared - b' ==
                  t.sets - t.taken - t.merged - t.cleared - b + if Gives(s, a) == e then 1 else 0
  {
    hide WaiterOk, Regs;
    if a.Register? {
      RegisterEffect(s, a.w);
      hide Step;
    } else if a.SetNext? && a.e == e {
      SetNextAuto(s, e);
      SetNextWaiters(s, e);
      hide Step;
    }
  }

  /** Token conservation, one step. */
  lemma BalancedKeeps(s: State, a: Action, e: nat)
    requires Inv(s) && Enabled(s, a) && e < |s.evs| && Balanced(s, e)
    ensures |Step(s, a).evs| == |Step(s, a).tally| == |s.evs| && Step(s, a).evs[e].auto == s.evs[e].auto
    ensures Balanced(Step(s, a), e)
  {
    SameKind(s, a, e);
    if s.evs[e].auto {
      GivenStep(s, a, e);
      TallyStep(s, a, e);
    }
    hide Step, Given, Inv, Gives;
  }

  lemma SameKind(s: State, a: Action, e: nat)
    requires Inv(s) && Enabled(s, a) && e < |s.evs|
    ensures |Step(s, a).evs| == |Step(s, a).tally| == |s.evs| && Step(s, a).evs[e].auto == s.evs[e].auto
  {
    hide WaiterOk, EventOk, Regs;
  }

  // ----- whole runs

  ghost predicate Start(s: State) {
    && s.ws == [] && |s.tally| == |s.evs|
    && forall e :: 0 <= e < |s.evs| ==>
         s.evs[e].queue == [] && s.evs[e].lock == Open && !s.evs[e].state && s.tally[e] == Tally(0, 0, 0, 0)
  }

  /** A run is a list of actions, each enabled when it is reached. */
  ghost predicate Legal(s: State, acts: seq<Action>)
    decreases |acts|
  {
    acts == [] || (|s.tally| == |s.evs| && Enabled(s, acts[0]) && Legal(Step(s, acts[0]), acts[1..]))
  }

  ghost function Run(s: State, acts: seq<Action>): State
    requires Legal(s, acts)
    decreases |acts|
  {
    if acts == [] then s else Run(Step(s, acts[0]), acts[1..])
  }

  ghost predicate AllBalanced(s: State) {
    Inv(s) && forall e :: 0 <= e < |s.evs| ==> Balanced(s, e)
  }

  lemma {:induction false} RunKeeps(s: State, acts: seq<Action>)
    requires AllBalanced(s) && Legal(s, acts)
    ensures AllBalanced(Run(s, acts))
    decreases |acts|
  {
    if acts != [] {
      StepKeeps(s, acts[0]);
      forall e | 0 <= e < |s.evs|
        ensures |Step(s, acts[0]).evs| == |s.evs| && Balanced(Step(s, acts[0]), e)
      {
        BalancedKeeps(s, acts[0], e);
      }
      SameEvents(s, acts[0]);
      hide Step, Inv, Balanced, Enabled;
      RunKeeps(Step(s, acts[0]), acts[1..]);
    }
  }

  lemma SameEvents(s: State, a: Action)
    requires Inv(s) && Enabled(s, a)
    ensures |Step(s, a).evs| == |s.evs|
  {
  }

  /** Over every run from events with no waiters: the accounting invariant holds, and on every auto-reset event no
      token is ever duplicated or lost. */
  lemma AccountingTheorem(s: State, acts: seq<Action>)
    requires Start(s) && Legal(s, acts)
    ensures AllBalanced(Run(s, acts))
  {
    assert AllBalanced(s);
    RunKeeps(s, acts);
  }

  // ----- the signal

  /** While SetEvent holds the mutex of an event, nothing else touches the event. */
  lemma EventUntouched(s: State, a: Action, e: nat)
    requires Inv(s) && Enabled(s, a) && e < |s.evs| && InSet(s.evs[e].lock)
    requires a != SetNext(e) && a != Signal(e) && a != SetEnd(e)
    ensures |Step(s, a).evs| == |s.evs| && Step(s, a).evs[e] == s.evs[e]
  {
    hide WaiterOk, EventOk, Regs;
  }

  /** Some SetEvent is about to signal waiter w. */
  ghost predicate SignalDue(s: State, w: nat) {
    exists e :: 0 <= e < |s.evs| && s.evs[e].lock.Signalling? && s.evs[e].lock.waiter == w
  }

  /** A call in its condition wait whose exit test holds has been signalled since it began to wait, or is about to be. */
  ghost predicate Alerted(s: State, w: nat)
    requires w < |s.ws|
  {
    s.ws[w].phase.Waiting? && Satisfied(s.ws[w]) && !s.ws[w].signalled ==> SignalDue(s, w)
  }

  lemma SignalStaysDue(s: State, a: Action, w: nat)
    requires Inv(s) && Enabled(s, a) && w < |s.ws| && SignalDue(s, w)
    ensures SignalDue(Step(s, a), w) || (w < |Step(s, a).ws| && Step(s, a).ws[w].signalled)
  {
    hide WaiterOk, EventOk, Regs;
    var e :| 0 <= e < |s.evs| && s.evs[e].lock.Signalling? && s.evs[e].lock.waiter == w;
    if a == Signal(e) {
      assert Step(s, a).ws[w].signalled;
    } else {
      EventUntouched(s, a, e);
      assert Step(s, a).evs[e].lock.waiter == w;
    }
  }

  lemma AlertedKeeps(s: State, a: Action, w: nat)
    requires Inv(s) && Enabled(s, a) && w < |Step(s, a).ws| && (w < |s.ws| ==> Alerted(s, w))
    ensures Alerted(Step(s, a), w)
  {
    hide WaiterOk, EventOk, Regs, SignalDue;
    if w < |s.ws| && SignalDue(s, w) { SignalStaysDue(s, a, w); }
    if a.SetNext? {
      SetNextWaiters(s, a.e);
      GiveIsDue(s, a.e);
      hide Step;
    }
  }

  lemma GiveIsDue(s: State, e: nat)
    requires Inv(s) && Enabled(s, SetNext(e))
    ensures var w := s.evs[e].queue[s.evs[e].lock.done].waiter; s.ws[w].still ==> SignalDue(Step(s, SetNext(e)), w)
  {
    hide WaiterOk, EventOk, Regs;
    assert s.ws[s.evs[e].queue[s.evs[e].lock.done].waiter].still ==> Step(s, SetNext(e)).evs[e].lock.Signalling?;
  }

  lemma {:induction false} AlertedRun(s: State, acts: seq<Action>)
    requires AllBalanced(s) && Legal(s, acts) && forall w :: 0 <= w < |s.ws| ==> Alerted(s, w)
    ensures forall w :: 0 <= w < |Run(s, acts).ws| ==> Alerted(Run(s, acts), w)
    decreases |acts|
  {
    hide Step, Inv, Balanced, Enabled, Alerted;
    if acts != [] {
      RunKeeps(s, acts[..1]);
      assert Run(s, acts[..1]) == Step(s, acts[0]);
      forall w | 0 <= w < |Step(s, acts[0]).ws|
        ensures Alerted(Step(s, acts[0]), w)
      {
        AlertedKeeps(s, acts[0], w);
      }
      AlertedRun(Step(s, acts[0]), acts[1..]);
    }
  }

  /** No lost wakeup, over every run: a WaitForMultipleEvents call that is in its condition wait although its exit test
      holds has been signalled since it began to wait, or a SetEvent is about to signal it. */
  lemma SatisfiedIsSignalled(s0: State, acts: seq<Action>, w: nat)
    requires Start(s0) && Legal(s0, acts)
    ensures var s := Run(s0, acts);
      w < |s.ws| && s.ws[w].phase.Waiting? && Satisfied(s.ws[w]) ==> s.ws[w].signalled || SignalDue(s, w)
  {
    hide Legal, Run;
    assert AllBalanced(s0);
    AlertedRun(s0, acts);
    assert w < |Run(s0, acts).ws| ==> Alerted(Run(s0, acts), w);
  }

  lemma {:induction false} LegalConcat(s: State, a: seq<Action>, b: seq<Action>)
    requires Legal(s, a) && Legal(Run(s, a), b)
    ensures Legal(s, a + b) && Run(s, a + b) == Run(Run(s, a), b)
    decreases |a|
  {
    hide Enabled, Step;
    if a == [] {
      assert a + b == b;
    } else {
      LegalConcat(Step(s, a[0]), a[1..], b);
      assert (a + b)[1..] == a[1..] + b;
    }
  }

  lemma LegalOne(s: State, a: Action)
    requires |s.tally| == |s.evs| && Enabled(s, a)
    ensures Legal(s, [a]) && Run(s, [a]) == Step(s, a)
  {
    hide Enabled, Step;
    assert [a][1..] == [];
  }

  /** One more action after a run. */
  lemma LegalNext(s: State, acts: seq<Action>, a: Action)
    requires Legal(s, acts)
    requires var m := Run(s, acts); |m.tally| == |m.evs| && Enabled(m, a)
    ensures Legal(s, acts + [a]) && Run(s, acts + [a]) == Step(Run(s, acts), a)
  {
    hide Enabled, Step;
    LegalOne(Run(s, acts), a);
    LegalConcat(s, acts, [a]);
  }

  /** One call waits for event 0, and nobody else is there. */
  ghost predicate WaitsAlone(s: State) {
    && |s.tally| == |s.evs| && |s.evs| > 0 && s.evs[0].queue == [Reg(0, 0)] && s.evs[0].lock == Open
    && |s.ws| == 1 && s.ws[0].phase == Waiting && !s.ws[0].all && s.ws[0].still && s.ws[0].refs == 2
    && s.ws[0].destroyed == 0
  }

  lemma ParksAlone(s0: State) returns (acts: seq<Action>)
    requires Start(s0) && |s0.evs| > 0
    ensures Legal(s0, acts) && WaitsAlone(Run(s0, acts))
  {
    hide Legal, Run;
    acts := [Call(false, [0])];
    LegalOne(s0, Call(false, [0]));
    LegalNext(s0, acts, Visit(0));
    acts := acts + [Visit(0)];
    LegalNext(s0, acts, Register(0));
    acts := acts + [Register(0)];
    LegalNext(s0, acts, Park(0));
    acts := acts + [Park(0)];
  }

  /** The signal can come too late: between the unlock of the waiter mutex and the signal the waiter wakes up by itself,
      finds its event, returns, and is destroyed. */
  lemma SignalTooLate(s0: State) returns (acts: seq<Action>)
    requires Start(s0) && |s0.evs| > 0
    ensures Legal(s0, acts)
    ensures var s := Run(s0, acts); Enabled(s, Signal(0)) && s.ws[s.evs[0].lock.waiter].destroyed == 1
  {
    hide Legal, Run;
    acts := ParksAlone(s0);
    LegalNext(s0, acts, SetBegin(0));
    acts := acts + [SetBegin(0)];
    LegalNext(s0, acts, SetNext(0));
    acts := acts + [SetNext(0)];
    LegalNext(s0, acts, Finish(0, false));
    acts := acts + [Finish(0, false)];
  }
}
