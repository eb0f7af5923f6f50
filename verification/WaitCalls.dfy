/** What the callers of pevents.h are promised, in the words of their arguments, over every run. */
module WaitCalls {
  import opened PEvents
  import opened Accounting
  import opened Waits

  // ----- arguments

  /** How many calls of WaitForMultipleEvents have begun. */
  function CallsIn(acts: seq<Action>): (n: nat)
    ensures n <= |acts|
  {
    if acts == [] then 0 else (if acts[0].Call? then 1 else 0) + CallsIn(acts[1..])
  }

  lemma ArgumentsKept(s: State, a: Action, w: nat)
    requires Enabled(s, a) && |s.tally| == |s.evs| && w < |s.ws|
    ensures var s' := Step(s, a); w < |s'.ws| && s'.ws[w].all == s.ws[w].all && s'.ws[w].events == s.ws[w].events
  {
  }

  lemma {:induction false} ArgumentsStay(s: State, acts: seq<Action>, w: nat)
    requires Legal(s, acts) && w < |s.ws|
    ensures var m := Run(s, acts); w < |m.ws| && m.ws[w].all == s.ws[w].all && m.ws[w].events == s.ws[w].events
    decreases |acts|
  {
    hide Step, Enabled;
    if acts != [] {
      ArgumentsKept(s, acts[0], w);
      ArgumentsStay(Step(s, acts[0]), acts[1..], w);
    }
  }

  lemma CallAdds(s: State, a: Action)
    requires Enabled(s, a) && |s.tally| == |s.evs|
    ensures var s' := Step(s, a);
      && |s'.ws| == |s.ws| + (if a.Call? then 1 else 0)
      && (a.Call? ==> s'.ws[|s.ws|].all == a.all && s'.ws[|s.ws|].events == a.events)
  {
  }

  /** The k-th call has the k-th waiter, with the mode and the list its caller passed, for ever. */
  lemma {:induction false} CallArguments(s: State, acts: seq<Action>, i: nat)
    requires Legal(s, acts) && i < |acts| && acts[i].Call?
    ensures var m, w := Run(s, acts), |s.ws| + CallsIn(acts[..i]);
      w < |m.ws| && m.ws[w].all == acts[i].all && m.ws[w].events == acts[i].events
    decreases i
  {
    hide Step, Enabled;
    CallAdds(s, acts[0]);
    if i == 0 {
      ArgumentsStay(Step(s, acts[0]), acts[1..], |s.ws|);
    } else {
      CallArguments(Step(s, acts[0]), acts[1..], i - 1);
      assert acts[1..][..i - 1] == acts[..i][1..];
    }
  }

  // ----- results

  /** A call with waitAll = true that returns without a timeout, in any run: every event of the list its caller passed has
      been given to it, each position once, and no queue refers to it. */
  lemma WaitAllCall(s0: State, acts: seq<Action>, i: nat, events: seq<nat>)
    requires Start(s0) && Legal(s0, acts) && i < |acts| && acts[i] == Call(true, events)
    requires Enabled(Run(s0, acts), Finish(CallsIn(acts[..i]), false))
    ensures var m, w := Run(s0, acts), CallsIn(acts[..i]);
      && w < |m.ws| && m.ws[w].events == events
      && multiset(m.ws[w].got) == Upto(|events|) && Regs(m.evs, w) == multiset{}
  {
    hide Legal, Run, Regs;
    CallArguments(s0, acts, i);
    AccountingTheorem(s0, acts);
    WaitAllReturns(Run(s0, acts), CallsIn(acts[..i]));
  }

  /** A call with waitAll = false, in any run: it returns the position, in the list its caller passed, of the one event it
      was given, or -1 if it was given none, which happens only with a timeout. */
  lemma WaitAnyCall(s0: State, acts: seq<Action>, i: nat, events: seq<nat>, timedOut: bool)
    requires Start(s0) && Legal(s0, acts) && i < |acts| && acts[i] == Call(false, events)
    requires Enabled(Run(s0, acts), Finish(CallsIn(acts[..i]), timedOut))
    ensures var m, w := Run(s0, acts), CallsIn(acts[..i]);
      && w < |m.ws| && |m.tally| == |m.evs| && m.ws[w].events == events
      && var x := Step(m, Finish(w, timedOut)).ws[w];
        if x.got == [] then x.status == -1 && timedOut else x.got == [x.status] && 0 <= x.status < |events|
  {
    hide Legal, Run, Regs;
    CallArguments(s0, acts, i);
    AccountingTheorem(s0, acts);
    WaitAnyTakesOne(Run(s0, acts), CallsIn(acts[..i]), timedOut);
  }

  /** The position of its waiter's list at which a step may give an event. */
  function PositionOf(s: State, a: Action): nat
    requires Enabled(s, a)
  {
    match a
    case Register(w) => s.ws[w].phase.next
    case SetNext(e) => s.evs[e].queue[s.evs[e].lock.done].index
    case _ => 0
  }

  /** Waiter w has been given the event of its list at the position of this step, and that event was signalled. */
  predicate GivenThere(s: State, a: Action, w: nat, got: seq<nat>)
    requires Enabled(s, a) && w < |s.ws|
  {
    var i, x := PositionOf(s, a), s.ws[w];
    && got == x.got + [i] && i < |x.events| && Gives(s, a) == x.events[i]
    && x.events[i] < |s.evs| && s.evs[x.events[i]].state
  }

  lemma RegisterGivesThere(s: State, v: nat, w: nat)
    requires Inv(s) && |s.tally| == |s.evs| && Enabled(s, Register(v)) && w < |s.ws|
    ensures var s' := Step(s, Register(v));
      w < |s'.ws| && (s'.ws[w].got != s.ws[w].got ==> GivenThere(s, Register(v), w, s'.ws[w].got))
  {
    hide WaiterOk, EventOk, Regs, Step;
    RegisterEffect(s, v);
  }

  lemma SetNextGivesThere(s: State, e: nat, w: nat)
    requires Inv(s) && |s.tally| == |s.evs| && Enabled(s, SetNext(e)) && w < |s.ws|
    ensures var s' := Step(s, SetNext(e));
      w < |s'.ws| && (s'.ws[w].got != s.ws[w].got ==> GivenThere(s, SetNext(e), w, s'.ws[w].got))
  {
    hide WaiterOk, Regs, Step;
    SetNextWaiters(s, e);
    assert EventOk(s.ws, e, s.evs[e]);
  }

  lemma OthersGiveNothing(s: State, a: Action, w: nat)
    requires |s.tally| == |s.evs| && Enabled(s, a) && w < |s.ws| && !a.Register? && !a.SetNext?
    ensures w < |Step(s, a).ws| && Step(s, a).ws[w].got == s.ws[w].got
  {
  }

  /** What is given at a position is the event of the list there, and it was signalled. */
  lemma GivenIsSignalled(s: State, a: Action, w: nat)
    requires Inv(s) && |s.tally| == |s.evs| && Enabled(s, a) && w < |s.ws|
    ensures w < |Step(s, a).ws|
    ensures Step(s, a).ws[w].got != s.ws[w].got ==> GivenThere(s, a, w, Step(s, a).ws[w].got)
  {
    hide Inv, Enabled, Step, GivenThere;
    match a
    case Register(v) => RegisterGivesThere(s, v, w);
    case SetNext(e) => SetNextGivesThere(s, e, w);
    case _ => OthersGiveNothing(s, a, w);
  }

  /** The waiter has been given what its call waits for. */
  ghost predicate Enough(x: Waiter) {
    if x.all then multiset(x.got) == Upto(|x.events|) else x.got != []
  }

  lemma EnoughSatisfies(x: Waiter, regs: multiset<nat>)
    requires WaiterOk(x, regs)
    ensures x.phase == Waiting || x.phase == Registering(|x.events|) ==> (Satisfied(x) <==> Enough(x))
    ensures x.phase.Taken? ==> Enough(x)
  {
    UptoOnce(|x.events|, 0);
    assert |multiset(x.got) + regs| == |x.got| + |regs|;
    assert multiset(x.got) == Upto(|x.events|) ==> |multiset(x.got)| == |x.events|;
    assert x.got != [] ==> x.got[0] in x.got;
    hide Upto;
  }

  /** Past its registrations, a call can return without a timeout exactly if it has been given what it waits for, and
      goes to sleep exactly otherwise; one that has taken an event can return. */
  lemma CanReturn(s: State, w: nat)
    requires Inv(s) && w < |s.ws|
    ensures var x := s.ws[w];
      && (x.phase == Waiting || x.phase == Registering(|x.events|) ==>
            (Enabled(s, Finish(w, false)) <==> Enough(x)) && (Enabled(s, Park(w)) <==> !Enough(x)))
      && (x.phase.Taken? ==> Enough(x) && Enabled(s, Finish(w, false)))
  {
    hide WaiterOk, Regs, EventOk, Enough, Satisfied;
    assert WaiterOk(s.ws[w], Regs(s.evs, w));
    EnoughSatisfies(s.ws[w], Regs(s.evs, w));
  }

  /** A call still going through its list can always take its next step, unless it waits for the mutex of the next event. */
  lemma RegisteringGoesOn(s: State, w: nat)
    requires Inv(s) && w < |s.ws| && s.ws[w].phase.Registering? && s.ws[w].phase.next < |s.ws[w].events|
    ensures var e := s.ws[w].events[s.ws[w].phase.next];
      && e < |s.evs| && (Enabled(s, Visit(w)) <==> s.evs[e].lock == Open)
      && (VisitedBy(s.evs[e], w) ==>
            if s.evs[e].lock.seen < |s.evs[e].queue| then Enabled(s, Clean(e)) && Enabled(s, Busy(e))
            else Enabled(s, Register(w)))
  {
    hide WaiterOk, Regs;
    var e := s.ws[w].events[s.ws[w].phase.next];
    assert EventOk(s.ws, e, s.evs[e]);
    if VisitedBy(s.evs[e], w) && s.evs[e].lock.seen < |s.evs[e].queue| {
      assert EntryOk(s.ws, e, s.evs[e].queue[s.evs[e].lock.seen]);
    }
  }

  // ----- State

  /** A reset leaves State false whatever the event's kind, and touches nothing else. */
  lemma ResetClears(s: State, e: nat)
    requires Inv(s) && Enabled(s, Reset(e))
    ensures var s' := Step(s, Reset(e)); s'.ws == s.ws && s'.evs == s.evs[e := s.evs[e].(state := false)]
  {
    hide WaiterOk, EventOk, Regs;
  }

  /** What the last SetEvent or ResetEvent on e asked for. */
  function LastWord(acts: seq<Action>, e: nat, b: bool): bool {
    if acts == [] then b
    else LastWord(acts[1..], e, if acts[0] == SetBegin(e) then true else if acts[0] == Reset(e) then false else b)
  }

  lemma ManualStep(s: State, a: Action, e: nat)
    requires Enabled(s, a) && |s.tally| == |s.evs| && e < |s.evs| && !s.evs[e].auto
    ensures var s' := Step(s, a);
      && |s'.evs| == |s.evs| && !s'.evs[e].auto
      && s'.evs[e].state == if a == SetBegin(e) then true else if a == Reset(e) then false else s.evs[e].state
  {
  }

  /** State of a manual-reset event, in any run, is what the last SetEvent or ResetEvent has asked for: waits and takes
      never change it. */
  lemma {:induction false} ManualStays(s: State, acts: seq<Action>, e: nat)
    requires Legal(s, acts) && e < |s.evs| && !s.evs[e].auto
    ensures var m := Run(s, acts); e < |m.evs| && m.evs[e].state == LastWord(acts, e, s.evs[e].state)
    decreases |acts|
  {
    hide Step, Enabled;
    if acts != [] {
      ManualStep(s, acts[0], e);
      ManualStays(Step(s, acts[0]), acts[1..], e);
    }
  }

  /** A take of an auto-reset event, by WaitForEvent or by a registering call, leaves it clear; of a manual-reset event,
      set. */
  lemma TakeLeaves(s: State, a: Action, e: nat)
    requires Inv(s) && Enabled(s, a) && e < |s.evs|
    requires a == WaitTake(e) || (a.Register? && s.ws[a.w].events[s.ws[a.w].phase.next] == e && s.evs[e].state)
    ensures s.evs[e].state && Step(s, a).evs[e].state == !s.evs[e].auto && Step(s, a).evs[e].lock == Open
  {
    hide WaiterOk, EventOk, Regs;
  }
}
