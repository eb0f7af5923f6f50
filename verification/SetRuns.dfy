/** SetEvent and the clean-up of WaitForMultipleEvents in the middle of any other calls.  Both hold their event's mutex
    over several steps; between these steps other calls expire, register elsewhere or are given other events. */
module SetRuns {
  import opened PEvents
  import opened Accounting
  import opened Waits
  import opened EventTable

  /** The first i waiters of q have stopped waiting. */
  ghost predicate Expired(ws: seq<Waiter>, q: seq<Reg>, i: nat) {
    i <= |q| && forall k :: 0 <= k < i ==> q[k].waiter < |ws| && !ws[q[k].waiter].still
  }

  /** The waiter of a registration has been given the event for it, or has stopped waiting. */
  predicate Served(ws: seq<Waiter>, r: Reg) {
    r.waiter < |ws| && (r.index in ws[r.waiter].got || !ws[r.waiter].still)
  }

  /** The first i registrations of q have been served. */
  ghost predicate Answered(ws: seq<Waiter>, q: seq<Reg>, i: nat) {
    i <= |q| && forall k :: 0 <= k < i ==> Served(ws, q[k])
  }

  lemma NeverStillAgain(s: State, a: Action, w: nat)
    requires Inv(s) && Enabled(s, a) && w < |s.ws|
    ensures w < |Step(s, a).ws| && (!s.ws[w].still ==> !Step(s, a).ws[w].still)
    ensures forall p :: p in s.ws[w].got ==> p in Step(s, a).ws[w].got
  {
    hide WaiterOk, EventOk, Regs;
  }

  /** A SetEvent on event e that started with queue q has been through the first i registrations.  On an auto-reset event
      they had all expired and are gone; on a manual-reset event each has been given the event or had expired, and the
      signal to the last one may still be due. */
  ghost predicate Midway(s: State, e: nat, q: seq<Reg>, i: nat) {
    && e < |s.evs| && s.evs[e].state && i <= |q|
    && if s.evs[e].auto then s.evs[e].lock == Setting(0) && s.evs[e].queue == q[i..] && Expired(s.ws, q, i)
       else && (s.evs[e].lock == Setting(i) || (i > 0 && s.evs[e].lock == Signalling(i, q[i - 1].waiter)))
            && s.evs[e].queue == q && Answered(s.ws, q, i)
  }

  lemma BeginsMidway(s: State, e: nat)
    requires Inv(s) && Enabled(s, SetBegin(e))
    ensures Midway(Step(s, SetBegin(e)), e, s.evs[e].queue, 0)
  {
    assert s.evs[e].queue[0..] == s.evs[e].queue;
  }

  /** Any step of any other call, and its own signal, leave SetEvent where it is in its queue, and served registrations
      served. */
  lemma OthersKeepMidway(s: State, a: Action, e: nat, q: seq<Reg>, i: nat)
    requires Inv(s) && Enabled(s, a) && Midway(s, e, q, i) && a != SetNext(e) && a != SetEnd(e)
    ensures Midway(Step(s, a), e, q, i)
  {
    hide EventOk, WaiterOk, Regs, Step, Enabled;
    if a == Signal(e) { SignalEffect(s, e); } else { EventUntouched(s, a, e); }
    forall w | 0 <= w < |s.ws|
      ensures w < |Step(s, a).ws| && (!s.ws[w].still ==> !Step(s, a).ws[w].still)
    {
      NeverStillAgain(s, a, w);
    }
    forall r | Served(s.ws, r)
      ensures Served(Step(s, a).ws, r)
    {
      NeverStillAgain(s, a, r.waiter);
    }
  }

  /** The event goes to registration i, all earlier ones having expired; State is false and only the signal is left to
      do. */
  ghost predicate HandsOver(s: State, s': State, e: nat, q: seq<Reg>, i: nat) {
    && i < |q| && Expired(s.ws, q, i) && e < |s.evs| == |s'.evs|
    && s'.evs[e] == s.evs[e].(queue := q[i + 1..], state := false, lock := Signalling(0, q[i].waiter))
    && var w := q[i].waiter;
       && w < |s.ws| == |s'.ws| && s.ws[w].still && s'.ws[w].got == s.ws[w].got + [q[i].index]
       && forall y :: 0 <= y < |s.ws| && y != w ==> s'.ws[y] == s.ws[y]
  }

  /** The event is given to registration i if its waiter still waits, and to nobody else. */
  ghost predicate GivesAlong(s: State, s': State, q: seq<Reg>, i: nat) {
    && i < |q|
    && var w := q[i].waiter;
       && w < |s.ws| == |s'.ws| && s'.ws[w].got == s.ws[w].got + (if s.ws[w].still then [q[i].index] else [])
       && forall y :: 0 <= y < |s.ws| && y != w ==> s'.ws[y] == s.ws[y]
  }

  /** State stays true with an empty queue; every registration has expired or, on a manual-reset event, been served. */
  ghost predicate StaysSet(s: State, s': State, e: nat, q: seq<Reg>) {
    && e < |s.evs| == |s'.evs| && s'.ws == s.ws
    && (if s.evs[e].auto then Expired(s.ws, q, |q|) else Answered(s.ws, q, |q|))
    && s'.evs[e] == s.evs[e].(queue := [], state := true, lock := Open)
  }

  /** A round on an auto-reset event drops registration i, which has expired, or hands the event to it. */
  lemma RoundDropsOrHandsOver(s: State, e: nat, q: seq<Reg>, i: nat)
    requires Inv(s) && Midway(s, e, q, i) && Enabled(s, SetNext(e)) && s.evs[e].auto
    ensures i < |q| && q[i].waiter < |s.ws|
    ensures if s.ws[q[i].waiter].still then HandsOver(s, Step(s, SetNext(e)), e, q, i)
            else Midway(Step(s, SetNext(e)), e, q, i + 1) && GivesAlong(s, Step(s, SetNext(e)), q, i)
  {
    hide Step, EventOk, WaiterOk, Regs;
    SetNextWaiters(s, e);
    SetNextAuto(s, e);
    assert s.evs[e].queue[0] == q[i] && q[i..][1..] == q[i + 1..];
  }

  /** A round on a manual-reset event serves registration i and goes on. */
  lemma RoundServesNext(s: State, e: nat, q: seq<Reg>, i: nat)
    requires Inv(s) && Midway(s, e, q, i) && Enabled(s, SetNext(e)) && !s.evs[e].auto
    ensures i < |q| && Midway(Step(s, SetNext(e)), e, q, i + 1) && GivesAlong(s, Step(s, SetNext(e)), q, i)
  {
    hide Step, EventOk, WaiterOk, Regs;
    SetNextWaiters(s, e);
    SetNextManual(s, e);
  }

  lemma EndLeavesSet(s: State, e: nat, q: seq<Reg>, i: nat)
    requires Inv(s) && Midway(s, e, q, i) && Enabled(s, SetEnd(e))
    ensures i == |q| && StaysSet(s, Step(s, SetEnd(e)), e, q)
  {
  }

  /** SetEvent can always go on unless it waits for the mutex of the next waiter. */
  lemma MidwayGoesOn(s: State, e: nat, q: seq<Reg>, i: nat)
    requires Inv(s) && Midway(s, e, q, i)
    ensures s.evs[e].lock.Signalling? ==> Enabled(s, Signal(e))
    ensures s.evs[e].lock.Setting? && i < |q| ==>
              q[i].waiter < |s.ws| && (Enabled(s, SetNext(e)) <==> !MutexHeld(s.ws[q[i].waiter]))
    ensures s.evs[e].lock.Setting? && i == |q| ==> Enabled(s, SetEnd(e))
  {
    hide WaiterOk, Regs, Expired, Answered;
    assert EventOk(s.ws, e, s.evs[e]);
    if s.evs[e].lock.Setting? && i < |q| {
      assert s.evs[e].queue[s.evs[e].lock.done] == q[i];
      assert EntryOk(s.ws, e, s.evs[e].queue[s.evs[e].lock.done]);
    }
  }

  /** How often SetEvent on e goes round its loop. */
  function Rounds(acts: seq<Action>, e: nat): (n: nat)
    ensures n <= |acts|
  {
    if acts == [] then 0 else (if acts[0] == SetNext(e) then 1 else 0) + Rounds(acts[1..], e)
  }

  /** The action that ends this SetEvent. */
  ghost predicate EndsSet(s: State, a: Action, e: nat, q: seq<Reg>, i: nat) {
    && Enabled(s, a) && |s.tally| == |s.evs|
    && (|| (a == SetNext(e) && e < |s.evs| && s.evs[e].auto && HandsOver(s, Step(s, a), e, q, i))
        || (a == SetEnd(e) && i == |q| && StaysSet(s, Step(s, a), e, q)))
  }

  /** SetEvent after k actions of a run, the calls of all threads mixed: still midway, or ended by action k. */
  ghost predicate SetProgress(s: State, acts: seq<Action>, e: nat, q: seq<Reg>, i: nat, k: nat) {
    && k <= |acts| && Legal(s, acts[..k])
    && var m, j := Run(s, acts[..k]), i + Rounds(acts[..k], e);
       && j <= |q| && Inv(m) && Midway(m, e, q, j)
       && (k < |acts| ==> EndsSet(m, acts[k], e, q, j))
  }

  lemma {:induction false} SetUntil(s: State, acts: seq<Action>, e: nat, q: seq<Reg>, i: nat) returns (k: nat)
    requires Inv(s) && Midway(s, e, q, i) && Legal(s, acts)
    ensures SetProgress(s, acts, e, q, i, k)
    decreases |acts|
  {
    hide Step, Enabled, EventOk, WaiterOk, Regs, Midway, EndsSet, SetProgress, HandsOver, StaysSet;
    k := 0;
    if acts == [] {
      ProgressHere(s, acts, e, q, i);
    } else {
      var a := acts[0];
      StepKeeps(s, a);
      if a == SetEnd(e) {
        EndLeavesSet(s, e, q, i);
        EndsIfStays(s, e, q, i);
        ProgressHere(s, acts, e, q, i);
      } else if a == SetNext(e) {
        AutoHere(s, e, q, i);
        if s.evs[e].auto { RoundDropsOrHandsOver(s, e, q, i); } else { RoundServesNext(s, e, q, i); }
        if s.evs[e].auto && s.ws[q[i].waiter].still {
          EndsIfHanded(s, e, q, i);
          ProgressHere(s, acts, e, q, i);
        } else {
          k := SetUntil(Step(s, a), acts[1..], e, q, i + 1);
          ProgressCons(s, acts, e, q, i, k);
          k := k + 1;
        }
      } else {
        OthersKeepMidway(s, a, e, q, i);
        k := SetUntil(Step(s, a), acts[1..], e, q, i);
        ProgressCons(s, acts, e, q, i, k);
        k := k + 1;
      }
    }
  }

  lemma AutoHere(s: State, e: nat, q: seq<Reg>, i: nat)
    requires Midway(s, e, q, i)
    ensures e < |s.evs|
  {
  }

  lemma EndsIfStays(s: State, e: nat, q: seq<Reg>, i: nat)
    requires Enabled(s, SetEnd(e)) && |s.tally| == |s.evs| && i == |q| && StaysSet(s, Step(s, SetEnd(e)), e, q)
    ensures EndsSet(s, SetEnd(e), e, q, i)
  {
  }

  lemma EndsIfHanded(s: State, e: nat, q: seq<Reg>, i: nat)
    requires Enabled(s, SetNext(e)) && |s.tally| == |s.evs| && e < |s.evs| && s.evs[e].auto
    requires HandsOver(s, Step(s, SetNext(e)), e, q, i)
    ensures EndsSet(s, SetNext(e), e, q, i)
  {
  }

  lemma InMidway(s: State, e: nat, q: seq<Reg>, i: nat)
    requires Midway(s, e, q, i)
    ensures i <= |q|
  {
  }

  lemma ProgressHere(s: State, acts: seq<Action>, e: nat, q: seq<Reg>, i: nat)
    requires Inv(s) && Midway(s, e, q, i) && (acts != [] ==> EndsSet(s, acts[0], e, q, i))
    ensures SetProgress(s, acts, e, q, i, 0)
  {
    hide Step, EndsSet, Inv, Midway, Enabled;
    assert acts[..0] == [] && Rounds([], e) == 0;
    InMidway(s, e, q, i);
  }

  lemma ProgressCons(s: State, acts: seq<Action>, e: nat, q: seq<Reg>, i: nat, k: nat)
    requires acts != [] && |s.tally| == |s.evs| && Enabled(s, acts[0])
    requires SetProgress(Step(s, acts[0]), acts[1..], e, q, i + if acts[0] == SetNext(e) then 1 else 0, k)
    ensures SetProgress(s, acts, e, q, i, k + 1)
  {
    hide Step, Inv, Midway, EndsSet;
    assert acts[..k + 1][1..] == acts[1..][..k];
  }

  /** SetEvent in any run, the steps of all other calls mixed in.  It goes round its loop at most once per registration.
      On an auto-reset event it drops only registrations that have expired, and it ends either by handing the event to
      the earliest registration that is still live, with State false, or with State true and no registration left.  On
      a manual-reset event it ends with every registration given the event or expired, State true and an empty queue. */
  lemma SetEventTheorem(s: State, acts: seq<Action>, e: nat) returns (k: nat)
    requires Inv(s) && Enabled(s, SetBegin(e)) && Legal(Step(s, SetBegin(e)), acts)
    ensures SetProgress(Step(s, SetBegin(e)), acts, e, s.evs[e].queue, 0, k)
  {
    BeginsMidway(s, e);
    StepKeeps(s, SetBegin(e));
    hide Step, Inv, Midway, Enabled, SetProgress, Legal;
    k := SetUntil(Step(s, SetBegin(e)), acts, e, s.evs[e].queue, 0);
  }

  /** Once a SetEvent has given its event to a waiter, in any run: nobody else touches the event until the signal, which
      can always be sent, wakes that waiter, and on an auto-reset event frees the mutex. */
  lemma {:induction false} SignalUntil(s: State, acts: seq<Action>, e: nat) returns (k: nat)
    requires Inv(s) && e < |s.evs| && s.evs[e].lock.Signalling? && Legal(s, acts)
    ensures k <= |acts| && Legal(s, acts[..k]) && (k < |acts| ==> acts[k] == Signal(e))
    ensures var m, ev, w := Run(s, acts[..k]), s.evs[e], s.evs[e].lock.waiter;
      && Inv(m) && |m.evs| == |s.evs| && m.evs[e] == ev && Enabled(m, Signal(e)) && w < |m.ws|
      && var s' := Step(m, Signal(e));
        s'.ws == m.ws[w := m.ws[w].(signalled := true)]
        && s'.evs == m.evs[e := ev.(lock := if ev.auto then Open else Setting(ev.lock.done))]
    decreases |acts|
  {
    hide Step, EventOk, WaiterOk, Regs;
    k := 0;
    if acts == [] || acts[0] == Signal(e) {
      assert acts[..0] == [];
      SignalEffect(s, e);
    } else {
      StepKeeps(s, acts[0]);
      EventUntouched(s, acts[0], e);
      k := SignalUntil(Step(s, acts[0]), acts[1..], e);
      assert acts[..k + 1][1..] == acts[1..][..k];
      k := k + 1;
    }
  }

  // ----- the clean-up

  predicate Gone(ws: seq<Waiter>, r: Reg) {
    r.waiter < |ws| && !ws[r.waiter].still
  }

  /** `r` is `q` without some registrations, all of which have expired. */
  predicate Dropped(ws: seq<Waiter>, q: seq<Reg>, r: seq<Reg>)
    decreases |q|
  {
    if q == [] then r == [] else
      var k := |q| - 1;
      || (r != [] && r[|r| - 1] == q[k] && Dropped(ws, q[..k], r[..|r| - 1]))
      || (Gone(ws, q[k]) && Dropped(ws, q[..k], r))
  }

  lemma {:induction false} NoneDropped(ws: seq<Waiter>, q: seq<Reg>)
    ensures Dropped(ws, q, q)
  {
    if q != [] { NoneDropped(ws, q[..|q| - 1]); }
  }

  lemma {:induction false} DropOne(ws: seq<Waiter>, q: seq<Reg>, r: seq<Reg>, j: nat)
    requires Dropped(ws, q, r) && j < |r| && Gone(ws, r[j])
    ensures Dropped(ws, q, r[..j] + r[j + 1..])
    decreases |q|
  {
    var k, l := |q| - 1, |r| - 1;
    if r[l] == q[k] && Dropped(ws, q[..k], r[..l]) {
      if j == l {
        assert r[..j] + r[j + 1..] == r[..l];
      } else {
        DropOne(ws, q[..k], r[..l], j);
        var r' := r[..j] + r[j + 1..];
        assert r'[..|r'| - 1] == r[..l][..j] + r[..l][j + 1..];
      }
    } else {
      DropOne(ws, q[..k], r, j);
    }
  }

  lemma {:induction false} StaysDropped(ws: seq<Waiter>, ws': seq<Waiter>, q: seq<Reg>, r: seq<Reg>)
    requires Dropped(ws, q, r) && forall x :: Gone(ws, x) ==> Gone(ws', x)
    ensures Dropped(ws', q, r)
    decreases |q|
  {
    if q != [] {
      var k := |q| - 1;
      if r != [] && r[|r| - 1] == q[k] && Dropped(ws, q[..k], r[..|r| - 1]) {
        StaysDropped(ws, ws', q[..k], r[..|r| - 1]);
      } else {
        StaysDropped(ws, ws', q[..k], r);
      }
    }
  }

  /** Every registration that is still live has been kept. */
  lemma {:induction false} LiveKept(ws: seq<Waiter>, q: seq<Reg>, r: seq<Reg>, x: Reg)
    requires Dropped(ws, q, r) && x in q && !Gone(ws, x)
    ensures x in r
    decreases |q|
  {
    var k := |q| - 1;
    assert x == q[k] || x in q[..k];
    if r != [] && r[|r| - 1] == q[k] && Dropped(ws, q[..k], r[..|r| - 1]) {
      if x != q[k] { LiveKept(ws, q[..k], r[..|r| - 1], x); }
    } else {
      LiveKept(ws, q[..k], r, x);
    }
  }

  /** Call w, holding the mutex of event e, is cleaning the queue that was q when it came.  Of the entries it has been
      through it has left those that were live then or whose trylock failed, listed in `skip`. */
  ghost predicate Cleaning(s: State, ws0: seq<Waiter>, e: nat, w: nat, q: seq<Reg>, skip: seq<Reg>) {
    && e < |s.evs| && VisitedBy(s.evs[e], w) && Dropped(s.ws, q, s.evs[e].queue)
    && s.evs[e].lock.seen <= |s.evs[e].queue|
    && Passed(ws0, s.evs[e].queue[..s.evs[e].lock.seen], skip)
  }

  ghost predicate Passed(ws0: seq<Waiter>, seen: seq<Reg>, skip: seq<Reg>) {
    (forall r :: r in seen ==> !Gone(ws0, r) || r in skip) && (forall r :: r in skip ==> r in seen)
  }

  /** The registrations at which a trylock of the clean-up of event e fails. */
  function Skipped(s: State, acts: seq<Action>, e: nat): seq<Reg>
    requires Legal(s, acts)
    decreases |acts|
  {
    if acts == [] then [] else
      (if acts[0] == Busy(e) then [s.evs[e].queue[s.evs[e].lock.seen]] else []) + Skipped(Step(s, acts[0]), acts[1..], e)
  }

  ghost predicate OnlyMoreGone(ws: seq<Waiter>, ws': seq<Waiter>) {
    forall x: Reg :: Gone(ws, x) ==> Gone(ws', x)
  }

  lemma MoreGone(s: State, a: Action)
    requires Inv(s) && Enabled(s, a)
    ensures OnlyMoreGone(s.ws, Step(s, a).ws)
  {
    hide EventOk, WaiterOk, Regs, Step, Enabled;
    forall x: Reg | Gone(s.ws, x)
      ensures Gone(Step(s, a).ws, x)
    {
      NeverStillAgain(s, a, x.waiter);
    }
  }

  lemma CleaningStep(s: State, a: Action, ws0: seq<Waiter>, e: nat, w: nat, q: seq<Reg>, skip: seq<Reg>)
    requires Inv(s) && Enabled(s, a) && Cleaning(s, ws0, e, w, q, skip) && OnlyMoreGone(ws0, s.ws) && a != Register(w)
    ensures s.evs[e].lock.seen <= |s.evs[e].queue| && (a == Busy(e) ==> s.evs[e].lock.seen < |s.evs[e].queue|)
    ensures var skip' := skip + if a == Busy(e) then [s.evs[e].queue[s.evs[e].lock.seen]] else [];
      Cleaning(Step(s, a), ws0, e, w, q, skip') && OnlyMoreGone(ws0, Step(s, a).ws)
  {
    hide EventOk, WaiterOk, Regs, Dropped, Step, Enabled;
    QueueWhileVisited(s, a, e, w);
    MoreGone(s, a);
    var s', r, k := Step(s, a), s.evs[e].queue, s.evs[e].lock.seen;
    if a == Clean(e) && Gone(s.ws, r[k]) {
      DropOne(s.ws, q, r, k);
      assert s'.evs[e].queue[..k] == r[..k];
    } else if a == Clean(e) || a == Busy(e) {
      assert r[..k + 1] == r[..k] + [r[k]];
    }
    StaysDropped(s.ws, s'.ws, q, s'.evs[e].queue);
  }

  /** While a call holds the event's mutex, only its clean-up changes the queue: it drops an entry that has expired, and
      passes one that still waits or whose mutex it cannot get. */
  lemma QueueWhileVisited(s: State, a: Action, e: nat, w: nat)
    requires Inv(s) && Enabled(s, a) && e < |s.evs| && VisitedBy(s.evs[e], w) && a != Register(w)
    ensures |Step(s, a).evs| == |s.evs| && VisitedBy(Step(s, a).evs[e], w)
    ensures var ev, ev' := s.evs[e], Step(s, a).evs[e]; var q, k := ev.queue, ev.lock.seen;
      if a != Clean(e) && a != Busy(e) then ev' == ev
      else
        && k < |q|
        && if a == Clean(e) && Gone(s.ws, q[k]) then ev' == ev.(queue := q[..k] + q[k + 1..])
           else ev' == ev.(lock := Visited(w, k + 1))
  {
    hide EventOk, WaiterOk, Regs;
    if a == Clean(e) {
      var y := s.evs[e].queue[s.evs[e].lock.seen].waiter;
      if MutexHeld(s.ws[y]) { HeldStillWaits(s, y); }
    }
  }

  lemma {:induction false} CleaningRun(s: State, acts: seq<Action>, ws0: seq<Waiter>, e: nat, w: nat, q: seq<Reg>,
                                       skip: seq<Reg>)
    requires Inv(s) && Cleaning(s, ws0, e, w, q, skip) && OnlyMoreGone(ws0, s.ws) && Legal(s, acts)
    requires Register(w) !in acts
    ensures Inv(Run(s, acts)) && Cleaning(Run(s, acts), ws0, e, w, q, skip + Skipped(s, acts, e))
    decreases |acts|
  {
    hide Inv, Step, Cleaning, OnlyMoreGone;
    if acts == [] {
      assert skip + [] == skip;
    } else {
      StepKeeps(s, acts[0]);
      CleaningStep(s, acts[0], ws0, e, w, q, skip);
      var first := if acts[0] == Busy(e) then [s.evs[e].queue[s.evs[e].lock.seen]] else [];
      CleaningRun(Step(s, acts[0]), acts[1..], ws0, e, w, q, skip + first);
      assert skip + first + Skipped(Step(s, acts[0]), acts[1..], e) == skip + Skipped(s, acts, e);
    }
  }

  /** From the moment a WaitForMultipleEvents call locks an event until it takes the event or registers, whatever other
      calls do in between: the queue keeps its order and loses only expired registrations; none that is live at the end
      is missing; and one that had expired at the start is left exactly if the trylock on it failed. */
  lemma CleanupTheorem(s: State, acts: seq<Action>, w: nat, r: Reg)
    requires Inv(s) && Enabled(s, Visit(w)) && Legal(Step(s, Visit(w)), acts) && Register(w) !in acts
    ensures var s1, e := Step(s, Visit(w)), s.ws[w].events[s.ws[w].phase.next]; var m := Run(s1, acts);
      && e < |m.evs| && Dropped(m.ws, s.evs[e].queue, m.evs[e].queue)
      && (r in s.evs[e].queue && !Gone(m.ws, r) ==> r in m.evs[e].queue)
      && (Enabled(m, Register(w)) && Gone(s.ws, r) ==> (r in m.evs[e].queue <==> r in Skipped(s1, acts, e)))
  {
    var e, s1 := s.ws[w].events[s.ws[w].phase.next], Step(s, Visit(w));
    NoneDropped(s1.ws, s.evs[e].queue);
    assert s1.ws == s.ws && Cleaning(s1, s.ws, e, w, s.evs[e].queue, []);
    StepKeeps(s, Visit(w));
    CleanupRun(s, s1, acts, e, w, r);
  }

  lemma CleanupRun(s: State, s1: State, acts: seq<Action>, e: nat, w: nat, r: Reg)
    requires e < |s.evs| && Inv(s1) && Cleaning(s1, s.ws, e, w, s.evs[e].queue, []) && s1.ws == s.ws
    requires w < |s.ws| && s.ws[w].phase.Registering? && s.ws[w].phase.next < |s.ws[w].events|
    requires e == s.ws[w].events[s.ws[w].phase.next] && Legal(s1, acts) && Register(w) !in acts
    ensures var m := Run(s1, acts);
      && e < |m.evs| && Dropped(m.ws, s.evs[e].queue, m.evs[e].queue)
      && (r in s.evs[e].queue && !Gone(m.ws, r) ==> r in m.evs[e].queue)
      && (Enabled(m, Register(w)) && Gone(s.ws, r) ==> (r in m.evs[e].queue <==> r in Skipped(s1, acts, e)))
  {
    hide Inv, Step, Dropped, Legal, Run, Skipped;
    CleaningRun(s1, acts, s.ws, e, w, s.evs[e].queue, []);
    var m := Run(s1, acts);
    assert [] + Skipped(s1, acts, e) == Skipped(s1, acts, e);
    if r in s.evs[e].queue && !Gone(m.ws, r) { LiveKept(m.ws, s.evs[e].queue, m.evs[e].queue, r); }
    if Enabled(m, Register(w)) {
      SameEvent(m, e, w);
      assert m.evs[e].queue[..m.evs[e].lock.seen] == m.evs[e].queue;
    }
  }

  lemma SameEvent(m: State, e: nat, w: nat)
    requires Inv(m) && e < |m.evs| && VisitedBy(m.evs[e], w) && Enabled(m, Register(w))
    ensures m.evs[e].lock.seen == |m.evs[e].queue|
  {
    assert EventOk(m.ws, e, m.evs[e]);
  }
}
