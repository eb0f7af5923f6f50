/** Waiting for several events at once: pevents.h.

    A `WaitForMultipleEvents` call registers a reference-counted waiter in the queues of its events; `SetEvent` hands
    the event to registered waiters.  Each region under a waiter mutex is one step, and so is each region under an
    event mutex that takes no waiter mutex, and each signal; `SetEvent` holds its event's mutex over several steps. */
module PEvents {

  /** wfmo_info_t_: the waiter, and the position of this event in the waiter's list. */
  datatype Reg = Reg(waiter: nat, index: nat)

  /** Who holds an event's mutex. */
  datatype Lock =
    | Open
    | Setting(done: nat)     // a SetEvent; a manual-reset one has been through the first `done` entries
    | Signalling(done: nat, waiter: nat)   // a SetEvent that has given the event to this waiter and unlocked it, and has
                                           // yet to signal its condition variable
    | Visited(waiter: nat, seen: nat)   // a WaitForMultipleEvents call registering this waiter; its clean-up has
                                        // been through the first `seen` entries

  datatype Event = Event(auto: bool, state: bool, queue: seq<Reg>, lock: Lock)

  /** Where the waiter's own call is.  It holds the waiter mutex while registering and once it has taken an event. */
  datatype Phase = Registering(next: nat) | Taken | Waiting | Over

  /** wfmo_t_.  `status` is the union of FiredEvent and EventsLeft.  The last three fields are history: the positions of
      the events given to this waiter, how often it has been destroyed, and whether its condition variable has been
      signalled since its call last began to wait on it. */
  datatype Waiter = Waiter(
    all: bool, events: seq<nat>, phase: Phase,
    still: bool, refs: int, status: int,
    got: seq<nat>, destroyed: nat, signalled: bool)

  /** History of one event: SetEvent calls, sets that found State already true, takes by WaitForEvent, and resets that
      cleared it. */
  datatype Tally = Tally(sets: nat, merged: nat, taken: nat, cleared: nat)

  datatype State = State(evs: seq<Event>, ws: seq<Waiter>, tally: seq<Tally>)

  datatype Action =
    | Call(all: bool, events: seq<nat>)
    | Visit(w: nat)                // lock the next event of the list
    | Clean(e: nat)                // RemoveExpiredWaitHelper on the next entry
    | Busy(e: nat)                 // the same, when its trylock meets another call inside one of its short regions
    | Register(w: nat)             // take the event or join its queue, and unlock it
    | Park(w: nat)                 // enter the condition wait, for the first time or again
    | Finish(w: nat, timedOut: bool)
    | SetBegin(e: nat)
    | SetNext(e: nat)              // one round of the SetEvent loop, up to the unlock of the waiter mutex
    | Signal(e: nat)               // the signal after a round that gave the event
    | SetEnd(e: nat)
    | Reset(e: nat)
    | WaitTake(e: nat)             // a WaitForEvent call finds, or has waited for, State

  predicate MutexHeld(x: Waiter) {
    x.phase.Registering? || x.phase.Taken?
  }

  /** The exit test of the wait loop. */
  predicate Satisfied(x: Waiter) {
    if x.all then x.status == 0 else x.status != -1
  }

  predicate InSet(l: Lock) {
    l.Setting? || l.Signalling?
  }

  /** The registrations an event still has to serve. */
  function Live(ev: Event): seq<Reg> {
    if InSet(ev.lock) && ev.lock.done <= |ev.queue| then ev.queue[ev.lock.done..] else ev.queue
  }

  /** `--RefCount`, and destruction at zero. */
  function Unref(x: Waiter): Waiter {
    x.(refs := x.refs - 1, destroyed := x.destroyed + if x.refs - 1 == 0 then 1 else 0)
  }

  /** Hand the event at position i of its list to a waiting waiter. */
  function Give(x: Waiter, i: nat): Waiter {
    if x.all then x.(status := x.status - 1, got := x.got + [i])
    else x.(status := i, still := false, got := x.got + [i])
  }

  predicate Enabled(s: State, a: Action) {
    match a
    case Call(all, events) => forall i :: 0 <= i < |events| ==> events[i] < |s.evs|
    case Visit(w) =>
      && w < |s.ws| && s.ws[w].phase.Registering? && s.ws[w].phase.next < |s.ws[w].events|
      && s.ws[w].events[s.ws[w].phase.next] < |s.evs|
      && s.evs[s.ws[w].events[s.ws[w].phase.next]].lock == Open
    case Clean(e) =>
      && e < |s.evs| && s.evs[e].lock.Visited? && s.evs[e].lock.seen < |s.evs[e].queue|
      && s.evs[e].queue[s.evs[e].lock.seen].waiter < |s.ws|
    case Busy(e) => e < |s.evs| && s.evs[e].lock.Visited? && s.evs[e].lock.seen < |s.evs[e].queue|
    case Register(w) =>
      && w < |s.ws| && s.ws[w].phase.Registering? && s.ws[w].phase.next < |s.ws[w].events|
      && s.ws[w].events[s.ws[w].phase.next] < |s.evs|
      && s.evs[s.ws[w].events[s.ws[w].phase.next]].lock == Visited(w, |s.evs[s.ws[w].events[s.ws[w].phase.next]].queue|)
    case Park(w) =>
      && w < |s.ws| && (s.ws[w].phase == Registering(|s.ws[w].events|) || s.ws[w].phase == Waiting)
      && !Satisfied(s.ws[w])
    case Finish(w, timedOut) =>
      && w < |s.ws|
      && (s.ws[w].phase.Taken? || ((s.ws[w].phase == Registering(|s.ws[w].events|) || s.ws[w].phase == Waiting)
                                   && (Satisfied(s.ws[w]) || timedOut)))
    case SetBegin(e) => e < |s.evs| && s.evs[e].lock == Open
    case SetNext(e) =>
      && e < |s.evs| && s.evs[e].lock.Setting? && s.evs[e].lock.done < |s.evs[e].queue|
      && s.evs[e].queue[s.evs[e].lock.done].waiter < |s.ws|
      && !MutexHeld(s.ws[s.evs[e].queue[s.evs[e].lock.done].waiter])
    case Signal(e) => e < |s.evs| && s.evs[e].lock.Signalling? && s.evs[e].lock.waiter < |s.ws|
    case SetEnd(e) => e < |s.evs| && s.evs[e].lock.Setting? && s.evs[e].lock.done == |s.evs[e].queue|
    case Reset(e) => e < |s.evs| && s.evs[e].lock == Open
    case WaitTake(e) => e < |s.evs| && s.evs[e].lock == Open && s.evs[e].state
  }

  function Fresh(all: bool, events: seq<nat>): Waiter {
    Waiter(all, events, Registering(0), true, 1, if all then |events| else -1, [], 0, false)
  }

  /** UnlockedWaitForEvent with timeout 0: what a successful take leaves of State. */
  function AfterTake(ev: Event): Event {
    ev.(state := ev.state && !ev.auto)
  }

  function Step(s: State, a: Action): State
    requires Enabled(s, a) && |s.tally| == |s.evs|
  {
    match a
    case Call(all, events) => s.(ws := s.ws + [Fresh(all, events)])
    case Visit(w) =>
      var e := s.ws[w].events[s.ws[w].phase.next];
      s.(evs := s.evs[e := s.evs[e].(lock := Visited(w, 0))])
    case Clean(e) => CleanRound(s, e)
    case Busy(e) => s.(evs := s.evs[e := s.evs[e].(lock := Visited(s.evs[e].lock.waiter, s.evs[e].lock.seen + 1))])
    case Register(w) =>
      var x := s.ws[w];
      var i := x.phase.next;
      var e := x.events[i];
      var ev := s.evs[e].(lock := Open);
      if ev.state then
        var x' := if x.all then x.(status := x.status - 1, got := x.got + [i], phase := Registering(i + 1))
                  else x.(status := i, got := x.got + [i], phase := Taken);
        s.(evs := s.evs[e := AfterTake(ev)], ws := s.ws[w := x'])
      else
        s.(evs := s.evs[e := ev.(queue := ev.queue + [Reg(w, i)])],
           ws := s.ws[w := x.(refs := x.refs + 1, phase := Registering(i + 1))])
    case Park(w) => s.(ws := s.ws[w := s.ws[w].(phase := Waiting, signalled := false)])
    case Finish(w, timedOut) => s.(ws := s.ws[w := Unref(s.ws[w].(still := false, phase := Over))])
    case SetBegin(e) =>
      var ev, t := s.evs[e], s.tally[e];
      s.(evs := s.evs[e := ev.(state := true, lock := Setting(0))],
         tally := s.tally[e := t.(sets := t.sets + 1, merged := t.merged + if ev.state then 1 else 0)])
    case SetNext(e) => SetRound(s, e)
    case Signal(e) =>
      var ev, w := s.evs[e], s.evs[e].lock.waiter;
      s.(evs := s.evs[e := ev.(lock := if ev.auto then Open else Setting(ev.lock.done))],
         ws := s.ws[w := s.ws[w].(signalled := true)])
    case SetEnd(e) =>
      s.(evs := s.evs[e := s.evs[e].(queue := [], lock := Open)])
    case Reset(e) =>
      var ev, t := s.evs[e], s.tally[e];
      s.(evs := s.evs[e := ev.(state := false)],
         tally := s.tally[e := t.(cleared := t.cleared + if ev.state then 1 else 0)])
    case WaitTake(e) =>
      var t := s.tally[e];
      s.(evs := s.evs[e := AfterTake(s.evs[e])], tally := s.tally[e := t.(taken := t.taken + 1)])
  }

  /** The clean-up tries the mutex of the next entry's waiter: an entry whose waiter still waits, or is held by its own
      call, stays; any other is dropped. */
  function CleanRound(s: State, e: nat): State
    requires Enabled(s, Clean(e))
  {
    var ev := s.evs[e];
    var k, w := ev.lock.seen, ev.queue[ev.lock.seen].waiter;
    if s.ws[w].still || MutexHeld(s.ws[w]) then s.(evs := s.evs[e := ev.(lock := Visited(ev.lock.waiter, k + 1))])
    else s.(evs := s.evs[e := ev.(queue := ev.queue[..k] + ev.queue[k + 1..])], ws := s.ws[w := Unref(s.ws[w])])
  }

  predicate Drops(s: State, e: nat) {
    && Enabled(s, Clean(e))
    && var x := s.ws[s.evs[e].queue[s.evs[e].lock.seen].waiter]; !x.still && !MutexHeld(x)
  }

  predicate VisitedBy(ev: Event, w: nat) {
    ev.lock.Visited? && ev.lock.waiter == w
  }

  /** One round of the SetEvent loop: drop an expired registration, or give the event to a waiter. */
  function SetRound(s: State, e: nat): State
    requires Enabled(s, SetNext(e))
  {
    var ev := s.evs[e];
    var k := ev.lock.done;
    var r := ev.queue[k];
    var x := s.ws[r.waiter];
    var rest := if ev.auto then ev.(queue := ev.queue[..k] + ev.queue[k + 1..]) else ev.(lock := Setting(k + 1));
    if !x.still then s.(evs := s.evs[e := rest], ws := s.ws[r.waiter := Unref(x)])
    else
      s.(evs := s.evs[e := rest.(state := ev.state && !ev.auto, lock := Signalling(rest.lock.done, r.waiter))],
         ws := s.ws[r.waiter := Give(x.(refs := x.refs - 1), r.index)])
  }

  // ----- registrations

  ghost function RegsIn(q: seq<Reg>, w: nat): multiset<nat> {
    if q == [] then multiset{} else
      RegsIn(q[..|q| - 1], w) + if q[|q| - 1].waiter == w then multiset{q[|q| - 1].index} else multiset{}
  }

  /** The positions at which waiter w is registered, over all queues. */
  ghost function RegsOver(qs: seq<seq<Reg>>, w: nat): multiset<nat> {
    if qs == [] then multiset{} else RegsOver(qs[..|qs| - 1], w) + RegsIn(qs[|qs| - 1], w)
  }

  ghost function Lives(evs: seq<Event>): seq<seq<Reg>> {
    seq(|evs|, e requires 0 <= e < |evs| => Live(evs[e]))
  }

  ghost function Regs(evs: seq<Event>, w: nat): multiset<nat> {
    RegsOver(Lives(evs), w)
  }

  ghost predicate LockOk(ev: Event) {
    InSet(ev.lock) ==> ev.lock.done <= |ev.queue|
  }

  lemma Shift(a: multiset<nat>, b: multiset<nat>, c: multiset<nat>, d: multiset<nat>, x: multiset<nat>)
    requires a + b == c + d
    ensures (a + x) + b == (c + x) + d
  {
    assert forall p :: ((a + x) + b)[p] == (a + b)[p] + x[p];
  }

  lemma Associate(a: multiset<nat>, b: multiset<nat>, c: multiset<nat>)
    ensures (a + b) + c == a + (b + c)
  {
  }

  lemma {:induction false} RegsInConcat(a: seq<Reg>, b: seq<Reg>, w: nat)
    ensures RegsIn(a + b, w) == RegsIn(a, w) + RegsIn(b, w)
    decreases |b|
  {
    if b == [] {
      assert a + b == a;
    } else {
      var k := |b| - 1;
      RegsInConcat(a, b[..k], w);
      assert (a + b)[..|a + b| - 1] == a + b[..k] && (a + b)[|a + b| - 1] == b[k];
      Associate(RegsIn(a, w), RegsIn(b[..k], w), if b[k].waiter == w then multiset{b[k].index} else multiset{});
    }
  }

  lemma RegsInRemove(q: seq<Reg>, j: nat, w: nat)
    requires j < |q|
    ensures RegsIn(q, w) == RegsIn(q[..j] + q[j + 1..], w) +
              if q[j].waiter == w then multiset{q[j].index} else multiset{}
  {
    assert q == q[..j] + ([q[j]] + q[j + 1..]);
    RegsInConcat(q[..j], [q[j]] + q[j + 1..], w);
    RegsInConcat([q[j]], q[j + 1..], w);
    RegsInConcat(q[..j], q[j + 1..], w);
    assert RegsIn([q[j]], w) == RegsIn([], w) + if q[j].waiter == w then multiset{q[j].index} else multiset{} by {
      assert [q[j]][..0] == [];
    }
  }

  lemma {:induction false} RegsOverUpdate(qs: seq<seq<Reg>>, e: nat, q: seq<Reg>, w: nat)
    requires e < |qs|
    ensures RegsOver(qs[e := q], w) + RegsIn(qs[e], w) == RegsOver(qs, w) + RegsIn(q, w)
    decreases |qs|
  {
    var k, qs' := |qs| - 1, qs[e := q];
    if e == k {
      assert qs'[..k] == qs[..k];
    } else {
      RegsOverUpdate(qs[..k], e, q, w);
      assert qs'[..k] == qs[..k][e := q];
      Shift(RegsOver(qs'[..k], w), RegsIn(qs[e], w), RegsOver(qs[..k], w), RegsIn(q, w), RegsIn(qs[k], w));
    }
  }

  lemma RegsUpdate(evs: seq<Event>, e: nat, ev: Event, w: nat)
    requires e < |evs|
    ensures Regs(evs[e := ev], w) + RegsIn(Live(evs[e]), w) == Regs(evs, w) + RegsIn(Live(ev), w)
  {
    assert Lives(evs[e := ev]) == Lives(evs)[e := Live(ev)];
    RegsOverUpdate(Lives(evs), e, Live(ev), w);
  }

  /** 0..n-1, each once. */
  ghost function Upto(n: nat): multiset<nat> {
    if n == 0 then multiset{} else Upto(n - 1) + multiset{n - 1}
  }

  lemma {:induction false} UptoOnce(n: nat, p: nat)
    ensures Upto(n)[p] == if p < n then 1 else 0
    ensures |Upto(n)| == n
  {
    if n > 0 { UptoOnce(n - 1, p); }
  }

  // ----- what every waiter and every event satisfies

  ghost function Seen(x: Waiter): nat {
    if x.phase.Registering? then x.phase.next else |x.events|
  }

  /** Reference counting and delivery, per waiter; `regs` are its registrations. */
  ghost predicate WaiterOk(x: Waiter, regs: multiset<nat>) {
    && x.refs == |regs| + (if x.phase.Over? then 0 else 1)
    && x.destroyed == (if x.refs == 0 then 1 else 0)
    && (x.phase.Registering? ==> x.phase.next <= |x.events|)
    && (x.phase.Over? ==> !x.still)
    && (forall p :: multiset(x.got)[p] <= 1 && (p in x.got ==> p < |x.events|))
    && (if x.all then
          && x.status == |x.events| - |x.got| && !x.phase.Taken?
          && (!x.phase.Over? ==> x.still && multiset(x.got) + regs == Upto(Seen(x)))
        else
          && |x.got| <= 1 && x.status == (if x.got == [] then -1 else x.got[0])
          && (x.phase.Taken? ==> x.got != [] && x.still)
          && (x.phase.Registering? ==> x.got == [] && x.still && regs == Upto(x.phase.next))
          && (x.phase.Waiting? ==> (x.got == [] <==> x.still))
          && (x.phase.Waiting? && x.still ==> regs == Upto(|x.events|)))
  }

  ghost predicate EntryOk(ws: seq<Waiter>, e: nat, r: Reg) {
    r.waiter < |ws| && r.index < |ws[r.waiter].events| && ws[r.waiter].events[r.index] == e
  }

  ghost predicate EventOk(ws: seq<Waiter>, e: nat, ev: Event) {
    && LockOk(ev)
    && (forall j :: 0 <= j < |ev.queue| ==> EntryOk(ws, e, ev.queue[j]))
    && (!InSet(ev.lock) && ev.state ==> ev.queue == [])
    && (ev.lock.Setting? ==> ev.state)
    && (ev.lock.Signalling? ==> (ev.state <==> !ev.auto) && ev.lock.waiter < |ws|)
    && (InSet(ev.lock) && ev.auto ==> ev.lock.done == 0)
    && (ev.lock.Visited? ==>
          && ev.lock.seen <= |ev.queue| && ev.lock.waiter < |ws| && ws[ev.lock.waiter].phase.Registering?
          && ws[ev.lock.waiter].phase.next < |ws[ev.lock.waiter].events|
          && ws[ev.lock.waiter].events[ws[ev.lock.waiter].phase.next] == e)
  }

  ghost predicate Inv(s: State) {
    && |s.tally| == |s.evs|
    && (forall e :: 0 <= e < |s.evs| ==> EventOk(s.ws, e, s.evs[e]))
    && (forall w :: 0 <= w < |s.ws| ==> WaiterOk(s.ws[w], Regs(s.evs, w)))
    && (forall w :: 0 <= w < |s.ws| ==> forall i :: 0 <= i < |s.ws[w].events| ==> s.ws[w].events[i] < |s.evs|)
  }
}
