/** What the callers of `SetEvent` and `WaitForEvent` of the sticky event are promised, in both headers, over every run. */
module EventCalls {
  import opened Events

  /** A call: what it was asked, what its last look at state_ found, whether its wait has expired, whether its own
      compare-and-swap has left state_ set, or clear, and whether it has woken everybody who was blocked. */
  datatype Log = Log(asked: Choice, seen: bool, expired: bool, acted: bool, told: bool)

  const NO_CALL := Log(Go, false, false, false, false)

  ghost predicate NobodyBlocked(s: State) {
    forall y :: 0 <= y < |s.ths| ==> s.ths[y].pc != T_BLOCKED
  }

  /** The call of thread w after a step of thread x.  A look after the wait has expired does not count. */
  ghost function Note(l: Log, s: State, x: nat, ch: Choice, w: nat): Log
    requires x < |s.ths|
  {
    var pc, s' := s.ths[x].pc, Step(s, x, ch);
    if x != w then l
    else if pc == IDLE then (if ch.CallSet? || ch.CallWait? then NO_CALL.(asked := ch) else l)
    else
      Log(l.asked,
          if pc == T_LOOK || (pc == T_CHECK && !l.expired) then s.state else l.seen,
          l.expired || (pc == T_BLOCKED && ch.TimeOut?),
          l.acted || (pc == S_CAS && s'.state) || (pc == C_CAS && !s'.state),
          l.told || (pc == S_NOTIFY && NobodyBlocked(s')))
  }

  ghost function LogOf(s: State, sched: Schedule, w: nat, l: Log): Log
    requires Runs(sched, |s.ths|)
    decreases |sched|
  {
    if sched == [] then l
    else LogOf(Step(s, sched[0].0, sched[0].1), sched[1..], w, Note(l, s, sched[0].0, sched[0].1, w))
  }

  /** A returned call. */
  predicate Kept(l: Log, ret: nat) {
    match l.asked
    case CallSet => l.acted && l.told
    case CallWait => l.acted && ret == (if l.seen then 1 else 0) && l.expired == !l.seen
    case _ => l == NO_CALL
  }

  /** Where a thread is in its call. */
  predicate LogOk(th: Thread, l: Log) {
    if th.pc == IDLE then Kept(l, th.ret)
    else if th.pc <= S_UNLOCK then l.asked == CallSet && (th.pc > S_CAS ==> l.acted) && (th.pc > S_NOTIFY ==> l.told)
    else
      && l.asked == CallWait && (th.pc == T_LOOK || T_BLOCK <= th.pc <= T_BLOCKED ==> !l.expired)
      && (th.pc > T_LOOK ==> th.ok == !l.expired) && (th.pc >= T_UNLOCK ==> th.ok == l.seen)
      && (T_LOCK <= th.pc <= T_WOKEN ==> !l.seen) && (th.pc == C_UNLOCK ==> l.acted)
  }

  lemma SetHere(l: Log, s: State, x: nat, ch: Choice)
    requires x < |s.ths| && LogOk(s.ths[x], l) && IDLE < s.ths[x].pc <= S_UNLOCK
    ensures LogOk(Step(s, x, ch).ths[x], Note(l, s, x, ch, x))
  {
  }

  lemma WaitHere(l: Log, s: State, x: nat, ch: Choice)
    requires x < |s.ths| && LogOk(s.ths[x], l) && T_LOOK <= s.ths[x].pc <= T_WOKEN
    ensures LogOk(Step(s, x, ch).ths[x], Note(l, s, x, ch, x))
  {
    hide NobodyBlocked, WakeAll;
  }

  lemma ClearHere(l: Log, s: State, x: nat, ch: Choice)
    requires x < |s.ths| && LogOk(s.ths[x], l) && T_UNLOCK <= s.ths[x].pc
    ensures LogOk(Step(s, x, ch).ths[x], Note(l, s, x, ch, x))
  {
    hide NobodyBlocked, WakeAll;
  }

  lemma LogHere(l: Log, s: State, x: nat, ch: Choice)
    requires x < |s.ths| && LogOk(s.ths[x], l)
    ensures LogOk(Step(s, x, ch).ths[x], Note(l, s, x, ch, x))
  {
    if s.ths[x].pc == IDLE {
    } else {
      hide Step, LogOk, Note;
      if s.ths[x].pc <= S_UNLOCK {
        SetHere(l, s, x, ch);
      } else if s.ths[x].pc <= T_WOKEN {
        WaitHere(l, s, x, ch);
      } else {
        ClearHere(l, s, x, ch);
      }
    }
  }

  lemma LogKeeps(l: Log, s: State, x: nat, ch: Choice, w: nat)
    requires x < |s.ths| && w < |s.ths| && LogOk(s.ths[w], l)
    ensures LogOk(Step(s, x, ch).ths[w], Note(l, s, x, ch, w))
  {
    if x == w { LogHere(l, s, x, ch); }
  }

  lemma {:induction false} LogRun(s: State, sched: Schedule, w: nat, l: Log)
    requires Runs(sched, |s.ths|) && w < |s.ths| && LogOk(s.ths[w], l)
    ensures LogOk(Run(s, sched).ths[w], LogOf(s, sched, w, l))
    decreases |sched|
  {
    hide Step, LogOk, Note;
    if sched != [] {
      LogKeeps(l, s, sched[0].0, sched[0].1, w);
      LogRun(Step(s, sched[0].0, sched[0].1), sched[1..], w, Note(l, s, sched[0].0, sched[0].1, w));
    }
  }

  /** A `WaitForEvent` that has returned, in any run of either header: it returns 1 if and only if its last look found the
      event set, and 0 if and only if its wait has expired; in both cases its own step has cleared the event. */
  lemma WaitReturns(s: State, sched: Schedule, w: nat)
    requires Start(s) && Runs(sched, |s.ths|) && w < |s.ths|
    requires Run(s, sched).ths[w].pc == IDLE && LogOf(s, sched, w, NO_CALL).asked.CallWait?
    ensures var l, ret := LogOf(s, sched, w, NO_CALL), Run(s, sched).ths[w].ret;
      (ret == 1 <==> l.seen) && (ret == 0 <==> l.expired) && ret <= 1 && l.acted
  {
    hide Run, LogOf;
    LogRun(s, sched, w, NO_CALL);
  }

  /** A `SetEvent` that has returned: its own step has left the event set, and later one of its steps has woken everybody
      who was blocked. */
  lemma SetReturns(s: State, sched: Schedule, w: nat)
    requires Start(s) && Runs(sched, |s.ths|) && w < |s.ths|
    requires Run(s, sched).ths[w].pc == IDLE && LogOf(s, sched, w, NO_CALL).asked.CallSet?
    ensures var l := LogOf(s, sched, w, NO_CALL); l.acted && l.told
  {
    hide Run, LogOf;
    LogRun(s, sched, w, NO_CALL);
  }

  // ----- every statement is a step towards the return

  /** The statements a call has still to execute if its next test finds the event set. */
  function Left(pc: Pc, locked: bool): nat {
    if pc == IDLE then 0
    else if pc <= S_UNLOCK then 5 - pc
    else if pc == C_UNLOCK then 1
    else if pc == C_CAS then 2
    else if pc == C_LOCK then 3
    else if pc == T_UNLOCK then 4
    else if pc == T_CHECK then 5
    else if pc == T_LOCK || pc == T_WOKEN then 6
    else if pc == T_LOOK || pc == T_BLOCKED then 7
    else 8 // T_BLOCK
  }

  predicate NeedsMutex(pc: Pc) {
    pc == S_LOCK || pc == T_LOCK || pc == T_WOKEN || pc == C_LOCK
  }

  /** A thread inside a call that neither waits for the mutex nor is blocked comes closer to its return with every
      statement, unless it finds the event clear and its wait has not expired: then it is about to block. */
  lemma ComesCloser(s: State, x: nat, ch: Choice)
    requires x < |s.ths| && s.ths[x].pc != IDLE && (NeedsMutex(s.ths[x].pc) ==> s.mutex == Free)
    requires s.ths[x].pc == T_BLOCKED ==> ch.TimeOut? || ch.Spurious?
    ensures var pc, pc' := s.ths[x].pc, Step(s, x, ch).ths[x].pc;
      if pc == T_CHECK && !s.state && s.ths[x].ok then pc' == T_BLOCK else Left(pc', s.locked) < Left(pc, s.locked)
  {
  }
}
