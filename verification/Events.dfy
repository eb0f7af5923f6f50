/** The sticky event that the ring signals on: events.h, where `SetEvent` and `ClearEvent` take the mutex, and
    events2.h, where they do not.  One atomic statement per step; condition variables may wake spuriously and timed
    waits may expire at any time. */
module Events {

  type Pc = n: nat | n <= 14

  const IDLE: Pc := 0
  // SetEvent
  const S_LOCK: Pc := 1     // only when `locked`
  const S_CAS: Pc := 2      // compare-and-swap state_ from 0 to 1
  const S_NOTIFY: Pc := 3   // notify_all / broadcast
  const S_UNLOCK: Pc := 4   // only when `locked`
  // WaitForEvent
  const T_LOOK: Pc := 5     // if (!state_)
  const T_LOCK: Pc := 6
  const T_CHECK: Pc := 7    // the loop condition
  const T_BLOCK: Pc := 8    // enter the timed wait: give up the mutex and block, in one step
  const T_BLOCKED: Pc := 9
  const T_WOKEN: Pc := 10   // about to take the mutex back
  const T_UNLOCK: Pc := 11
  // ClearEvent
  const C_LOCK: Pc := 12    // only when `locked`
  const C_CAS: Pc := 13     // compare-and-swap state_ from 1 to 0
  const C_UNLOCK: Pc := 14  // only when `locked`

  /** `ok` is false once the timed wait has expired; `ret` is what the last WaitForEvent returned. */
  datatype Thread = Thread(pc: Pc, ok: bool, ret: nat)

  datatype Mutex = Free | Held(owner: nat)

  /** `state` is state_; `locked` tells events.h from events2.h. */
  datatype State = State(locked: bool, state: bool, mutex: Mutex, ths: seq<Thread>)

  datatype Choice = Go | CallSet | CallWait | Spurious | TimeOut

  function Take(s: State, x: nat, pc: Pc): State
    requires x < |s.ths|
  {
    if s.mutex.Free? then s.(mutex := Held(x), ths := s.ths[x := s.ths[x].(pc := pc)]) else s
  }

  function Goto(s: State, x: nat, pc: Pc): State
    requires x < |s.ths|
  {
    s.(ths := s.ths[x := s.ths[x].(pc := pc)])
  }

  /** Every blocked thread becomes runnable. */
  function WakeAll(ths: seq<Thread>): (r: seq<Thread>)
    ensures |r| == |ths|
    ensures forall x :: 0 <= x < |ths| ==> r[x] == if ths[x].pc == T_BLOCKED then ths[x].(pc := T_WOKEN) else ths[x]
  {
    seq(|ths|, x requires 0 <= x < |ths| => if ths[x].pc == T_BLOCKED then ths[x].(pc := T_WOKEN) else ths[x])
  }

  function Step(s: State, x: nat, ch: Choice): (s': State)
    requires x < |s.ths|
    ensures |s'.ths| == |s.ths| && s'.locked == s.locked
  {
    var th, clear := s.ths[x], if s.locked then C_LOCK else C_CAS;
    if th.pc == IDLE then
      if ch.CallSet? then Goto(s, x, if s.locked then S_LOCK else S_CAS)
      else if ch.CallWait? then Goto(s, x, T_LOOK)
      else s
    else if th.pc == S_LOCK then Take(s, x, S_CAS)
    else if th.pc == S_CAS then Goto(s.(state := true), x, S_NOTIFY)
    else if th.pc == S_NOTIFY then Goto(s.(ths := WakeAll(s.ths)), x, if s.locked then S_UNLOCK else IDLE)
    else if th.pc == S_UNLOCK then Goto(s.(mutex := Free), x, IDLE)
    else if th.pc == T_LOOK then
      s.(ths := s.ths[x := Thread(if s.state then clear else T_LOCK, true, th.ret)])
    else if th.pc == T_LOCK then Take(s, x, T_CHECK)
    else if th.pc == T_CHECK then Goto(s, x, if !s.state && th.ok then T_BLOCK else T_UNLOCK)
    else if th.pc == T_BLOCK then Goto(s.(mutex := Free), x, T_BLOCKED)
    else if th.pc == T_BLOCKED then
      if ch.TimeOut? then s.(ths := s.ths[x := th.(pc := T_WOKEN, ok := false)])
      else if ch.Spurious? then Goto(s, x, T_WOKEN)
      else s
    else if th.pc == T_WOKEN then Take(s, x, T_CHECK)
    else if th.pc == T_UNLOCK then Goto(s.(mutex := Free), x, clear)
    else if th.pc == C_LOCK then Take(s, x, C_CAS)
    else if th.pc == C_CAS then
      if s.locked then Goto(s.(state := false), x, C_UNLOCK)
      else s.(state := false, ths := s.ths[x := th.(pc := IDLE, ret := if th.ok then 1 else 0)])
    else if th.pc == C_UNLOCK then
      s.(mutex := Free, ths := s.ths[x := th.(pc := IDLE, ret := if th.ok then 1 else 0)])
    else s
  }

  // ----- the mutex

  predicate Critical(locked: bool, pc: Pc) {
    || pc == T_CHECK || pc == T_BLOCK || pc == T_UNLOCK
    || (locked && (pc == S_CAS || pc == S_NOTIFY || pc == S_UNLOCK || pc == C_CAS || pc == C_UNLOCK))
  }

  predicate LockOnly(pc: Pc) {
    pc == S_LOCK || pc == S_UNLOCK || pc == C_LOCK || pc == C_UNLOCK
  }

  /** The owner of the mutex is exactly the thread inside a critical region, and the lock-only statements are
      reached only in the locked variant. */
  ghost predicate MutexOk(s: State) {
    && (forall x :: 0 <= x < |s.ths| ==> (Critical(s.locked, s.ths[x].pc) <==> s.mutex == Held(x)))
    && (forall x :: 0 <= x < |s.ths| && !s.locked ==> !LockOnly(s.ths[x].pc))
    && (s.mutex.Held? ==> s.mutex.owner < |s.ths|)
  }

  ghost predicate Start(s: State) {
    !s.state && s.mutex == Free && forall x :: 0 <= x < |s.ths| ==> s.ths[x].pc == IDLE
  }

  /** How a step moves the mutex. */
  lemma MutexMoves(s: State, x: nat, ch: Choice)
    requires MutexOk(s) && x < |s.ths|
    ensures var s' := Step(s, x, ch); var pc, pc' := s.ths[x].pc, s'.ths[x].pc;
      && (if Critical(s.locked, pc) == Critical(s.locked, pc') then s'.mutex == s.mutex
          else if Critical(s.locked, pc') then s.mutex == Free && s'.mutex == Held(x)
          else s'.mutex == Free)
      && (!s.locked ==> !LockOnly(pc'))
  {
    hide WakeAll;
  }

  lemma OthersStay(s: State, x: nat, ch: Choice, y: nat)
    requires x < |s.ths| && y < |s.ths| && x != y
    ensures var pc, pc' := s.ths[y].pc, Step(s, x, ch).ths[y].pc;
      pc' == pc || (pc == T_BLOCKED && pc' == T_WOKEN && s.ths[x].pc == S_NOTIFY)
  {
  }

  lemma MutexKeeps(s: State, x: nat, ch: Choice)
    requires MutexOk(s) && x < |s.ths|
    ensures MutexOk(Step(s, x, ch))
  {
    var s' := Step(s, x, ch);
    hide Step;
    MutexMoves(s, x, ch);
    forall y | 0 <= y < |s'.ths|
      ensures (Critical(s'.locked, s'.ths[y].pc) <==> s'.mutex == Held(y)) && (!s'.locked ==> !LockOnly(s'.ths[y].pc))
    {
      if x != y { OthersStay(s, x, ch, y); }
    }
  }

  // ----- nobody sleeps on a set event

  /** No thread is blocked and un-notified while state_ is 1, except while a setter is about to notify. */
  ghost predicate NoSleeper(s: State) {
    forall w :: 0 <= w < |s.ths| && s.ths[w].pc == T_BLOCKED ==>
      !s.state || exists y :: 0 <= y < |s.ths| && s.ths[y].pc == S_NOTIFY
  }

  /** A waiter has tested state_, has not blocked yet, and the event was set and announced in between. */
  ghost predicate Gap(s: State, x: nat)
    requires x < |s.ths|
  {
    s.ths[x].pc == T_BLOCK && s.state && forall y :: 0 <= y < |s.ths| ==> s.ths[y].pc != S_NOTIFY
  }

  /** In either variant, exactly the steps through the gap put a thread to sleep on a set event. */
  lemma SleeperExactly(s: State, x: nat, ch: Choice)
    requires NoSleeper(s) && x < |s.ths|
    ensures NoSleeper(Step(s, x, ch)) <==> !Gap(s, x)
  {
    var s' := Step(s, x, ch);
    if Gap(s, x) {
      assert s'.ths[x].pc == T_BLOCKED;
    } else if s.ths[x].pc == S_CAS {
      assert s'.ths[x].pc == S_NOTIFY;
    } else {
      forall w | 0 <= w < |s'.ths| && s'.ths[w].pc == T_BLOCKED && s'.state
        ensures exists y :: 0 <= y < |s'.ths| && s'.ths[y].pc == S_NOTIFY
      {
        SomeoneNotifies(s, x, ch, w);
      }
    }
  }

  lemma SomeoneNotifies(s: State, x: nat, ch: Choice, w: nat)
    requires NoSleeper(s) && x < |s.ths| && !Gap(s, x) && s.ths[x].pc != S_CAS
    requires w < |s.ths| && Step(s, x, ch).ths[w].pc == T_BLOCKED && Step(s, x, ch).state
    ensures exists y :: 0 <= y < |s.ths| && Step(s, x, ch).ths[y].pc == S_NOTIFY
  {
    var s' := Step(s, x, ch);
    var y :| 0 <= y < |s.ths| && s.ths[y].pc == S_NOTIFY;
    assert s'.ths[y].pc == S_NOTIFY;
  }

  /** What the mutex buys: between the test and the block nobody can set the event. */
  ghost predicate LockedInv(s: State) {
    && s.locked && MutexOk(s) && NoSleeper(s)
    && forall x :: 0 <= x < |s.ths| && s.ths[x].pc == T_BLOCK ==> !s.state
  }

  /** events.h: no wakeup is ever lost, whatever the number of setters and waiters. */
  lemma LockedKeeps(s: State, x: nat, ch: Choice)
    requires LockedInv(s) && x < |s.ths|
    ensures LockedInv(Step(s, x, ch))
  {
    MutexKeeps(s, x, ch);
    SleeperExactly(s, x, ch);
    assert MutexOk(s);
  }

  type Schedule = seq<(nat, Choice)>

  predicate Runs(sched: Schedule, threads: nat) {
    forall i :: 0 <= i < |sched| ==> sched[i].0 < threads
  }

  function Run(s: State, sched: Schedule): (s': State)
    requires Runs(sched, |s.ths|)
    ensures |s'.ths| == |s.ths| && s'.locked == s.locked
    decreases |sched|
  {
    if sched == [] then s else Run(Step(s, sched[0].0, sched[0].1), sched[1..])
  }

  ghost predicate AlwaysNoSleeper(s: State, sched: Schedule)
    requires Runs(sched, |s.ths|)
    decreases |sched|
  {
    NoSleeper(s) && (sched == [] || AlwaysNoSleeper(Step(s, sched[0].0, sched[0].1), sched[1..]))
  }

  /** No step of the run goes through the gap. */
  ghost predicate NoGap(s: State, sched: Schedule)
    requires Runs(sched, |s.ths|)
    decreases |sched|
  {
    sched == [] || (!Gap(s, sched[0].0) && NoGap(Step(s, sched[0].0, sched[0].1), sched[1..]))
  }

  /** Over every run of either variant, nobody is ever asleep on a set event if and only if no thread goes through the
      gap. */
  lemma {:induction false} SleeperRuns(s: State, sched: Schedule)
    requires NoSleeper(s) && Runs(sched, |s.ths|)
    ensures AlwaysNoSleeper(s, sched) <==> NoGap(s, sched)
    decreases |sched|
  {
    hide Step, NoSleeper, Gap;
    if sched != [] {
      var s1 := Step(s, sched[0].0, sched[0].1);
      SleeperExactly(s, sched[0].0, sched[0].1);
      if NoSleeper(s1) { SleeperRuns(s1, sched[1..]); } else { assert !AlwaysNoSleeper(s1, sched[1..]); }
    }
  }

  lemma {:induction false} LockedRun(s: State, sched: Schedule)
    requires LockedInv(s) && Runs(sched, |s.ths|)
    ensures LockedInv(Run(s, sched))
    decreases |sched|
  {
    hide Step;
    if sched != [] {
      LockedKeeps(s, sched[0].0, sched[0].1);
      LockedRun(Step(s, sched[0].0, sched[0].1), sched[1..]);
    }
  }

  /** events.h from the start, any number of setters and waiters, any schedule. */
  lemma LockedNeverLosesWakeup(s: State, sched: Schedule)
    requires Start(s) && s.locked && Runs(sched, |s.ths|)
    ensures NoSleeper(Run(s, sched))
  {
    assert LockedInv(s);
    LockedRun(s, sched);
  }

  lemma RunCons(s: State, x: nat, ch: Choice, rest: Schedule)
    requires x < |s.ths| && Runs(rest, |s.ths|)
    ensures Runs([(x, ch)] + rest, |s.ths|) && Run(s, [(x, ch)] + rest) == Run(Step(s, x, ch), rest)
  {
    assert ([(x, ch)] + rest)[1..] == rest;
  }

  /** The event is set and announced between the waiter's test and its block. */
  lemma SetInGap(s: State) returns (sched: Schedule)
    requires !s.locked && |s.ths| == 2 && s.ths[0].pc == T_BLOCK && s.ths[1].pc == IDLE
    ensures Runs(sched, 2)
    ensures var e := Run(s, sched); e.state && e.ths[0].pc == T_BLOCKED && e.ths[1].pc == IDLE
  {
    var s1 := Step(s, 1, CallSet);
    var s2 := Step(s1, 1, Go);
    var s3 := Step(s2, 1, Go);
    var s4 := Step(s3, 0, Go);
    assert s4.ths[0].pc == T_BLOCKED && s4.ths[1].pc == IDLE && s4.state && Run(s4, []) == s4;
    hide Step, Run;
    RunCons(s3, 0, Go, []);
    RunCons(s2, 1, Go, [(0, Go)] + []);
    RunCons(s1, 1, Go, [(1, Go)] + ([(0, Go)] + []));
    RunCons(s, 1, CallSet, [(1, Go)] + ([(1, Go)] + ([(0, Go)] + [])));
    sched := [(1, CallSet)] + ([(1, Go)] + ([(1, Go)] + ([(0, Go)] + [])));
  }

  /** events2.h: one waiter and one setter are enough to leave the waiter asleep on a set event with nobody left to
      wake it. */
  lemma UnlockedLosesWakeup(s: State) returns (sched: Schedule)
    requires Start(s) && !s.locked && |s.ths| == 2
    ensures Runs(sched, 2)
    ensures var e := Run(s, sched); e.state && e.ths[0].pc == T_BLOCKED && e.ths[1].pc == IDLE
  {
    var s1 := Step(s, 0, CallWait);
    var s2 := Step(s1, 0, Go);
    var s3 := Step(s2, 0, Go);
    var s4 := Step(s3, 0, Go);
    assert s4.ths[0].pc == T_BLOCK && s4.ths[1].pc == IDLE;
    hide Step, Run;
    var rest := SetInGap(s4);
    RunCons(s3, 0, Go, rest);
    RunCons(s2, 0, Go, [(0, Go)] + rest);
    RunCons(s1, 0, Go, [(0, Go)] + ([(0, Go)] + rest));
    RunCons(s, 0, CallWait, [(0, Go)] + ([(0, Go)] + ([(0, Go)] + rest)));
    sched := [(0, CallWait)] + ([(0, Go)] + ([(0, Go)] + ([(0, Go)] + rest)));
  }

  /** A thread left sleeping stays asleep until a new `SetEvent` notifies, the wait expires, or it wakes spuriously. */
  lemma SleeperStays(s: State, w: nat, x: nat, ch: Choice)
    requires w < |s.ths| && x < |s.ths| && s.ths[w].pc == T_BLOCKED
    ensures Step(s, x, ch).ths[w].pc == T_BLOCKED <==>
            s.ths[x].pc != S_NOTIFY && !(x == w && (ch.TimeOut? || ch.Spurious?))
  {
  }

  /** WaitForEvent reports success only after seeing state_ set: it leaves its wait with `ok` only past a test that
      found the event set. */
  lemma SuccessMeansSet(s: State, x: nat, ch: Choice)
    requires x < |s.ths| && s.ths[x].pc != T_UNLOCK && Step(s, x, ch).ths[x].pc == T_UNLOCK
    ensures s.ths[x].pc == T_CHECK && (Step(s, x, ch).ths[x].ok ==> s.state)
  {
  }
}
