/** event_t as an object that threads update in place, one atomic statement per call. */
module StickyEvent {
  import opened Events

  class EventT {
    const locked: bool
    var state: bool
    var mutex: Mutex
    var ths: seq<Thread>

    ghost function Snapshot(): State
      reads this
    {
      State(locked, state, mutex, ths)
    }

    /** `CreateEvent`, with the threads that will use the event. */
    constructor CreateEvent(locked: bool, threads: nat)
      ensures Start(Snapshot()) && Snapshot().locked == locked && |ths| == threads
    {
      this.locked := locked;
      state := false;
      mutex := Free;
      ths := seq(threads, _ => Thread(IDLE, true, 0));
    }

    method Lock(x: nat, pc: Pc)
      requires x < |ths|
      modifies this
      ensures Snapshot() == Take(old(Snapshot()), x, pc)
    {
      if mutex.Free? {
        mutex := Held(x);
        ths := ths[x := ths[x].(pc := pc)];
      }
    }

    method Unlock(x: nat, pc: Pc)
      requires x < |ths|
      modifies this
      ensures Snapshot() == Goto(old(Snapshot()).(mutex := Free), x, pc)
    {
      mutex := Free;
      ths := ths[x := ths[x].(pc := pc)];
    }

    /** A statement of `SetEvent`. */
    method SetEvent(x: nat)
      requires x < |ths| && S_LOCK <= ths[x].pc <= S_UNLOCK
      modifies this
      ensures Snapshot() == Step(old(Snapshot()), x, Go)
    {
      if ths[x].pc == S_LOCK {
        Lock(x, S_CAS);
      } else if ths[x].pc == S_CAS {
        if !state { state := true; }
        ths := ths[x := ths[x].(pc := S_NOTIFY)];
      } else if ths[x].pc == S_NOTIFY {
        var y := 0;
        while y < |ths|
          invariant y <= |ths| == |old(ths)| && state == old(state) && mutex == old(mutex)
          invariant forall i :: 0 <= i < y ==> ths[i] == WakeAll(old(ths))[i]
          invariant forall i :: y <= i < |ths| ==> ths[i] == old(ths)[i]
        {
          if ths[y].pc == T_BLOCKED { ths := ths[y := ths[y].(pc := T_WOKEN)]; }
          y := y + 1;
        }
        assert ths == WakeAll(old(ths));
        ths := ths[x := ths[x].(pc := if locked then S_UNLOCK else IDLE)];
      } else {
        Unlock(x, IDLE);
      }
    }

    /** A statement of `WaitForEvent` before its ClearEvent. */
    method WaitForEvent(x: nat, ch: Choice)
      requires x < |ths| && T_LOOK <= ths[x].pc <= T_UNLOCK
      modifies this
      ensures Snapshot() == Step(old(Snapshot()), x, ch)
    {
      var th, clear := ths[x], if locked then C_LOCK else C_CAS;
      if th.pc == T_LOOK {
        ths := ths[x := th.(pc := if state then clear else T_LOCK, ok := true)];
      } else if th.pc == T_LOCK || th.pc == T_WOKEN {
        Lock(x, T_CHECK);
      } else if th.pc == T_CHECK {
        ths := ths[x := th.(pc := if !state && th.ok then T_BLOCK else T_UNLOCK)];
      } else if th.pc == T_BLOCK {
        Unlock(x, T_BLOCKED);
      } else if th.pc == T_BLOCKED {
        if ch.TimeOut? {
          ths := ths[x := th.(pc := T_WOKEN, ok := false)];
        } else if ch.Spurious? {
          ths := ths[x := th.(pc := T_WOKEN)];
        }
      } else {
        Unlock(x, clear);
      }
    }

    /** A statement of `ClearEvent` and the return of WaitForEvent. */
    method ClearEvent(x: nat)
      requires x < |ths| && C_LOCK <= ths[x].pc <= C_UNLOCK
      modifies this
      ensures Snapshot() == Step(old(Snapshot()), x, Go)
    {
      if ths[x].pc == C_LOCK {
        Lock(x, C_CAS);
      } else {
        if ths[x].pc == C_CAS {
          if state { state := false; }
          if locked {
            ths := ths[x := ths[x].(pc := C_UNLOCK)];
            return;
          }
        } else {
          mutex := Free;
        }
        ths := ths[x := ths[x].(pc := IDLE, ret := if ths[x].ok then 1 else 0)];
      }
    }
  }
}
