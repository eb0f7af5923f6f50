/** Runs that show where the guarantees of the ring end, and what follows from there. */
module Limits {
  import opened Slots
  import opened Stage
  import opened Ring
  import opened History
  import opened Safety
  import opened Payload
  import opened Fifo
  import R = Runs
  import opened Completion

  // ----- pieces of runs

  /** Where runs start, and which threads call `read` in them. */
  datatype Origin = Origin(start: State, readers: set<nat>)

  predicate OnlyReaders(sched: Schedule, readers: set<nat>) {
    forall i :: 0 <= i < |sched| && sched[i].1.CallRead? ==> sched[i].0 in readers
  }

  /** Some schedule leads from the origin to s. */
  ghost predicate Reachable(s0: Origin, s: State)
    requires Sane(s0.start)
  {
    exists sched: Schedule :: Runs(sched, |s0.start.ths|) && OnlyReaders(sched, s0.readers) && Run(s0.start, sched) == s
  }

  lemma ReachStart(s0: Origin)
    requires Sane(s0.start)
    ensures Reachable(s0, s0.start)
  {
    assert Run(s0.start, []) == s0.start;
  }

  lemma ReachStep(s0: Origin, s: State, x: nat, ch: Choice)
    requires Sane(s0.start) && Reachable(s0, s) && x < |s0.start.ths| && (ch.CallRead? ==> x in s0.readers)
    ensures Sane(s) && |s.ths| == |s0.start.ths| && Reachable(s0, Step(s, x, ch))
  {
    hide Step;
    var sched: Schedule :| Runs(sched, |s0.start.ths|) && OnlyReaders(sched, s0.readers) && Run(s0.start, sched) == s;
    var sched' := sched + [(x, ch)];
    assert sched'[..|sched|] == sched;
    assert Run(s0.start, sched') == Step(s, x, ch);
  }

  /** Thread x took some steps from s to e; the memory layout and all other threads are as they were. */
  ghost predicate Went(s0: Origin, s: State, e: State, x: nat)
    requires Sane(s0.start)
  {
    && Sane(s) && Sane(e) && Reachable(s0, e) && |s.ths| == |e.ths| == |s0.start.ths| && x < |s.ths|
    && |e.h.tk| == |e.ths| && e.ths == s.ths[x := e.ths[x]] && e.m.next == s.m.next && e.m.prev == s.m.prev
        && e.m.blockSize == s.m.blockSize
    && (Inv(s) ==> Inv(e)) && e.h.out == s.h.out && e.h.sizes == s.h.sizes
  }

  lemma WentOn(s0: Origin, s: State, e: State, f: State, x: nat)
    requires Sane(s0.start) && Went(s0, s, e, x) && Went(s0, e, f, x)
    ensures Went(s0, s, f, x)
  {
    hide Sane, Inv, Reachable;
  }

  /** Any step, also one that breaks the invariant. */
  lemma Goes(s0: Origin, s: State, x: nat, ch: Choice) returns (e: State)
    requires Sane(s0.start) && Reachable(s0, s) && x < |s0.start.ths| == |s.ths| && Sane(s)
    requires ch.CallRead? ==> x in s0.readers
    ensures Sane(e) && Reachable(s0, e) && e == Step(s, x, ch)
    ensures e == State(Exec(s.m, s.ths[x], ch).m, s.ths[x := Exec(s.m, s.ths[x], ch).th], Record(s, x))
    ensures SameLayout(s.m, e.m) && |e.h.tk| == |e.ths|
    ensures s.ths[x].pc != R_DECREMENT ==> e.h.out == s.h.out && e.h.sizes == s.h.sizes
  {
    ReachStep(s0, s, x, ch);
    e := Step(s, x, ch);
    OutRecord(s, x);
    hide Run, Inv, Exec, Record;
  }

  /** A step that keeps the invariant if it held. */
  lemma Next(s0: Origin, s: State, x: nat, ch: Choice) returns (e: State)
    requires Sane(s0.start) && Reachable(s0, s) && x < |s0.start.ths| == |s.ths| && Sane(s)
    requires Inv(s) && (s.ths[x].pc == W_CLAIM || s.ths[x].pc == R_CLAIM) ==> !Hazard(s, x)
    requires ch.CallRead? ==> x in s0.readers
    requires s.ths[x].pc != R_DECREMENT
    ensures Went(s0, s, e, x) && Reachable(s0, e) && Sane(e) && |e.ths| == |s.ths|
    ensures e == State(Exec(s.m, s.ths[x], ch).m, s.ths[x := Exec(s.m, s.ths[x], ch).th], Record(s, x))
  {
    hide Step, Inv, Exec, Record, Reachable;
    e := Goes(s0, s, x, ch);
    if Inv(s) { SafeStep(s, x, ch); }
  }

  lemma SafeStep(s: State, x: nat, ch: Choice)
    requires Inv(s) && x < |s.ths|
    requires s.ths[x].pc == W_CLAIM || s.ths[x].pc == R_CLAIM ==> !Hazard(s, x)
    ensures Inv(Step(s, x, ch))
  {
    hide Step, Inv;
    StepKeeps(s, x, ch);
  }

  /** A thread calls `write` and finds room. */
  lemma Calls(s0: Origin, s: State, x: nat, msg: Msg) returns (e: State)
    requires Sane(s0.start) && Reachable(s0, s) && x < |s0.start.ths| == |s.ths| && Sane(s)
    requires s.ths[x].pc == IDLE && s.m.next[s.m.w.start] != s.m.r.end
    ensures Went(s0, s, e, x) && e.m == s.m && e.h == s.h.(ld := e.h.ld)
    ensures e.ths[x].pc == W_CLAIM && e.ths[x].blk == s.m.w.start && e.ths[x].buf == msg
  {
    hide Went, Reachable, Sane, MemOk, ThreadOk, Inv, Hazard, Slot, TicketAt, CopyIn, PostBlock, GetBlockRead,
         CopyOut, ReturnBlock, Return;
    var s1 := Next(s0, s, x, CallWrite(msg));
    assert s1.ths[x].pc == W_LOAD_START;
    var s2 := Next(s0, s1, x, Go);
    assert s2.ths[x].pc == W_CHECK_ROOM;
    e := Next(s0, s2, x, Go);
    WentOn(s0, s, s1, s2, x);
    WentOn(s0, s, s2, e, x);
  }

  /** Its claim succeeds. */
  lemma Claims(s0: Origin, s: State, x: nat) returns (e: State)
    requires Sane(s0.start) && Reachable(s0, s) && x < |s0.start.ths| == |s.ths| && Sane(s)
    requires s.ths[x].pc == W_CLAIM && s.ths[x].blk == s.m.w.start
    requires s.m.next[s.m.w.start] != s.m.r.end
    ensures Went(s0, s, e, x) && e.m == s.m.(w := s.m.w.(start := s.m.next[s.m.w.start]))
    ensures e.h.w == Enter(s.h.w, x) && e.h.r == s.h.r && e.h.tk == s.h.tk[x := |s.h.w.phase|]
    ensures e.ths[x].pc == W_COPY && e.ths[x].blk == s.ths[x].blk && e.ths[x].buf == s.ths[x].buf
    ensures e.ths[x].k == 0 && e.ths[x].len == Min(|s.ths[x].buf|, s.m.blockSize)
    ensures e.h.msgs == s.h.msgs + [Cut(s.ths[x].buf, s.m.blockSize)]
  {
    hide Went, Reachable, Sane, MemOk, ThreadOk, Inv, Slot, TicketAt, CopyIn, PostBlock, GetBlockRead, CopyOut,
         ReturnBlock, Return;
    e := Next(s0, s, x, Go);
  }

  /** It stores an empty message and sets the done flag. */
  lemma Stores(s0: Origin, s: State, x: nat) returns (e: State)
    requires Sane(s0.start) && Reachable(s0, s) && x < |s0.start.ths| == |s.ths| && Sane(s)
    requires s.ths[x].pc == W_COPY && s.ths[x].len == 0 && s.ths[x].k == 0
    ensures Went(s0, s, e, x)
    ensures var b := s.ths[x].blk;
      e.m == s.m.(w := s.m.w.(done := s.m.w.done[b := true]), amount := s.m.amount[b := 0])
    ensures e.h.w == Put(s.h.w, s.h.tk[x], Done) && e.h.r == s.h.r && e.h.tk == s.h.tk && e.h.msgs == s.h.msgs
    ensures e.ths[x].pc == W_LOAD_END
  {
    hide Went, Reachable, Sane, MemOk, ThreadOk, Inv, Hazard, Slot, TicketAt, GetBlockWrite, GetBlockRead, CopyOut,
         ReturnBlock, Return;
    var s1 := Next(s0, s, x, Go);
    assert s1.ths[x].pc == W_SET_DONE && s1.ths[x].blk == s.ths[x].blk && s1.m.w == s.m.w;
    e := Next(s0, s1, x, Go);
    WentOn(s0, s, s1, e, x);
  }

  /** It stores a message of one byte and sets the done flag. */
  lemma StoresByte(s0: Origin, s: State, x: nat) returns (e: State)
    requires Sane(s0.start) && Reachable(s0, s) && x < |s0.start.ths| == |s.ths| && Sane(s)
    requires s.ths[x].pc == W_COPY && s.ths[x].len == 1 && s.ths[x].k == 0 && |s.ths[x].buf| == 1
    ensures Went(s0, s, e, x)
    ensures var b := s.ths[x].blk;
      e.m.w == s.m.w.(done := s.m.w.done[b := true]) && e.m.amount == s.m.amount[b := 1] && e.m.r == s.m.r
      && e.m.data == s.m.data[b := s.m.data[b][0 := s.ths[x].buf[0]]]
    ensures e.h.w == Put(s.h.w, s.h.tk[x], Done) && e.h.r == s.h.r && e.h.tk == s.h.tk && e.h.msgs == s.h.msgs
    ensures e.ths[x].pc == W_LOAD_END
  {
    hide Went, Reachable, Sane, MemOk, ThreadOk, Inv, Hazard, Slot, TicketAt, GetBlockWrite, GetBlockRead, CopyOut,
         ReturnBlock, Return;
    var s1 := Next(s0, s, x, Go);
    assert s1.ths[x].pc == W_COPY && s1.ths[x].len == 1 && s1.ths[x].k == 1 && s1.ths[x].blk == s.ths[x].blk;
    var s2 := Next(s0, s1, x, Go);
    assert s2.ths[x].pc == W_SET_DONE && s2.ths[x].blk == s.ths[x].blk && s2.h == s.h;
    e := Next(s0, s2, x, Go);
    WentOn(s0, s, s1, s2, x);
    WentOn(s0, s, s2, e, x);
  }

  /** It loads m_writeEnd. */
  lemma Loads(s0: Origin, s: State, x: nat) returns (e: State)
    requires Sane(s0.start) && Reachable(s0, s) && x < |s0.start.ths| == |s.ths| && Sane(s) && s.ths[x].pc == W_LOAD_END
    ensures Went(s0, s, e, x) && e.m == s.m && e.h == s.h
    ensures e.ths[x].pc == W_TAKE_FLAG && e.ths[x].blk == s.m.w.end
  {
    hide Went, Reachable, Sane, MemOk, ThreadOk, Inv, Hazard, Slot, TicketAt, GetBlockWrite, CopyIn, GetBlockRead,
         CopyOut, ReturnBlock, Return;
    e := Next(s0, s, x, Go);
  }

  /** It takes a raised flag, with a current or a stale cursor value. */
  lemma TakesFlag(s0: Origin, s: State, x: nat) returns (e: State)
    requires Sane(s0.start) && Reachable(s0, s) && x < |s0.start.ths| == |s.ths| && Sane(s)
    requires s.ths[x].pc == W_TAKE_FLAG && s.m.w.done[s.ths[x].blk] && |s.h.tk| == |s.ths|
    ensures Went(s0, s, e, x)
    ensures var b := s.ths[x].blk; var t := TicketAt(s.h.w.end, b, |s.m.next|);
      && e.m == s.m.(w := s.m.w.(done := s.m.w.done[b := false])) && e.h.tk == s.h.tk[x := t]
      && e.h.w == Put(s.h.w, t, Moving(x)) && e.h.r == s.h.r && e.h.msgs == s.h.msgs
    ensures e.ths[x].pc == W_MOVE_END && e.ths[x].blk == s.ths[x].blk
  {
    hide Went, Reachable, Sane, MemOk, ThreadOk, Inv, Hazard, Slot, TicketAt, GetBlockWrite, CopyIn, GetBlockRead,
         CopyOut, ReturnBlock, Return, Finish;
    e := Next(s0, s, x, Go);
  }

  /** It tries to move the cursor, signals if it has to, and is back in its loop. */
  lemma TriesMove(s0: Origin, s: State, x: nat) returns (e: State)
    requires Sane(s0.start) && Reachable(s0, s) && x < |s0.start.ths| == |s.ths| && Sane(s)
    requires s.ths[x].pc == W_MOVE_END && |s.h.tk| == |s.ths|
    ensures Went(s0, s, e, x)
    ensures var b, t := s.ths[x].blk, s.h.tk[x];
      && e.m.w == s.m.w.(end := if s.m.w.end == b then s.m.next[b] else s.m.w.end)
      && e.m.r == s.m.r && e.m.amount == s.m.amount && e.m.data == s.m.data && e.h.tk == s.h.tk
      && e.h.w == Finish(s.h.w, t, s.m.w.end == b) && e.h.r == s.h.r && e.h.msgs == s.h.msgs
    ensures e.ths[x].pc == W_LOAD_END
  {
    hide Went, Reachable, Sane, MemOk, ThreadOk, Inv, Hazard, Slot, TicketAt, GetBlockWrite, CopyIn, GetBlockRead,
         CopyOut, ReturnBlock, Return, Finish;
    var s2 := Next(s0, s, x, Go);
    assert s2.ths[x].pc == W_TEST_SIGNAL && s2.h.tk == s.h.tk;
    var s3 := Next(s0, s2, x, Go);
    WentOn(s0, s, s2, s3, x);
    e := s3;
    if s3.ths[x].pc == W_SIGNAL {
      e := Next(s0, s3, x, Go);
      WentOn(s0, s, s3, e, x);
    }
  }

  lemma Takes(s0: Origin, s: State, x: nat) returns (e: State)
    requires Sane(s0.start) && Reachable(s0, s) && x < |s0.start.ths| == |s.ths| && Sane(s)
    requires s.ths[x].pc == W_TAKE_FLAG && s.m.w.done[s.ths[x].blk] && |s.h.tk| == |s.ths|
    ensures Went(s0, s, e, x)
    ensures var b := s.ths[x].blk; var t := TicketAt(s.h.w.end, b, |s.m.next|);
      && e.m.w == Side(s.m.w.start, if s.m.w.end == b then s.m.next[b] else s.m.w.end, s.m.w.done[b := false])
      && e.m.r == s.m.r && e.m.amount == s.m.amount && e.m.data == s.m.data && e.h.tk == s.h.tk[x := t]
      && e.h.w == Finish(Put(s.h.w, t, Moving(x)), t, s.m.w.end == b) && e.h.r == s.h.r && e.h.msgs == s.h.msgs
    ensures e.ths[x].pc == W_LOAD_END
  {
    hide Reachable, Sane, Inv, TicketAt, Finish;
    var s1 := TakesFlag(s0, s, x);
    e := TriesMove(s0, s1, x);
  }

  /** It finds no flag at the block it loaded, and returns. */
  lemma Returns(s0: Origin, s: State, x: nat) returns (e: State)
    requires Sane(s0.start) && Reachable(s0, s) && x < |s0.start.ths| == |s.ths| && Sane(s)
    requires s.ths[x].pc == W_TAKE_FLAG && !s.m.w.done[s.ths[x].blk]
    ensures Went(s0, s, e, x) && e.ths[x].pc == IDLE
    ensures e.m == s.m.(count := e.m.count) && e.h.w == s.h.w && e.h.r == s.h.r && e.h.tk == s.h.tk
        && e.h.msgs == s.h.msgs
  {
    hide Went, Reachable, Sane, MemOk, ThreadOk, Inv, Hazard, Slot, TicketAt, GetBlockWrite, CopyIn, GetBlockRead,
         CopyOut, ReturnBlock;
    var s1 := Next(s0, s, x, Go);
    assert s1.ths[x].pc == W_INCREMENT && s1.m == s.m && s1.h == s.h;
    e := Next(s0, s1, x, Go);
    WentOn(s0, s, s1, e, x);
  }

  lemma Begins(s0: Origin, s: State, x: nat, size: nat) returns (e: State)
    requires Sane(s0.start) && Reachable(s0, s) && x < |s0.start.ths| == |s.ths| && Sane(s)
    requires s.ths[x].pc == IDLE && x in s0.readers
    ensures Went(s0, s, e, x) && e.m == s.m && e.h == s.h && e.ths[x].pc == R_LOAD_START && !e.ths[x].timed
    ensures e.ths[x].size == size
  {
    hide Went, Reachable, Sane, MemOk, ThreadOk, Inv, Hazard, GetBlockWrite, CopyIn, PostBlock, GetBlockRead,
         CopyOut, ReturnBlock, Return;
    e := Next(s0, s, x, CallRead(size, false));
  }

  /** A `read` call claims a block. */
  lemma Reads(s0: Origin, s: State, x: nat) returns (e: State)
    requires Sane(s0.start) && Reachable(s0, s) && x < |s0.start.ths| == |s.ths| && Sane(s)
    requires s.ths[x].pc == R_LOAD_START && s.m.r.start != s.m.w.end
    ensures Went(s0, s, e, x) && e.m == s.m.(r := s.m.r.(start := s.m.next[s.m.r.start]))
    ensures e.h.r == Enter(s.h.r, x) && e.h.w == s.h.w && e.h.tk == s.h.tk[x := |s.h.r.phase|] && e.h.msgs == s.h.msgs
    ensures e.ths[x].pc == R_GET_AMOUNT && e.ths[x].blk == s.m.r.start && e.ths[x].timed == s.ths[x].timed
    ensures e.ths[x].size == s.ths[x].size
  {
    hide Went, Reachable, Sane, MemOk, ThreadOk, Inv, Slot, TicketAt, GetBlockWrite, CopyIn, PostBlock, CopyOut,
         ReturnBlock, Return;
    var s1 := Next(s0, s, x, Go);
    assert s1.ths[x].pc == R_CHECK_EMPTY;
    var s2 := Next(s0, s1, x, Go);
    assert s2.ths[x].pc == R_CLAIM;
    e := Next(s0, s2, x, Go);
    WentOn(s0, s, s1, s2, x);
    WentOn(s0, s, s2, e, x);
  }

  /** Its block is empty: the done flag goes up. */
  lemma Skips(s0: Origin, s: State, x: nat) returns (e: State)
    requires Sane(s0.start) && Reachable(s0, s) && x < |s0.start.ths| == |s.ths| && Sane(s)
    requires s.ths[x].pc == R_GET_AMOUNT && s.m.amount[s.ths[x].blk] == 0
    ensures Went(s0, s, e, x) && e.m == s.m.(r := s.m.r.(done := s.m.r.done[s.ths[x].blk := true]))
    ensures e.h.r == Put(s.h.r, s.h.tk[x], Done) && e.h.w == s.h.w && e.h.tk == s.h.tk && e.h.msgs == s.h.msgs
    ensures e.ths[x].pc == R_CLEAR_AMOUNT && e.ths[x].blk == s.ths[x].blk && e.ths[x].again
        && e.ths[x].timed == s.ths[x].timed
  {
    hide Went, Reachable, Sane, MemOk, ThreadOk, Inv, Hazard, Slot, TicketAt, GetBlockWrite, CopyIn, PostBlock,
         GetBlockRead, Return;
    var s1 := Next(s0, s, x, Go);
    assert s1.ths[x].pc == R_SET_DONE && s1.m == s.m && s1.h == s.h && s1.ths[x].blk == s.ths[x].blk;
    e := Next(s0, s1, x, Go);
    WentOn(s0, s, s1, e, x);
  }

  lemma Clears(s0: Origin, s: State, x: nat) returns (e: State)
    requires Sane(s0.start) && Reachable(s0, s) && x < |s0.start.ths| == |s.ths| && Sane(s) && s.ths[x].pc == R_CLEAR_AMOUNT
    ensures Went(s0, s, e, x) && e.m == s.m.(amount := s.m.amount[s.ths[x].blk := 0]) && e.h == s.h
    ensures e.ths[x] == s.ths[x].(pc := R_LOAD_END)
  {
    hide Went, Reachable, Sane, MemOk, ThreadOk, Inv, Hazard, Slot, TicketAt, GetBlockWrite, CopyIn, PostBlock,
         GetBlockRead, CopyOut, Return;
    e := Next(s0, s, x, Go);
  }

  /** It hands one block back and is again in its completion loop. */
  lemma HandsBack(s0: Origin, s: State, x: nat) returns (e: State)
    requires Sane(s0.start) && Reachable(s0, s) && x < |s0.start.ths| == |s.ths| && Sane(s) && |s.h.tk| == |s.ths|
    requires s.ths[x].pc == R_LOAD_END && s.m.r.done[s.m.r.end]
    ensures Went(s0, s, e, x)
    ensures var b := s.m.r.end; var t := TicketAt(s.h.r.end, b, |s.m.next|);
      && e.m.r == Side(s.m.r.start, s.m.next[b], s.m.r.done[b := false])
      && e.m.w == s.m.w && e.m.amount == s.m.amount && e.h.tk == s.h.tk[x := t]
      && e.h.r == Finish(Put(s.h.r, t, Moving(x)), t, true) && e.h.w == s.h.w && e.h.msgs == s.h.msgs
    ensures e.ths[x] == s.ths[x].(pc := R_LOAD_END, blk := e.ths[x].blk)
  {
    hide Went, Reachable, Sane, MemOk, ThreadOk, Inv, Hazard, Slot, TicketAt, GetBlockWrite, CopyIn, PostBlock,
         GetBlockRead, CopyOut, Return, Finish;
    var sa := Next(s0, s, x, Go);
    assert sa.ths[x].pc == R_TAKE_FLAG && sa.ths[x].blk == s.m.r.end && sa.m == s.m && sa.h == s.h;
    var s1 := Next(s0, sa, x, Go);
    assert s1.ths[x].pc == R_MOVE_END && s1.ths[x].blk == s.m.r.end;
    var s2 := Next(s0, s1, x, Go);
    assert s2.ths[x].pc == R_TEST_SIGNAL && s2.h.tk == s1.h.tk;
    var s3 := Next(s0, s2, x, Go);
    WentOn(s0, s, sa, s1, x);
    WentOn(s0, s, s1, s2, x);
    WentOn(s0, s, s2, s3, x);
    e := s3;
    if s3.ths[x].pc == R_SIGNAL {
      e := Next(s0, s3, x, Go);
      WentOn(s0, s, s3, e, x);
    }
  }

  /** It finds nothing more to hand back and tries the next block. */
  lemma LooksAgain(s0: Origin, s: State, x: nat) returns (e: State)
    requires Sane(s0.start) && Reachable(s0, s) && x < |s0.start.ths| == |s.ths| && Sane(s)
    requires s.ths[x].pc == R_LOAD_END && !s.m.r.done[s.m.r.end] && s.ths[x].again
    ensures Went(s0, s, e, x) && e.m == s.m && e.h == s.h
    ensures e.ths[x].pc == R_LOAD_START && e.ths[x].timed == s.ths[x].timed
  {
    hide Went, Reachable, Sane, MemOk, ThreadOk, Inv, Hazard, Slot, TicketAt, GetBlockWrite, CopyIn, PostBlock,
         GetBlockRead, CopyOut, Return;
    var s1 := Next(s0, s, x, Go);
    assert s1.ths[x].pc == R_TAKE_FLAG && s1.ths[x].blk == s.m.r.end && s1.m == s.m && s1.h == s.h;
    e := Next(s0, s1, x, Go);
    WentOn(s0, s, s1, e, x);
  }

  // ----- a claim that is a lap late

  lemma AtEnds(s: State)
    requires Inv(s)
    ensures TicketAt(s.h.w.end, s.m.w.end, |s.m.next|) == s.h.w.end
    ensures TicketAt(s.h.r.end, s.m.r.end, |s.m.next|) == s.h.r.end
  {
    hide Zones, Flags, Holders;
  }

  /** Ring of two blocks, all flags down. */
  predicate Two(m: Mem, ws: nat, we: nat, rs: nat, re: nat) {
    && m.next == [1, 0] && m.amount == [0, 0]
    && m.w == Side(ws, we, [false, false]) && m.r == Side(rs, re, [false, false])
  }

  lemma StartsEmpty(s0: Origin)
    requires Init(s0.start)
    ensures Inv(s0.start) && Reachable(s0, s0.start)
    ensures s0.start.h.msgs == [] && s0.start.h.out == [] && s0.start.h.sizes == []
    ensures |s0.start.m.next| == 2 ==> Two(s0.start.m, 0, 0, 0, 0)
    ensures |s0.start.m.next| == 3 ==> Three(s0.start.m, 0, 0, [false, false, false], 0, 0)
  {
    InitInv(s0.start);
    ReachStart(s0);
  }

  /** Thread x writes one empty message, publishes it and is idle again. */
  lemma WritesEmpty(s0: Origin, s: State, x: nat) returns (e: State)
    requires Sane(s0.start) && Reachable(s0, s) && x < |s0.start.ths| == |s.ths| == |s.h.tk| && Sane(s) && Inv(s)
        && s.ths[x].pc == IDLE
    requires s.m.w.start == s.m.w.end < |s.m.next| == |s.m.w.done| && s.h.w.end == |s.h.w.phase|
    requires forall b :: 0 <= b < |s.m.next| ==> !s.m.w.done[b] && s.m.next[b] < |s.m.next|
    requires s.m.next[s.m.w.start] != s.m.r.end && |s.h.w.phase| + 1 < s.h.r.end + |s.m.next|
    ensures Went(s0, s, e, x) && e.ths[x].pc == IDLE
    ensures e.m.w == Side(s.m.next[s.m.w.start], s.m.next[s.m.w.start], s.m.w.done) && e.m.r == s.m.r
    ensures e.m.amount == s.m.amount[s.m.w.start := 0]
    ensures e.h.w == Track(s.h.w.end + 1, s.h.w.phase + [Passed]) && e.h.r == s.h.r && e.h.msgs == s.h.msgs + [[]]
  {
    hide Sane, Inv, Reachable, Hazard, Slot, TicketAt;
    var b, t := s.m.w.start, s.h.w.end;
    var s1 := Calls(s0, s, x, []);
    var s2 := Claims(s0, s1, x);
    var s3 := Stores(s0, s2, x);
    assert s3.h.w == Track(t, s.h.w.phase + [Done]);
    var s4 := Loads(s0, s3, x);
    AtEnds(s4);
    var s5 := Takes(s0, s4, x);
    assert s5.h.w == Track(t + 1, s.h.w.phase + [Passed]);
    assert s5.m.w.done == s.m.w.done;
    var s6 := Loads(s0, s5, x);
    e := Returns(s0, s6, x);
  }

  /** A reader takes the empty message, hands its block back and tries the next one. */
  lemma ReadsFirst(s0: Origin, s: State, x: nat) returns (e: State)
    requires Sane(s0.start) && Reachable(s0, s) && x < |s0.start.ths| == |s.ths| && Sane(s) && Inv(s) && s.ths[x].pc == IDLE
    requires x in s0.readers && Two(s.m, 1, 1, 0, 0) && |s.h.tk| == |s.ths|
    requires s.h.w == Track(1, [Passed]) && s.h.r == Track(0, [])
    ensures Went(s0, s, e, x) && Two(e.m, 1, 1, 1, 1) && e.h.w == Track(1, [Passed]) && e.h.r == Track(1, [Passed])
    ensures e.ths[x].pc == R_LOAD_START && !e.ths[x].timed && e.h.msgs == s.h.msgs
  {
    hide Sane, Inv, Reachable, Hazard, Slot, TicketAt, Cut;
    var s1 := Begins(s0, s, x, 1);
    var s2 := Reads(s0, s1, x);
    var s3 := Skips(s0, s2, x);
    var s4 := Clears(s0, s3, x);
    assert s4.h.r == Track(0, [Done]);
    AtEnds(s4);
    var s5 := HandsBack(s0, s4, x);
    e := LooksAgain(s0, s5, x);
  }

  /** A state of the ring of two blocks with all flags down; no read has returned anything yet. */
  ghost predicate Stands(s0: Origin, s: State, w: Side, r: Side, tw: Track, tr: Track, msgs: seq<Msg>)
    requires Sane(s0.start)
  {
    && Sane(s) && Reachable(s0, s) && |s0.start.ths| == |s.ths| == |s.h.tk| == 3
    && s.m.next == [1, 0] && s.m.blockSize == s0.start.m.blockSize && s.m.w == w && s.m.r == r
    && s.h.w == tw && s.h.r == tr && s.h.msgs == msgs && s.h.out == [] && s.h.sizes == []
  }

  /** A thread that has claimed a block and copied nothing yet. */
  predicate Claimed(th: Thread, blk: nat, msg: Msg) {
    th.pc == W_COPY && th.blk == blk && th.k == 0 && th.len == |msg| && th.buf == msg
  }

  /** In a ring of two blocks: thread 0 loads m_writeStart and finds room; then block 0 is written and read once, and
      block 1 is claimed.  Now m_writeStart is 0 again. */
  lemma LapPasses(s0: Origin, a: Byte, b: Byte) returns (s: State)
    requires Init(s0.start) && |s0.start.m.next| == 2 && |s0.start.ths| == 3 && s0.readers == {2}
    requires s0.start.m.blockSize > 0
    ensures Inv(s)
    ensures Stands(s0, s, Side(0, 1, [false, false]), Side(1, 1, [false, false]), Track(1, [Passed, Owned(1)]),
                   Track(1, [Passed]), [[], [b]])
    ensures s.ths[0].pc == W_CLAIM && s.ths[0].blk == 0 && s.ths[0].buf == [a] && Claimed(s.ths[1], 1, [b])
    ensures s.ths[2].pc == R_LOAD_START && !s.ths[2].timed && s.h.tk[1] == 1
  {
    hide Inv, Reachable, Hazard, Slot, TicketAt;
    StartsEmpty(s0);
    assert Cut([b], s0.start.m.blockSize) == [b];
    var s1 := Calls(s0, s0.start, 0, [a]);
    var s2 := WritesEmpty(s0, s1, 1);
    var s3 := ReadsFirst(s0, s2, 2);
    var s4 := Calls(s0, s3, 1, [b]);
    s := Claims(s0, s4, 1);
  }

  /** The compare-and-swap of thread 0 now succeeds although the ring is full: both blocks are claimed at once, and the
      safety invariant is gone. */
  lemma LapBreaksRing(s0: Origin, a: Byte, b: Byte) returns (s: State, e: State)
    requires Init(s0.start) && |s0.start.m.next| == 2 && |s0.start.ths| == 3 && s0.readers == {2}
    requires s0.start.m.blockSize > 0
    ensures Reachable(s0, s) && Inv(s) && |s.ths| == 3 && Hazard(s, 0) && Lapped(s, 0)
    ensures Reachable(s0, e) && e == Step(s, 0, Go) && !Inv(e) && |e.h.w.phase| == e.h.r.end + 2
    ensures ClaimedTwice(s0, e, a, b)
  {
    hide Inv, Reachable, Step, Slot;
    s := LapPasses(s0, a, b);
    HazardInTickets(s, 0);
    HazardNeedsLap(s, 0);
    StepKeeps(s, 0, Go);
    e := ClaimsLate(s0, s, a, b);
  }

  /** Tickets 1 and 2 are being written at once, in a ring that has room for one. */
  ghost predicate ClaimedTwice(s0: Origin, e: State, a: Byte, b: Byte)
    requires Sane(s0.start)
  {
    && Stands(s0, e, Side(1, 1, [false, false]), Side(1, 1, [false, false]), Track(1, [Passed, Owned(1), Owned(0)]),
              Track(1, [Passed]), [[], [b], [a]])
    && Claimed(e.ths[0], 0, [a]) && Claimed(e.ths[1], 1, [b]) && e.h.tk[0] == 2 && e.h.tk[1] == 1
    && e.ths[2].pc == R_LOAD_START && !e.ths[2].timed
  }

  lemma ClaimsLate(s0: Origin, s: State, a: Byte, b: Byte) returns (e: State)
    requires Sane(s0.start) && s0.start.m.blockSize > 0 && |s.h.tk| == 3
    requires Stands(s0, s, Side(0, 1, [false, false]), Side(1, 1, [false, false]), Track(1, [Passed, Owned(1)]),
                    Track(1, [Passed]), [[], [b]])
    requires s.ths[0].pc == W_CLAIM && s.ths[0].blk == 0 && s.ths[0].buf == [a] && Claimed(s.ths[1], 1, [b])
    requires s.ths[2].pc == R_LOAD_START && !s.ths[2].timed && s.h.tk[1] == 1
    ensures e == Step(s, 0, Go) && ClaimedTwice(s0, e, a, b)
  {
    hide Reachable, Sane, MemOk, ThreadOk, Slot, TicketAt, Step, CopyIn, PostBlock, GetBlockRead, CopyOut,
         ReturnBlock, Return;
    assert Cut([a], s.m.blockSize) == [a];
    e := Goes(s0, s, 0, Go);
  }

  /** Block numbers stand for later tickets than they should: the arithmetic of a ring of two. */
  lemma TwoBlocks()
    ensures TicketAt(1, 1, 2) == 1 && TicketAt(2, 0, 2) == 2 && TicketAt(3, 1, 2) == 3
  {
    SlotMod(1, 2);
    SlotMod(2, 2);
    SlotMod(3, 2);
  }

  /** Threads 0 and 1 finish, publish both tickets and return: m_writeEnd has gone all the way round and is equal to
      m_readStart, so the ring looks empty with two messages in it. */
  lemma PublishesLap(s0: Origin, s: State, a: Byte, b: Byte) returns (e: State)
    requires Sane(s0.start) && s0.start.m.blockSize > 0 && ClaimedTwice(s0, s, a, b)
    ensures Stands(s0, e, Side(1, 1, [false, false]), Side(1, 1, [false, false]), Track(3, [Passed, Passed, Passed]),
                   Track(1, [Passed]), [[], [b], [a]])
    ensures e.ths[1].pc == IDLE && e.ths[2] == s.ths[2]
  {
    hide Reachable, Sane, Inv, Slot, TicketAt;
    TwoBlocks();
    var s1 := StoresByte(s0, s, 0);
    assert s1.h.w == Track(1, [Passed, Owned(1), Done]);
    var s2 := Loads(s0, s1, 0);
    var s3 := Returns(s0, s2, 0);
    var s4 := StoresByte(s0, s3, 1);
    assert s4.h.w == Track(1, [Passed, Done, Done]);
    var s5 := Loads(s0, s4, 1);
    var s6 := Takes(s0, s5, 1);
    assert s6.h.w == Track(2, [Passed, Passed, Done]);
    var s7 := Loads(s0, s6, 1);
    var s8 := Takes(s0, s7, 1);
    assert s8.h.w == Track(3, [Passed, Passed, Passed]);
    var s9 := Loads(s0, s8, 1);
    e := Returns(s0, s9, 1);
  }

  /** Thread 1 writes once more, into the block that holds the unread message of ticket 1. */
  lemma WritesOver(s0: Origin, s: State, a: Byte, b: Byte, c: Byte) returns (e: State)
    requires Sane(s0.start) && s0.start.m.blockSize > 0 && s.ths != [] && |s.ths| == 3 && s.ths[1].pc == IDLE
    requires Stands(s0, s, Side(1, 1, [false, false]), Side(1, 1, [false, false]), Track(3, [Passed, Passed, Passed]),
                    Track(1, [Passed]), [[], [b], [a]])
    ensures Stands(s0, e, Side(0, 0, [false, false]), Side(1, 1, [false, false]),
                   Track(4, [Passed, Passed, Passed, Passed]), Track(1, [Passed]), [[], [b], [a], [c]])
    ensures e.ths[2] == s.ths[2] && |e.m.data| == |e.m.amount| == 2 && e.m.amount[1] == 1
    ensures |e.m.data[1]| > 0 && e.m.data[1][0] == c
  {
    hide Reachable, Inv, Slot, TicketAt;
    TwoBlocks();
    assert Cut([c], s.m.blockSize) == [c];
    var s1 := Calls(s0, s, 1, [c]);
    var s2 := Claims(s0, s1, 1);
    var s3 := StoresByte(s0, s2, 1);
    assert s3.h.w == Track(3, [Passed, Passed, Passed, Done]);
    var s4 := Loads(s0, s3, 1);
    var s5 := Takes(s0, s4, 1);
    assert s5.h.w == Track(4, [Passed, Passed, Passed, Passed]);
    var s6 := Loads(s0, s5, 1);
    e := Returns(s0, s6, 1);
  }

  /** A reader copies a message of one byte and sets the done flag. */
  lemma Fetches(s0: Origin, s: State, x: nat) returns (e: State)
    requires Sane(s0.start) && Reachable(s0, s) && x < |s0.start.ths| == |s.ths| && Sane(s)
    requires s.ths[x].pc == R_GET_AMOUNT && s.m.amount[s.ths[x].blk] == 1 && s.ths[x].size > 0
    ensures Went(s0, s, e, x) && e.m == s.m.(r := s.m.r.(done := s.m.r.done[s.ths[x].blk := true]))
    ensures e.h.r == Put(s.h.r, s.h.tk[x], Done) && e.h.w == s.h.w && e.h.tk == s.h.tk && e.h.msgs == s.h.msgs
    ensures e.ths[x].pc == R_CLEAR_AMOUNT && e.ths[x].blk == s.ths[x].blk && !e.ths[x].again
        && e.ths[x].size == s.ths[x].size && e.ths[x].buf == [s.m.data[s.ths[x].blk][0]]
  {
    hide Went, Reachable, Sane, MemOk, ThreadOk, Inv, Hazard, Slot, TicketAt, GetBlockWrite, CopyIn, PostBlock,
         GetBlockRead, Return;
    var s1 := Next(s0, s, x, Go);
    assert s1.ths[x].pc == R_MIN && s1.m == s.m && s1.h == s.h && s1.ths[x].blk == s.ths[x].blk;
    var s2 := Next(s0, s1, x, Go);
    assert s2.ths[x].pc == R_COPY && s2.ths[x].len == 1 && s2.ths[x].buf == [] && s2.ths[x].blk == s.ths[x].blk;
    var s3 := Next(s0, s2, x, Go);
    assert s3.ths[x].pc == R_COPY && s3.ths[x].len == 1 && s3.ths[x].blk == s.ths[x].blk && s3.h == s.h;
    var s4 := Next(s0, s3, x, Go);
    assert s4.ths[x].pc == R_SET_DONE && s4.m == s.m && s4.h == s.h && s4.ths[x].blk == s.ths[x].blk;
    e := Next(s0, s4, x, Go);
    WentOn(s0, s, s1, s2, x);
    WentOn(s0, s, s2, s3, x);
    WentOn(s0, s, s3, s4, x);
    WentOn(s0, s, s4, e, x);
  }

  /** It finds nothing more to hand back and returns from `read`. */
  lemma Delivers(s0: Origin, s: State, x: nat) returns (e: State)
    requires Sane(s0.start) && Reachable(s0, s) && x < |s0.start.ths| == |s.ths| && Sane(s)
    requires s.ths[x].pc == R_LOAD_END && !s.m.r.done[s.m.r.end] && !s.ths[x].again
    ensures Sane(e) && Reachable(s0, e) && |e.ths| == |s.ths| && e.ths[x].pc == IDLE
    ensures e.h == s.h.(out := s.h.out + [s.ths[x].buf], sizes := s.h.sizes + [s.ths[x].size])
  {
    hide Went, Reachable, Sane, MemOk, ThreadOk, Inv, Hazard, Slot, TicketAt, GetBlockWrite, CopyIn, PostBlock,
         GetBlockRead, CopyOut;
    var s1 := Next(s0, s, x, Go);
    assert s1.ths[x].pc == R_TAKE_FLAG && s1.ths[x].blk == s.m.r.end && s1.m == s.m && s1.h == s.h;
    assert s1.ths[x].buf == s.ths[x].buf && s1.ths[x].size == s.ths[x].size;
    var s2 := Next(s0, s1, x, Go);
    assert s2.ths[x].pc == R_DECREMENT && s2.h == s.h && s2.ths[x].buf == s.ths[x].buf && s2.ths[x].size == s.ths[x].size;
    e := Goes(s0, s2, x, Go);
  }

  /** Thread 2 reads: it claims ticket 1 and gets what is in its block now. */
  lemma ReadsWrong(s0: Origin, s: State, msgs: seq<Msg>) returns (e: State)
    requires Sane(s0.start) && 2 in s0.readers && |s.ths| == 3 && s.ths[2].pc == IDLE
    requires Stands(s0, s, Side(0, 0, [false, false]), Side(1, 1, [false, false]),
                    Track(4, [Passed, Passed, Passed, Passed]), Track(1, [Passed]), msgs)
    requires |s.m.data| == |s.m.amount| == 2 && s.m.amount[1] == 1 && |s.m.data[1]| > 0
    ensures Sane(e) && Reachable(s0, e) && |e.ths| == 3 && e.ths[2].pc == IDLE && e.h.msgs == msgs
    ensures e.h.r == Track(2, [Passed, Passed]) && e.h.out == [[s.m.data[1][0]]] && e.h.sizes == [1]
  {
    hide Reachable, Sane, Inv, Slot, TicketAt;
    TwoBlocks();
    var s1 := Begins(s0, s, 2, 1);
    var s2 := Reads(s0, s1, 2);
    var s3 := Fetches(s0, s2, 2);
    assert s3.h.r == Track(1, [Passed, Done]);
    var s4 := Clears(s0, s3, 2);
    var s5 := HandsBack(s0, s4, 2);
    assert s5.h.r == Track(2, [Passed, Passed]);
    e := Delivers(s0, s5, 2);
  }

  lemma OneReader(s0: Origin, e: State)
    requires Sane(s0.start) && Reachable(s0, e) && s0.readers == {2} && |s0.start.ths| == 3
    ensures exists sched: Schedule :: Runs(sched, 3) && R.OnlyReader(sched, 2) && Run(s0.start, sched) == e
  {
    var sched: Schedule :| Runs(sched, 3) && OnlyReaders(sched, s0.readers) && Run(s0.start, sched) == e;
    assert R.OnlyReader(sched, 2);
  }

  lemma WrongOrder(h: Hist, a: Byte, b: Byte, c: Byte)
    requires h.msgs == [[], [b], [a], [c]] && h.out == [[c]] && h.sizes == [1] && b != c
    ensures !R.DeliversInOrder(h, 2)
  {
    NonEmptyLast(h.msgs, 0);
    NonEmptyLast(h.msgs, 1);
    assert NonEmpty(h.msgs[..0]) == [];
    assert NonEmpty(h.msgs[..2]) == [[b]];
    assert Cuts([[b]], [1])[0] == [b];
  }

  /** What a lap-late claim does to the queue, with one consumer.  Two messages are published, yet the ring looks empty,
      and the `read` in progress returns without a message.  The next write goes into the block of an unread message,
      and the next `read` returns the newest message instead of the oldest: FIFO order fails. */
  lemma LapLosesMessages(s0: Origin, a: Byte, b: Byte, c: Byte) returns (s: State, e: State)
    requires Init(s0.start) && |s0.start.m.next| == 2 && |s0.start.ths| == 3 && s0.readers == {2}
    requires s0.start.m.blockSize > 0 && b != c
    ensures Reachable(s0, s) && |s.ths| == 3 && s.ths[2].pc == IDLE && s.ths[2].ret == 0 && s.h.out == []
    ensures s.m.w.end == s.m.r.start && s.h.w.end == |s.h.r.phase| + 2 && s.h.msgs == [[], [b], [a]]
    ensures Reachable(s0, e) && |e.ths| == 3 && e.ths[2].pc == IDLE
    ensures e.h.msgs == [[], [b], [a], [c]] && e.h.out == [[c]] && Settled(e, 2) == 2
    ensures exists sched: Schedule :: Runs(sched, 3) && R.OnlyReader(sched, 2) && Run(s0.start, sched) == e
    ensures !R.DeliversInOrder(e.h, Settled(e, 2))
  {
    hide Reachable, Sane, Inv, Slot, R.DeliversInOrder;
    var _, s1 := LapBreaksRing(s0, a, b);
    var s2 := PublishesLap(s0, s1, a, b);
    s := GivesUp(s0, s2, 2);
    var s3 := WritesOver(s0, s, a, b, c);
    e := ReadsWrong(s0, s3, [[], [b], [a], [c]]);
    WrongOrder(e.h, a, b, c);
    OneReader(s0, e);
  }

  // ----- a flag taken too late

  /** Ring of three blocks; the flags of doneWrite are given, those of doneRead are down. */
  predicate Three(m: Mem, ws: nat, we: nat, done: seq<bool>, rs: nat, re: nat) {
    && m.next == [1, 2, 0] && m.amount == [0, 0, 0]
    && m.w == Side(ws, we, done) && m.r == Side(rs, re, [false, false, false])
  }

  ghost predicate At(s0: Origin, s: State, ends: nat, phase: seq<Phase>, r: nat)
    requires Sane(s0.start)
  {
    && Sane(s) && Reachable(s0, s) && |s0.start.ths| == |s.ths| == |s.h.tk| == 3 && Inv(s)
    && s.h.w == Track(ends, phase) && s.h.r.end == r == |s.h.r.phase|
  }

  /** Thread 0 claims ticket 0, finishes it and loads m_writeEnd, which is 0; there it stops. */
  lemma StallsAtFlag(s0: Origin) returns (s: State)
    requires Init(s0.start) && |s0.start.m.next| == 3 && |s0.start.ths| == 3
    ensures At(s0, s, 0, [Done], 0) && Three(s.m, 1, 0, [true, false, false], 0, 0)
    ensures s.ths[0].pc == W_TAKE_FLAG && s.ths[0].blk == 0 && s.ths[1].pc == IDLE && s.ths[2].pc == IDLE
  {
    hide Inv, Reachable, Hazard, Slot, TicketAt, Cut;
    StartsEmpty(s0);
    var s1 := Calls(s0, s0.start, 0, []);
    var s2 := Claims(s0, s1, 0);
    var s3 := Stores(s0, s2, 0);
    s := Loads(s0, s3, 0);
  }

  /** Thread 1 writes ticket 1 and publishes both. */
  lemma PublishesBoth(s0: Origin, s: State) returns (e: State)
    requires Sane(s0.start) && At(s0, s, 0, [Done], 0) && Three(s.m, 1, 0, [true, false, false], 0, 0)
    requires s.ths[1].pc == IDLE
    ensures At(s0, e, 2, [Passed, Passed], 0) && Three(e.m, 2, 2, [false, false, false], 0, 0)
    ensures e.ths[1].pc == IDLE && e.ths[0] == s.ths[0] && e.ths[2] == s.ths[2]
  {
    hide Sane, Inv, Reachable, Hazard, Slot, TicketAt, Cut;
    var s1 := Calls(s0, s, 1, []);
    var s2 := Claims(s0, s1, 1);
    var s3 := Stores(s0, s2, 1);
    assert s3.h.w == Track(0, [Done, Done]);
    var s4 := Loads(s0, s3, 1);
    AtEnds(s4);
    var s5 := Takes(s0, s4, 1);
    assert s5.h.w == Track(1, [Passed, Done]);
    var s6 := Loads(s0, s5, 1);
    AtEnds(s6);
    var s7 := Takes(s0, s6, 1);
    var s8 := Loads(s0, s7, 1);
    e := Returns(s0, s8, 1);
  }

  /** Thread 2 reads an empty message: one round of its loop. */
  lemma ReadsOne(s0: Origin, s: State, rs: nat) returns (e: State)
    requires Sane(s0.start) && At(s0, s, 2, [Passed, Passed], rs) && rs < 2
    requires Three(s.m, 2, 2, [false, false, false], rs, rs)
    requires s.ths[2].pc == R_LOAD_START && !s.ths[2].timed
    ensures At(s0, e, 2, [Passed, Passed], rs + 1) && Three(e.m, 2, 2, [false, false, false], rs + 1, rs + 1)
    ensures e.ths[2].pc == R_LOAD_START && !e.ths[2].timed && e.ths[0] == s.ths[0] && e.ths[1] == s.ths[1]
  {
    hide Sane, Inv, Reachable, Hazard, Slot, TicketAt, Cut;
    var s2 := Reads(s0, s, 2);
    var s3 := Skips(s0, s2, 2);
    var s4 := Clears(s0, s3, 2);
    AtEnds(s4);
    var s5 := HandsBack(s0, s4, 2);
    e := LooksAgain(s0, s5, 2);
  }

  /** A `read` without a timeout finds the ring empty and returns. */
  lemma GivesUp(s0: Origin, s: State, x: nat) returns (e: State)
    requires Sane(s0.start) && Reachable(s0, s) && x < |s0.start.ths| == |s.ths| && Sane(s)
    requires s.ths[x].pc == R_LOAD_START && !s.ths[x].timed && s.m.r.start == s.m.w.end
    ensures Went(s0, s, e, x) && e.m == s.m && e.h == s.h.(ld := e.h.ld) && e.ths[x].pc == IDLE && e.ths[x].ret == 0
  {
    hide Went, Reachable, Sane, MemOk, ThreadOk, Inv, Hazard, GetBlockWrite, CopyIn, PostBlock, CopyOut, ReturnBlock,
         Return;
    var s1 := Next(s0, s, x, Go);
    assert s1.ths[x].pc == R_CHECK_EMPTY;
    e := Next(s0, s1, x, Go);
    WentOn(s0, s, s1, e, x);
  }

  /** Thread 2 reads both messages and is idle again. */
  lemma ReadsBoth(s0: Origin, s: State) returns (e: State)
    requires Sane(s0.start) && At(s0, s, 2, [Passed, Passed], 0) && Three(s.m, 2, 2, [false, false, false], 0, 0)
        && s.ths[2].pc == IDLE && 2 in s0.readers
    ensures At(s0, e, 2, [Passed, Passed], 2) && Three(e.m, 2, 2, [false, false, false], 2, 2)
    ensures e.ths[2].pc == IDLE && e.ths[0] == s.ths[0] && e.ths[1] == s.ths[1]
  {
    hide Sane, Inv, Reachable, Hazard;
    var s1 := Begins(s0, s, 2, 1);
    var s2 := ReadsOne(s0, s1, 0);
    var s3 := ReadsOne(s0, s2, 1);
    e := GivesUp(s0, s3, 2);
  }

  /** Thread 1 claims ticket 2 and stops before its copy; thread 2 writes ticket 3, a lap after ticket 0, and returns:
      ticket 2 is not done, so nothing can be published yet. */
  lemma WrapsAround(s0: Origin, s: State) returns (e: State)
    requires Sane(s0.start) && At(s0, s, 2, [Passed, Passed], 2) && Three(s.m, 2, 2, [false, false, false], 2, 2)
    requires s.ths[1].pc == IDLE && s.ths[2].pc == IDLE
    ensures At(s0, e, 2, [Passed, Passed, Owned(1), Done], 2) && Three(e.m, 1, 2, [true, false, false], 2, 2)
    ensures e.ths[1].pc == W_COPY && e.ths[1].len == 0 && e.ths[1].k == 0 && e.ths[1].blk == 2 && e.h.tk[1] == 2
    ensures e.ths[2].pc == IDLE && e.ths[0] == s.ths[0]
  {
    hide Sane, Inv, Reachable, Hazard, Slot, TicketAt, Cut;
    var s1 := Calls(s0, s, 1, []);
    var s2 := Claims(s0, s1, 1);
    var s3 := Calls(s0, s2, 2, []);
    var s4 := Claims(s0, s3, 2);
    var s5 := Stores(s0, s4, 2);
    assert s5.h.w == Track(2, [Passed, Passed, Owned(1), Done]);
    var s6 := Loads(s0, s5, 2);
    e := Returns(s0, s6, 2);
  }

  /** Thread 0 wakes up, takes the flag of ticket 3 with its old value of m_writeEnd, fails to move the cursor, and
      returns.  Thread 1 finishes ticket 2 and publishes it, but finds no flag for ticket 3. */
  lemma TakesLate(s0: Origin, s: State) returns (e: State)
    requires Sane(s0.start) && At(s0, s, 2, [Passed, Passed, Owned(1), Done], 2)
        && Three(s.m, 1, 2, [true, false, false], 2, 2)
    requires s.ths[0].pc == W_TAKE_FLAG && s.ths[0].blk == 0 && s.ths[2].pc == IDLE
    requires s.ths[1].pc == W_COPY && s.ths[1].len == 0 && s.ths[1].k == 0 && s.ths[1].blk == 2 && s.h.tk[1] == 2
    ensures At(s0, e, 3, [Passed, Passed, Passed, Lost], 2) && Three(e.m, 1, 0, [false, false, false], 2, 2)
    ensures forall x :: 0 <= x < 3 ==> e.ths[x].pc == IDLE
  {
    hide Sane, Inv, Reachable, Hazard, Slot, TicketAt, Cut;
    FourthTicket();
    var s1 := Takes(s0, s, 0);
    assert s1.h.w == Track(2, [Passed, Passed, Owned(1), Lost]);
    var s2 := Loads(s0, s1, 0);
    var s3 := Returns(s0, s2, 0);
    var s4 := Stores(s0, s3, 1);
    assert s4.h.w == Track(2, [Passed, Passed, Done, Lost]);
    var s5 := Loads(s0, s4, 1);
    AtEnds(s5);
    var s6 := Takes(s0, s5, 1);
    assert s6.h.w == Track(3, [Passed, Passed, Passed, Lost]);
    var s7 := Loads(s0, s6, 1);
    e := Returns(s0, s7, 1);
  }

  lemma FourthTicket()
    ensures TicketAt(2, 0, 3) == 3
  {
    SlotShift(0, 2, 3);
  }

  /** In a ring of three blocks a stale flag take strands a message: all calls have returned, a ticket is claimed and
      done, and m_writeEnd is still at its block. */
  lemma StaleTakeStrands(s0: Origin) returns (e: State)
    requires Init(s0.start) && |s0.start.m.next| == 3 && |s0.start.ths| == 3 && s0.readers == {2}
    ensures Reachable(s0, e) && Inv(e) && |e.ths| == 3 && forall x :: 0 <= x < 3 ==> e.ths[x].pc == IDLE
    ensures e.m.w.end != e.m.w.start && e.h.w == Track(3, [Passed, Passed, Passed, Lost])
  {
    hide Inv, Reachable, Hazard, Slot;
    var s1 := StallsAtFlag(s0);
    var s2 := PublishesBoth(s0, s1);
    var s3 := ReadsBoth(s0, s2);
    var s4 := WrapsAround(s0, s3);
    e := TakesLate(s0, s4);
  }

  /** Thread 1 finishes ticket 2 and moves m_writeEnd to ticket 3, whose flag thread 0 has already taken. */
  lemma OvertakesTaker(s0: Origin, s: State) returns (e: State)
    requires Sane(s0.start) && At(s0, s, 2, [Passed, Passed, Owned(1), Moving(0)], 2)
        && Three(s.m, 1, 2, [false, false, false], 2, 2)
    requires s.ths[1].pc == W_COPY && s.ths[1].len == 0 && s.ths[1].k == 0 && s.ths[1].blk == 2 && s.h.tk[1] == 2
    ensures At(s0, e, 3, [Passed, Passed, Passed, Moving(0)], 2) && Three(e.m, 1, 0, [false, false, false], 2, 2)
    ensures e.ths[1].pc == IDLE && e.ths[0] == s.ths[0] && e.ths[2] == s.ths[2] && e.h.tk[0] == s.h.tk[0]
  {
    hide Sane, Inv, Reachable, Hazard, Slot, TicketAt;
    var s1 := Stores(s0, s, 1);
    assert s1.h.w == Track(2, [Passed, Passed, Done, Moving(0)]);
    var s2 := Loads(s0, s1, 1);
    AtEnds(s2);
    var s3 := Takes(s0, s2, 1);
    assert s3.h.w == Track(3, [Passed, Passed, Passed, Moving(0)]);
    var s4 := Loads(s0, s3, 1);
    e := Returns(s0, s4, 1);
  }

  /** The same stale take does no harm if thread 1 gets through first: the cursor then reaches ticket 3 before the
      compare-and-swap of thread 0, which succeeds.  So stale takes are not what strands a block; failed moves are. */
  lemma HarmlessStaleTake(s0: Origin) returns (s: State, e: State)
    requires Init(s0.start) && |s0.start.m.next| == 3 && |s0.start.ths| == 3 && s0.readers == {2}
    ensures Reachable(s0, s) && Sane(s) && |s.ths| == 3 && StaleTake(s.m, s.ths[0])
    ensures Reachable(s0, e) && Inv(e) && |e.ths| == 3 && forall x :: 0 <= x < 3 ==> e.ths[x].pc == IDLE
    ensures e.m.w.end == e.m.w.start && e.h.w == Track(4, [Passed, Passed, Passed, Passed])
  {
    hide Inv, Reachable, Hazard, Slot, TicketAt;
    var s1 := StallsAtFlag(s0);
    var s2 := PublishesBoth(s0, s1);
    var s3 := ReadsBoth(s0, s2);
    s := WrapsAround(s0, s3);
    FourthTicket();
    var s4 := TakesFlag(s0, s, 0);
    assert s4.h.w == Track(2, [Passed, Passed, Owned(1), Moving(0)]);
    var s5 := OvertakesTaker(s0, s4);
    var s6 := TriesMove(s0, s5, 0);
    var s7 := Loads(s0, s6, 0);
    e := Returns(s0, s7, 0);
  }

  // ----- a lost ticket is never passed

  /** Whatever runs afterwards, as long as no claim goes wrong: the cursor never gets past a lost ticket. */
  lemma {:induction false} StuckForGood(s: State, sched: Schedule, t: nat)
    requires Inv(s) && Strands(s.h.w, t) && Runs(sched, |s.ths|) && Clean(s, sched)
    ensures Inv(Run(s, sched)) && Strands(Run(s, sched).h.w, t) && Run(s, sched).h.w.end <= t
    decreases |sched|
  {
    hide Step, StageInv, Hazard;
    if sched == [] {
    } else {
      var k := |sched| - 1;
      StuckForGood(s, sched[..k], t);
      StepKeeps(Run(s, sched[..k]), sched[k].0, sched[k].1);
      LostStays(Run(s, sched[..k]), sched[k].0, sched[k].1, t);
    }
  }

  // ----- two consumers

  /** Thread 2 writes two empty messages. */
  lemma TwoEmpties(s0: Origin) returns (s: State)
    requires Init(s0.start) && |s0.start.m.next| == 3 && |s0.start.ths| == 3
    ensures At(s0, s, 2, [Passed, Passed], 0) && Three(s.m, 2, 2, [false, false, false], 0, 0)
    ensures s.m.blockSize == s0.start.m.blockSize && s.h.msgs == [[], []] && forall x :: 0 <= x < 3 ==> s.ths[x].pc == IDLE
  {
    hide Inv, Reachable, Hazard, Slot;
    StartsEmpty(s0);
    var s1 := WritesEmpty(s0, s0.start, 2);
    s := WritesEmpty(s0, s1, 2);
  }

  /** Consumer 0 claims ticket 0 and stops between `doneRead = 1` and `Amount = 0`; consumer 1 reads ticket 1 and hands
      both blocks back. */
  lemma StopsBeforeClear(s0: Origin, s: State) returns (e: State)
    requires Sane(s0.start) && At(s0, s, 2, [Passed, Passed], 0) && Three(s.m, 2, 2, [false, false, false], 0, 0)
    requires s.h.msgs == [[], []] && 0 in s0.readers && 1 in s0.readers && forall x :: 0 <= x < 3 ==> s.ths[x].pc == IDLE
    ensures At(s0, e, 2, [Passed, Passed], 2) && Three(e.m, 2, 2, [false, false, false], 2, 2) && e.h.msgs == [[], []]
    ensures e.m.blockSize == s.m.blockSize && e.ths[0].pc == R_CLEAR_AMOUNT && e.ths[0].blk == 0 && e.ths[2].pc == IDLE
  {
    hide Sane, Inv, Reachable, Hazard, Slot, TicketAt;
    var s1 := Begins(s0, s, 0, 1);
    var s2 := Reads(s0, s1, 0);
    var s3 := Begins(s0, s2, 1, 1);
    var s4 := Reads(s0, s3, 1);
    var s5 := Skips(s0, s4, 0);
    var s6 := Skips(s0, s5, 1);
    assert s6.h.r == Track(0, [Done, Done]);
    var s7 := Clears(s0, s6, 1);
    AtEnds(s7);
    var s8 := HandsBack(s0, s7, 1);
    AtEnds(s8);
    assert s8.h.r == Track(1, [Passed, Done]);
    e := HandsBack(s0, s8, 1);
  }

  /** Thread 2 writes an empty message and then one of one byte, into block 0 again. */
  lemma WritesOnTop(s0: Origin, s: State, b: Byte) returns (e: State)
    requires Sane(s0.start) && At(s0, s, 2, [Passed, Passed], 2) && Three(s.m, 2, 2, [false, false, false], 2, 2)
    requires s.h.msgs == [[], []] && s.ths[2].pc == IDLE && s.m.blockSize > 0
    ensures Sane(e) && Reachable(s0, e) && |e.ths| == 3 && Inv(e) && e.ths[0] == s.ths[0] && |e.m.amount| == 3
    ensures e.h.w == Track(3, [Passed, Passed, Passed, Done]) && |e.h.r.phase| == 2 && e.h.msgs == [[], [], [], [b]]
  {
    hide Sane, Inv, Reachable, Hazard, Slot, TicketAt;
    var s1 := WritesEmpty(s0, s, 2);
    var s2 := Calls(s0, s1, 2, [b]);
    var s3 := Claims(s0, s2, 2);
    assert Cut([b], s.m.blockSize) == [b];
    e := StoresByte(s0, s3, 2);
  }

  /** With two consumers a message can get lost: consumer 0 now executes its `Amount = 0`, in the block that holds the
      finished message of ticket 3, which the next reader will take for an empty one. */
  lemma LateClearLosesMessage(s0: Origin, b: Byte) returns (e: State)
    requires Init(s0.start) && |s0.start.m.next| == 3 && |s0.start.ths| == 3 && s0.start.m.blockSize > 0
    requires s0.readers == {0, 1}
    ensures Reachable(s0, e) && Inv(e) && Full(e.h, 3) && |e.h.msgs| == 4 && e.h.msgs[3] == [b]
    ensures Slot(3, 3) == 0 && |e.m.amount| == 3 && e.m.amount[0] == 0
  {
    hide Inv, Reachable, Hazard;
    var s1 := TwoEmpties(s0);
    var s2 := StopsBeforeClear(s0, s1);
    var s3 := WritesOnTop(s0, s2, b);
    e := Clears(s0, s3, 0);
    SlotShift(0, 2, 3);
  }
}
