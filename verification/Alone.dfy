/** A call that is left alone returns.  Other threads may stand still anywhere in their calls: nobody holds a lock. */
module Alone {
  import opened Slots
  import opened Stage
  import opened Ring

  /** n statements of one thread, nobody else running and no wait expiring. */
  ghost function After(m: Mem, th: Thread, n: nat): (r: View)
    requires MemOk(m) && ThreadOk(m, th)
    ensures MemOk(r.m) && ThreadOk(r.m, r.th)
    decreases n
  {
    if n == 0 then View(m, th) else After(Exec(m, th, Go).m, Exec(m, th, Go).th, n - 1)
  }

  lemma {:induction false} AfterMore(m: Mem, th: Thread, n: nat, k: nat)
    requires MemOk(m) && ThreadOk(m, th)
    ensures After(m, th, n + k) == After(After(m, th, n).m, After(m, th, n).th, k)
    decreases n
  {
    hide Exec, MemOk, ThreadOk;
    if n > 0 { AfterMore(Exec(m, th, Go).m, Exec(m, th, Go).th, n - 1, k); }
  }

  lemma AfterNext(m: Mem, th: Thread, n: nat)
    requires MemOk(m) && ThreadOk(m, th)
    ensures After(m, th, n + 1) == After(Exec(m, th, Go).m, Exec(m, th, Go).th, n)
  {
    hide Exec, MemOk, ThreadOk;
  }

  /** How many flags are up. */
  function Raised(s: Side): nat {
    multiset(s.done)[true]
  }

  lemma TakeLowers(s: Side, b: nat)
    requires b < |s.done| && s.done[b]
    ensures multiset(s.done[b := false])[true] < Raised(s)
  {
    assert s.done == s.done[..b] + [s.done[b]] + s.done[b + 1..];
    assert s.done[b := false] == s.done[..b] + [false] + s.done[b + 1..];
  }

  /** How far a thread is from the end of a completion loop with this many flags up. */
  function LoopRank(pc: Pc): nat {
    if pc == W_MOVE_END || pc == R_MOVE_END then 5
    else if pc == W_TEST_SIGNAL || pc == R_TEST_SIGNAL then 4
    else if pc == W_SIGNAL || pc == R_SIGNAL then 3
    else if pc == W_LOAD_END || pc == R_LOAD_END then 2
    else 1
  }

  /** A statement of `write` after its claim, up to the count. */
  lemma PostingMoves(m: Mem, th: Thread)
    requires MemOk(m) && ThreadOk(m, th) && W_COPY <= th.pc <= W_SIGNAL
    ensures var r := Exec(m, th, Go); var pc, pc' := th.pc, r.th.pc;
      && r.th.len == th.len
      && (pc == W_COPY ==> pc' == W_SET_DONE || (pc' == W_COPY && th.k < r.th.k <= r.th.len))
      && (pc == W_SET_DONE ==> pc' == W_LOAD_END)
      && (pc >= W_LOAD_END ==>
            || pc' == W_INCREMENT
            || (W_LOAD_END <= pc' <= W_SIGNAL &&
                (Raised(r.m.w) < Raised(m.w) || (Raised(r.m.w) == Raised(m.w) && LoopRank(pc') < LoopRank(pc)))))
  {
    if th.pc == W_TAKE_FLAG && m.w.done[th.blk] { TakeLowers(m.w, th.blk); }
    hide MemOk, GetBlockWrite, GetBlockRead, CopyOut, ReturnBlock, Return;
  }

  /** From its claim on, a `write` returns the length of what it copies. */
  lemma {:induction false} WriteFinishes(m: Mem, th: Thread) returns (n: nat)
    requires MemOk(m) && ThreadOk(m, th) && Posting(th.pc)
    ensures After(m, th, n).th.pc == IDLE && After(m, th, n).th.ret == th.len
    decreases if th.pc == W_COPY then 3 else if th.pc == W_SET_DONE then 2 else if th.pc == W_INCREMENT then 0 else 1,
              if th.pc == W_COPY then th.len - th.k else Raised(m.w), LoopRank(th.pc)
  {
    var r := Exec(m, th, Go);
    if th.pc == W_INCREMENT {
      n := 1;
      assert After(r.m, r.th, 0) == r;
    } else {
      PostingMoves(m, th);
      hide Exec, MemOk;
      n := WriteFinishes(r.m, r.th);
      n := n + 1;
    }
  }

  /** A `write` on a ring with room, left alone, returns the length of its message cut to the block size. */
  lemma WriteReturns(m: Mem, th: Thread, bytes: Msg) returns (n: nat)
    requires MemOk(m) && ThreadOk(m, th) && th.pc == IDLE && m.next[m.w.start] != m.r.end
    ensures var r := Exec(m, th, CallWrite(bytes)); var e := After(r.m, r.th, n).th;
      e.pc == IDLE && e.ret == Min(|bytes|, m.blockSize)
  {
    hide MemOk, ThreadOk, CopyIn, PostBlock, GetBlockRead, CopyOut, ReturnBlock, Return;
    var r0 := Exec(m, th, CallWrite(bytes));
    var r1 := Exec(r0.m, r0.th, Go);
    var r2 := Exec(r1.m, r1.th, Go);
    var r3 := Exec(r2.m, r2.th, Go);
    assert r3.th.pc == W_COPY && r3.th.len == Min(|bytes|, m.blockSize);
    n := WriteFinishes(r3.m, r3.th);
    hide Exec;
    AfterNext(r2.m, r2.th, n);
    AfterNext(r1.m, r1.th, n + 1);
    AfterNext(r0.m, r0.th, n + 2);
    n := n + 3;
  }

  /** A statement of `read` after its claim, up to the count. */
  lemma ReadingMoves(m: Mem, th: Thread)
    requires MemOk(m) && ThreadOk(m, th) && R_GET_AMOUNT <= th.pc <= R_SIGNAL
    ensures var r := Exec(m, th, Go); var pc, pc' := th.pc, r.th.pc;
      && r.m.w == m.w && r.m.r.start == m.r.start && r.th.timed == th.timed
      && (pc == R_GET_AMOUNT ==> pc' == R_MIN || pc' == R_SET_DONE)
      && (pc == R_MIN ==> pc' == R_COPY)
      && (pc == R_COPY ==> pc' == R_SET_DONE || (pc' == R_COPY && |r.th.buf| == |th.buf| + 1 && r.th.len == th.len))
      && (pc == R_SET_DONE ==> pc' == R_CLEAR_AMOUNT) && (pc == R_CLEAR_AMOUNT ==> pc' == R_LOAD_END)
      && (pc >= R_LOAD_END ==>
            || pc' == R_LOAD_START || pc' == R_DECREMENT
            || (R_LOAD_END <= pc' <= R_SIGNAL &&
                (Raised(r.m.r) < Raised(m.r) || (Raised(r.m.r) == Raised(m.r) && LoopRank(pc') < LoopRank(pc)))))
  {
    if th.pc == R_TAKE_FLAG && m.r.done[th.blk] { TakeLowers(m.r, th.blk); }
    if th.pc <= R_COPY {
      hide MemOk, GetBlockWrite, GetBlockRead, CopyIn, PostBlock, ReturnBlock, Return;
    } else {
      hide MemOk, GetBlockWrite, GetBlockRead, CopyIn, CopyOut, PostBlock, Return;
    }
  }

  function ReadStage(pc: Pc): nat {
    if pc == R_GET_AMOUNT then 6 else if pc == R_MIN then 5 else if pc == R_COPY then 4 else if pc == R_SET_DONE then 3
    else if pc == R_CLEAR_AMOUNT then 2 else if pc == R_DECREMENT then 0 else 1
  }

  /** From its claim on, a `read` returns or goes on to the next block. */
  lemma {:induction false} ReadLeavesBlock(m: Mem, th: Thread) returns (n: nat)
    requires MemOk(m) && ThreadOk(m, th) && Reading(th.pc)
    ensures var r := After(m, th, n);
      && r.m.w == m.w && r.m.r.start == m.r.start && r.m.next == m.next && r.th.timed == th.timed
      && (r.th.pc == IDLE || r.th.pc == R_LOAD_START)
    decreases ReadStage(th.pc), if th.pc == R_COPY then th.len - |th.buf| else Raised(m.r), LoopRank(th.pc)
  {
    var r := Exec(m, th, Go);
    if th.pc == R_DECREMENT {
      n := 1;
      assert After(r.m, r.th, 0) == r;
    } else {
      ReadingMoves(m, th);
      hide Exec, MemOk;
      if r.th.pc == R_LOAD_START {
        n := 0;
      } else {
        n := ReadLeavesBlock(r.m, r.th);
      }
      n := n + 1;
    }
  }

  /** How many claims bring m_readStart to m_writeEnd. */
  function Ahead(m: Mem): nat
    requires m.r.start < |m.next| && m.w.end < |m.next|
  {
    if m.r.start <= m.w.end then m.w.end - m.r.start else |m.next| + m.w.end - m.r.start
  }

  /** The start of a round of `read`: the ring is empty, or the next block is claimed. */
  lemma ReadRound(m: Mem, th: Thread)
    requires MemOk(m) && ThreadOk(m, th) && th.pc == R_LOAD_START && !th.timed
    ensures var r1 := Exec(m, th, Go); var r2 := Exec(r1.m, r1.th, Go); var r3 := Exec(r2.m, r2.th, Go);
      if m.r.start == m.w.end then r2.th.pc == IDLE
      else r3.th.pc == R_GET_AMOUNT && !r3.th.timed && Ahead(r3.m) < Ahead(m)
  {
    hide ThreadOk, CopyIn, PostBlock, GetBlockWrite, CopyOut, ReturnBlock, Return;
    var r1 := Exec(m, th, Go);
    assert r1.th.pc == R_CHECK_EMPTY && r1.m == m && r1.th.blk == m.r.start && !r1.th.timed;
    var r2 := Exec(m, r1.th, Go);
    if m.r.start != m.w.end { assert r2.th.pc == R_CLAIM && r2.m == m && r2.th.blk == m.r.start && !r2.th.timed; }
  }

  /** A `read` that does not wait, left alone, returns: with a message or, on an empty ring, without. */
  lemma {:induction false} ReadFinishes(m: Mem, th: Thread) returns (n: nat)
    requires MemOk(m) && ThreadOk(m, th) && th.pc == R_LOAD_START && !th.timed
    ensures After(m, th, n).th.pc == IDLE
    decreases Ahead(m)
  {
    hide Exec, MemOk, ThreadOk;
    ReadRound(m, th);
    var r1 := Exec(m, th, Go);
    var r2 := Exec(r1.m, r1.th, Go);
    if m.r.start == m.w.end {
      n := 2;
      AfterNext(r1.m, r1.th, 0);
      AfterNext(m, th, 1);
    } else {
      var r3 := Exec(r2.m, r2.th, Go);
      n := ReadLeavesBlock(r3.m, r3.th);
      var r4 := After(r3.m, r3.th, n);
      if r4.th.pc == R_LOAD_START {
        var k := ReadFinishes(r4.m, r4.th);
        AfterMore(r3.m, r3.th, n, k);
        n := n + k;
      }
      AfterNext(r2.m, r2.th, n);
      AfterNext(r1.m, r1.th, n + 1);
      AfterNext(m, th, n + 2);
      n := n + 3;
    }
  }

  /** In either wait, an expiry ends the call with 0, whatever the event. */
  lemma ExpiryEndsCall(m: Mem, th: Thread)
    requires MemOk(m) && ThreadOk(m, th) && (th.pc == W_WAIT_LOOP || th.pc == R_WAIT_LOOP)
    ensures var r := Exec(m, th, TimeOut); var e := Exec(r.m, r.th, Go).th; e.pc == IDLE && e.ret == 0
  {
    hide MemOk, ThreadOk, CopyIn, PostBlock, CopyOut, ReturnBlock, Return;
  }
}
