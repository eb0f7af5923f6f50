/** No lost wakeup: the conditional `SetEvent` calls of the ring and the sticky event state. */
module Wakeup {
  import opened Slots
  import opened Stage
  import opened Ring
  import opened History
  import opened Safety
  import opened Payload
  import opened Consumer

  /** Inside WaitForEvent(m_signal), not yet past the wait. */
  predicate WaitsForData(pc: Pc) {
    pc == R_WAIT_TEST || pc == R_WAIT_LOOP
  }

  /** On its way to SetEvent(m_signal) in this state of the cursors. */
  predicate WillSignal(m: Mem, th: Thread) {
    th.pc == W_SIGNAL || (th.pc == W_TEST_SIGNAL && th.blk == m.r.start)
  }

  /** Once the consumer has seen the ring empty and until it leaves the wait: if there is data, the event is set or a
      producer is on its way to set it. */
  ghost predicate DataWakes(s: State, c: nat)
    requires c < |s.ths|
  {
    WaitsForData(s.ths[c].pc) && s.m.r.start != s.m.w.end ==>
      s.m.signal || exists x :: 0 <= x < |s.ths| && WillSignal(s.m, s.ths[x])
  }

  lemma DataEvents(m: Mem, th: Thread, ch: Choice)
    requires MemOk(m) && ThreadOk(m, th) && !InRead(th.pc)
    ensures var r := Exec(m, th, ch);
      && r.m.signal == (m.signal || th.pc == W_SIGNAL) && r.m.r == m.r
      && (r.m.w.end != m.w.end ==> th.pc == W_MOVE_END && th.blk == m.w.end && r.th.pc == W_TEST_SIGNAL && r.th.blk == th.blk)
      && (WillSignal(m, th) ==> WillSignal(m, r.th) || r.m.signal)
  {
    hide MemOk, ThreadOk, GetBlockWrite, CopyIn, Return;
  }

  lemma DataWakesElsewhere(s: State, c: nat, x: nat, ch: Choice)
    requires Sane(s) && Sole(s, c) && DataWakes(s, c) && x < |s.ths| && x != c
    ensures DataWakes(Step(s, x, ch), c)
  {
    var s', th := Step(s, x, ch), s.ths[x];
    DataEvents(s.m, th, ch);
    assert s'.m == Exec(s.m, th, ch).m && s'.ths == s.ths[x := Exec(s.m, th, ch).th];
    hide Step, Exec, Sane;
    if WaitsForData(s.ths[c].pc) && s'.m.r.start != s'.m.w.end && !s'.m.signal {
      if s.m.r.start == s.m.w.end {
        assert WillSignal(s'.m, s'.ths[x]);
      } else {
        var y :| 0 <= y < |s.ths| && WillSignal(s.m, s.ths[y]);
        assert WillSignal(s'.m, s'.ths[y]);
      }
    }
  }

  /** The consumer enters the wait only after seeing the current start cursor equal to the write end. */
  lemma EntersWait(m: Mem, th: Thread, ch: Choice)
    requires MemOk(m) && ThreadOk(m, th)
    ensures var r := Exec(m, th, ch);
      WaitsForData(r.th.pc) ==>
        && r.m.r == m.r && r.m.w == m.w && r.m.signal == m.signal
        && (WaitsForData(th.pc) || (th.pc == R_CHECK_EMPTY && th.blk == m.w.end))
  {
    hide MemOk, ThreadOk, GetBlockWrite, CopyIn, PostBlock, GetBlockRead, CopyOut, ReturnBlock, Return;
  }

  lemma DataWakesHere(s: State, c: nat, ch: Choice)
    requires Inv(s) && c < |s.ths| && Position(s, c) && DataWakes(s, c)
    ensures DataWakes(Step(s, c, ch), c)
  {
    var s', th := Step(s, c, ch), s.ths[c];
    EntersWait(s.m, th, ch);
    assert s'.m == Exec(s.m, th, ch).m && s'.ths == s.ths[c := Exec(s.m, th, ch).th];
    assert Aware(s, c);
    hide Step, Exec, Zones, Flags, Holders;
    if WaitsForData(s'.ths[c].pc) && s'.m.r.start != s'.m.w.end && !s'.m.signal {
      var y :| 0 <= y < |s.ths| && WillSignal(s.m, s.ths[y]);
      assert WillSignal(s'.m, s'.ths[y]);
    }
  }

  /** No lost wakeup for one consumer, one step of any thread. */
  lemma DataWakesKeeps(s: State, c: nat, x: nat, ch: Choice)
    requires ConsumerInv(s, c) && DataWakes(s, c) && x < |s.ths|
    ensures DataWakes(Step(s, x, ch), c)
  {
    hide Step, Exact, StageInv, Position, DataInv;
    if x == c { DataWakesHere(s, c, ch); } else { DataWakesElsewhere(s, c, x, ch); }
  }

  /** A set event ends the wait at the consumer's next statement, and the consumer then looks at the ring again. */
  lemma SetEventEndsWait(s: State, c: nat)
    requires Sane(s) && c < |s.ths| && WaitsForData(s.ths[c].pc) && s.m.signal
    ensures var s1 := Step(s, c, Go); var s2 := Step(s1, c, Go);
      s1.ths[c].pc == R_WAIT_CLEAR && s2.ths[c].pc == R_LOAD_START && s2.ths[c].ret == s.ths[c].ret
  {
    hide MemOk, Record;
  }

  /** An event is set only by its SetEvent, which is reached exactly after passing the block that the next reader looks at
      (m_signal), or the block behind which the next writer waits (m_avail). */
  predicate Sparing(m: Mem, th: Thread, r: View)
    requires th.blk < |m.prev|
  {
    && (r.m.signal && !m.signal ==> th.pc == W_SIGNAL) && (r.m.avail && !m.avail ==> th.pc == R_SIGNAL)
    && (r.th.pc == W_SIGNAL <==> th.pc == W_TEST_SIGNAL && th.blk == m.r.start)
    && (r.th.pc == R_SIGNAL <==> th.pc == R_TEST_SIGNAL && m.prev[th.blk] == m.w.start)
  }

  lemma SparingClaim(m: Mem, th: Thread, ch: Choice)
    requires MemOk(m) && ThreadOk(m, th) && th.pc <= W_CLAIM
    ensures Sparing(m, th, Exec(m, th, ch))
  {
    hide MemOk, ThreadOk, CopyIn, PostBlock, GetBlockRead, CopyOut, ReturnBlock, Return;
  }

  lemma SparingPost(m: Mem, th: Thread, ch: Choice)
    requires MemOk(m) && ThreadOk(m, th) && Posting(th.pc)
    ensures Sparing(m, th, Exec(m, th, ch))
  {
    hide MemOk, ThreadOk, GetBlockWrite, CopyIn, GetBlockRead, CopyOut, ReturnBlock, Return;
  }

  lemma SparingRead(m: Mem, th: Thread, ch: Choice)
    requires MemOk(m) && ThreadOk(m, th) && R_LOAD_START <= th.pc <= R_CLAIM
    ensures Sparing(m, th, Exec(m, th, ch))
  {
    hide MemOk, ThreadOk, GetBlockWrite, CopyIn, PostBlock, CopyOut, ReturnBlock, Return;
  }

  lemma SparingReturn(m: Mem, th: Thread, ch: Choice)
    requires MemOk(m) && ThreadOk(m, th) && Reading(th.pc)
    ensures Sparing(m, th, Exec(m, th, ch))
  {
    hide ThreadOk, GetBlockWrite, CopyIn, PostBlock, GetBlockRead, CopyOut, Return;
  }

  /** Every statement of every thread. */
  lemma SignalsWhenWaited(m: Mem, th: Thread, ch: Choice)
    requires MemOk(m) && ThreadOk(m, th)
    ensures Sparing(m, th, Exec(m, th, ch))
  {
    hide Exec, ThreadOk, Sparing;
    if th.pc <= W_CLAIM {
      SparingClaim(m, th, ch);
    } else if th.pc <= W_INCREMENT {
      SparingPost(m, th, ch);
    } else if th.pc <= R_CLAIM {
      SparingRead(m, th, ch);
    } else {
      SparingReturn(m, th, ch);
    }
  }

  // ----- the mirror image: one producer waiting for room

  ghost predicate SoleProducer(s: State, p: nat) {
    p < |s.ths| && forall x :: 0 <= x < |s.ths| && x != p ==> !InWrite(s.ths[x].pc)
  }

  /** A lone producer's loaded cursor values are always current. */
  ghost predicate Current(s: State, p: nat)
    requires Sane(s) && p < |s.ths|
  {
    && (s.ths[p].pc == W_CHECK_ROOM || s.ths[p].pc == W_CLAIM ==> s.h.ld[p] == |s.h.w.phase|)
    && (s.ths[p].pc == W_TAKE_FLAG ==> s.ths[p].blk == s.m.w.end)
  }

  ghost predicate ProducerInv(s: State, p: nat) {
    Inv(s) && SoleProducer(s, p) && Current(s, p)
  }

  predicate WaitsForRoom(pc: Pc) {
    pc == W_WAIT_TEST || pc == W_WAIT_LOOP
  }

  predicate WillAvail(m: Mem, th: Thread)
    requires th.blk < |m.prev|
  {
    th.pc == R_SIGNAL || (th.pc == R_TEST_SIGNAL && m.prev[th.blk] == m.w.start)
  }

  ghost predicate RoomWakes(s: State, p: nat)
    requires Sane(s) && p < |s.ths|
  {
    WaitsForRoom(s.ths[p].pc) && s.m.next[s.m.w.start] != s.m.r.end ==>
      s.m.avail || exists x :: 0 <= x < |s.ths| && WillAvail(s.m, s.ths[x])
  }

  lemma ProducerNoHazard(s: State, p: nat)
    requires ProducerInv(s, p) && s.ths[p].pc == W_CLAIM
    ensures !Hazard(s, p)
  {
    hide StageInv;
    HazardInTickets(s, p);
    assert Aware(s, p);
  }

  lemma StaysOutOfWrite(m: Mem, th: Thread, ch: Choice)
    requires MemOk(m) && ThreadOk(m, th) && !InWrite(th.pc)
    ensures InWrite(Exec(m, th, ch).th.pc) ==> ch.CallWrite?
    ensures Exec(m, th, ch).m.w == m.w
  {
    hide MemOk, ThreadOk, GetBlockRead, CopyOut, ReturnBlock, Return;
  }

  lemma CurrentExec(m: Mem, th: Thread, ch: Choice)
    requires MemOk(m) && ThreadOk(m, th)
    ensures Exec(m, th, ch).th.pc == W_TAKE_FLAG ==> Exec(m, th, ch).th.blk == m.w.end && Exec(m, th, ch).m.w == m.w
  {
    hide MemOk, ThreadOk, GetBlockWrite, CopyIn, PostBlock, GetBlockRead, CopyOut, ReturnBlock, Return;
  }

  lemma SoleProducerKeeps(s: State, p: nat, x: nat, ch: Choice)
    requires Sane(s) && SoleProducer(s, p) && x < |s.ths| && (ch.CallWrite? ==> x == p)
    ensures SoleProducer(Step(s, x, ch), p)
  {
    var s' := Step(s, x, ch);
    assert s'.ths == s.ths[x := Exec(s.m, s.ths[x], ch).th];
    if x != p { StaysOutOfWrite(s.m, s.ths[x], ch); }
    hide Step, Exec;
  }

  lemma CurrentElsewhere(s: State, p: nat, x: nat, ch: Choice)
    requires Inv(s) && SoleProducer(s, p) && Current(s, p) && x < |s.ths| && x != p && !Hazard(s, x)
    ensures Current(Step(s, x, ch), p)
  {
    var s', th := Step(s, x, ch), s.ths[x];
    LoadRecord(s, x);
    QuietOrNot(s, x, ch);
    StaysOutOfWrite(s.m, th, ch);
    assert s'.m == Exec(s.m, th, ch).m && s'.ths == s.ths[x := Exec(s.m, th, ch).th] && s'.h.ld == Record(s, x).ld;
    hide Step, Exec, Record, Inv;
  }

  lemma CurrentHere(s: State, p: nat, ch: Choice)
    requires Inv(s) && SoleProducer(s, p) && Current(s, p) && !Hazard(s, p)
    ensures Current(Step(s, p, ch), p)
  {
    var s', th := Step(s, p, ch), s.ths[p];
    LoadRecord(s, p);
    QuietOrNot(s, p, ch);
    CurrentExec(s.m, th, ch);
    if InRead(th.pc) { AwareRead(s.m, th, ch); } else { AwareWrite(s.m, th, ch); }
    assert s'.m == Exec(s.m, th, ch).m && s'.ths == s.ths[p := Exec(s.m, th, ch).th] && s'.h.ld == Record(s, p).ld;
    hide Step, Exec, Record, Inv;
  }

  lemma ProducerKeeps(s: State, p: nat, x: nat, ch: Choice)
    requires ProducerInv(s, p) && x < |s.ths| && (ch.CallWrite? ==> x == p) && !Hazard(s, x)
    ensures ProducerInv(Step(s, x, ch), p)
  {
    hide Step, StageInv, Aware, Current;
    StepKeeps(s, x, ch);
    SoleProducerKeeps(s, p, x, ch);
    if x == p { CurrentHere(s, p, ch); } else { CurrentElsewhere(s, p, x, ch); }
  }

  lemma RoomEvents(m: Mem, th: Thread, ch: Choice)
    requires MemOk(m) && ThreadOk(m, th) && !InWrite(th.pc)
    ensures var r := Exec(m, th, ch);
      && r.m.avail == (m.avail || th.pc == R_SIGNAL) && r.m.w == m.w && r.m.prev == m.prev && r.th.blk < |m.prev|
      && (r.m.r.end != m.r.end ==> th.pc == R_MOVE_END && th.blk == m.r.end && r.th.pc == R_TEST_SIGNAL && r.th.blk == th.blk)
      && (WillAvail(m, th) ==> WillAvail(m, r.th) || r.m.avail)
  {
    assert Exec(m, th, ch).th.blk < |m.prev|;
    hide MemOk, GetBlockRead, CopyOut, Return;
  }

  lemma RoomWakesElsewhere(s: State, p: nat, x: nat, ch: Choice)
    requires Sane(s) && SoleProducer(s, p) && RoomWakes(s, p) && x < |s.ths| && x != p
    ensures RoomWakes(Step(s, x, ch), p)
  {
    var s', th := Step(s, x, ch), s.ths[x];
    RoomEvents(s.m, th, ch);
    assert s'.m == Exec(s.m, th, ch).m && s'.ths == s.ths[x := Exec(s.m, th, ch).th];
    hide Step, Exec;
    if WaitsForRoom(s.ths[p].pc) && s'.m.next[s'.m.w.start] != s'.m.r.end && !s'.m.avail {
      if s.m.next[s.m.w.start] == s.m.r.end {
        assert WillAvail(s'.m, s'.ths[x]);
      } else {
        var y :| 0 <= y < |s.ths| && WillAvail(s.m, s.ths[y]);
        assert WillAvail(s'.m, s'.ths[y]);
      }
    }
  }

  lemma EntersRoomWait(m: Mem, th: Thread, ch: Choice)
    requires MemOk(m) && ThreadOk(m, th)
    ensures var r := Exec(m, th, ch);
      WaitsForRoom(r.th.pc) ==>
        r.m == m && (WaitsForRoom(th.pc) || (th.pc == W_CHECK_ROOM && m.next[th.blk] == m.r.end))
  {
    hide MemOk, ThreadOk, GetBlockWrite, CopyIn, PostBlock, GetBlockRead, CopyOut, ReturnBlock, Return;
  }

  lemma RoomWakesHere(s: State, p: nat, ch: Choice)
    requires Inv(s) && p < |s.ths| && Current(s, p) && RoomWakes(s, p)
    ensures RoomWakes(Step(s, p, ch), p)
  {
    var s', th := Step(s, p, ch), s.ths[p];
    EntersRoomWait(s.m, th, ch);
    assert s'.m == Exec(s.m, th, ch).m && s'.ths == s.ths[p := Exec(s.m, th, ch).th];
    assert Aware(s, p);
    hide Step, Exec, Zones, Flags, Holders;
    if WaitsForRoom(s'.ths[p].pc) && s'.m.next[s'.m.w.start] != s'.m.r.end && !s'.m.avail {
      var y :| 0 <= y < |s.ths| && WillAvail(s.m, s.ths[y]);
      assert WillAvail(s'.m, s'.ths[y]);
    }
  }

  /** No lost wakeup for one producer waiting on m_avail, with any number of consumers. */
  lemma RoomWakesKeeps(s: State, p: nat, x: nat, ch: Choice)
    requires ProducerInv(s, p) && RoomWakes(s, p) && x < |s.ths|
    ensures RoomWakes(Step(s, x, ch), p)
  {
    hide Step, StageInv, Current;
    if x == p { RoomWakesHere(s, p, ch); } else { RoomWakesElsewhere(s, p, x, ch); }
  }
}
