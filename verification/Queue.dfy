/** The abstract FIFO queue, its contents in shared memory, the order of each producer, and the message count. */
module Queue {
  import opened Slots
  import opened Stage
  import opened Ring
  import opened History
  import opened Safety
  import opened Payload
  import opened Consumer
  import opened Fifo

  /** Published and not yet claimed by a reader. */
  ghost function Waiting(h: Hist): seq<Msg>
    requires InBounds(h)
  {
    h.msgs[|h.r.phase|..h.w.end]
  }

  ghost predicate InBounds(h: Hist) {
    |h.r.phase| <= h.w.end <= |h.msgs|
  }

  lemma CursorMoves(s: State, x: nat, ch: Choice)
    requires Inv(s) && x < |s.ths| && !Hazard(s, x)
    ensures var s', th := Step(s, x, ch), s.ths[x];
      && |s'.h.r.phase| == |s.h.r.phase| + (if th.pc == R_CLAIM && s.m.r.start == th.blk then 1 else 0)
      && s'.h.w.end == s.h.w.end + (if th.pc == W_MOVE_END && s.m.w.end == th.blk then 1 else 0)
      && |s'.h.w.phase| == |s.h.w.phase| + (if th.pc == W_CLAIM && s.m.w.start == th.blk then 1 else 0)
  {
    hide Step, StageInv;
    QuietOrNot(s, x, ch);
  }

  /** Every interleaving refines a FIFO of capacity N-1: advancing m_writeEnd enqueues the next claimed message,
      claiming m_readStart dequeues the oldest, and no other statement of any thread changes the queue. */
  lemma RefinesFifo(s: State, x: nat, ch: Choice)
    requires Inv(s) && DataInv(s) && x < |s.ths| && !Hazard(s, x)
    ensures InBounds(s.h) && InBounds(Step(s, x, ch).h) && |Step(s, x, ch).h.msgs| == |Step(s, x, ch).h.w.phase|
    ensures var s', th, q := Step(s, x, ch), s.ths[x], Waiting(s.h); var q' := Waiting(s'.h);
      && |q'| < |s.m.next|
      && (if th.pc == W_MOVE_END && s.m.w.end == th.blk then
            s.h.w.end < |s.h.msgs| && q' == q + [s.h.msgs[s.h.w.end]]
          else if th.pc == R_CLAIM && s.m.r.start == th.blk then q != [] && q == [q[0]] + q'
          else q' == q)
  {
    hide Step, Record, Exec, Zones, Flags, Holders;
    MessageRecord(s, x);
    CursorMoves(s, x, ch);
    WindowKeeps(s, x, ch);
    StepParts(s, x, ch);
    var h' := Step(s, x, ch).h;
    assert forall i :: |s.h.r.phase| <= i < s.h.w.end ==> h'.msgs[i] == s.h.msgs[i];
  }

  /** The index comparisons of the program decide emptiness and fullness exactly. */
  lemma TestsExact(s: State)
    requires Inv(s) && |s.h.msgs| == |s.h.w.phase|
    ensures s.m.r.start == s.m.w.end <==> Waiting(s.h) == []
    ensures s.m.next[s.m.w.start] == s.m.r.end <==> |s.h.w.phase| - s.h.r.end == |s.m.next| - 1
  {
    hide Zones, Flags, Holders;
    var n, ws, re := |s.m.next|, |s.h.w.phase|, s.h.r.end;
    assert s.m.next[s.m.w.start] == Slot(ws + 1, n);
    LapInjective(re, n);
    SlotPeriod(re, n);
  }

  /** The messages found in shared memory by following `Next` from block i up to m_writeEnd. */
  ghost function Walk(m: Mem, i: nat, fuel: nat): seq<Msg>
    requires MemOk(m) && i < |m.next|
    decreases fuel
  {
    if i == m.w.end || fuel == 0 then [] else [m.data[i][..m.amount[i]]] + Walk(m, m.next[i], fuel - 1)
  }

  /** The block of a waiting ticket holds its message, and m_writeEnd is elsewhere. */
  lemma WaitingBlock(s: State, c: nat, t: nat)
    requires ConsumerInv(s, c) && |s.h.r.phase| <= t < s.h.w.end
    ensures var b := Slot(t, |s.m.next|);
      && b != s.m.w.end && s.m.next[b] == Slot(t + 1, |s.m.next|)
      && s.m.amount[b] <= |s.m.data[b]| && s.m.data[b][..s.m.amount[b]] == s.h.msgs[t]
  {
    LapInjective(s.h.r.end, |s.m.next|);
    assert Full(s.h, t);
    assert Stored(s, t);
    hide Flags, Holders, Position;
  }

  lemma QueueBounds(s: State, c: nat)
    requires ConsumerInv(s, c)
    ensures MemOk(s.m) && |s.h.r.phase| <= s.h.w.end <= |s.h.w.phase| == |s.h.msgs| && s.m.w.end == Slot(s.h.w.end, |s.m.next|)
    ensures s.m.r.start == Slot(|s.h.r.phase|, |s.m.next|) && s.h.w.end < |s.h.r.phase| + |s.m.next|
  {
    hide Zones, Flags, Holders, Position, Exact;
  }

  lemma {:induction false} WalkIsQueue(s: State, c: nat, t: nat, fuel: nat)
    requires ConsumerInv(s, c) && |s.h.r.phase| <= t <= s.h.w.end <= t + fuel
    ensures Walk(s.m, Slot(t, |s.m.next|), fuel) == s.h.msgs[t..s.h.w.end]
    decreases fuel
  {
    hide ConsumerInv;
    QueueBounds(s, c);
    if t < s.h.w.end {
      WaitingBlock(s, c, t);
      WalkIsQueue(s, c, t + 1, fuel - 1);
    }
  }

  /** With one consumer, the blocks between m_readStart and m_writeEnd hold exactly the waiting messages. */
  lemma MemoryHoldsQueue(s: State, c: nat)
    requires ConsumerInv(s, c)
    ensures Walk(s.m, s.m.r.start, |s.m.next|) == Waiting(s.h)
  {
    hide ConsumerInv, Walk;
    QueueBounds(s, c);
    WalkIsQueue(s, c, |s.h.r.phase|, |s.m.next|);
  }

  lemma {:induction false} NonEmptySplit(ms: seq<Msg>, d: nat)
    requires d <= |ms|
    ensures NonEmpty(ms) == NonEmpty(ms[..d]) + NonEmpty(ms[d..])
    decreases |ms|
  {
    if d == |ms| {
      assert ms[..d] == ms;
    } else {
      var k := |ms| - 1;
      NonEmptySplit(ms[..k], d);
      assert ms[..k][..d] == ms[..d];
      assert ms[..k][d..] == ms[d..][..|ms| - d - 1];
    }
  }

  // ----- each producer's own order

  ghost function FromOf(ms: seq<Msg>, from: seq<nat>, y: nat): seq<Msg>
    requires |from| == |ms|
  {
    if ms == [] then [] else
      var k := |ms| - 1;
      FromOf(ms[..k], from[..k], y) + if from[k] == y then [ms[k]] else []
  }

  /** In claim order, the tickets of producer y carry what its writes were called with, oldest call first. */
  ghost predicate InOrder(s: State, y: nat)
    requires y < |s.ths| == |s.h.sent| && |s.h.msgs| == |s.h.from|
  {
    FromOf(s.h.msgs, s.h.from, y) ==
    s.h.sent[y] + if Posting(s.ths[y].pc) then [Cut(s.ths[y].buf, s.m.blockSize)] else []
  }

  ghost predicate OrderInv(s: State) {
    Sane(s) && |s.h.msgs| == |s.h.from| && forall y :: 0 <= y < |s.ths| ==> InOrder(s, y)
  }

  lemma PostingExec(m: Mem, th: Thread, ch: Choice)
    requires MemOk(m) && ThreadOk(m, th)
    ensures var th' := Exec(m, th, ch).th;
      && (Posting(th'.pc) <==> (Posting(th.pc) && th.pc != W_INCREMENT) || (th.pc == W_CLAIM && m.w.start == th.blk))
      && (Posting(th'.pc) ==> th'.buf == th.buf)
  {
    hide MemOk, ThreadOk, CopyIn, PostBlock, GetBlockRead, CopyOut, ReturnBlock, Return;
    if W_LOAD_START <= th.pc < W_CLAIM { hide GetBlockWrite; }
  }

  lemma SentRecord(s: State, x: nat)
    requires Sane(s) && x < |s.ths|
    ensures var h', th := Record(s, x), s.ths[x];
      && h'.sent == (if th.pc == W_INCREMENT then s.h.sent[x := s.h.sent[x] + [Cut(th.buf, s.m.blockSize)]] else s.h.sent)
      && h'.writes == (if th.pc == W_INCREMENT then s.h.writes + 1 else s.h.writes)
  {
    hide MemOk, ThreadOk;
  }

  lemma OrderKeeps(s: State, x: nat, ch: Choice)
    requires OrderInv(s) && x < |s.ths|
    ensures OrderInv(Step(s, x, ch))
  {
    var s', th := Step(s, x, ch), s.ths[x];
    PostingExec(s.m, th, ch);
    SentRecord(s, x);
    MessageRecord(s, x);
    assert s'.h == Record(s, x) && s'.ths == s.ths[x := Exec(s.m, th, ch).th];
    hide Step, Exec, Record;
    if th.pc == W_CLAIM && s.m.w.start == th.blk {
      assert s'.h.msgs[..|s.h.msgs|] == s.h.msgs && s'.h.from[..|s.h.from|] == s.h.from;
    }
    forall y | 0 <= y < |s'.ths|
      ensures InOrder(s', y)
    {
      assert InOrder(s, y);
    }
  }

  // ----- the message count

  ghost function Writers(ths: seq<Thread>): set<nat> {
    set x | 0 <= x < |ths| && Posting(ths[x].pc)
  }

  /** m_msgCount is completed writes minus completed reads, on 32 bits; a claimed ticket is either counted or still
      with its writer. */
  ghost predicate CountInv(s: State) {
    && s.m.count == (s.h.writes - |s.h.out|) % COUNT_RANGE
    && s.h.writes + |Writers(s.ths)| == |s.h.w.phase|
  }

  lemma CountEffect(m: Mem, th: Thread, ch: Choice)
    requires MemOk(m) && ThreadOk(m, th)
    ensures Exec(m, th, ch).m.count == if th.pc == W_INCREMENT then (m.count + 1) % COUNT_RANGE
                                       else if th.pc == R_DECREMENT then (m.count + COUNT_RANGE - 1) % COUNT_RANGE
                                       else m.count
  {
    hide MemOk, ThreadOk, GetBlockWrite, CopyIn, PostBlock, GetBlockRead, CopyOut, ReturnBlock;
  }

  lemma WritersAfter(ths: seq<Thread>, x: nat, th: Thread)
    requires x < |ths|
    ensures |Writers(ths[x := th])| == |Writers(ths)|
                                       + (if Posting(th.pc) then 1 else 0) - (if Posting(ths[x].pc) then 1 else 0)
  {
    var a, b := Writers(ths), Writers(ths[x := th]);
    assert a - {x} == b - {x};
    assert x in a <==> Posting(ths[x].pc);
    assert x in b <==> Posting(th.pc);
    assert |a| == |a - {x}| + if x in a then 1 else 0;
    assert |b| == |b - {x}| + if x in b then 1 else 0;
  }

  lemma CountMod(a: int)
    ensures (a % COUNT_RANGE + 1) % COUNT_RANGE == (a + 1) % COUNT_RANGE
    ensures (a % COUNT_RANGE + COUNT_RANGE - 1) % COUNT_RANGE == (a - 1) % COUNT_RANGE
  {
  }

  lemma CounterKeeps(s: State, x: nat, ch: Choice)
    requires Sane(s) && x < |s.ths| && s.m.count == (s.h.writes - |s.h.out|) % COUNT_RANGE
    ensures var s' := Step(s, x, ch); s'.m.count == (s'.h.writes - |s'.h.out|) % COUNT_RANGE
  {
    var s', th := Step(s, x, ch), s.ths[x];
    CountEffect(s.m, th, ch);
    CountMod(s.h.writes - |s.h.out|);
    SentRecord(s, x);
    OutRecord(s, x);
    assert s'.h == Record(s, x) && s'.m == Exec(s.m, th, ch).m;
    hide Step, Exec, Record, Sane;
  }

  lemma CountKeeps(s: State, x: nat, ch: Choice)
    requires Inv(s) && CountInv(s) && x < |s.ths| && !Hazard(s, x)
    ensures CountInv(Step(s, x, ch))
  {
    var s', th := Step(s, x, ch), s.ths[x];
    CounterKeeps(s, x, ch);
    PostingExec(s.m, th, ch);
    SentRecord(s, x);
    CursorMoves(s, x, ch);
    WritersAfter(s.ths, x, s'.ths[x]);
    assert s'.h == Record(s, x) && s'.ths == s.ths[x := Exec(s.m, th, ch).th];
    hide Step, Exec, Record, Writers, Inv;
  }
}
