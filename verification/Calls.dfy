/** What the callers of `write` and `read` are promised, over every run.

    A call and its arguments are taken from the schedule: the choice made when its thread was idle.  What it did is what
    its steps changed in the ring, and what it returned is what its thread holds when it is idle again. */
module Calls {
  import opened Slots
  import opened Stage
  import opened Ring
  import opened History
  import opened Safety
  import opened Payload
  import opened Consumer
  import opened Fifo
  import opened Queue
  import R = Runs

  // ----- one call

  /** A call: what it was asked, what it has put into the ring and taken out, how often it has found the ring full or
      empty, how often its wait has found the event set, and whether its wait has expired. */
  datatype Call = Call(asked: Choice, added: seq<Msg>, got: seq<Msg>, refusals: nat, wakes: nat, expired: bool)

  const NO_CALL := Call(Go, [], [], 0, 0, false)

  predicate Asks(ch: Choice) {
    ch.CallWrite? || ch.CallRead?
  }

  /** What was appended. */
  function Grown(a: seq<Msg>, b: seq<Msg>): seq<Msg> {
    if |a| <= |b| then b[|a|..] else []
  }

  /** The test for room (297) or for data (361) is about to fail. */
  predicate Refused(m: Mem, th: Thread)
    requires th.blk < |m.next|
  {
    (th.pc == W_CHECK_ROOM && m.next[th.blk] == m.r.end) || (th.pc == R_CHECK_EMPTY && th.blk == m.w.end)
  }

  predicate WaitExpires(th: Thread, ch: Choice) {
    (th.pc == W_WAIT_LOOP || th.pc == R_WAIT_LOOP) && ch.TimeOut?
  }

  /** A look at the event that finds it set. */
  predicate FindsSet(m: Mem, th: Thread, ch: Choice) {
    || ((th.pc == W_WAIT_TEST || th.pc == W_WAIT_LOOP) && m.avail && !WaitExpires(th, ch))
    || ((th.pc == R_WAIT_TEST || th.pc == R_WAIT_LOOP) && m.signal && !WaitExpires(th, ch))
  }

  /** The call of thread x after a step of thread y. */
  ghost function Advance(c: Call, s: State, y: nat, ch: Choice, x: nat): Call
    requires Sane(s) && y < |s.ths|
  {
    if y != x then c
    else if s.ths[x].pc == IDLE then (if Asks(ch) then NO_CALL.(asked := ch) else c)
    else
      var th, s' := s.ths[x], Step(s, x, ch);
      Call(c.asked, c.added + Grown(s.h.msgs, s'.h.msgs), c.got + Grown(s.h.out, s'.h.out),
           c.refusals + if Refused(s.m, th) then 1 else 0, c.wakes + if FindsSet(s.m, th, ch) then 1 else 0,
           c.expired || WaitExpires(th, ch))
  }

  /** The last call that thread x has begun in this run. */
  ghost function CallOf(s0: State, sched: Schedule, x: nat): Call
    requires Sane(s0) && Runs(sched, |s0.ths|)
    decreases |sched|
  {
    if sched == [] then NO_CALL else
      var k := |sched| - 1;
      Advance(CallOf(s0, sched[..k], x), Run(s0, sched[..k]), sched[k].0, sched[k].1, x)
  }

  /** In the last part of a wait that has expired. */
  predicate GivesUp(th: Thread) {
    (th.pc == W_WAIT_CLEAR || th.pc == R_WAIT_CLEAR) && !th.woke
  }

  predicate IsWaiting(th: Thread) {
    W_WAIT_TEST <= th.pc <= W_WAIT_LOOP || R_WAIT_TEST <= th.pc <= R_WAIT_LOOP || GivesUp(th)
  }

  /** The buffer of a read from its `min` to its return. */
  predicate BufferOk(th: Thread) {
    && (R_MIN <= th.pc <= R_COPY || th.pc == R_DECREMENT ==> !th.again)
    && (th.pc == R_COPY ==> th.len <= th.size)
    && (R_SET_DONE <= th.pc <= R_DECREMENT && !th.again ==> |th.buf| == th.len <= th.size)
    && (R_WAIT_TEST <= th.pc <= R_WAIT_CLEAR ==> th.timed)
  }

  /** What a returned call has done and what it returns. */
  predicate Kept(c: Call, ret: nat, buf: Msg, size: nat) {
    match c.asked
    case CallWrite(bytes) =>
      && c.got == []
      && if c.expired then c.added == [] && ret == 0 && c.refusals == c.wakes + 1
         else c.added == [Cut(bytes, size)] && ret == Min(|bytes|, size) && c.refusals == c.wakes
    case CallRead(max, timed) =>
      && c.added == []
      && if c.refusals > c.wakes then c.got == [] && ret == 0 && c.refusals == c.wakes + 1 && c.expired == timed
         else c.got == [buf] && ret == |buf| <= max && c.refusals == c.wakes && !c.expired
    case _ => c == NO_CALL
  }

  /** Where a thread is in its call. */
  predicate CallOk(th: Thread, c: Call, size: nat) {
    if th.pc == IDLE then Kept(c, th.ret, th.buf, size)
    else
      && (InWrite(th.pc) ==>
            && c.asked == CallWrite(th.buf) && c.got == []
            && c.added == if Posting(th.pc) then [Cut(th.buf, size)] else [])
      && (InRead(th.pc) ==> c.asked == CallRead(th.size, th.timed) && c.added == [] && c.got == [] && BufferOk(th))
      && c.expired == GivesUp(th) && c.refusals == c.wakes + if IsWaiting(th) then 1 else 0
  }

  /** A statement of a call, seen from memory and thread. */
  function Noted(c: Call, m: Mem, th: Thread, ch: Choice): Call
    requires th.blk < |m.next|
  {
    Call(c.asked,
         c.added + if th.pc == W_CLAIM && m.w.start == th.blk then [Cut(th.buf, m.blockSize)] else [],
         c.got + if th.pc == R_DECREMENT then [th.buf] else [],
         c.refusals + if Refused(m, th) then 1 else 0, c.wakes + if FindsSet(m, th, ch) then 1 else 0,
         c.expired || WaitExpires(th, ch))
  }

  // the parts of a call

  lemma WriteClaims(m: Mem, th: Thread, ch: Choice, c: Call)
    requires MemOk(m) && ThreadOk(m, th) && W_LOAD_START <= th.pc <= W_CLAIM && CallOk(th, c, m.blockSize)
    ensures CallOk(Exec(m, th, ch).th, Noted(c, m, th, ch), m.blockSize)
  {
    hide MemOk, ThreadOk, CopyIn, PostBlock, GetBlockRead, CopyOut, ReturnBlock, Return;
  }

  lemma WriteEnds(m: Mem, th: Thread, ch: Choice, c: Call)
    requires MemOk(m) && ThreadOk(m, th) && Posting(th.pc) && CallOk(th, c, m.blockSize)
    ensures CallOk(Exec(m, th, ch).th, Noted(c, m, th, ch), m.blockSize)
  {
    hide MemOk, GetBlockWrite, CopyIn, PostBlock, GetBlockRead, CopyOut, ReturnBlock;
  }

  lemma ReadClaims(m: Mem, th: Thread, ch: Choice, c: Call)
    requires MemOk(m) && ThreadOk(m, th) && R_LOAD_START <= th.pc <= R_CLAIM && CallOk(th, c, m.blockSize)
    ensures CallOk(Exec(m, th, ch).th, Noted(c, m, th, ch), m.blockSize)
  {
    hide MemOk, ThreadOk, GetBlockWrite, CopyIn, PostBlock, CopyOut, ReturnBlock, Return;
  }

  lemma ReadCopies(m: Mem, th: Thread, ch: Choice, c: Call)
    requires MemOk(m) && ThreadOk(m, th) && R_GET_AMOUNT <= th.pc <= R_COPY && CallOk(th, c, m.blockSize)
    ensures CallOk(Exec(m, th, ch).th, Noted(c, m, th, ch), m.blockSize)
  {
    hide MemOk, GetBlockWrite, CopyIn, PostBlock, GetBlockRead, ReturnBlock, Return;
  }

  lemma ReadReturnsBlock(m: Mem, th: Thread, ch: Choice, c: Call)
    requires MemOk(m) && ThreadOk(m, th) && R_SET_DONE <= th.pc <= R_SIGNAL && CallOk(th, c, m.blockSize)
    ensures CallOk(Exec(m, th, ch).th, Noted(c, m, th, ch), m.blockSize)
  {
    hide MemOk, ThreadOk, GetBlockWrite, CopyIn, PostBlock, GetBlockRead, CopyOut, Return;
  }

  lemma ReadEnds(m: Mem, th: Thread, ch: Choice, c: Call)
    requires MemOk(m) && ThreadOk(m, th) && th.pc == R_DECREMENT && CallOk(th, c, m.blockSize)
    ensures CallOk(Exec(m, th, ch).th, Noted(c, m, th, ch), m.blockSize)
  {
    hide MemOk, ThreadOk, GetBlockWrite, CopyIn, PostBlock, GetBlockRead, CopyOut, ReturnBlock;
  }

  lemma CallExec(m: Mem, th: Thread, ch: Choice, c: Call)
    requires MemOk(m) && ThreadOk(m, th) && th.pc != IDLE && CallOk(th, c, m.blockSize)
    ensures CallOk(Exec(m, th, ch).th, Noted(c, m, th, ch), m.blockSize)
  {
    hide MemOk, ThreadOk, Exec, CallOk, Noted;
    if th.pc <= W_CLAIM {
      WriteClaims(m, th, ch, c);
    } else if th.pc <= W_INCREMENT {
      WriteEnds(m, th, ch, c);
    } else if th.pc <= R_CLAIM {
      ReadClaims(m, th, ch, c);
    } else if th.pc <= R_COPY {
      ReadCopies(m, th, ch, c);
    } else if th.pc <= R_SIGNAL {
      ReadReturnsBlock(m, th, ch, c);
    } else {
      ReadEnds(m, th, ch, c);
    }
  }

  lemma IdleExec(m: Mem, th: Thread, ch: Choice, c: Call)
    requires MemOk(m) && ThreadOk(m, th) && th.pc == IDLE && CallOk(th, c, m.blockSize)
    ensures CallOk(Exec(m, th, ch).th, if Asks(ch) then NO_CALL.(asked := ch) else c, m.blockSize)
  {
    hide MemOk, ThreadOk, GetBlockWrite, CopyIn, PostBlock, GetBlockRead, CopyOut, ReturnBlock, Return;
  }

  lemma AdvanceNotes(c: Call, s: State, x: nat, ch: Choice)
    requires Sane(s) && x < |s.ths| && s.ths[x].pc != IDLE
    ensures Advance(c, s, x, ch, x) == Noted(c, s.m, s.ths[x], ch)
  {
    hide Step, Exec, Record, MemOk, ThreadOk;
    StepParts(s, x, ch);
    MessageRecord(s, x);
    OutRecord(s, x);
  }

  lemma CallKeeps(c: Call, s: State, y: nat, ch: Choice, x: nat)
    requires Sane(s) && y < |s.ths| && x < |s.ths| && CallOk(s.ths[x], c, s.m.blockSize)
    ensures var s' := Step(s, y, ch); CallOk(s'.ths[x], Advance(c, s, y, ch, x), s'.m.blockSize)
  {
    hide Step, Exec, Record, MemOk, ThreadOk, CallOk;
    StepParts(s, y, ch);
    if y == x {
      if s.ths[x].pc == IDLE {
        IdleExec(s.m, s.ths[x], ch, c);
      } else {
        AdvanceNotes(c, s, x, ch);
        CallExec(s.m, s.ths[x], ch, c);
      }
    }
  }

  /** Every thread, every run, no condition. */
  lemma {:induction false} CallRun(s0: State, sched: Schedule, x: nat)
    requires Init(s0) && Runs(sched, |s0.ths|) && x < |s0.ths|
    ensures var s := Run(s0, sched); CallOk(s.ths[x], CallOf(s0, sched, x), s.m.blockSize)
    decreases |sched|
  {
    hide Step, Advance, Sane, StartMem;
    if sched == [] {
    } else {
      var k := |sched| - 1;
      CallRun(s0, sched[..k], x);
      CallKeeps(CallOf(s0, sched[..k], x), Run(s0, sched[..k]), sched[k].0, sched[k].1, x);
    }
  }

  /** A `write` that has returned, in any run: it put exactly its message into the ring, cut to the block size, and
      returns that length; or its wait has expired directly after it found the ring full, it put in nothing, and it
      returns 0.  Before that every refusal was followed by one wait that found m_avail set. */
  lemma WriteReturns(s0: State, sched: Schedule, x: nat)
    requires Init(s0) && Runs(sched, |s0.ths|) && x < |s0.ths|
    requires Run(s0, sched).ths[x].pc == IDLE && CallOf(s0, sched, x).asked.CallWrite?
    ensures var c, ret := CallOf(s0, sched, x), Run(s0, sched).ths[x].ret;
      && c.got == []
      && (if c.expired then c.added == [] && ret == 0 && c.refusals == c.wakes + 1
          else c.added == [Cut(c.asked.bytes, s0.m.blockSize)] && ret == |c.added[0]| && c.refusals == c.wakes)
  {
    hide Run, CallOf, Init;
    CallRun(s0, sched, x);
  }

  /** A `read` that has returned: it took exactly one message, which is what its buffer holds, fits the buffer and has the
      length it returns; or it found the ring empty, did not wait or its wait expired, took nothing, and returns 0. */
  lemma ReadReturns(s0: State, sched: Schedule, x: nat)
    requires Init(s0) && Runs(sched, |s0.ths|) && x < |s0.ths|
    requires Run(s0, sched).ths[x].pc == IDLE && CallOf(s0, sched, x).asked.CallRead?
    ensures var c, th := CallOf(s0, sched, x), Run(s0, sched).ths[x];
      && c.added == []
      && (if c.got == [] then th.ret == 0 && c.refusals == c.wakes + 1 && c.expired == c.asked.timed
          else c.got == [th.buf] && th.ret == |th.buf| <= c.asked.size && c.refusals == c.wakes && !c.expired)
  {
    hide Run, CallOf, Init;
    CallRun(s0, sched, x);
  }

  // ----- all calls

  /** A successful claim of a block for writing: by whom, and the bytes its caller passed. */
  datatype Ticket = Ticket(who: nat, bytes: Msg)

  function BytesOf(ch: Choice): Msg {
    if ch.CallWrite? then ch.bytes else []
  }

  /** The claims of a run, in order: the steps that move m_writeStart. */
  ghost function Tickets(s0: State, sched: Schedule): seq<Ticket>
    requires Sane(s0) && Runs(sched, |s0.ths|)
    decreases |sched|
  {
    if sched == [] then [] else
      var k := |sched| - 1;
      Tickets(s0, sched[..k]) +
      if Run(s0, sched).m.w.start == Run(s0, sched[..k]).m.w.start then []
      else [Ticket(sched[k].0, BytesOf(CallOf(s0, sched[..k], sched[k].0).asked))]
  }

  /** A call that has returned, with its value and its buffer. */
  datatype Result = Result(who: nat, call: Call, ret: nat, buf: Msg)

  /** The returned calls of a run, in order: the steps after which a busy thread is idle. */
  ghost function Results(s0: State, sched: Schedule): seq<Result>
    requires Sane(s0) && Runs(sched, |s0.ths|)
    decreases |sched|
  {
    if sched == [] then [] else
      var k, x := |sched| - 1, sched[|sched| - 1].0;
      var before, after := Run(s0, sched[..k]).ths[x], Run(s0, sched).ths[x];
      Results(s0, sched[..k]) +
      if before.pc != IDLE && after.pc == IDLE then [Result(x, CallOf(s0, sched, x), after.ret, after.buf)] else []
  }

  /** The messages put into the ring. */
  function Texts(cl: seq<Ticket>, size: nat): (ms: seq<Msg>)
    ensures |ms| == |cl|
  {
    seq(|cl|, i requires 0 <= i < |cl| => Cut(cl[i].bytes, size))
  }

  predicate Took(r: Result) {
    r.call.asked.CallRead? && r.call.got != []
  }

  /** What the reads that took a message returned: the first `ret` bytes of their buffers. */
  function Received(rs: seq<Result>): seq<Msg> {
    if rs == [] then [] else
      var k := |rs| - 1;
      Received(rs[..k]) + if Took(rs[k]) then [rs[k].buf[..Min(rs[k].ret, |rs[k].buf|)]] else []
  }

  /** The buffer sizes these reads were called with. */
  function Asked(rs: seq<Result>): seq<nat> {
    if rs == [] then [] else
      var k := |rs| - 1;
      Asked(rs[..k]) + if Took(rs[k]) then [rs[k].call.asked.size] else []
  }

  /** The arguments of the writes of thread x that put in their message, in call order. */
  function Written(rs: seq<Result>, x: nat): seq<Msg> {
    if rs == [] then [] else
      var k := |rs| - 1;
      Written(rs[..k], x) +
      if rs[k].who == x && rs[k].call.asked.CallWrite? && rs[k].call.added != [] then [rs[k].call.asked.bytes] else []
  }

  function TicketsOf(cl: seq<Ticket>, x: nat): seq<Msg> {
    if cl == [] then [] else
      var k := |cl| - 1;
      TicketsOf(cl[..k], x) + if cl[k].who == x then [cl[k].bytes] else []
  }

  /** The message of a write in progress, if it is in the ring already. */
  function InProgress(th: Thread, c: Call): seq<Msg> {
    if th.pc != IDLE && c.asked.CallWrite? && c.added != [] then [c.asked.bytes] else []
  }

  // ----- the history tells what the callers know

  /** m_writeStart moves exactly by a successful claim. */
  lemma StartMoves(s: State, x: nat, ch: Choice)
    requires Sane(s) && x < |s.ths|
    ensures Step(s, x, ch).m.w.start != s.m.w.start <==> s.ths[x].pc == W_CLAIM && s.m.w.start == s.ths[x].blk
  {
    hide Step, Exec, Record, ThreadOk;
    ClaimEffect(s, x, ch);
    StepParts(s, x, ch);
    if !(s.ths[x].pc == W_CLAIM && s.m.w.start == s.ths[x].blk) { StartStays(s.m, s.ths[x], ch); }
  }

  lemma StartStays(m: Mem, th: Thread, ch: Choice)
    requires MemOk(m) && ThreadOk(m, th) && !(th.pc == W_CLAIM && m.w.start == th.blk)
    ensures Exec(m, th, ch).m.w.start == m.w.start
  {
    hide MemOk, ThreadOk, CopyIn, PostBlock, GetBlockRead, CopyOut, ReturnBlock, Return;
  }

  /** What one step adds to the history, in the words of its call. */
  lemma StepTells(c: Call, s: State, y: nat, ch: Choice)
    requires Sane(s) && y < |s.ths| && CallOk(s.ths[y], c, s.m.blockSize)
    ensures var s', c' := Step(s, y, ch), Advance(c, s, y, ch, y); var th, th' := s.ths[y], s'.ths[y];
      && CallOk(th', c', s.m.blockSize) && (th.pc != IDLE ==> c'.asked == c.asked)
      && (if th.pc != IDLE && th'.pc == IDLE && c'.asked.CallRead? && c'.got != [] then
            s'.h.out == s.h.out + [th'.buf] && s'.h.sizes == s.h.sizes + [c'.asked.size] && th'.ret == |th'.buf|
          else s'.h.out == s.h.out && s'.h.sizes == s.h.sizes)
      && (if s'.m.w.start != s.m.w.start then
            && th.pc != IDLE && th'.pc != IDLE && c.asked.CallWrite? && c.added == [] && c'.added != []
            && s'.h.msgs == s.h.msgs + [Cut(c.asked.bytes, s.m.blockSize)] && s'.h.from == s.h.from + [y]
          else s'.h.msgs == s.h.msgs && s'.h.from == s.h.from && (th.pc != IDLE ==> c'.added == c.added))
  {
    hide Step, Exec, Record, MemOk, ThreadOk;
    CallKeeps(c, s, y, ch, y);
    StepParts(s, y, ch);
    StartMoves(s, y, ch);
    ClaimEffect(s, y, ch);
    MessageRecord(s, y);
    OutRecord(s, y);
    if s.ths[y].pc != IDLE { AdvanceNotes(c, s, y, ch); }
  }

  /** The messages of the history are the arguments of the writes, in claim order, cut to the block size. */
  lemma {:induction false} TicketsTell(s0: State, sched: Schedule)
    requires Init(s0) && Runs(sched, |s0.ths|)
    ensures var h, tickets := Run(s0, sched).h, Tickets(s0, sched);
      && |h.from| == |tickets| && h.msgs == Texts(tickets, s0.m.blockSize)
      && forall i :: 0 <= i < |tickets| ==> h.from[i] == tickets[i].who
    decreases |sched|
  {
    hide Step, Advance, Sane, StartMem, CallOk;
    if sched != [] {
      var k, y := |sched| - 1, sched[|sched| - 1].0;
      TicketsTell(s0, sched[..k]);
      CallRun(s0, sched[..k], y);
      StepTells(CallOf(s0, sched[..k], y), Run(s0, sched[..k]), y, sched[k].1);
    }
  }

  /** What the history says was delivered is what the reads returned, with the sizes they asked for. */
  lemma {:induction false} ResultsTell(s0: State, sched: Schedule)
    requires Init(s0) && Runs(sched, |s0.ths|)
    ensures var h, rs := Run(s0, sched).h, Results(s0, sched); h.out == Received(rs) && h.sizes == Asked(rs)
    decreases |sched|
  {
    hide Step, Advance, Sane, StartMem, CallOk;
    if sched != [] {
      var k, y := |sched| - 1, sched[|sched| - 1].0;
      ResultsTell(s0, sched[..k]);
      CallRun(s0, sched[..k], y);
      StepTells(CallOf(s0, sched[..k], y), Run(s0, sched[..k]), y, sched[k].1);
      var rs, rs' := Results(s0, sched[..k]), Results(s0, sched);
      if rs' != rs {
        var r := rs'[|rs|];
        assert rs' == rs + [r] && rs'[..|rs|] == rs;
        assert Took(r) ==> r.buf[..|r.buf|] == r.buf;
      }
    }
  }

  lemma OthersWait(c: Call, s: State, y: nat, ch: Choice, x: nat)
    requires Sane(s) && y < |s.ths| && x < |s.ths| && x != y
    ensures Step(s, y, ch).ths[x] == s.ths[x] && Advance(c, s, y, ch, x) == c
  {
    hide Exec, Record;
    StepParts(s, y, ch);
  }

  /** The tickets and results of one more step. */
  ghost function MoreTickets(ts: seq<Ticket>, s: State, y: nat, ch: Choice, c: Call): seq<Ticket>
    requires Sane(s) && y < |s.ths|
  {
    ts + if Step(s, y, ch).m.w.start == s.m.w.start then [] else [Ticket(y, BytesOf(c.asked))]
  }

  ghost function MoreResults(rs: seq<Result>, s: State, y: nat, ch: Choice, c: Call): seq<Result>
    requires Sane(s) && y < |s.ths|
  {
    var th, th' := s.ths[y], Step(s, y, ch).ths[y];
    rs + if th.pc != IDLE && th'.pc == IDLE then [Result(y, Advance(c, s, y, ch, y), th'.ret, th'.buf)] else []
  }

  lemma TicketsOfMore(ts: seq<Ticket>, t: Ticket, x: nat)
    ensures TicketsOf(ts + [t], x) == TicketsOf(ts, x) + if t.who == x then [t.bytes] else []
  {
    assert (ts + [t])[..|ts|] == ts;
  }

  lemma WrittenMore(rs: seq<Result>, r: Result, x: nat)
    ensures Written(rs + [r], x) == Written(rs, x) +
            if r.who == x && r.call.asked.CallWrite? && r.call.added != [] then [r.call.asked.bytes] else []
  {
    assert (rs + [r])[..|rs|] == rs;
  }

  lemma MoreOf(ts: seq<Ticket>, rs: seq<Result>, s: State, y: nat, ch: Choice, x: nat, c: Call)
    requires Sane(s) && y < |s.ths|
    ensures var s', c' := Step(s, y, ch), Advance(c, s, y, ch, y);
      && TicketsOf(MoreTickets(ts, s, y, ch, c), x) ==
         TicketsOf(ts, x) + (if y == x && s'.m.w.start != s.m.w.start then [BytesOf(c.asked)] else [])
      && Written(MoreResults(rs, s, y, ch, c), x) ==
         Written(rs, x) + (if y == x && s.ths[y].pc != IDLE && s'.ths[y].pc == IDLE
                              && c'.asked.CallWrite? && c'.added != [] then [c'.asked.bytes] else [])
  {
    hide Step, Advance, Sane, TicketsOf, Written;
    var th' := Step(s, y, ch).ths[y];
    TicketsOfMore(ts, Ticket(y, BytesOf(c.asked)), x);
    WrittenMore(rs, Result(y, Advance(c, s, y, ch, y), th'.ret, th'.buf), x);
    assert ts + [] == ts && rs + [] == rs;
    assert TicketsOf(ts, x) + [] == TicketsOf(ts, x) && Written(rs, x) + [] == Written(rs, x);
  }

  lemma OrderNext(ts: seq<Ticket>, rs: seq<Result>, s: State, y: nat, ch: Choice, x: nat, c: Call, d: Call)
    requires Sane(s) && y < |s.ths| && x < |s.ths| && CallOk(s.ths[y], c, s.m.blockSize) && (x == y ==> d == c)
    requires TicketsOf(ts, x) == Written(rs, x) + InProgress(s.ths[x], d)
    ensures TicketsOf(MoreTickets(ts, s, y, ch, c), x) ==
            Written(MoreResults(rs, s, y, ch, c), x) + InProgress(Step(s, y, ch).ths[x], Advance(d, s, y, ch, x))
  {
    hide Step, Advance, Sane, CallOk, TicketsOf, Written, MoreTickets, MoreResults;
    StepTells(c, s, y, ch);
    MoreOf(ts, rs, s, y, ch, x, c);
    if x != y {
      OthersWait(d, s, y, ch, x);
    } else if s.ths[x].pc == IDLE {
      BeginsEmpty(c, s, x, ch);
    }
  }

  lemma BeginsEmpty(c: Call, s: State, x: nat, ch: Choice)
    requires Sane(s) && x < |s.ths| && s.ths[x].pc == IDLE && CallOk(s.ths[x], c, s.m.blockSize)
    ensures InProgress(Step(s, x, ch).ths[x], Advance(c, s, x, ch, x)) == []
  {
    hide Exec, Record, MemOk, ThreadOk;
    StepParts(s, x, ch);
    IdleStays(s.m, s.ths[x], ch);
  }

  lemma IdleStays(m: Mem, th: Thread, ch: Choice)
    requires MemOk(m) && ThreadOk(m, th) && th.pc == IDLE
    ensures Exec(m, th, ch).th.pc != IDLE ==> Asks(ch)
  {
    hide MemOk, ThreadOk;
  }

  /** Each thread's messages are in the ring in the order of its calls, none missing and none twice. */
  lemma {:induction false} OrderTells(s0: State, sched: Schedule, x: nat)
    requires Init(s0) && Runs(sched, |s0.ths|) && x < |s0.ths|
    ensures TicketsOf(Tickets(s0, sched), x) ==
            Written(Results(s0, sched), x) + InProgress(Run(s0, sched).ths[x], CallOf(s0, sched, x))
    decreases |sched|
  {
    hide Step, Advance, Sane, StartMem, CallOk, TicketsOf, Written, InProgress;
    if sched == [] {
      NothingYet(s0, x);
    } else {
      var k, y := |sched| - 1, sched[|sched| - 1].0;
      OrderTells(s0, sched[..k], x);
      CallRun(s0, sched[..k], y);
      OrderNext(Tickets(s0, sched[..k]), Results(s0, sched[..k]), Run(s0, sched[..k]), y, sched[k].1, x,
                CallOf(s0, sched[..k], y), CallOf(s0, sched[..k], x));
    }
  }

  lemma NothingYet(s: State, x: nat)
    requires Init(s) && x < |s.ths|
    ensures TicketsOf([], x) == Written([], x) + InProgress(s.ths[x], NO_CALL)
  {
    hide Sane, StartMem;
  }

  // ----- the queue in the words of its callers

  /** The non-empty messages among the first d tickets, each cut to the size its read asked for, are what the reads that
      took a message have returned, in that order. */
  ghost predicate FirstIn(ts: seq<Ticket>, rs: seq<Result>, size: nat, d: nat) {
    && d <= |ts| && |NonEmpty(Texts(ts, size)[..d])| == |Asked(rs)|
    && Received(rs) == Cuts(NonEmpty(Texts(ts, size)[..d]), Asked(rs))
  }

  lemma InWords(m: Mem, h: Hist, ts: seq<Ticket>, rs: seq<Result>, size: nat, d: nat)
    requires MemOk(m) && R.DeliversInOrder(h, d) && R.MemoryIsQueue(m, h)
    requires h.msgs == Texts(ts, size) && h.out == Received(rs) && h.sizes == Asked(rs)
    ensures FirstIn(ts, rs, size, d) && |h.r.phase| <= h.w.end <= |ts|
    ensures Walk(m, m.r.start, |m.next|) == Texts(ts, size)[|h.r.phase|..h.w.end]
  {
    hide MemOk, Walk, NonEmpty, Received, Asked;
  }

  /** FIFO from call to call: any number of producers, one consumer, any interleaving without a late claim.  The reads
      return the arguments of the writes in the order of the tickets, cut to the block and to the buffer they asked for;
      each thread's tickets are its writes in call order; and the published messages that no read has taken are in shared
      memory, oldest first. */
  lemma CallTheorem(s0: State, sched: Schedule, c: nat)
    requires Init(s0) && Runs(sched, |s0.ths|) && c < |s0.ths| && R.OnlyReader(sched, c) && Clean(s0, sched)
    ensures var s, ts, rs := Run(s0, sched), Tickets(s0, sched), Results(s0, sched);
      && FirstIn(ts, rs, s0.m.blockSize, Settled(s, c))
      && |s.h.r.phase| <= s.h.w.end <= |ts|
      && Walk(s.m, s.m.r.start, |s.m.next|) == Texts(ts, s0.m.blockSize)[|s.h.r.phase|..s.h.w.end]
      && forall x :: 0 <= x < |s0.ths| ==> TicketsOf(ts, x) == Written(rs, x) + InProgress(s.ths[x], CallOf(s0, sched, x))
  {
    hide Run, Clean, Inv, MemOk, ThreadOk, StartMem, OrderInv, CallOf, TicketsOf, Written, InProgress, Walk, FirstIn,
         R.DeliversInOrder, R.MemoryIsQueue, Settled, Tickets, Results;
    R.FifoTheorem(s0, sched, c);
    TicketsTell(s0, sched);
    ResultsTell(s0, sched);
    var s := Run(s0, sched);
    InWords(s.m, s.h, Tickets(s0, sched), Results(s0, sched), s0.m.blockSize, Settled(s, c));
    forall x | 0 <= x < |s0.ths|
      ensures TicketsOf(Tickets(s0, sched), x) ==
              Written(Results(s0, sched), x) + InProgress(Run(s0, sched).ths[x], CallOf(s0, sched, x))
    {
      OrderTells(s0, sched, x);
    }
  }

  /** The same with one producer and one consumer and no assumption on the interleaving. */
  lemma PairCalls(s0: State, sched: Schedule, p: nat, c: nat)
    requires Init(s0) && Runs(sched, |s0.ths|) && p < |s0.ths| && c < |s0.ths| && R.PairSchedule(sched, p, c)
    ensures var s, ts, rs := Run(s0, sched), Tickets(s0, sched), Results(s0, sched);
      && FirstIn(ts, rs, s0.m.blockSize, Settled(s, c))
      && TicketsOf(ts, p) == Written(rs, p) + InProgress(s.ths[p], CallOf(s0, sched, p))
      && (R.AllIdle(s) ==> |ts| == s.h.w.end)
  {
    hide Run, Clean, Inv, Sane, StartMem, CallOf, TicketsOf, Written, InProgress, FirstIn, Walk, R.PairInv, Tickets, Results;
    R.InitPair(s0, p, c);
    R.PairRun(s0, sched, p, c);
    R.PairTheorem(s0, sched, p, c);
    CallTheorem(s0, sched, c);
    AllTickets(s0, sched, c);
  }

  lemma AllTickets(s0: State, sched: Schedule, c: nat)
    requires Init(s0) && Runs(sched, |s0.ths|) && c < |s0.ths| && R.OnlyReader(sched, c) && Clean(s0, sched)
    ensures |Tickets(s0, sched)| == |Run(s0, sched).h.w.phase|
  {
    hide Run, Clean, Sane, StartMem, ConsumerInv, Hand, Delivered, OrderInv, CountInv;
    TicketsTell(s0, sched);
    R.InitQueue(s0, c);
    R.QueueRun(s0, sched, c);
    QueueBounds(Run(s0, sched), c);
  }
}
