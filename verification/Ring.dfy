/** The shared-memory ring, one shared load, store or compare-and-swap per step.

    `Exec` runs the next atomic statement of one thread.  It looks only at shared memory and at the thread's own
    local variables; block numbers are plain indices, as in the program. */
module Ring {
  import opened Slots
  import opened Stage

  newtype Byte = x: int | 0 <= x < 0x100
  type Msg = seq<Byte>

  const COUNT_RANGE: nat := 0x1_0000_0000

  function Min(a: nat, b: nat): nat {
    if a < b then a else b
  }

  /** Shared memory.  `w` holds `m_writeStart`, `m_writeEnd` and every `doneWrite`; `r` holds `m_readStart`,
      `m_readEnd` and every `doneRead`. */
  datatype Mem = Mem(
    blockSize: nat,
    next: seq<nat>, prev: seq<nat>,
    w: Side, r: Side,
    amount: seq<nat>, data: seq<Msg>,
    count: nat,
    signal: bool, avail: bool)

  /** The statement a thread executes next; the numbers in brackets are lines of shmIPC.h.
      W_* belongs to a `write` call, R_* to a `read` call; the order is that of the program text, so a part of a call is
      a range. */
  type Pc = n: nat | n <= 31

  const IDLE: Pc := 0 // between calls
  const W_LOAD_START: Pc := 1 // load m_writeStart (295)
  const W_CHECK_ROOM: Pc := 2 // compare Next with m_readEnd (297)
  const W_WAIT_TEST: Pc := 3 // WaitForEvent(m_avail): first look at state_ (300)
  const W_WAIT_LOOP: Pc := 4 // its timed wait
  const W_WAIT_CLEAR: Pc := 5 // its ClearEvent
  const W_CLAIM: Pc := 6 // CAS on m_writeStart (309)
  const W_COPY: Pc := 7 // memcpy and Amount (273, 274)
  const W_SET_DONE: Pc := 8 // doneWrite = 1 (324)
  const W_LOAD_END: Pc := 9 // load m_writeEnd (329)
  const W_TAKE_FLAG: Pc := 10 // CAS on doneWrite (332)
  const W_MOVE_END: Pc := 11 // CAS on m_writeEnd (339)
  const W_TEST_SIGNAL: Pc := 12 // compare with m_readStart (342)
  const W_SIGNAL: Pc := 13 // SetEvent(m_signal) (343)
  const W_INCREMENT: Pc := 14 // incrementCount (283)
  const R_LOAD_START: Pc := 15 // load m_readStart (357)
  const R_CHECK_EMPTY: Pc := 16 // compare with m_writeEnd (361)
  const R_WAIT_TEST: Pc := 17 // WaitForEvent(m_signal): first look at state_ (364)
  const R_WAIT_LOOP: Pc := 18 // its timed wait
  const R_WAIT_CLEAR: Pc := 19 // its ClearEvent
  const R_CLAIM: Pc := 20 // CAS on m_readStart (375)
  const R_GET_AMOUNT: Pc := 21 // load Amount (237)
  const R_MIN: Pc := 22 // load Amount again for the min (249)
  const R_COPY: Pc := 23 // memcpy (251)
  const R_SET_DONE: Pc := 24 // doneRead = 1 (389)
  const R_CLEAR_AMOUNT: Pc := 25 // Amount = 0 (390)
  const R_LOAD_END: Pc := 26 // load m_readEnd (396)
  const R_TAKE_FLAG: Pc := 27 // CAS on doneRead (398)
  const R_MOVE_END: Pc := 28 // CAS on m_readEnd (406)
  const R_TEST_SIGNAL: Pc := 29 // compare Prev with m_writeStart (409)
  const R_SIGNAL: Pc := 30 // SetEvent(m_avail) (410)
  const R_DECREMENT: Pc := 31 // decrementCount (260)

  /** Local variables.  `buf` is the caller's buffer: the bytes to write, or the bytes read so far. */
  datatype Thread = Thread(
    pc: Pc,
    buf: Msg,
    size: nat,      // buffSize of a read
    timed: bool,    // msTimeout > 0
    blk: nat,       // blockIndex, and the index of pBlock
    len: nat,       // dwAmount
    k: nat,         // bytes copied by memcpy so far in a write
    woke: bool,     // WaitForEvent returned a positive value
    again: bool,    // the block read had amount 0
    ret: nat)       // what the last call returned

  /** What the environment decides: the next call of an idle thread, and whether a timed wait expires. */
  datatype Choice = Go | CallWrite(bytes: Msg) | CallRead(size: nat, timed: bool) | TimeOut

  /** What one thread sees: shared memory and its own variables. */
  datatype View = View(m: Mem, th: Thread)

  ghost predicate MemOk(m: Mem) {
    var n := |m.next|;
    && n >= 2 && Links(m.next, m.prev, n)
    && |m.w.done| == n && |m.r.done| == n
    && m.w.start < n && m.w.end < n && m.r.start < n && m.r.end < n
    && |m.amount| == n && |m.data| == n
    && (forall i :: 0 <= i < n ==> m.amount[i] <= m.blockSize)
    && (forall i :: 0 <= i < n ==> |m.data[i]| == m.blockSize)
    && m.count < COUNT_RANGE
  }

  ghost predicate ThreadOk(m: Mem, th: Thread) {
    && th.blk < |m.next|
    && (th.pc == W_COPY ==> th.k <= th.len)
    && (Posting(th.pc) ==> th.len == Min(|th.buf|, m.blockSize))
    && (th.pc == R_COPY ==> |th.buf| <= th.len <= m.blockSize)
  }

  /** From the claim of a block to the return of `write`. */
  predicate Posting(pc: Pc) {
    W_COPY <= pc <= W_INCREMENT
  }

  /** From the claim of a block to the return of `read` or to the next claim attempt. */
  predicate Reading(pc: Pc) {
    R_GET_AMOUNT <= pc <= R_DECREMENT
  }

  predicate InWrite(pc: Pc) {
    W_LOAD_START <= pc <= W_INCREMENT
  }

  predicate InRead(pc: Pc) {
    R_LOAD_START <= pc <= R_DECREMENT
  }

  predicate SameLayout(m: Mem, m': Mem) {
    m'.blockSize == m.blockSize && m'.next == m.next && m'.prev == m.prev
  }

  function StartCall(th: Thread, ch: Choice): (th': Thread) {
    match ch
    case CallWrite(bytes) => th.(buf := bytes, pc := W_LOAD_START)
    case CallRead(size, timed) => th.(size := size, timed := timed, again := false, pc := R_LOAD_START)
    case _ => th
  }

  function GetBlockWrite(m: Mem, th: Thread, ch: Choice): (r: View)
    requires MemOk(m) && ThreadOk(m, th) && W_LOAD_START <= th.pc <= W_CLAIM
    ensures MemOk(r.m) && ThreadOk(r.m, r.th)
    ensures r.m == m.(w := m.w.(start := r.m.w.start), avail := r.m.avail)
    ensures r.th.pc <= W_CLAIM || (th.pc == W_CLAIM && m.w.start == th.blk && r.th == th.(pc := W_COPY, k := 0, len := r.th.len))
    ensures r.th.pc == W_WAIT_TEST || r.th.pc == W_WAIT_LOOP ==>
              r.m == m && (th.pc == W_WAIT_TEST || th.pc == W_WAIT_LOOP
                           || (th.pc == W_CHECK_ROOM && m.next[th.blk] == m.r.end))
    ensures r.th.pc == W_CHECK_ROOM ==> th.pc == W_LOAD_START && r.th.blk == m.w.start
    ensures r.th.pc == W_CLAIM ==> th.pc == W_CHECK_ROOM && r.th.blk == th.blk && m.next[th.blk] != m.r.end
    ensures r.th.buf == th.buf && r.th.size == th.size
  {
    if th.pc == W_LOAD_START then View(m, th.(blk := m.w.start, pc := W_CHECK_ROOM))
    else if th.pc == W_CHECK_ROOM then View(m, th.(pc := if m.next[th.blk] == m.r.end then W_WAIT_TEST else W_CLAIM))
    else if th.pc == W_WAIT_TEST then View(m, th.(woke := m.avail, pc := if m.avail then W_WAIT_CLEAR else W_WAIT_LOOP))
    else if th.pc == W_WAIT_LOOP then
      if ch.TimeOut? then View(m, th.(woke := false, pc := W_WAIT_CLEAR))
      else View(m, if m.avail then th.(woke := true, pc := W_WAIT_CLEAR) else th)
    else if th.pc == W_WAIT_CLEAR then
      View(m.(avail := false), if th.woke then th.(pc := W_LOAD_START) else th.(ret := 0, pc := IDLE))
    else // W_CLAIM
      if m.w.start == th.blk then
        View(m.(w := m.w.(start := m.next[th.blk])), th.(len := Min(|th.buf|, m.blockSize), k := 0, pc := W_COPY))
      else View(m, th.(pc := W_LOAD_START))
  }

  /** memcpy byte by byte, then `Amount`. */
  function CopyIn(m: Mem, th: Thread): (r: View)
    requires MemOk(m) && ThreadOk(m, th) && th.pc == W_COPY
    ensures MemOk(r.m) && ThreadOk(r.m, r.th)
    ensures r.m == m.(data := r.m.data, amount := r.m.amount)
    ensures W_COPY <= r.th.pc <= W_SET_DONE
    ensures r.th == th.(pc := r.th.pc, k := r.th.k)
  {
    var b := th.blk;
    if th.k < th.len then
      View(m.(data := m.data[b := m.data[b][th.k := th.buf[th.k]]]), th.(k := th.k + 1))
    else
      View(m.(amount := m.amount[b := th.len]), th.(pc := W_SET_DONE))
  }

  function PostBlock(m: Mem, th: Thread): (r: View)
    requires MemOk(m) && ThreadOk(m, th) && W_SET_DONE <= th.pc <= W_SIGNAL
    ensures MemOk(r.m) && ThreadOk(r.m, r.th)
    ensures r.m == m.(w := m.w.(end := r.m.w.end, done := r.m.w.done), signal := r.m.signal)
    ensures W_LOAD_END <= r.th.pc <= W_INCREMENT
    ensures r.th == th.(pc := r.th.pc, blk := r.th.blk)
    ensures r.th.pc == W_TAKE_FLAG ==> r.m == m && r.th.blk == m.w.end
  {
    var b := th.blk;
    if th.pc == W_SET_DONE then View(m.(w := m.w.(done := m.w.done[b := true])), th.(pc := W_LOAD_END))
    else if th.pc == W_LOAD_END then View(m, th.(blk := m.w.end, pc := W_TAKE_FLAG))
    else if th.pc == W_TAKE_FLAG then
      if m.w.done[b] then View(m.(w := m.w.(done := m.w.done[b := false])), th.(pc := W_MOVE_END))
      else View(m, th.(pc := W_INCREMENT))
    else if th.pc == W_MOVE_END then
      View(if m.w.end == b then m.(w := m.w.(end := m.next[b])) else m, th.(pc := W_TEST_SIGNAL))
    else if th.pc == W_TEST_SIGNAL then View(m, th.(pc := if b == m.r.start then W_SIGNAL else W_LOAD_END))
    else // W_SIGNAL
      View(m.(signal := true), th.(pc := W_LOAD_END))
  }

  function GetBlockRead(m: Mem, th: Thread, ch: Choice): (r: View)
    requires MemOk(m) && ThreadOk(m, th) && R_LOAD_START <= th.pc <= R_CLAIM
    ensures MemOk(r.m) && ThreadOk(r.m, r.th)
    ensures r.m == m.(r := m.r.(start := r.m.r.start), signal := r.m.signal)
    ensures r.th.pc == IDLE || R_LOAD_START <= r.th.pc <= R_GET_AMOUNT
    ensures r.th.pc == R_CHECK_EMPTY ==> th.pc == R_LOAD_START && r.th.blk == m.r.start
    ensures r.th.pc == R_WAIT_TEST || r.th.pc == R_WAIT_LOOP ==>
              r.m == m && (th.pc == R_WAIT_TEST || th.pc == R_WAIT_LOOP || (th.pc == R_CHECK_EMPTY && th.blk == m.w.end))
    ensures r.th.pc == R_CLAIM ==> th.pc == R_CHECK_EMPTY && r.th.blk == th.blk && th.blk != m.w.end
    ensures r.th.size == th.size
  {
    if th.pc == R_LOAD_START then View(m, th.(blk := m.r.start, pc := R_CHECK_EMPTY))
    else if th.pc == R_CHECK_EMPTY then
      if th.blk == m.w.end then View(m, if th.timed then th.(pc := R_WAIT_TEST) else th.(ret := 0, pc := IDLE))
      else View(m, th.(pc := R_CLAIM))
    else if th.pc == R_WAIT_TEST
        then View(m, th.(woke := m.signal, pc := if m.signal then R_WAIT_CLEAR else R_WAIT_LOOP))
    else if th.pc == R_WAIT_LOOP then
      if ch.TimeOut? then View(m, th.(woke := false, pc := R_WAIT_CLEAR))
      else View(m, if m.signal then th.(woke := true, pc := R_WAIT_CLEAR) else th)
    else if th.pc == R_WAIT_CLEAR then
      View(m.(signal := false), if th.woke then th.(pc := R_LOAD_START) else th.(ret := 0, pc := IDLE))
    else // R_CLAIM
      if m.r.start == th.blk then View(m.(r := m.r.(start := m.next[th.blk])), th.(pc := R_GET_AMOUNT))
      else View(m, th.(pc := R_LOAD_START))
  }

  /** The amount test, the `min` and memcpy byte by byte. */
  function CopyOut(m: Mem, th: Thread): (r: View)
    requires MemOk(m) && ThreadOk(m, th) && R_GET_AMOUNT <= th.pc <= R_COPY
    ensures MemOk(r.m) && ThreadOk(r.m, r.th)
    ensures r.m == m
    ensures R_MIN <= r.th.pc <= R_SET_DONE
    ensures r.th.size == th.size && r.th.blk == th.blk
  {
    var b := th.blk;
    if th.pc == R_GET_AMOUNT then View(m, th.(again := m.amount[b] == 0, pc := if m.amount[b] == 0 then R_SET_DONE else R_MIN))
    else if th.pc == R_MIN then View(m, th.(len := Min(m.amount[b], th.size), buf := [], pc := R_COPY))
    else // R_COPY
      View(m, if |th.buf| < th.len then th.(buf := th.buf + [m.data[b][|th.buf|]]) else th.(pc := R_SET_DONE))
  }

  /** The completion loop of `return_block`. */
  function PassBlocks(m: Mem, th: Thread): (r: View)
    requires MemOk(m) && ThreadOk(m, th) && R_LOAD_END <= th.pc <= R_SIGNAL
    ensures MemOk(r.m) && ThreadOk(r.m, r.th)
    ensures r.m == m.(r := m.r.(end := r.m.r.end, done := r.m.r.done), avail := r.m.avail)
    ensures r.th.pc == R_LOAD_START || R_LOAD_END <= r.th.pc <= R_DECREMENT
    ensures r.th == th.(pc := r.th.pc, blk := r.th.blk)
  {
    var b := th.blk;
    if th.pc == R_LOAD_END then View(m, th.(blk := m.r.end, pc := R_TAKE_FLAG))
    else if th.pc == R_TAKE_FLAG then
      if m.r.done[b] then View(m.(r := m.r.(done := m.r.done[b := false])), th.(pc := R_MOVE_END))
      else View(m, th.(pc := if th.again then R_LOAD_START else R_DECREMENT))
    else if th.pc == R_MOVE_END then
      View(if m.r.end == b then m.(r := m.r.(end := m.next[b])) else m, th.(pc := R_TEST_SIGNAL))
    else if th.pc == R_TEST_SIGNAL then View(m, th.(pc := if m.prev[b] == m.w.start then R_SIGNAL else R_LOAD_END))
    else // R_SIGNAL
      View(m.(avail := true), th.(pc := R_LOAD_END))
  }

  function ReturnBlock(m: Mem, th: Thread): (r: View)
    requires MemOk(m) && ThreadOk(m, th) && R_SET_DONE <= th.pc <= R_SIGNAL
    ensures MemOk(r.m) && ThreadOk(r.m, r.th)
    ensures r.m == m.(r := m.r.(end := r.m.r.end, done := r.m.r.done), amount := r.m.amount, avail := r.m.avail)
    ensures r.th.pc == R_LOAD_START || R_CLEAR_AMOUNT <= r.th.pc <= R_DECREMENT
    ensures r.th == th.(pc := r.th.pc, blk := r.th.blk)
  {
    var b := th.blk;
    if th.pc == R_SET_DONE then View(m.(r := m.r.(done := m.r.done[b := true])), th.(pc := R_CLEAR_AMOUNT))
    else if th.pc == R_CLEAR_AMOUNT then View(m.(amount := m.amount[b := 0]), th.(pc := R_LOAD_END))
    else PassBlocks(m, th)
  }

  /** `incrementCount` and `decrementCount` on a 32-bit unsigned counter, and the return of the call. */
  function Return(m: Mem, th: Thread): (r: View)
    requires MemOk(m) && ThreadOk(m, th) && (th.pc == W_INCREMENT || th.pc == R_DECREMENT)
    ensures MemOk(r.m) && ThreadOk(r.m, r.th)
    ensures r.m == m.(count := r.m.count)
    ensures r.th == th.(ret := th.len, pc := IDLE)
  {
    var step := if th.pc == W_INCREMENT then 1 else COUNT_RANGE - 1;
    View(m.(count := (m.count + step) % COUNT_RANGE), th.(ret := th.len, pc := IDLE))
  }

  /** The next atomic statement of thread `th`. */
  function Exec(m: Mem, th: Thread, ch: Choice): (r: View)
    requires MemOk(m) && ThreadOk(m, th)
    ensures MemOk(r.m) && ThreadOk(r.m, r.th) && SameLayout(m, r.m)
  {
    var pc := th.pc;
    if W_LOAD_START <= pc <= W_CLAIM then GetBlockWrite(m, th, ch)
    else if pc == W_COPY then CopyIn(m, th)
    else if W_SET_DONE <= pc <= W_SIGNAL then PostBlock(m, th)
    else if R_LOAD_START <= pc <= R_CLAIM then GetBlockRead(m, th, ch)
    else if R_GET_AMOUNT <= pc <= R_COPY then CopyOut(m, th)
    else if R_SET_DONE <= pc <= R_SIGNAL then ReturnBlock(m, th)
    else if pc == W_INCREMENT || pc == R_DECREMENT then Return(m, th)
    else View(m, StartCall(th, ch))
  }
}
