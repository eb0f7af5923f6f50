/** Whole-system states: shared memory, all threads, and a history kept for the proof.

    The history never influences the code: `Step` computes memory and thread from `Exec` alone. */
module History {
  import opened Slots
  import opened Stage
  import opened Ring

  /** Tickets and messages.  The lists `tk`, `ld` and `sent` have one entry per thread. */
  datatype Hist = Hist(
    w: Track, r: Track,
    tk: seq<nat>,          // the ticket the thread works on
    ld: seq<nat>,          // the start-cursor ticket the thread last loaded
    msgs: seq<Msg>,        // per write ticket: the message, cut to the block size
    from: seq<nat>,          // per write ticket: its producer
    sent: seq<seq<Msg>>,   // messages of the thread's completed writes, oldest first
    writes: nat,           // completed writes
    out: seq<Msg>,         // what completed reads returned, oldest first
    sizes: seq<nat>)       // their buffer sizes

  datatype State = State(m: Mem, ths: seq<Thread>, h: Hist)

  function Cut(b: Msg, size: nat): Msg {
    b[..Min(|b|, size)]
  }

  /** The history after thread x has executed its next statement. */
  function Record(s: State, x: nat): Hist
    requires x < |s.ths| && s.ths[x].blk < |s.m.next|
    requires |s.h.tk| == |s.h.ld| == |s.h.sent| == |s.ths|
    requires |s.m.w.done| == |s.m.r.done| == |s.m.next|
  {
    var m, th, h, n := s.m, s.ths[x], s.h, |s.m.next|;
    if th.pc == W_LOAD_START then h.(ld := h.ld[x := |h.w.phase|])
    else if th.pc == R_LOAD_START then h.(ld := h.ld[x := |h.r.phase|])
    else if th.pc == W_CLAIM then
      if m.w.start != th.blk then h else
      h.(tk := h.tk[x := |h.w.phase|], w := Enter(h.w, x), msgs := h.msgs + [Cut(th.buf, m.blockSize)], from := h.from + [x])
    else if th.pc == R_CLAIM then
      if m.r.start != th.blk then h else
      h.(tk := h.tk[x := |h.r.phase|], r := Enter(h.r, x))
    else if th.pc == W_SET_DONE then h.(w := Put(h.w, h.tk[x], Done))
    else if th.pc == R_SET_DONE then h.(r := Put(h.r, h.tk[x], Done))
    else if th.pc == W_TAKE_FLAG then
      if !m.w.done[th.blk] then h else
      var t := TicketAt(h.w.end, th.blk, n);
      h.(tk := h.tk[x := t], w := Put(h.w, t, Moving(x)))
    else if th.pc == R_TAKE_FLAG then
      if !m.r.done[th.blk] then h else
      var t := TicketAt(h.r.end, th.blk, n);
      h.(tk := h.tk[x := t], r := Put(h.r, t, Moving(x)))
    else if th.pc == W_MOVE_END then h.(w := Finish(h.w, h.tk[x], m.w.end == th.blk))
    else if th.pc == R_MOVE_END then h.(r := Finish(h.r, h.tk[x], m.r.end == th.blk))
    else if th.pc == W_INCREMENT then
      h.(sent := h.sent[x := h.sent[x] + [Cut(th.buf, m.blockSize)]], writes := h.writes + 1)
    else if th.pc == R_DECREMENT then h.(out := h.out + [th.buf], sizes := h.sizes + [th.size])
    else h
  }

  /** Everything has the right length and every index is in range. */
  ghost predicate Sane(s: State) {
    && MemOk(s.m)
    && |s.h.tk| == |s.h.ld| == |s.h.sent| == |s.ths|
    && (forall x :: 0 <= x < |s.ths| ==> ThreadOk(s.m, s.ths[x]))
  }

  /** Thread x executes one atomic statement. */
  function Step(s: State, x: nat, ch: Choice): (s': State)
    requires Sane(s) && x < |s.ths|
    ensures Sane(s') && |s'.ths| == |s.ths|
    ensures s'.m.blockSize == s.m.blockSize && s'.m.next == s.m.next && s'.m.prev == s.m.prev
  {
    var View(m', th') := Exec(s.m, s.ths[x], ch);
    assert forall y :: 0 <= y < |s.ths| ==> ThreadOk(s.m, s.ths[y]) && ThreadOk(m', s.ths[y]);
    State(m', s.ths[x := th'], Record(s, x))
  }

  /** A schedule: which thread runs next, and the environment's choice. */
  type Schedule = seq<(nat, Choice)>

  ghost predicate Runs(sched: Schedule, threads: nat) {
    forall i :: 0 <= i < |sched| ==> sched[i].0 < threads
  }

  ghost function Run(s: State, sched: Schedule): (s': State)
    requires Sane(s) && Runs(sched, |s.ths|)
    ensures Sane(s') && |s'.ths| == |s.ths|
    ensures s'.m.blockSize == s.m.blockSize && s'.m.next == s.m.next && s'.m.prev == s.m.prev
    decreases |sched|
  {
    if sched == [] then s else Step(Run(s, sched[..|sched| - 1]), sched[|sched| - 1].0, sched[|sched| - 1].1)
  }

  // ----- what each thread does in each stage

  function WriteClaim(th: Thread, tk: nat): Claim {
    if th.pc == W_COPY || th.pc == W_SET_DONE then Owns(tk, th.blk)
    else if th.pc == W_LOAD_END || th.pc == W_TEST_SIGNAL || th.pc == W_SIGNAL then Looking
    else if th.pc == W_TAKE_FLAG then Loaded(th.blk)
    else if th.pc == W_MOVE_END then Moves(tk, th.blk)
    else Free
  }

  function ReadClaim(th: Thread, tk: nat): Claim {
    if th.pc == R_GET_AMOUNT || th.pc == R_MIN || th.pc == R_COPY || th.pc == R_SET_DONE then Owns(tk, th.blk)
    else if th.pc == R_CLEAR_AMOUNT || th.pc == R_LOAD_END || th.pc == R_TEST_SIGNAL || th.pc == R_SIGNAL then Looking
    else if th.pc == R_TAKE_FLAG then Loaded(th.blk)
    else if th.pc == R_MOVE_END then Moves(tk, th.blk)
    else Free
  }

  ghost function WriteClaims(ths: seq<Thread>, tk: seq<nat>): (cl: seq<Claim>)
    requires |tk| == |ths|
    ensures |cl| == |ths| && forall x {:trigger cl[x]} {:trigger ths[x]} :: 0 <= x < |ths| ==>
        cl[x] == WriteClaim(ths[x], tk[x])
  {
    seq(|ths|, x requires 0 <= x < |ths| => WriteClaim(ths[x], tk[x]))
  }

  ghost function ReadClaims(ths: seq<Thread>, tk: seq<nat>): (cl: seq<Claim>)
    requires |tk| == |ths|
    ensures |cl| == |ths| && forall x {:trigger cl[x]} {:trigger ths[x]} :: 0 <= x < |ths| ==>
        cl[x] == ReadClaim(ths[x], tk[x])
  {
    seq(|ths|, x requires 0 <= x < |ths| => ReadClaim(ths[x], tk[x]))
  }

  // ----- the safety invariant

  /** re <= rs <= we <= ws <= re + N - 1. */
  ghost predicate Window(s: State) {
    && s.h.r.end <= |s.h.r.phase| <= s.h.w.end <= |s.h.w.phase|
    && |s.h.w.phase| < s.h.r.end + |s.m.next|
  }

  /** What a thread that is about to claim knows from its loads and its room test. */
  ghost predicate Aware(s: State, x: nat)
    requires x < |s.ths| == |s.h.ld| && |s.m.next| > 0
  {
    var th, ld, n := s.ths[x], s.h.ld[x], |s.m.next|;
    && (th.pc == W_CHECK_ROOM || th.pc == W_CLAIM ==> ld <= |s.h.w.phase| && th.blk == Slot(ld, n))
    && (th.pc == W_CLAIM && ld == |s.h.w.phase| ==> ld + 1 < s.h.r.end + n)
    && (th.pc == R_CHECK_EMPTY || th.pc == R_CLAIM ==> ld <= |s.h.r.phase| && th.blk == Slot(ld, n))
    && (th.pc == R_CLAIM && ld == |s.h.r.phase| ==> ld < s.h.w.end)
  }

  ghost predicate Inv(s: State) {
    && Sane(s)
    && StageInv(|s.m.next|, s.m.w, s.h.w, WriteClaims(s.ths, s.h.tk))
    && StageInv(|s.m.next|, s.m.r, s.h.r, ReadClaims(s.ths, s.h.tk))
    && Window(s)
    && (forall x :: 0 <= x < |s.ths| ==> Aware(s, x))
  }

  /** Shared memory as `create` leaves it. */
  ghost predicate StartMem(m: Mem) {
    && MemOk(m)
    && m.w.start == 0 && m.w.end == 0 && m.r.start == 0 && m.r.end == 0
    && (forall i :: 0 <= i < |m.next| ==> !m.w.done[i] && !m.r.done[i] && m.amount[i] == 0)
    && m.count == 0 && !m.signal && !m.avail
  }

  /** A newly created ring with any number of idle threads. */
  ghost predicate Init(s: State) {
    && Sane(s) && StartMem(s.m)
    && (forall x :: 0 <= x < |s.ths| ==> s.ths[x].pc == IDLE && s.h.sent[x] == [])
    && s.h.w == Track(0, []) && s.h.r == Track(0, [])
    && s.h.msgs == [] && s.h.from == [] && s.h.out == [] && s.h.sizes == [] && s.h.writes == 0
  }

  /** Memory and idle threads, with an empty history. */
  ghost function StartState(m: Mem, ths: seq<Thread>): State {
    State(m, ths, Hist(Track(0, []), Track(0, []), seq(|ths|, _ => 0), seq(|ths|, _ => 0), [], [],
                       seq(|ths|, _ => []), 0, [], []))
  }

  lemma InitInv(s: State)
    requires Init(s)
    ensures Inv(s)
  {
  }
}
