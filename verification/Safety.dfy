/** The safety invariant over every run, and exactly which steps break it. */
module Safety {
  import opened Slots
  import opened Stage
  import opened Ring
  import opened History

  /** A claim compare-and-swap is about to succeed although the room test of line 297, or the data test of line 361,
      would now fail. */
  ghost predicate Hazard(s: State, x: nat)
    requires Sane(s) && x < |s.ths|
  {
    var m, th := s.m, s.ths[x];
    || (th.pc == W_CLAIM && m.w.start == th.blk && m.next[th.blk] == m.r.end)
    || (th.pc == R_CLAIM && m.r.start == th.blk && th.blk == m.w.end)
  }

  /** In tickets: the ring is full, or empty. */
  lemma HazardInTickets(s: State, x: nat)
    requires Inv(s) && x < |s.ths|
    ensures s.ths[x].pc == W_CLAIM ==>
              (Hazard(s, x) <==> s.m.w.start == s.ths[x].blk && |s.h.w.phase| + 1 == s.h.r.end + |s.m.next|)
    ensures s.ths[x].pc == R_CLAIM ==>
              (Hazard(s, x) <==> s.m.r.start == s.ths[x].blk && |s.h.r.phase| == s.h.w.end)
    ensures s.ths[x].pc != W_CLAIM && s.ths[x].pc != R_CLAIM ==> !Hazard(s, x)
  {
    hide Zones, Flags, Holders;
    var n, ws, re := |s.m.next|, |s.h.w.phase|, s.h.r.end;
    assert s.m.next[s.m.w.start] == Slot(ws + 1, n);
    LapInjective(re, n);
    SlotPeriod(re, n);
  }

  /** Thread x holds a start-cursor value that the cursor has since left by a whole lap or more. */
  ghost predicate Lapped(s: State, x: nat)
    requires Sane(s) && x < |s.ths|
  {
    var th, ld, n := s.ths[x], s.h.ld[x], |s.m.next|;
    || (th.pc == W_CLAIM && ld + n <= |s.h.w.phase|)
    || (th.pc == R_CLAIM && ld + n <= |s.h.r.phase|)
  }

  lemma WriteClaimsAt(ths: seq<Thread>, tk: seq<nat>, x: nat, th: Thread, t: nat)
    requires |tk| == |ths| && x < |ths|
    ensures WriteClaims(ths[x := th], tk[x := t]) == WriteClaims(ths, tk)[x := WriteClaim(th, t)]
    ensures ReadClaims(ths[x := th], tk[x := t]) == ReadClaims(ths, tk)[x := ReadClaim(th, t)]
  {
  }

  lemma StepParts(s: State, x: nat, ch: Choice)
    requires Sane(s) && x < |s.ths|
    ensures Step(s, x, ch) == State(Exec(s.m, s.ths[x], ch).m, s.ths[x := Exec(s.m, s.ths[x], ch).th], Record(s, x))
  {
    hide Exec, Record, MemOk, ThreadOk;
  }

  /** The claims after the step, whatever the step was. */
  lemma ClaimsAfter(s: State, x: nat, ch: Choice)
    requires Sane(s) && x < |s.ths|
    ensures var s' := Step(s, x, ch);
      && WriteClaims(s'.ths, s'.h.tk) == WriteClaims(s.ths, s.h.tk)[x := WriteClaim(s'.ths[x], s'.h.tk[x])]
      && ReadClaims(s'.ths, s'.h.tk) == ReadClaims(s.ths, s.h.tk)[x := ReadClaim(s'.ths[x], s'.h.tk[x])]
  {
    var s' := Step(s, x, ch);
    assert s'.h.tk == s.h.tk[x := s'.h.tk[x]];
    WriteClaimsAt(s.ths, s.h.tk, x, s'.ths[x], s'.h.tk[x]);
  }

  /** The statements that touch neither a cursor nor a flag. */
  predicate Quiet(m: Mem, th: Thread)
    requires th.blk < |m.w.done| && th.blk < |m.r.done|
  {
    && !(th.pc == W_CLAIM && m.w.start == th.blk)
    && !(th.pc == R_CLAIM && m.r.start == th.blk)
    && th.pc != W_SET_DONE && th.pc != R_SET_DONE && th.pc != W_MOVE_END && th.pc != R_MOVE_END
    && !(th.pc == W_TAKE_FLAG && m.w.done[th.blk])
    && !(th.pc == R_TAKE_FLAG && m.r.done[th.blk])
  }

  // ----- effects: what each kind of statement does to cursors, flags and tickets

  lemma QuietMem(m: Mem, th: Thread, ch: Choice)
    requires MemOk(m) && ThreadOk(m, th) && Quiet(m, th)
    ensures Exec(m, th, ch).m.w == m.w && Exec(m, th, ch).m.r == m.r
  {
    hide MemOk, ThreadOk, CopyIn, CopyOut, Return;
  }

  lemma QuietEffect(s: State, x: nat, ch: Choice)
    requires Sane(s) && x < |s.ths| && Quiet(s.m, s.ths[x])
    ensures var s' := Step(s, x, ch);
      s'.m.w == s.m.w && s'.m.r == s.m.r && s'.h.w == s.h.w && s'.h.r == s.h.r && s'.h.tk == s.h.tk
  {
    QuietMem(s.m, s.ths[x], ch);
    hide Exec, MemOk, ThreadOk;
  }

  lemma QuietWrite(m: Mem, th: Thread, ch: Choice, t: nat)
    requires MemOk(m) && ThreadOk(m, th) && Quiet(m, th) && !InRead(th.pc)
    ensures var th' := Exec(m, th, ch).th;
      && (WriteClaim(th, t) == WriteClaim(th', t) || (!WriteClaim(th, t).Holds() && !WriteClaim(th', t).Holds()))
      && !ReadClaim(th, t).Holds() && !ReadClaim(th', t).Holds()
  {
    hide MemOk, ThreadOk, GetBlockRead, CopyOut, ReturnBlock, Return;
  }

  lemma QuietRead(m: Mem, th: Thread, ch: Choice, t: nat)
    requires MemOk(m) && ThreadOk(m, th) && Quiet(m, th) && InRead(th.pc)
    ensures var th' := Exec(m, th, ch).th;
      && (ReadClaim(th, t) == ReadClaim(th', t) || (!ReadClaim(th, t).Holds() && !ReadClaim(th', t).Holds()))
      && !WriteClaim(th, t).Holds() && !WriteClaim(th', t).Holds()
  {
    hide MemOk, ThreadOk, GetBlockWrite, CopyIn, PostBlock, Return;
  }

  lemma ClaimEffect(s: State, x: nat, ch: Choice)
    requires Sane(s) && x < |s.ths|
    ensures var s', th, h := Step(s, x, ch), s.ths[x], s.h;
      && (th.pc == W_CLAIM && s.m.w.start == th.blk ==>
          && s'.m.w == s.m.w.(start := s.m.next[th.blk]) && s'.h.w == Enter(h.w, x) && s'.m.r == s.m.r && s'.h.r == h.r
          && s'.h.tk == h.tk[x := |h.w.phase|] && s'.ths[x].pc == W_COPY && s'.ths[x].blk == th.blk)
      && (th.pc == R_CLAIM && s.m.r.start == th.blk ==>
          && s'.m.r == s.m.r.(start := s.m.next[th.blk]) && s'.h.r == Enter(h.r, x) && s'.m.w == s.m.w && s'.h.w == h.w
          && s'.h.tk == h.tk[x := |h.r.phase|] && s'.ths[x].pc == R_GET_AMOUNT && s'.ths[x].blk == th.blk)
  {
  }

  lemma DoneEffect(s: State, x: nat, ch: Choice)
    requires Sane(s) && x < |s.ths|
    ensures var s', th, h := Step(s, x, ch), s.ths[x], s.h;
      && (th.pc == W_SET_DONE ==>
          && s'.m.w == s.m.w.(done := s.m.w.done[th.blk := true]) && s'.h.w == Put(h.w, h.tk[x], Done)
          && s'.m.r == s.m.r && s'.h.r == h.r && s'.h.tk == h.tk && s'.ths[x].pc == W_LOAD_END)
      && (th.pc == R_SET_DONE ==>
          && s'.m.r == s.m.r.(done := s.m.r.done[th.blk := true]) && s'.h.r == Put(h.r, h.tk[x], Done)
          && s'.m.w == s.m.w && s'.h.w == h.w && s'.h.tk == h.tk && s'.ths[x].pc == R_CLEAR_AMOUNT)
  {
  }

  lemma TakeEffect(s: State, x: nat, ch: Choice)
    requires Sane(s) && x < |s.ths|
    ensures var s', th, h, n := Step(s, x, ch), s.ths[x], s.h, |s.m.next|;
      && (th.pc == W_TAKE_FLAG && s.m.w.done[th.blk] ==> var t := TicketAt(h.w.end, th.blk, n);
          && s'.m.w == s.m.w.(done := s.m.w.done[th.blk := false]) && s'.h.w == Put(h.w, t, Moving(x))
          && s'.m.r == s.m.r && s'.h.r == h.r && s'.h.tk == h.tk[x := t]
          && s'.ths[x].pc == W_MOVE_END && s'.ths[x].blk == th.blk)
      && (th.pc == R_TAKE_FLAG && s.m.r.done[th.blk] ==> var t := TicketAt(h.r.end, th.blk, n);
          && s'.m.r == s.m.r.(done := s.m.r.done[th.blk := false]) && s'.h.r == Put(h.r, t, Moving(x))
          && s'.m.w == s.m.w && s'.h.w == h.w && s'.h.tk == h.tk[x := t]
          && s'.ths[x].pc == R_MOVE_END && s'.ths[x].blk == th.blk)
  {
  }

  lemma MoveEffect(s: State, x: nat, ch: Choice)
    requires Sane(s) && x < |s.ths|
    ensures var s', th, h := Step(s, x, ch), s.ths[x], s.h;
      && (th.pc == W_MOVE_END ==>
          && s'.m.w == (if s.m.w.end == th.blk then s.m.w.(end := s.m.next[th.blk]) else s.m.w)
          && s'.h.w == Finish(h.w, h.tk[x], s.m.w.end == th.blk)
          && s'.m.r == s.m.r && s'.h.r == h.r && s'.h.tk == h.tk
          && s'.ths[x].pc == W_TEST_SIGNAL && s'.ths[x].blk == th.blk)
      && (th.pc == R_MOVE_END ==>
          && s'.m.r == (if s.m.r.end == th.blk then s.m.r.(end := s.m.next[th.blk]) else s.m.r)
          && s'.h.r == Finish(h.r, h.tk[x], s.m.r.end == th.blk)
          && s'.m.w == s.m.w && s'.h.w == h.w && s'.h.tk == h.tk
          && s'.ths[x].pc == R_TEST_SIGNAL && s'.ths[x].blk == th.blk)
  {
  }

  /** What leads a thread to its room test and to its claim. */
  lemma AwareWrite(m: Mem, th: Thread, ch: Choice)
    requires MemOk(m) && ThreadOk(m, th) && !InRead(th.pc)
    ensures var th' := Exec(m, th, ch).th;
      && (!InRead(th'.pc) || th'.pc == R_LOAD_START)
      && (th'.pc == W_CHECK_ROOM ==> th.pc == W_LOAD_START && th'.blk == m.w.start)
      && (th'.pc == W_CLAIM ==> th.pc == W_CHECK_ROOM && th'.blk == th.blk && m.next[th.blk] != m.r.end)
  {
    hide MemOk, ThreadOk, GetBlockWrite, CopyIn, PostBlock, Return;
  }

  lemma AwareRead(m: Mem, th: Thread, ch: Choice)
    requires MemOk(m) && ThreadOk(m, th) && InRead(th.pc)
    ensures var th' := Exec(m, th, ch).th;
      && (InRead(th'.pc) || th'.pc == IDLE)
      && (th'.pc == R_CHECK_EMPTY ==> th.pc == R_LOAD_START && th'.blk == m.r.start)
      && (th'.pc == R_CLAIM ==> th.pc == R_CHECK_EMPTY && th'.blk == th.blk && th.blk != m.w.end)
  {
    hide MemOk, ThreadOk, GetBlockRead, CopyOut, ReturnBlock, Return;
  }

  lemma LoadRecord(s: State, x: nat)
    requires Sane(s) && x < |s.ths|
    ensures Record(s, x).ld == s.h.ld[x := if s.ths[x].pc == W_LOAD_START then |s.h.w.phase|
                                           else if s.ths[x].pc == R_LOAD_START then |s.h.r.phase| else s.h.ld[x]]
  {
  }

  // ----- stages, window and awareness after a step

  lemma QuietStages(s: State, x: nat, ch: Choice)
    requires Inv(s) && x < |s.ths| && Quiet(s.m, s.ths[x])
    ensures var s' := Step(s, x, ch);
      && StageInv(|s'.m.next|, s'.m.w, s'.h.w, WriteClaims(s'.ths, s'.h.tk))
      && StageInv(|s'.m.next|, s'.m.r, s'.h.r, ReadClaims(s'.ths, s'.h.tk))
  {
    var s' := Step(s, x, ch);
    QuietEffect(s, x, ch);
    if InRead(s.ths[x].pc) { QuietRead(s.m, s.ths[x], ch, s.h.tk[x]); } else { QuietWrite(s.m, s.ths[x], ch, s.h.tk[x]); }
    assert s'.ths[x] == Exec(s.m, s.ths[x], ch).th;
    ClaimsAfter(s, x, ch);
    hide Step, Exec, Record, Shape, Zones, Flags, Holders;
    var cw, cr := WriteClaims(s.ths, s.h.tk), ReadClaims(s.ths, s.h.tk);
    var w, r := WriteClaim(s'.ths[x], s'.h.tk[x]), ReadClaim(s'.ths[x], s'.h.tk[x]);
    if cw[x] == w { assert cw[x := w] == cw; } else { RelabelKeeps(|s.m.next|, s.m.w, s.h.w, cw, x, w); }
    if cr[x] == r { assert cr[x := r] == cr; } else { RelabelKeeps(|s.m.next|, s.m.r, s.h.r, cr, x, r); }
  }

  lemma WriteStages(s: State, x: nat, ch: Choice)
    requires Inv(s) && x < |s.ths| && !Hazard(s, x) && !Quiet(s.m, s.ths[x]) && InWrite(s.ths[x].pc)
    ensures var s' := Step(s, x, ch);
      && StageInv(|s'.m.next|, s'.m.w, s'.h.w, WriteClaims(s'.ths, s'.h.tk))
      && StageInv(|s'.m.next|, s'.m.r, s'.h.r, ReadClaims(s'.ths, s'.h.tk))
  {
    hide Step, Shape, Zones, Flags, Holders;
    var cw, cr, n, th := WriteClaims(s.ths, s.h.tk), ReadClaims(s.ths, s.h.tk), |s.m.next|, s.ths[x];
    ClaimsAfter(s, x, ch);
    assert cr[x := Free] == cr;
    HazardInTickets(s, x);
    if th.pc == W_CLAIM {
      ClaimEffect(s, x, ch);
      EnterKeeps(n, s.m.w, s.h.w, cw, x);
    } else if th.pc == W_SET_DONE {
      DoneEffect(s, x, ch);
      DoneKeeps(n, s.m.w, s.h.w, cw, x);
    } else if th.pc == W_TAKE_FLAG {
      TakeEffect(s, x, ch);
      TakeKeeps(n, s.m.w, s.h.w, cw, x, th.blk);
    } else {
      MoveEffect(s, x, ch);
      MoveKeeps(n, s.m.w, s.h.w, cw, x);
    }
  }

  lemma ReadStages(s: State, x: nat, ch: Choice)
    requires Inv(s) && x < |s.ths| && !Hazard(s, x) && !Quiet(s.m, s.ths[x]) && InRead(s.ths[x].pc)
    ensures var s' := Step(s, x, ch);
      && StageInv(|s'.m.next|, s'.m.w, s'.h.w, WriteClaims(s'.ths, s'.h.tk))
      && StageInv(|s'.m.next|, s'.m.r, s'.h.r, ReadClaims(s'.ths, s'.h.tk))
  {
    hide Step, Shape, Zones, Flags, Holders;
    var cw, cr, n, th := WriteClaims(s.ths, s.h.tk), ReadClaims(s.ths, s.h.tk), |s.m.next|, s.ths[x];
    ClaimsAfter(s, x, ch);
    assert cw[x := Free] == cw;
    HazardInTickets(s, x);
    if th.pc == R_CLAIM {
      ClaimEffect(s, x, ch);
      EnterKeeps(n, s.m.r, s.h.r, cr, x);
    } else if th.pc == R_SET_DONE {
      DoneEffect(s, x, ch);
      DoneKeeps(n, s.m.r, s.h.r, cr, x);
    } else if th.pc == R_TAKE_FLAG {
      TakeEffect(s, x, ch);
      TakeKeeps(n, s.m.r, s.h.r, cr, x, th.blk);
    } else {
      MoveEffect(s, x, ch);
      MoveKeeps(n, s.m.r, s.h.r, cr, x);
    }
  }

  /** Cursors only advance, by at most one ticket a step, and stay in their window. */
  lemma WindowKeeps(s: State, x: nat, ch: Choice)
    requires Inv(s) && x < |s.ths| && !Hazard(s, x)
    ensures var s' := Step(s, x, ch);
      && Window(s')
      && s.h.r.end <= s'.h.r.end <= s.h.r.end + 1 && |s.h.r.phase| <= |s'.h.r.phase| <= |s.h.r.phase| + 1
      && s.h.w.end <= s'.h.w.end <= s.h.w.end + 1 && |s.h.w.phase| <= |s'.h.w.phase| <= |s.h.w.phase| + 1
  {
    hide Step, Zones, Flags, Holders;
    var n, th := |s.m.next|, s.ths[x];
    HazardInTickets(s, x);
    if Quiet(s.m, th) {
      QuietEffect(s, x, ch);
    } else {
      ClaimEffect(s, x, ch);
      DoneEffect(s, x, ch);
      TakeEffect(s, x, ch);
      MoveEffect(s, x, ch);
      if th.pc == W_MOVE_END { MoveKeeps(n, s.m.w, s.h.w, WriteClaims(s.ths, s.h.tk), x); }
      if th.pc == R_MOVE_END { MoveKeeps(n, s.m.r, s.h.r, ReadClaims(s.ths, s.h.tk), x); }
    }
  }

  lemma AwareKeeps(s: State, x: nat, ch: Choice, y: nat)
    requires Inv(s) && x < |s.ths| && !Hazard(s, x) && y < |s.ths|
    ensures Aware(Step(s, x, ch), y)
  {
    hide Step, Exec, Record, Zones, Flags, Holders;
    var s', n, th := Step(s, x, ch), |s.m.next|, s.ths[x];
    WindowKeeps(s, x, ch);
    if InRead(th.pc) { AwareRead(s.m, th, ch); } else { AwareWrite(s.m, th, ch); }
    LoadRecord(s, x);
    StepParts(s, x, ch);
    assert Aware(s, y);
    if x == y && s'.ths[x].pc == W_CLAIM && s.h.ld[x] + 1 == s.h.r.end + n {
      SlotPeriod(s.h.r.end, n);
    }
    if x == y && (th.pc == W_LOAD_START || th.pc == R_LOAD_START || th.pc == R_CHECK_EMPTY || th.pc == W_CHECK_ROOM) {
      QuietEffect(s, x, ch);
    }
  }

  /** The safety theorem, one step: the invariant is kept by every statement of every thread except a claim that
      succeeds on a full or an empty ring, and such a claim always breaks the window. */
  lemma StepKeeps(s: State, x: nat, ch: Choice)
    requires Inv(s) && x < |s.ths|
    ensures Inv(Step(s, x, ch)) <==> !Hazard(s, x)
    ensures Window(Step(s, x, ch)) <==> !Hazard(s, x)
  {
    hide Step, StageInv, Aware;
    if Hazard(s, x) {
      HazardInTickets(s, x);
      ClaimEffect(s, x, ch);
      assert !Window(Step(s, x, ch));
    } else {
      if Quiet(s.m, s.ths[x]) {
        QuietStages(s, x, ch);
      } else if InWrite(s.ths[x].pc) {
        WriteStages(s, x, ch);
      } else {
        ReadStages(s, x, ch);
      }
      WindowKeeps(s, x, ch);
      forall y | 0 <= y < |s.ths|
        ensures Aware(Step(s, x, ch), y)
      {
        AwareKeeps(s, x, ch, y);
      }
    }
  }

  /** A claim can only go wrong when the thread was asleep between its load and its compare-and-swap while the
      start cursor went round at least once. */
  lemma HazardNeedsLap(s: State, x: nat)
    requires Inv(s) && x < |s.ths| && Hazard(s, x)
    ensures Lapped(s, x)
  {
    HazardInTickets(s, x);
    assert Aware(s, x);
    SameSlotLap(s.h.ld[x], if s.ths[x].pc == W_CLAIM then |s.h.w.phase| else |s.h.r.phase|, |s.m.next|);
  }

  /** While the loaded value is less than a lap old, comparing indices is comparing tickets. */
  lemma ClaimComparesTickets(s: State, x: nat)
    requires Inv(s) && x < |s.ths| && !Lapped(s, x)
    ensures s.ths[x].pc == W_CLAIM ==> (s.m.w.start == s.ths[x].blk <==> |s.h.w.phase| == s.h.ld[x])
    ensures s.ths[x].pc == R_CLAIM ==> (s.m.r.start == s.ths[x].blk <==> |s.h.r.phase| == s.h.ld[x])
  {
    var ld, n := s.h.ld[x], |s.m.next|;
    assert Aware(s, x);
    if s.ths[x].pc == W_CLAIM && s.m.w.start == s.ths[x].blk { SameSlotLap(ld, |s.h.w.phase|, n); }
    if s.ths[x].pc == R_CLAIM && s.m.r.start == s.ths[x].blk { SameSlotLap(ld, |s.h.r.phase|, n); }
  }

  /** A claim that fails has lost its block to a claim made since the load: somebody always gets through. */
  lemma FailedClaimLostRace(s: State, x: nat)
    requires Inv(s) && x < |s.ths|
    ensures s.ths[x].pc == W_CLAIM && s.m.w.start != s.ths[x].blk ==> s.h.ld[x] < |s.h.w.phase|
    ensures s.ths[x].pc == R_CLAIM && s.m.r.start != s.ths[x].blk ==> s.h.ld[x] < |s.h.r.phase|
  {
    hide Zones, Flags, Holders;
    assert Aware(s, x);
  }

  // ----- whole runs

  /** No step of the run is a claim on a full or empty ring. */
  ghost predicate Clean(s: State, sched: Schedule)
    requires Sane(s) && Runs(sched, |s.ths|)
    decreases |sched|
  {
    sched == [] || (var i := |sched| - 1; Clean(s, sched[..i]) && !Hazard(Run(s, sched[..i]), sched[i].0))
  }

  /** No step of the run is a claim with a value that is a lap old: the assumption the program relies on. */
  ghost predicate Prompt(s: State, sched: Schedule)
    requires Sane(s) && Runs(sched, |s.ths|)
    decreases |sched|
  {
    sched == [] || (var i := |sched| - 1; Prompt(s, sched[..i]) && !Lapped(Run(s, sched[..i]), sched[i].0))
  }

  /** The invariant holds in every state of the run. */
  ghost predicate Always(s: State, sched: Schedule)
    requires Sane(s) && Runs(sched, |s.ths|)
    decreases |sched|
  {
    Inv(Run(s, sched)) && (sched == [] || Always(s, sched[..|sched| - 1]))
  }

  /** Safety over every run: the invariant holds throughout if and only if the run is clean. */
  lemma {:induction false} RunKeeps(s: State, sched: Schedule)
    requires Inv(s) && Runs(sched, |s.ths|)
    ensures Always(s, sched) <==> Clean(s, sched)
    decreases |sched|
  {
    hide Step;
    if sched == [] {
    } else {
      var k := |sched| - 1;
      RunKeeps(s, sched[..k]);
      if Clean(s, sched[..k]) {
        StepKeeps(Run(s, sched[..k]), sched[k].0, sched[k].1);
      }
    }
  }

  lemma {:induction false} PromptIsClean(s: State, sched: Schedule)
    requires Inv(s) && Runs(sched, |s.ths|) && Prompt(s, sched)
    ensures Clean(s, sched) && Inv(Run(s, sched))
    decreases |sched|
  {
    hide Step;
    if sched == [] {
    } else {
      var k := |sched| - 1;
      PromptIsClean(s, sched[..k]);
      var s1 := Run(s, sched[..k]);
      if Hazard(s1, sched[k].0) { HazardNeedsLap(s1, sched[k].0); }
      StepKeeps(s1, sched[k].0, sched[k].1);
    }
  }
}
