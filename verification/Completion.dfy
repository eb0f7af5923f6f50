/** No stranded block: when may a finished block be left behind by the end cursor? */
module Completion {
  import opened Slots
  import opened Stage
  import opened Ring
  import opened History
  import opened Safety
  import opened Payload

  /** The compare-and-swap on an end cursor is about to fail: its thread has taken the flag of a block the cursor is not
      at.  `write` selects the side. */
  predicate FailedMove(m: Mem, th: Thread, write: bool) {
    if write then th.pc == W_MOVE_END && m.w.end != th.blk else th.pc == R_MOVE_END && m.r.end != th.blk
  }

  function TrackOf(h: Hist, write: bool): Track {
    if write then h.w else h.r
  }

  ghost predicate Attended(s: State)
    requires Sane(s)
  {
    && Helped(s.m.w, s.h.w, WriteClaims(s.ths, s.h.tk))
    && Helped(s.m.r, s.h.r, ReadClaims(s.ths, s.h.tk))
  }

  lemma InitAttended(s: State)
    requires Init(s)
    ensures Inv(s) && Attended(s) && NoneLost(s.h.w) && NoneLost(s.h.r)
  {
    InitInv(s);
  }

  /** One step: a ticket gets lost exactly when the compare-and-swap on its end cursor fails, and stays lost. */
  lemma LossExactly(s: State, x: nat, ch: Choice, write: bool)
    requires Inv(s) && x < |s.ths| && !Hazard(s, x)
    ensures var k, k' := TrackOf(s.h, write), TrackOf(Step(s, x, ch).h, write);
      NoneLost(k') <==> NoneLost(k) && !FailedMove(s.m, s.ths[x], write)
  {
    hide Step, Shape, Flags, Holders, Window, Aware;
    var n, th, cw, cr := |s.m.next|, s.ths[x], WriteClaims(s.ths, s.h.tk), ReadClaims(s.ths, s.h.tk);
    QuietOrNot(s, x, ch);
    if NoneLost(TrackOf(s.h, write)) {
      if th.pc == W_MOVE_END && write { MoveLoses(n, s.m.w, s.h.w, cw, x); }
      if th.pc == R_MOVE_END && !write { MoveLoses(n, s.m.r, s.h.r, cr, x); }
    } else {
      var t :| TrackOf(s.h, write).end <= t < |TrackOf(s.h, write).phase| && TrackOf(s.h, write).phase[t] == Lost;
      LostStays(s, x, ch, t);
    }
  }

  ghost predicate Strands(k: Track, t: nat) {
    k.end <= t < |k.phase| && k.phase[t] == Lost
  }

  lemma LostStays(s: State, x: nat, ch: Choice, t: nat)
    requires Inv(s) && x < |s.ths| && !Hazard(s, x)
    ensures Strands(s.h.w, t) ==> Strands(Step(s, x, ch).h.w, t)
    ensures Strands(s.h.r, t) ==> Strands(Step(s, x, ch).h.r, t)
  {
    hide Step, Shape, Flags, Holders;
    StepKeeps(s, x, ch);
    TicketLife(s, x, ch, t);
  }

  /** What a quiet statement does to the completion loops. */
  lemma LoopWrite(m: Mem, th: Thread, ch: Choice, t: nat)
    requires MemOk(m) && ThreadOk(m, th) && Quiet(m, th) && !InRead(th.pc)
    ensures var th' := Exec(m, th, ch).th; var c, c' := WriteClaim(th, t), WriteClaim(th', t);
      && (Helps(m.w, c) ==> Helps(m.w, c') || (c == Loaded(m.w.end) && !m.w.done[m.w.end]))
      && ReadClaim(th, t) == Free && ReadClaim(th', t) == Free
  {
    hide MemOk, ThreadOk, GetBlockWrite, CopyIn, Return;
  }

  lemma LoopRead(m: Mem, th: Thread, ch: Choice, t: nat)
    requires MemOk(m) && ThreadOk(m, th) && Quiet(m, th) && InRead(th.pc)
    ensures var th' := Exec(m, th, ch).th; var c, c' := ReadClaim(th, t), ReadClaim(th', t);
      && (Helps(m.r, c) ==> Helps(m.r, c') || (c == Loaded(m.r.end) && !m.r.done[m.r.end]))
      && WriteClaim(th, t) == Free && WriteClaim(th', t) == Free
  {
    hide MemOk, ThreadOk, GetBlockRead, CopyOut, Return;
  }

  lemma AttendedQuiet(s: State, x: nat, ch: Choice)
    requires Inv(s) && Attended(s) && x < |s.ths| && Quiet(s.m, s.ths[x])
    ensures Attended(Step(s, x, ch))
  {
    var s', n, th, tk := Step(s, x, ch), |s.m.next|, s.ths[x], s.h.tk[x];
    var cw, cr := WriteClaims(s.ths, s.h.tk), ReadClaims(s.ths, s.h.tk);
    ClaimsAfter(s, x, ch);
    QuietEffect(s, x, ch);
    assert s'.ths[x] == Exec(s.m, th, ch).th;
    if InRead(th.pc) { LoopRead(s.m, th, ch, tk); } else { LoopWrite(s.m, th, ch, tk); }
    hide Step, Exec, StageInv, Helped;
    RelabelHelped(n, s.m.w, s.h.w, cw, x, WriteClaim(s'.ths[x], tk));
    RelabelHelped(n, s.m.r, s.h.r, cr, x, ReadClaim(s'.ths[x], tk));
  }

  lemma AttendedWrite(s: State, x: nat, ch: Choice)
    requires Inv(s) && Attended(s) && x < |s.ths| && !Quiet(s.m, s.ths[x]) && !InRead(s.ths[x].pc)
    ensures Attended(Step(s, x, ch))
  {
    hide Step, StageInv, Exec, Record;
    var s', th := Step(s, x, ch), s.ths[x];
    var cw, cr := WriteClaims(s.ths, s.h.tk), ReadClaims(s.ths, s.h.tk);
    StepParts(s, x, ch);
    ClaimsAfter(s, x, ch);
    ClaimEffect(s, x, ch);
    DoneEffect(s, x, ch);
    TakeEffect(s, x, ch);
    MoveEffect(s, x, ch);
    assert cr[x := Free] == cr;
    if th.pc == W_CLAIM {
      EnterHelped(s.m.w, s'.m.w.start, s.h.w, cw, x, WriteClaim(s'.ths[x], s'.h.tk[x]));
    } else {
      HelperHelps(s'.m.w, s'.h.w, WriteClaims(s'.ths, s'.h.tk), x);
    }
  }

  lemma AttendedRead(s: State, x: nat, ch: Choice)
    requires Inv(s) && Attended(s) && x < |s.ths| && !Quiet(s.m, s.ths[x]) && InRead(s.ths[x].pc)
    ensures Attended(Step(s, x, ch))
  {
    hide Step, StageInv, Exec, Record;
    var s', th := Step(s, x, ch), s.ths[x];
    var cw, cr := WriteClaims(s.ths, s.h.tk), ReadClaims(s.ths, s.h.tk);
    StepParts(s, x, ch);
    ClaimsAfter(s, x, ch);
    ClaimEffect(s, x, ch);
    DoneEffect(s, x, ch);
    TakeEffect(s, x, ch);
    MoveEffect(s, x, ch);
    assert cw[x := Free] == cw;
    if th.pc == R_CLAIM {
      EnterHelped(s.m.r, s'.m.r.start, s.h.r, cr, x, ReadClaim(s'.ths[x], s'.h.tk[x]));
    } else {
      HelperHelps(s'.m.r, s'.h.r, ReadClaims(s'.ths, s'.h.tk), x);
    }
  }

  /** If the ticket at an end cursor is done, somebody in the completion loop will look there: kept by every step. */
  lemma AttendedKeeps(s: State, x: nat, ch: Choice)
    requires Inv(s) && Attended(s) && x < |s.ths|
    ensures Attended(Step(s, x, ch))
  {
    hide Step, Attended, StageInv;
    if Quiet(s.m, s.ths[x]) {
      AttendedQuiet(s, x, ch);
    } else if InRead(s.ths[x].pc) {
      AttendedRead(s, x, ch);
    } else {
      AttendedWrite(s, x, ch);
    }
  }

  ghost predicate NobodyIn(s: State, write: bool) {
    forall x :: 0 <= x < |s.ths| ==> if write then !InWrite(s.ths[x].pc) else !InRead(s.ths[x].pc)
  }

  function SideOf(m: Mem, write: bool): Side {
    if write then m.w else m.r
  }

  /** When nobody is inside `write`, every claimed ticket is published if and only if none is lost, and the indices tell;
      the same for `read` and the blocks handed to readers. */
  lemma Quiescent(s: State, write: bool)
    requires Inv(s) && Attended(s) && NobodyIn(s, write)
    ensures var k, m := TrackOf(s.h, write), SideOf(s.m, write);
      && (k.end == |k.phase| <==> NoneLost(k)) && (m.end == m.start <==> NoneLost(k))
  {
    if write {
      NothingStranded(|s.m.next|, s.m.w, s.h.w, WriteClaims(s.ths, s.h.tk));
    } else {
      NothingStranded(|s.m.next|, s.m.r, s.h.r, ReadClaims(s.ths, s.h.tk));
    }
  }

  // ----- whole runs

  /** No compare-and-swap on this side's end cursor fails. */
  ghost predicate Unfailing(s: State, sched: Schedule, write: bool)
    requires Sane(s) && Runs(sched, |s.ths|)
    decreases |sched|
  {
    sched == [] ||
    (var i := |sched| - 1; var s' := Run(s, sched[..i]);
     Unfailing(s, sched[..i], write) && !FailedMove(s'.m, s'.ths[sched[i].0], write))
  }

  lemma {:induction false} LossRuns(s: State, sched: Schedule, write: bool)
    requires Inv(s) && Attended(s) && NoneLost(TrackOf(s.h, write)) && Runs(sched, |s.ths|) && Clean(s, sched)
    ensures Inv(Run(s, sched)) && Attended(Run(s, sched))
    ensures NoneLost(TrackOf(Run(s, sched).h, write)) <==> Unfailing(s, sched, write)
    decreases |sched|
  {
    hide Step, Hazard, Attended, StageInv, Aware, FailedMove, NoneLost;
    if sched == [] {
    } else {
      var k := |sched| - 1;
      var s1 := Run(s, sched[..k]);
      LossRuns(s, sched[..k], write);
      StepKeeps(s1, sched[k].0, sched[k].1);
      AttendedKeeps(s1, sched[k].0, sched[k].1);
      LossExactly(s1, sched[k].0, sched[k].1, write);
    }
  }

  /** No stranded block, exactly, over every run without a late claim, at any moment when nobody is inside `write`: all
      claimed tickets are published, that is m_writeEnd == m_writeStart, if and only if no compare-and-swap at line 339
      has failed.  The same for `read` and line 406. */
  lemma StrandingExactly(s0: State, sched: Schedule, write: bool)
    requires Init(s0) && Runs(sched, |s0.ths|) && Clean(s0, sched) && NobodyIn(Run(s0, sched), write)
    ensures var s := Run(s0, sched); var k, m := TrackOf(s.h, write), SideOf(s.m, write);
      (k.end == |k.phase| <==> Unfailing(s0, sched, write)) && (m.end == m.start <==> Unfailing(s0, sched, write))
  {
    hide Run, Clean, Inv, Attended, NoneLost, NobodyIn, Unfailing;
    InitAttended(s0);
    LossRuns(s0, sched, write);
    Quiescent(Run(s0, sched), write);
  }

  // ----- conditions that suffice

  /** The flag compare-and-swap is about to succeed on a block that is not the one at the end cursor: the thread
      loaded the cursor, was overtaken, and finds a later lap's flag. */
  predicate StaleTake(m: Mem, th: Thread)
    requires th.blk < |m.w.done| && th.blk < |m.r.done|
  {
    || (th.pc == W_TAKE_FLAG && m.w.done[th.blk] && th.blk != m.w.end)
    || (th.pc == R_TAKE_FLAG && m.r.done[th.blk] && th.blk != m.r.end)
  }

  /** Nothing is lost, and flags are taken only at the end cursors. */
  ghost predicate Orderly(s: State)
    requires Sane(s)
  {
    Tidy(s.h.w) && Tidy(s.h.r)
  }

  lemma OrderlyKeeps(s: State, x: nat, ch: Choice)
    requires Inv(s) && Orderly(s) && x < |s.ths| && !Hazard(s, x)
    ensures Orderly(Step(s, x, ch)) <==> !StaleTake(s.m, s.ths[x])
    ensures !FailedMove(s.m, s.ths[x], true) && !FailedMove(s.m, s.ths[x], false)
  {
    hide Step, Zones, Flags, Holders, Window, Aware;
    var n, th, cw, cr := |s.m.next|, s.ths[x], WriteClaims(s.ths, s.h.tk), ReadClaims(s.ths, s.h.tk);
    QuietOrNot(s, x, ch);
    if th.pc == W_TAKE_FLAG && s.m.w.done[th.blk] { TakeTidy(n, s.m.w, s.h.w, cw, x, th.blk); }
    if th.pc == R_TAKE_FLAG && s.m.r.done[th.blk] { TakeTidy(n, s.m.r, s.h.r, cr, x, th.blk); }
    if th.pc == W_MOVE_END { MoveTidy(n, s.m.w, s.h.w, cw, x); }
    if th.pc == R_MOVE_END { MoveTidy(n, s.m.r, s.h.r, cr, x); }
  }

  /** No step of the run is a claim on a full or empty ring or a take with a stale cursor value. */
  ghost predicate Steady(s: State, sched: Schedule)
    requires Sane(s) && Runs(sched, |s.ths|)
    decreases |sched|
  {
    sched == [] ||
    (var i := |sched| - 1; var s' := Run(s, sched[..i]);
     Steady(s, sched[..i]) && !Hazard(s', sched[i].0) && !StaleTake(s'.m, s'.ths[sched[i].0]))
  }

  /** Without stale takes no move fails; the converse does not hold. */
  lemma {:induction false} SteadyIsUnfailing(s: State, sched: Schedule)
    requires Inv(s) && Orderly(s) && Runs(sched, |s.ths|) && Steady(s, sched)
    ensures Inv(Run(s, sched)) && Orderly(Run(s, sched)) && Clean(s, sched)
    ensures Unfailing(s, sched, true) && Unfailing(s, sched, false)
    decreases |sched|
  {
    hide Step, Hazard, StaleTake, FailedMove, Orderly, StageInv, Aware;
    if sched == [] {
    } else {
      var k := |sched| - 1;
      var s1 := Run(s, sched[..k]);
      SteadyIsUnfailing(s, sched[..k]);
      StepKeeps(s1, sched[k].0, sched[k].1);
      OrderlyKeeps(s1, sched[k].0, sched[k].1);
    }
  }

  // ----- loading the end cursor and taking the flag as one step

  predicate AtFlag(pc: Pc) {
    pc == W_TAKE_FLAG || pc == R_TAKE_FLAG
  }

  /** Every flag compare-and-swap directly follows the same thread's load of the end cursor. */
  ghost predicate Atomic(s: State, sched: Schedule)
    requires Sane(s) && Runs(sched, |s.ths|)
    decreases |sched|
  {
    sched == [] ||
    (var i := |sched| - 1; var x := sched[i].0;
     Atomic(s, sched[..i]) && (AtFlag(Run(s, sched[..i]).ths[x].pc) ==> i > 0 && sched[i - 1].0 == x))
  }

  lemma JustLoaded(m: Mem, th: Thread, ch: Choice)
    requires MemOk(m) && ThreadOk(m, th)
    ensures var r := Exec(m, th, ch); r.th.blk < |r.m.w.done| && r.th.blk < |r.m.r.done| && !StaleTake(r.m, r.th)
  {
    hide Links;
    if R_SET_DONE <= th.pc <= R_SIGNAL {
    } else {
      hide ReturnBlock;
    }
  }

  /** If no thread is interrupted between 329 and 332, or between 396 and 398, no take is stale. */
  lemma {:induction false} AtomicIsSteady(s: State, sched: Schedule)
    requires Init(s) && Runs(sched, |s.ths|) && Clean(s, sched) && Atomic(s, sched)
    ensures Steady(s, sched)
    decreases |sched|
  {
    hide Init, Step, Hazard, StaleTake;
    if sched == [] {
    } else {
      var k := |sched| - 1;
      AtomicIsSteady(s, sched[..k]);
      TakeIsFresh(s, sched);
    }
  }

  lemma TakeIsFresh(s: State, sched: Schedule)
    requires Init(s) && Runs(sched, |s.ths|) && sched != [] && Atomic(s, sched)
    ensures var s' := Run(s, sched[..|sched| - 1]); !StaleTake(s'.m, s'.ths[sched[|sched| - 1].0])
  {
    hide Exec;
    var k := |sched| - 1;
    if k > 0 && sched[k - 1].0 == sched[k].0 {
      var s1 := Run(s, sched[..k - 1]);
      assert sched[..k][..k - 1] == sched[..k - 1];
      JustLoaded(s1.m, s1.ths[sched[k].0], sched[k - 1].1);
    }
  }

  /** No stranded block, with the load and the take as one step. */
  lemma AtomicNeverStrands(s: State, sched: Schedule, write: bool)
    requires Init(s) && Runs(sched, |s.ths|) && Clean(s, sched) && Atomic(s, sched)
    ensures Unfailing(s, sched, write)
    ensures NobodyIn(Run(s, sched), write) ==> TrackOf(Run(s, sched).h, write).end == |TrackOf(Run(s, sched).h, write).phase|
  {
    hide Steady, Clean, Atomic, Run, Inv, NobodyIn, Unfailing;
    AtomicIsSteady(s, sched);
    InitInv(s);
    SteadyIsUnfailing(s, sched);
    if NobodyIn(Run(s, sched), write) { StrandingExactly(s, sched, write); }
  }
}
