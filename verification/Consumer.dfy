/** The repository's configuration: any number of producers, one consumer.  The ring is then a FIFO queue. */
module Consumer {
  import opened Slots
  import opened Stage
  import opened Ring
  import opened History
  import opened Safety
  import opened Payload

  ghost predicate Sole(s: State, c: nat) {
    c < |s.ths| && forall x :: 0 <= x < |s.ths| && x != c ==> !InRead(s.ths[x].pc)
  }

  /** The block the consumer has just finished is the only one between m_readEnd and m_readStart. */
  ghost predicate OneBack(k: Track) {
    |k.phase| == k.end + 1 && k.phase[k.end] == Done
  }

  /** Where the consumer is in its read, in tickets. */
  ghost predicate Position(s: State, c: nat)
    requires Sane(s) && c < |s.ths|
  {
    var th, k := s.ths[c], s.h.r;
    && (R_GET_AMOUNT <= th.pc <= R_SET_DONE ==> |k.phase| == k.end + 1 && s.h.tk[c] == k.end)
    && (th.pc == R_CLEAR_AMOUNT ==> OneBack(k) && th.blk == Slot(k.end, |s.m.next|))
    && (th.pc == R_LOAD_END || th.pc == R_TEST_SIGNAL || th.pc == R_SIGNAL ==> |k.phase| == k.end || OneBack(k))
    && (th.pc == R_TAKE_FLAG ==> th.blk == s.m.r.end && (|k.phase| == k.end || OneBack(k)))
    && (th.pc == R_MOVE_END ==> |k.phase| == k.end + 1)
    && (th.pc == R_DECREMENT || !Reading(th.pc) ==> |k.phase| == k.end)
    && (th.pc == R_CHECK_EMPTY || th.pc == R_CLAIM ==> s.h.ld[c] == |k.phase|)
  }

  ghost predicate Exact(s: State)
    requires Sane(s) && DataInv(s)
  {
    && (forall t: nat :: Full(s.h, t) ==> s.m.amount[Slot(t, |s.m.next|)] == |s.h.msgs[t]|)
    && (forall y :: 0 <= y < |s.ths| && s.ths[y].pc == W_SET_DONE ==> s.m.amount[s.ths[y].blk] == s.ths[y].len)
  }

  ghost predicate ConsumerInv(s: State, c: nat) {
    Inv(s) && DataInv(s) && Sole(s, c) && Position(s, c) && Exact(s)
  }

  lemma InitConsumer(s: State, c: nat)
    requires Init(s) && c < |s.ths|
    ensures ConsumerInv(s, c)
  {
    InitInv(s);
    InitData(s);
  }

  // ----- the consumer never claims from an empty ring, and its loads of m_readEnd are never stale

  lemma ConsumerNoHazard(s: State, c: nat)
    requires ConsumerInv(s, c) && s.ths[c].pc == R_CLAIM
    ensures !Hazard(s, c)
  {
    hide StageInv, DataInv, Exact;
    HazardInTickets(s, c);
    assert Aware(s, c);
  }

  lemma StaysOut(m: Mem, th: Thread, ch: Choice)
    requires MemOk(m) && ThreadOk(m, th) && !InRead(th.pc)
    ensures InRead(Exec(m, th, ch).th.pc) ==> ch.CallRead?
  {
    hide MemOk, ThreadOk, GetBlockWrite, CopyIn, PostBlock, Return;
  }

  lemma SoleKeeps(s: State, c: nat, x: nat, ch: Choice)
    requires Sane(s) && Sole(s, c) && x < |s.ths| && (ch.CallRead? ==> x == c)
    ensures Sole(Step(s, x, ch), c)
  {
    var s' := Step(s, x, ch);
    assert s'.ths == s.ths[x := Exec(s.m, s.ths[x], ch).th];
    if x != c { StaysOut(s.m, s.ths[x], ch); }
    hide Step, Exec;
  }

  /** What a consumer's statement does to its program counter. */
  lemma ConsumerMoves(m: Mem, th: Thread, ch: Choice)
    requires MemOk(m) && ThreadOk(m, th) && InRead(th.pc)
    ensures var th' := Exec(m, th, ch).th;
      && (th.pc < R_CLAIM ==> !Reading(th'.pc))
      && (th.pc == R_CLAIM ==> th'.pc == if m.r.start == th.blk then R_GET_AMOUNT else R_LOAD_START)
      && (R_GET_AMOUNT <= th.pc <= R_COPY ==> R_MIN <= th'.pc <= R_SET_DONE && th'.blk == th.blk)
      && (th.pc == R_SET_DONE ==> th'.pc == R_CLEAR_AMOUNT && th'.blk == th.blk)
      && (th.pc == R_CLEAR_AMOUNT || th.pc == R_SIGNAL ==> th'.pc == R_LOAD_END)
      && (th.pc == R_LOAD_END ==> th'.pc == R_TAKE_FLAG && th'.blk == m.r.end)
      && (th.pc == R_TAKE_FLAG ==>
            if m.r.done[th.blk] then th'.pc == R_MOVE_END else th'.pc == R_LOAD_START || th'.pc == R_DECREMENT)
      && (th.pc == R_MOVE_END ==> th'.pc == R_TEST_SIGNAL)
      && (th.pc == R_TEST_SIGNAL ==> th'.pc == R_SIGNAL || th'.pc == R_LOAD_END)
      && (th.pc == R_DECREMENT ==> th'.pc == IDLE)
  {
    hide MemOk, ThreadOk;
    if th.pc < R_CLAIM {
    } else if th.pc == R_CLAIM {
    } else if th.pc <= R_COPY {
    } else if th.pc <= R_SIGNAL {
    } else {
    }
  }

  lemma MovesTicket(s: State, x: nat)
    requires Inv(s) && x < |s.ths| && s.ths[x].pc == R_MOVE_END
    ensures s.h.r.end <= s.h.tk[x] < |s.h.r.phase|
    ensures s.m.r.end == s.ths[x].blk <==> s.h.r.end == s.h.tk[x]
  {
    hide Zones, Flags;
    var cr := ReadClaims(s.ths, s.h.tk);
    assert HolderOk(|s.m.next|, s.h.r, cr[x], x);
    MoveKeeps(|s.m.next|, s.m.r, s.h.r, cr, x);
  }

  lemma PositionHere(s: State, c: nat, ch: Choice)
    requires Inv(s) && Sole(s, c) && Position(s, c)
    ensures Position(Step(s, c, ch), c)
  {
    hide Step, Exec, Record, Flags, Holders;
    var s', th, n := Step(s, c, ch), s.ths[c], |s.m.next|;
    StepParts(s, c, ch);
    LoadRecord(s, c);
    QuietOrNot(s, c, ch);
    if Quiet(s.m, th) { QuietEffect(s, c, ch); } else { ClaimEffect(s, c, ch); DoneEffect(s, c, ch); TakeEffect(s, c, ch); MoveEffect(s, c, ch); }
    if InRead(th.pc) { ConsumerMoves(s.m, th, ch); AwareRead(s.m, th, ch); } else { AwareWrite(s.m, th, ch); }
    if th.pc == R_SET_DONE { OwnerTicket(s, c); }
    if th.pc == R_MOVE_END { MovesTicket(s, c); }
    if th.pc == R_TAKE_FLAG { TakeAtEnd(s, c); }
  }

  /** The consumer's loaded end cursor is current, so its flag test looks at the ticket at the end cursor. */
  lemma TakeAtEnd(s: State, c: nat)
    requires Inv(s) && Sole(s, c) && Position(s, c) && s.ths[c].pc == R_TAKE_FLAG
    ensures TicketAt(s.h.r.end, s.ths[c].blk, |s.m.next|) == s.h.r.end
    ensures s.m.r.done[s.ths[c].blk] <==> OneBack(s.h.r)
  {
    hide Holders;
  }

  lemma ReadSideElsewhere(s: State, c: nat, x: nat, ch: Choice)
    requires Inv(s) && Sole(s, c) && x < |s.ths| && x != c
    ensures var s' := Step(s, x, ch);
      && s'.m.r == s.m.r && s'.h.r == s.h.r && s'.ths[c] == s.ths[c] && s'.h.tk[c] == s.h.tk[c]
          && s'.h.ld[c] == s.h.ld[c]
      && s'.h.out == s.h.out && s'.h.sizes == s.h.sizes
  {
    MessageRecord(s, x);
    LoadRecord(s, x);
    QuietOrNot(s, x, ch);
    assert Step(s, x, ch).h == Record(s, x);
    hide MemOk, ThreadOk, CopyOut, ReturnBlock, GetBlockRead, StageInv;
  }

  lemma PositionElsewhere(s: State, c: nat, x: nat, ch: Choice)
    requires Inv(s) && Sole(s, c) && Position(s, c) && x < |s.ths| && x != c
    ensures Position(Step(s, x, ch), c)
  {
    ReadSideElsewhere(s, c, x, ch);
    hide Step, StageInv;
  }

  // ----- amounts

  /** `Amount = 0` is about to hit a block that has been handed back and written again. */
  ghost predicate LateClear(s: State, x: nat)
    requires Sane(s) && x < |s.ths|
  {
    var b := s.ths[x].blk;
    && s.ths[x].pc == R_CLEAR_AMOUNT && s.m.amount[b] > 0
    && ((exists t: nat :: Full(s.h, t) && Slot(t, |s.m.next|) == b)
        || (exists y :: 0 <= y < |s.ths| && s.ths[y].pc == W_SET_DONE && s.ths[y].blk == b))
  }

  lemma ExactAfterStore(s: State, x: nat, ch: Choice)
    requires Inv(s) && DataInv(s) && Exact(s) && x < |s.ths| && !Hazard(s, x) && DataInv(Step(s, x, ch))
    requires !LateClear(s, x)
    ensures Exact(Step(s, x, ch))
  {
    hide Step, Exec, Record, StageInv;
    var s', th, n := Step(s, x, ch), s.ths[x], |s.m.next|;
    StepParts(s, x, ch);
    DataEffect(s.m, th, ch);
    MessageRecord(s, x);
    ReachesDone(s.m, th, ch);
    forall t: nat | Full(s'.h, t)
      ensures s'.m.amount[Slot(t, n)] == |s'.h.msgs[t]|
    {
      FullAfter(s, x, ch, t);
      if Full(s.h, t) {
        FullInUse(s, t);
        if th.pc == W_COPY { OwnerTicket(s, x); StoreElsewhere(s, x, t); }
      } else {
        OwnerTicket(s, x);
        assert WriterOk(s, x);
      }
    }
    forall y | 0 <= y < |s'.ths| && s'.ths[y].pc == W_SET_DONE
      ensures s'.m.amount[s'.ths[y].blk] == s'.ths[y].len
    {
      if x != y && th.pc == W_COPY { ExclusiveOwnership(s, x, y); }
    }
  }

  lemma LateClearLoses(s: State, x: nat, ch: Choice)
    requires Inv(s) && DataInv(s) && Exact(s) && x < |s.ths| && !Hazard(s, x) && DataInv(Step(s, x, ch))
    requires LateClear(s, x)
    ensures !Exact(Step(s, x, ch))
  {
    hide Step, Exec, Record, StageInv, DataInv, Window;
    var s', th, n := Step(s, x, ch), s.ths[x], |s.m.next|;
    StepParts(s, x, ch);
    DataEffect(s.m, th, ch);
    MessageRecord(s, x);
    QuietOrNot(s, x, ch);
    if t: nat :| Full(s.h, t) && Slot(t, n) == th.blk {
      assert Full(s'.h, t);
    } else {
      var y :| 0 <= y < |s.ths| && s.ths[y].pc == W_SET_DONE && s.ths[y].blk == th.blk;
      assert s'.ths[y] == s.ths[y];
    }
  }

  /** For any number of consumers: a finished message keeps its amount, and so is not mistaken for an empty one,
      exactly as long as no consumer clears `Amount` in a block that is already in use again. */
  lemma ExactExactly(s: State, x: nat, ch: Choice)
    requires Inv(s) && DataInv(s) && Exact(s) && x < |s.ths| && !Hazard(s, x)
    ensures DataInv(Step(s, x, ch)) && (Exact(Step(s, x, ch)) <==> !LateClear(s, x))
  {
    hide StageInv, DataInv, Exact, Step, Hazard, LateClear;
    DataKeeps(s, x, ch);
    if LateClear(s, x) { LateClearLoses(s, x, ch); } else { ExactAfterStore(s, x, ch); }
  }

  ghost predicate AlwaysExact(s: State, sched: Schedule)
    requires Sane(s) && Runs(sched, |s.ths|)
    decreases |sched|
  {
    && DataInv(Run(s, sched)) && Exact(Run(s, sched))
    && (sched == [] || AlwaysExact(s, sched[..|sched| - 1]))
  }

  /** No step of the run is a late `Amount = 0`. */
  ghost predicate NoLateClear(s: State, sched: Schedule)
    requires Sane(s) && Runs(sched, |s.ths|)
    decreases |sched|
  {
    sched == [] ||
    (var i := |sched| - 1; NoLateClear(s, sched[..i]) && !LateClear(Run(s, sched[..i]), sched[i].0))
  }

  /** Over every run without a late claim, any number of consumers: amounts are exact throughout if and only if no
      consumer clears `Amount` in a block that is in use again. */
  lemma {:induction false} ExactRuns(s: State, sched: Schedule)
    requires Inv(s) && DataInv(s) && Exact(s) && Runs(sched, |s.ths|) && Clean(s, sched)
    ensures Inv(Run(s, sched)) && DataInv(Run(s, sched))
    ensures AlwaysExact(s, sched) <==> NoLateClear(s, sched)
    decreases |sched|
  {
    hide Step, Exact, LateClear, Hazard, StageInv, DataInv, Aware;
    if sched == [] {
    } else {
      var k := |sched| - 1;
      ExactRuns(s, sched[..k]);
      var s1 := Run(s, sched[..k]);
      StepKeeps(s1, sched[k].0, sched[k].1);
      DataKeeps(s1, sched[k].0, sched[k].1);
      if AlwaysExact(s, sched[..k]) {
        ExactExactly(s1, sched[k].0, sched[k].1);
      }
    }
  }

  /** A lone consumer's `Amount = 0` hits only the block it has just handed back. */
  lemma ClearHitsOld(s: State, c: nat)
    requires Inv(s) && DataInv(s) && c < |s.ths| && Position(s, c)
    ensures !LateClear(s, c)
  {
    hide Holders, Flags, DataInv;
    if s.ths[c].pc == R_CLEAR_AMOUNT {
      LapInjective(s.h.r.end, |s.m.next|);
      forall t: nat | Full(s.h, t)
        ensures Slot(t, |s.m.next|) != s.ths[c].blk
      {
        FullInUse(s, t);
      }
      forall y | 0 <= y < |s.ths| && s.ths[y].pc == W_SET_DONE
        ensures s.ths[y].blk != s.ths[c].blk
      {
        OwnerTicket(s, y);
      }
    }
  }

  /** One step of the consumer's invariant: producers may stall only less than a lap, the consumer as long as it
      likes. */
  lemma ConsumerKeeps(s: State, c: nat, x: nat, ch: Choice)
    requires ConsumerInv(s, c) && x < |s.ths| && (ch.CallRead? ==> x == c)
    requires x != c ==> !Hazard(s, x)
    requires x == c && s.ths[c].pc == W_CLAIM ==> !Hazard(s, c)
    ensures ConsumerInv(Step(s, x, ch), c)
  {
    hide Step, StageInv, Exact, DataInv, Position;
    if x == c && s.ths[c].pc == R_CLAIM { ConsumerNoHazard(s, c); }
    StepKeeps(s, x, ch);
    SoleKeeps(s, c, x, ch);
    if x == c { PositionHere(s, c, ch); ClearHitsOld(s, c); } else { PositionElsewhere(s, c, x, ch); }
    ExactExactly(s, x, ch);
  }
}
