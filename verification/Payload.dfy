/** Who owns which block, and what is in it, with any number of producers and consumers. */
module Payload {
  import opened Slots
  import opened Stage
  import opened Ring
  import opened History
  import opened Safety

  /** Thread x is between the claim of a block and the setting of its done flag. */
  predicate OwnsBlock(pc: Pc) {
    pc == W_COPY || pc == W_SET_DONE || R_GET_AMOUNT <= pc <= R_SET_DONE
  }

  ghost predicate InUse(s: State, t: nat) {
    s.h.r.end <= t < s.h.r.end + |s.m.next|
  }

  lemma OwnerTicket(s: State, x: nat)
    requires Inv(s) && x < |s.ths| && OwnsBlock(s.ths[x].pc)
    ensures InUse(s, s.h.tk[x]) && s.ths[x].blk == Slot(s.h.tk[x], |s.m.next|) && s.h.tk[x] < |s.h.w.phase|
    ensures s.ths[x].pc <= W_SET_DONE ==> s.h.w.end <= s.h.tk[x] && s.h.w.phase[s.h.tk[x]] == Owned(x)
    ensures s.ths[x].pc > W_SET_DONE ==> s.h.tk[x] < |s.h.r.phase| && s.h.r.phase[s.h.tk[x]] == Owned(x)
  {
    hide Flags;
    var cw, cr := WriteClaims(s.ths, s.h.tk), ReadClaims(s.ths, s.h.tk);
    assert HolderOk(|s.m.next|, s.h.w, cw[x], x);
    assert HolderOk(|s.m.next|, s.h.r, cr[x], x);
  }

  /** No two threads ever own the same block, and a block being written lies outside the readable range. */
  lemma ExclusiveOwnership(s: State, x: nat, y: nat)
    requires Inv(s) && x < |s.ths| && y < |s.ths| && x != y
    requires OwnsBlock(s.ths[x].pc)
    ensures OwnsBlock(s.ths[y].pc) ==> s.ths[x].blk != s.ths[y].blk
    ensures s.ths[x].pc <= W_SET_DONE ==>
              forall t :: |s.h.r.phase| <= t < s.h.w.end ==> Slot(t, |s.m.next|) != s.ths[x].blk
  {
    hide Flags, Holders;
    LapInjective(s.h.r.end, |s.m.next|);
    OwnerTicket(s, x);
    if OwnsBlock(s.ths[y].pc) { OwnerTicket(s, y); }
  }

  /** Ticket t's message is in its block: its writer is done and its reader, if any, is not. */
  ghost predicate Full(h: Hist, t: nat) {
    && t < |h.w.phase| && !h.w.phase[t].Owned?
    && (t < |h.r.phase| ==> h.r.phase[t].Owned?)
  }

  ghost predicate Holds(m: Mem, b: nat, msg: Msg, k: nat)
    requires b < |m.data| && k <= |msg|
  {
    k <= |m.data[b]| && m.data[b][..k] == msg[..k]
  }

  /** A full block has the message's bytes; its amount is right unless a consumer has cleared it late. */
  ghost predicate Stored(s: State, t: nat)
    requires t < |s.h.msgs| && 0 < |s.m.next| == |s.m.data| == |s.m.amount|
  {
    var b, msg := Slot(t, |s.m.next|), s.h.msgs[t];
    Holds(s.m, b, msg, |msg|) && (s.m.amount[b] == |msg| || s.m.amount[b] == 0)
  }

  /** A writer has copied the first k bytes of what its ticket was issued for. */
  ghost predicate WriterOk(s: State, y: nat)
    requires Sane(s) && y < |s.ths|
  {
    var th, t := s.ths[y], s.h.tk[y];
    W_COPY <= th.pc <= W_SET_DONE ==>
      && t < |s.h.msgs| && t < |s.h.from| && s.h.msgs[t] == Cut(th.buf, s.m.blockSize) && s.h.from[t] == y
      && th.k <= |s.h.msgs[t]| && Holds(s.m, th.blk, s.h.msgs[t], th.k)
      && (th.pc == W_SET_DONE ==> th.k == th.len && (s.m.amount[th.blk] == th.len || s.m.amount[th.blk] == 0))
  }

  /** A reader's buffer is a prefix of the message of its own ticket, never a mixture. */
  ghost predicate ReaderOk(s: State, y: nat)
    requires Sane(s) && y < |s.ths|
  {
    var th, t := s.ths[y], s.h.tk[y];
    th.pc == R_COPY || (th.pc == R_SET_DONE && !th.again) ==>
      && t < |s.h.msgs| && |th.buf| <= th.len <= |s.h.msgs[t]| && th.buf == s.h.msgs[t][..|th.buf|]
      && (th.pc == R_SET_DONE ==> |th.buf| == th.len)
  }

  ghost predicate DataInv(s: State)
    requires Sane(s)
  {
    && |s.h.msgs| == |s.h.from| == |s.h.w.phase|
    && (forall t :: 0 <= t < |s.h.msgs| ==> |s.h.msgs[t]| <= s.m.blockSize)
    && (forall t :: Full(s.h, t) ==> Stored(s, t))
    && (forall y :: 0 <= y < |s.ths| ==> WriterOk(s, y) && ReaderOk(s, y))
  }

  lemma InitData(s: State)
    requires Init(s)
    ensures DataInv(s)
  {
  }

  // ----- effects

  lemma DataEffect(m: Mem, th: Thread, ch: Choice)
    requires MemOk(m) && ThreadOk(m, th)
    ensures var m' := Exec(m, th, ch).m;
      && m'.data == (if th.pc == W_COPY && th.k < th.len
                     then m.data[th.blk := m.data[th.blk][th.k := th.buf[th.k]]] else m.data)
      && m'.amount == (if th.pc == W_COPY && th.k == th.len then m.amount[th.blk := th.len]
                       else if th.pc == R_CLEAR_AMOUNT then m.amount[th.blk := 0] else m.amount)
  {
    if th.pc == W_COPY {
      hide MemOk, GetBlockWrite, PostBlock, GetBlockRead, CopyOut, ReturnBlock, Return;
    } else if th.pc == R_CLEAR_AMOUNT {
      hide MemOk, ThreadOk, GetBlockWrite, CopyIn, PostBlock, GetBlockRead, CopyOut, Return;
    } else {
      hide MemOk, ThreadOk, GetBlockWrite, CopyIn, PostBlock, GetBlockRead, CopyOut, Return;
    }
  }

  lemma MessageRecord(s: State, x: nat)
    requires Sane(s) && x < |s.ths|
    ensures var h', th := Record(s, x), s.ths[x];
      && (th.pc == W_CLAIM && s.m.w.start == th.blk ==>
            h'.msgs == s.h.msgs + [Cut(th.buf, s.m.blockSize)] && h'.from == s.h.from + [x])
      && (!(th.pc == W_CLAIM && s.m.w.start == th.blk) ==> h'.msgs == s.h.msgs && h'.from == s.h.from)
      && (forall y :: 0 <= y < |s.ths| && y != x ==> h'.tk[y] == s.h.tk[y])
  {
    hide MemOk, ThreadOk;
  }

  /** Only setting the done flag makes a block full. */
  lemma FullAfter(s: State, x: nat, ch: Choice, t: nat)
    requires Inv(s) && x < |s.ths| && !Hazard(s, x) && Full(Step(s, x, ch).h, t)
    ensures Full(s.h, t) || (s.ths[x].pc == W_SET_DONE && t == s.h.tk[x])
  {
    hide Step, Record, Exec, Flags;
    QuietOrNot(s, x, ch);
    if s.ths[x].pc == W_MOVE_END { MoveKeeps(|s.m.next|, s.m.w, s.h.w, WriteClaims(s.ths, s.h.tk), x); }
    if s.ths[x].pc == R_MOVE_END { MoveKeeps(|s.m.next|, s.m.r, s.h.r, ReadClaims(s.ths, s.h.tk), x); }
    var cw, cr := WriteClaims(s.ths, s.h.tk), ReadClaims(s.ths, s.h.tk);
    assert HolderOk(|s.m.next|, s.h.w, cw[x], x);
    assert HolderOk(|s.m.next|, s.h.r, cr[x], x);
    if s.ths[x].pc == W_TAKE_FLAG && s.m.w.done[s.ths[x].blk] {
      TakeKeeps(|s.m.next|, s.m.w, s.h.w, cw, x, s.ths[x].blk);
    }
    if s.ths[x].pc == R_TAKE_FLAG && s.m.r.done[s.ths[x].blk] {
      TakeKeeps(|s.m.next|, s.m.r, s.h.r, cr, x, s.ths[x].blk);
    }
  }

  lemma QuietOrNot(s: State, x: nat, ch: Choice)
    requires Sane(s) && x < |s.ths|
    ensures var s', th, h, n := Step(s, x, ch), s.ths[x], s.h, |s.m.next|;
      && s'.h.w == (if th.pc == W_CLAIM && s.m.w.start == th.blk then Enter(h.w, x)
                    else if th.pc == W_SET_DONE then Put(h.w, h.tk[x], Done)
                    else if th.pc == W_TAKE_FLAG && s.m.w.done[th.blk]
                        then Put(h.w, TicketAt(h.w.end, th.blk, n), Moving(x))
                    else if th.pc == W_MOVE_END then Finish(h.w, h.tk[x], s.m.w.end == th.blk) else h.w)
      && s'.h.r == (if th.pc == R_CLAIM && s.m.r.start == th.blk then Enter(h.r, x)
                    else if th.pc == R_SET_DONE then Put(h.r, h.tk[x], Done)
                    else if th.pc == R_TAKE_FLAG && s.m.r.done[th.blk]
                        then Put(h.r, TicketAt(h.r.end, th.blk, n), Moving(x))
                    else if th.pc == R_MOVE_END then Finish(h.r, h.tk[x], s.m.r.end == th.blk) else h.r)
  {
    hide Step;
    ClaimEffect(s, x, ch);
    DoneEffect(s, x, ch);
    TakeEffect(s, x, ch);
    MoveEffect(s, x, ch);
    if Quiet(s.m, s.ths[x]) { QuietEffect(s, x, ch); }
  }

  /** How thread x can move ticket t of one side: only its owner finishes it, only a finished ticket's flag is taken,
      and only the thread that took the flag passes it, by moving the end cursor from t to t + 1. */
  ghost predicate Progress(k: Track, k': Track, t: nat, x: nat, pc: Pc, done: Pc, take: Pc, move: Pc)
    requires t < |k.phase| <= |k'.phase|
  {
    var p, p' := k.phase[t], k'.phase[t];
    || p' == p
    || (p == Owned(x) && pc == done && p' == Done)
    || (p == Done && pc == take && p' == Moving(x))
    || (p == Moving(x) && pc == move && p' == Passed && t == k.end && k'.end == t + 1)
    || (p == Moving(x) && pc == move && p' == Lost && t != k.end && k'.end == k.end)
  }

  /** Every ticket goes from claimed to done to taken to passed (or lost), each step by one store or one successful
      compare-and-swap. */
  lemma TicketLife(s: State, x: nat, ch: Choice, t: nat)
    requires Inv(s) && x < |s.ths| && !Hazard(s, x)
    ensures var pc, h, h' := s.ths[x].pc, s.h, Step(s, x, ch).h;
      && |h.w.phase| <= |h'.w.phase| && |h.r.phase| <= |h'.r.phase|
      && (t < |h.w.phase| ==> Progress(h.w, h'.w, t, x, pc, W_SET_DONE, W_TAKE_FLAG, W_MOVE_END))
      && (t < |h.r.phase| ==> Progress(h.r, h'.r, t, x, pc, R_SET_DONE, R_TAKE_FLAG, R_MOVE_END))
  {
    hide Step, Flags, Zones;
    var n, th, cw, cr := |s.m.next|, s.ths[x], WriteClaims(s.ths, s.h.tk), ReadClaims(s.ths, s.h.tk);
    QuietOrNot(s, x, ch);
    assert HolderOk(n, s.h.w, cw[x], x) && HolderOk(n, s.h.r, cr[x], x);
    if th.pc == W_TAKE_FLAG && s.m.w.done[th.blk] { TakeKeeps(n, s.m.w, s.h.w, cw, x, th.blk); }
    if th.pc == R_TAKE_FLAG && s.m.r.done[th.blk] { TakeKeeps(n, s.m.r, s.h.r, cr, x, th.blk); }
    if th.pc == W_MOVE_END { MoveKeeps(n, s.m.w, s.h.w, cw, x); }
    if th.pc == R_MOVE_END { MoveKeeps(n, s.m.r, s.h.r, cr, x); }
  }

  /** Beyond its end cursor no ticket is still being written, and none is still being read. */
  lemma PassedIsFinished(s: State, x: nat)
    requires Inv(s) && x < |s.ths| && OwnsBlock(s.ths[x].pc)
    ensures s.ths[x].pc <= W_SET_DONE ==> s.h.w.end <= s.h.tk[x]
    ensures s.ths[x].pc > W_SET_DONE ==> s.h.r.end <= s.h.tk[x] < s.h.w.end
  {
    hide Flags, Zones, Holders;
    OwnerTicket(s, x);
  }

  // ----- preservation

  lemma FullInUse(s: State, t: nat)
    requires Inv(s) && Full(s.h, t)
    ensures InUse(s, t)
  {
    hide Flags, Holders;
  }

  /** A store to the block of thread x never hits the block of another ticket in use. */
  lemma StoreElsewhere(s: State, x: nat, t: nat)
    requires Inv(s) && x < |s.ths| && OwnsBlock(s.ths[x].pc) && InUse(s, t) && t != s.h.tk[x]
    ensures Slot(t, |s.m.next|) != s.ths[x].blk
  {
    hide StageInv;
    OwnerTicket(s, x);
    LapInjective(s.h.r.end, |s.m.next|);
  }

  /** The bytes of a full block do not change until its reader has copied them and sets `doneRead`. */
  lemma BlockUntouched(s: State, x: nat, ch: Choice, t: nat)
    requires Inv(s) && DataInv(s) && x < |s.ths| && Full(s.h, t)
    ensures Step(s, x, ch).m.data[Slot(t, |s.m.next|)] == s.m.data[Slot(t, |s.m.next|)]
  {
    DataEffect(s.m, s.ths[x], ch);
    FullInUse(s, t);
    if s.ths[x].pc == W_COPY {
      OwnerTicket(s, x);
      StoreElsewhere(s, x, t);
    }
    assert Step(s, x, ch).m == Exec(s.m, s.ths[x], ch).m;
    hide Step, Exec, StageInv;
  }

  lemma StoredKeeps(s: State, x: nat, ch: Choice, t: nat)
    requires Inv(s) && DataInv(s) && x < |s.ths| && Full(s.h, t)
    ensures t < |Step(s, x, ch).h.msgs| && Stored(Step(s, x, ch), t)
  {
    var s' := Step(s, x, ch);
    DataEffect(s.m, s.ths[x], ch);
    MessageRecord(s, x);
    assert s'.m == Exec(s.m, s.ths[x], ch).m && s'.h == Record(s, x);
    FullInUse(s, t);
    if s.ths[x].pc == W_COPY {
      OwnerTicket(s, x);
      StoreElsewhere(s, x, t);
    }
    hide Step, Exec, Record, StageInv;
    assert Stored(s, t);
  }

  lemma WriterElsewhere(s: State, x: nat, ch: Choice, y: nat)
    requires Inv(s) && DataInv(s) && x < |s.ths| && y < |s.ths| && x != y
    ensures WriterOk(Step(s, x, ch), y)
  {
    hide Step, Exec, Record, StageInv;
    var s' := Step(s, x, ch);
    StepParts(s, x, ch);
    DataEffect(s.m, s.ths[x], ch);
    MessageRecord(s, x);
    if s.ths[x].pc == W_COPY && W_COPY <= s.ths[y].pc <= W_SET_DONE { ExclusiveOwnership(s, x, y); }
    assert WriterOk(s, y);
  }

  /** A writer reaches its copy only by a successful claim, and keeps its buffer from then on. */
  lemma ReachesCopy(m: Mem, th: Thread, ch: Choice)
    requires MemOk(m) && ThreadOk(m, th)
    ensures var th' := Exec(m, th, ch).th;
      th'.pc == W_COPY ==>
        && th'.buf == th.buf && th'.blk == th.blk
        && ((th.pc == W_CLAIM && m.w.start == th.blk && th'.k == 0)
            || (th.pc == W_COPY && th.k < th.len && th'.k == th.k + 1))
  {
    hide MemOk, ThreadOk, GetBlockWrite, PostBlock, GetBlockRead, CopyOut, ReturnBlock, Return;
  }

  lemma ReachesDone(m: Mem, th: Thread, ch: Choice)
    requires MemOk(m) && ThreadOk(m, th)
    ensures var th' := Exec(m, th, ch).th;
      th'.pc == W_SET_DONE ==>
        && th.pc == W_COPY && th.k == th.len
        && th'.k == th.k && th'.len == th.len && th'.buf == th.buf && th'.blk == th.blk
  {
    hide Exec, MemOk;
    OnlyFromCopy(m, th, ch);
    if th.pc == W_COPY { ExecCopies(m, th, ch); }
  }

  lemma OnlyFromCopy(m: Mem, th: Thread, ch: Choice)
    requires MemOk(m) && ThreadOk(m, th)
    ensures Exec(m, th, ch).th.pc == W_SET_DONE ==> th.pc == W_COPY
  {
    hide MemOk, ThreadOk, GetBlockWrite, CopyIn, PostBlock, GetBlockRead, CopyOut, ReturnBlock, Return;
  }

  lemma ExecCopies(m: Mem, th: Thread, ch: Choice)
    requires MemOk(m) && ThreadOk(m, th) && th.pc == W_COPY
    ensures Exec(m, th, ch) == CopyIn(m, th)
  {
    hide MemOk, ThreadOk, CopyIn;
  }

  lemma WriterHere(s: State, x: nat, ch: Choice)
    requires Inv(s) && DataInv(s) && x < |s.ths|
    ensures WriterOk(Step(s, x, ch), x)
  {
    hide Step, Exec, Record, StageInv;
    var s', th := Step(s, x, ch), s.ths[x];
    StepParts(s, x, ch);
    DataEffect(s.m, th, ch);
    MessageRecord(s, x);
    ReachesCopy(s.m, th, ch);
    ReachesDone(s.m, th, ch);
    ClaimEffect(s, x, ch);
    if th.pc == W_COPY {
      QuietEffect(s, x, ch);
      OwnerTicket(s, x);
    }
    assert WriterOk(s, x);
    if th.pc == W_COPY && th.k < th.len {
      var b, msg := th.blk, s.h.msgs[s.h.tk[x]];
      assert th.buf[th.k] == msg[th.k];
      assert s'.m.data[b][..th.k + 1] == s.m.data[b][..th.k] + [th.buf[th.k]];
      assert msg[..th.k + 1] == msg[..th.k] + [msg[th.k]];
    }
  }

  lemma ReaderElsewhere(s: State, x: nat, ch: Choice, y: nat)
    requires Inv(s) && DataInv(s) && x < |s.ths| && y < |s.ths| && x != y
    ensures ReaderOk(Step(s, x, ch), y)
  {
    var s' := Step(s, x, ch);
    MessageRecord(s, x);
    assert s'.h == Record(s, x) && s'.ths[y] == s.ths[y];
    hide Step, Exec, Record, StageInv;
    assert ReaderOk(s, y);
  }

  lemma ReaderEffect(m: Mem, th: Thread, ch: Choice)
    requires MemOk(m) && ThreadOk(m, th)
    ensures var th' := Exec(m, th, ch).th;
      && (th'.pc == R_COPY ==>
            || (th.pc == R_MIN && th'.buf == [] && th'.len == Min(m.amount[th.blk], th.size))
            || (th.pc == R_COPY && |th.buf| < th.len && th'.len == th.len && th'.buf == th.buf + [m.data[th.blk][|th.buf|]]))
      && (th'.pc == R_SET_DONE && !th'.again ==>
            th.pc == R_COPY && th.len <= |th.buf| && th'.len == th.len && th'.buf == th.buf)
  {
    hide MemOk, ThreadOk, GetBlockWrite, CopyIn, PostBlock, GetBlockRead, ReturnBlock, Return;
    if th.pc < R_GET_AMOUNT || th.pc > R_COPY {
      hide CopyOut;
    }
  }

  lemma ReadIsPublished(s: State)
    requires Inv(s)
    ensures forall t :: 0 <= t < |s.h.r.phase| ==> t < |s.h.w.phase| && s.h.w.phase[t] == Passed
  {
    hide Flags, Holders;
  }

  lemma ReaderHere(s: State, x: nat, ch: Choice)
    requires Inv(s) && DataInv(s) && x < |s.ths|
    ensures ReaderOk(Step(s, x, ch), x)
  {
    var s', th := Step(s, x, ch), s.ths[x];
    MessageRecord(s, x);
    ReaderEffect(s.m, th, ch);
    assert s'.h == Record(s, x) && s'.ths[x] == Exec(s.m, th, ch).th;
    if R_MIN <= th.pc <= R_COPY {
      QuietEffect(s, x, ch);
      OwnerTicket(s, x);
      ReadIsPublished(s);
      assert Full(s.h, s.h.tk[x]);
      assert Stored(s, s.h.tk[x]);
    }
    hide Step, Exec, Record, StageInv;
    assert ReaderOk(s, x);
  }

  /** The payload theorem, one step, for any number of producers and consumers: every full block holds exactly the
      bytes its ticket was issued for, and every reader holds a prefix of its own ticket's message. */
  lemma DataKeeps(s: State, x: nat, ch: Choice)
    requires Inv(s) && DataInv(s) && x < |s.ths| && !Hazard(s, x)
    ensures DataInv(Step(s, x, ch))
  {
    var s', th := Step(s, x, ch), s.ths[x];
    assert s'.h == Record(s, x);
    MessageRecord(s, x);
    ClaimEffect(s, x, ch);
    QuietOrNot(s, x, ch);
    hide Step, Exec, Record, StageInv, WriterOk, ReaderOk;
    forall y | 0 <= y < |s'.ths|
      ensures WriterOk(s', y) && ReaderOk(s', y)
    {
      if x == y {
        WriterHere(s, x, ch);
        ReaderHere(s, x, ch);
      } else {
        WriterElsewhere(s, x, ch, y);
        ReaderElsewhere(s, x, ch, y);
      }
    }
    forall t | Full(s'.h, t)
      ensures Stored(s', t)
    {
      FullAfter(s, x, ch, t);
      if Full(s.h, t) { StoredKeeps(s, x, ch, t); } else { JustStored(s, x, ch); }
    }
  }

  lemma JustStored(s: State, x: nat, ch: Choice)
    requires Inv(s) && DataInv(s) && x < |s.ths| && s.ths[x].pc == W_SET_DONE
    ensures var s' := Step(s, x, ch); s.h.tk[x] < |s'.h.msgs| && Stored(s', s.h.tk[x])
  {
    var s' := Step(s, x, ch);
    DataEffect(s.m, s.ths[x], ch);
    MessageRecord(s, x);
    OwnerTicket(s, x);
    assert s'.m == Exec(s.m, s.ths[x], ch).m && s'.h == Record(s, x);
    hide Step, Exec, Record, StageInv;
    assert WriterOk(s, x);
  }
}
