/** With one consumer the ring delivers every non-empty message once, in claim order, cut to the reader's buffer. */
module Fifo {
  import opened Slots
  import opened Stage
  import opened Ring
  import opened History
  import opened Safety
  import opened Payload
  import opened Consumer

  /** `read` skips blocks with amount 0. */
  ghost function NonEmpty(ms: seq<Msg>): seq<Msg> {
    if ms == [] then [] else
      var k := |ms| - 1;
      NonEmpty(ms[..k]) + if ms[k] == [] then [] else [ms[k]]
  }

  ghost function Cuts(ms: seq<Msg>, sizes: seq<nat>): seq<Msg>
    requires |sizes| == |ms|
  {
    seq(|ms|, i requires 0 <= i < |ms| => Cut(ms[i], sizes[i]))
  }

  /** Messages whose read has returned or that have been skipped. */
  ghost function Settled(s: State, c: nat): nat
    requires c < |s.ths|
  {
    var rs := |s.h.r.phase|;
    if Reading(s.ths[c].pc) && rs > 0 then rs - 1 else rs
  }

  /** What the consumer has in hand between its claim and its return. */
  ghost predicate InHand(th: Thread, msg: Msg) {
    && (R_MIN <= th.pc <= R_COPY ==> !th.again && msg != [])
    && (th.pc == R_COPY ==> th.len == Min(|msg|, th.size))
    && (R_SET_DONE <= th.pc <= R_DECREMENT ==>
          if th.again then msg == [] else msg != [] && th.buf == Cut(msg, th.size) && th.len == |th.buf|)
    && (th.pc == R_DECREMENT ==> !th.again)
  }

  ghost predicate Hand(s: State, c: nat)
    requires c < |s.ths|
  {
    var rs := |s.h.r.phase|;
    Reading(s.ths[c].pc) ==> 0 < rs <= |s.h.msgs| && InHand(s.ths[c], s.h.msgs[rs - 1])
  }

  /** The completed reads returned the non-empty messages among the first d tickets, in order, each cut to the size
      that read asked for. */
  ghost predicate Delivered(h: Hist, d: nat) {
    && d <= |h.msgs| && |NonEmpty(h.msgs[..d])| == |h.sizes|
    && h.out == Cuts(NonEmpty(h.msgs[..d]), h.sizes)
  }

  ghost predicate DeliverInv(s: State, c: nat) {
    ConsumerInv(s, c) && Hand(s, c) && Delivered(s.h, Settled(s, c))
  }

  lemma InitDeliver(s: State, c: nat)
    requires Init(s) && c < |s.ths|
    ensures DeliverInv(s, c)
  {
    InitConsumer(s, c);
  }

  /** The consumer's local computation on the message of the block it has claimed. */
  lemma InHandExec(m: Mem, th: Thread, ch: Choice, msg: Msg)
    requires MemOk(m) && ThreadOk(m, th) && Reading(th.pc)
    requires InHand(th, msg)
    requires th.pc == R_GET_AMOUNT || th.pc == R_MIN ==> m.amount[th.blk] == |msg|
    requires th.pc == R_COPY ==> |th.buf| <= th.len && th.buf == msg[..|th.buf|]
    ensures var th' := Exec(m, th, ch).th;
      && (Reading(th'.pc) ==> InHand(th', msg))
      && (th'.pc == R_LOAD_START ==> msg == [])
  {
    hide MemOk, ThreadOk;
    if R_GET_AMOUNT <= th.pc <= R_COPY {
      hide ReturnBlock, Return;
    } else if R_SET_DONE <= th.pc <= R_SIGNAL {
      hide CopyOut, Return;
    } else {
    }
  }

  lemma OutRecord(s: State, x: nat)
    requires Sane(s) && x < |s.ths|
    ensures var h', th := Record(s, x), s.ths[x];
      && h'.out == (if th.pc == R_DECREMENT then s.h.out + [th.buf] else s.h.out)
      && h'.sizes == (if th.pc == R_DECREMENT then s.h.sizes + [th.size] else s.h.sizes)
  {
    hide MemOk, ThreadOk;
  }

  lemma NonEmptyLast(ms: seq<Msg>, k: nat)
    requires k < |ms|
    ensures NonEmpty(ms[..k + 1]) == NonEmpty(ms[..k]) + if ms[k] == [] then [] else [ms[k]]
  {
    assert ms[..k + 1][..k] == ms[..k];
  }

  lemma DeliveredGrows(h: Hist, h': Hist, d: nat)
    requires Delivered(h, d) && h.msgs <= h'.msgs && h'.out == h.out && h'.sizes == h.sizes
    ensures Delivered(h', d)
  {
    assert h'.msgs[..d] == h.msgs[..d];
  }

  /** Moving past a ticket: silently if its message is empty, with a return otherwise. */
  lemma DeliveredNext(h: Hist, h': Hist, d: nat, size: nat)
    requires Delivered(h, d) && d < |h.msgs| && h'.msgs == h.msgs
    requires if h.msgs[d] == [] then h'.out == h.out && h'.sizes == h.sizes
             else h'.out == h.out + [Cut(h.msgs[d], size)] && h'.sizes == h.sizes + [size]
    ensures Delivered(h', d + 1)
  {
    NonEmptyLast(h.msgs, d);
    var ne := NonEmpty(h.msgs[..d]);
    assert h.msgs[d] != [] ==> Cuts(ne + [h.msgs[d]], h.sizes + [size]) == Cuts(ne, h.sizes) + [Cut(h.msgs[d], size)];
  }

  lemma DeliverElsewhere(s: State, c: nat, x: nat, ch: Choice)
    requires DeliverInv(s, c) && x < |s.ths| && x != c && !Hazard(s, x)
    ensures Hand(Step(s, x, ch), c) && Delivered(Step(s, x, ch).h, Settled(Step(s, x, ch), c))
  {
    var s' := Step(s, x, ch);
    ReadSideElsewhere(s, c, x, ch);
    MessageRecord(s, x);
    assert s'.h == Record(s, x);
    DeliveredGrows(s.h, s'.h, Settled(s, c));
    hide Step, Record, StageInv, Position, Exact, DataInv, Delivered, InHand;
  }

  /** The claimed ticket is the last one, its block is full and its amount exact until the done flag is set. */
  lemma ClaimedBlock(s: State, c: nat)
    requires ConsumerInv(s, c) && R_GET_AMOUNT <= s.ths[c].pc <= R_COPY
    ensures var rs := |s.h.r.phase|;
      && rs > 0 && rs <= |s.h.msgs| && s.h.tk[c] == rs - 1
      && s.m.amount[s.ths[c].blk] == |s.h.msgs[rs - 1]|
  {
    OwnerTicket(s, c);
    ReadIsPublished(s);
    hide StageInv;
    assert Full(s.h, s.h.tk[c]);
  }

  /** The consumer's claims and steps, seen from the track of the read side. */
  lemma ConsumerTrack(s: State, c: nat, ch: Choice)
    requires Inv(s) && c < |s.ths| && !Hazard(s, c)
    ensures var k := Step(s, c, ch).h.r;
      |k.phase| == |s.h.r.phase| + if s.ths[c].pc == R_CLAIM && s.m.r.start == s.ths[c].blk then 1 else 0
  {
    QuietOrNot(s, c, ch);
    hide Step;
  }

  lemma NotYetReading(m: Mem, th: Thread, ch: Choice)
    requires MemOk(m) && ThreadOk(m, th) && !InRead(th.pc)
    ensures !Reading(Exec(m, th, ch).th.pc)
  {
    hide MemOk, ThreadOk, GetBlockWrite, CopyIn, PostBlock, Return;
  }

  lemma HandHere(s: State, c: nat, ch: Choice)
    requires DeliverInv(s, c) && !Hazard(s, c)
    ensures Hand(Step(s, c, ch), c)
  {
    hide Step, Exec, Record, StageInv, Position;
    var s', th, rs := Step(s, c, ch), s.ths[c], |s.h.r.phase|;
    StepParts(s, c, ch);
    ConsumerTrack(s, c, ch);
    HazardInTickets(s, c);
    MessageRecord(s, c);
    if InRead(th.pc) { ConsumerMoves(s.m, th, ch); } else { NotYetReading(s.m, th, ch); }
    if R_GET_AMOUNT <= th.pc <= R_COPY { ClaimedBlock(s, c); assert ReaderOk(s, c); }
    if Reading(th.pc) { InHandExec(s.m, th, ch, s.h.msgs[rs - 1]); }
  }

  /** One step of the consumer settles at most one ticket, and returns from `read` exactly when it settles a
      non-empty one. */
  lemma SettlesOne(s: State, c: nat, ch: Choice)
    requires ConsumerInv(s, c) && Hand(s, c) && !Hazard(s, c)
    ensures var h, s' := s.h, Step(s, c, ch); var h', d, d' := s'.h, Settled(s, c), Settled(s', c);
      if d' == d then h.msgs <= h'.msgs && h'.out == h.out && h'.sizes == h.sizes
      else
        && d' == d + 1 && d < |h.msgs| && h'.msgs == h.msgs
        && if h.msgs[d] == [] then h'.out == h.out && h'.sizes == h.sizes
           else h'.out == h.out + [Cut(h.msgs[d], s.ths[c].size)] && h'.sizes == h.sizes + [s.ths[c].size]
  {
    var s', th, rs := Step(s, c, ch), s.ths[c], |s.h.r.phase|;
    assert s'.h == Record(s, c) && s'.ths[c] == Exec(s.m, th, ch).th;
    hide Step, Exec, Record, StageInv, DataInv, Exact, Position;
    ConsumerTrack(s, c, ch);
    MessageRecord(s, c);
    OutRecord(s, c);
    if InRead(th.pc) { ConsumerMoves(s.m, th, ch); } else { AwareWrite(s.m, th, ch); }
    if Reading(th.pc) { InHandExecEnd(s.m, th, ch, s.h.msgs[rs - 1]); }
  }

  lemma DeliverHere(s: State, c: nat, ch: Choice)
    requires DeliverInv(s, c) && !Hazard(s, c)
    ensures var s' := Step(s, c, ch); Delivered(s'.h, Settled(s', c))
  {
    var s', d := Step(s, c, ch), Settled(s, c);
    hide Step, ConsumerInv, Hand, Settled, Delivered;
    SettlesOne(s, c, ch);
    if Settled(s', c) == d {
      DeliveredGrows(s.h, s'.h, d);
    } else {
      DeliveredNext(s.h, s'.h, d, s.ths[c].size);
    }
  }

  /** A read leaves its block either by returning it or, when it was empty, by going round again. */
  lemma InHandExecEnd(m: Mem, th: Thread, ch: Choice, msg: Msg)
    requires MemOk(m) && ThreadOk(m, th) && Reading(th.pc) && InHand(th, msg)
    ensures var th' := Exec(m, th, ch).th;
      !Reading(th'.pc) ==>
        || (th.pc == R_DECREMENT && msg != [] && th.buf == Cut(msg, th.size))
        || (th.pc == R_TAKE_FLAG && msg == [])
  {
    ConsumerMoves(m, th, ch);
    hide MemOk, ThreadOk, GetBlockRead, Return, CopyOut;
  }

  lemma DeliverKeeps(s: State, c: nat, x: nat, ch: Choice)
    requires DeliverInv(s, c) && x < |s.ths| && (ch.CallRead? ==> x == c)
    requires s.ths[x].pc == W_CLAIM ==> !Hazard(s, x)
    ensures DeliverInv(Step(s, x, ch), c)
  {
    if s.ths[x].pc != W_CLAIM { NoReadHazard(s, c, x); }
    ConsumerKeeps(s, c, x, ch);
    if x == c {
      HandHere(s, c, ch);
      DeliverHere(s, c, ch);
    } else {
      DeliverElsewhere(s, c, x, ch);
    }
    hide Step, ConsumerInv, Hand, Delivered;
  }

  lemma NoReadHazard(s: State, c: nat, x: nat)
    requires ConsumerInv(s, c) && x < |s.ths| && s.ths[x].pc != W_CLAIM
    ensures !Hazard(s, x)
  {
    hide StageInv, DataInv, Exact, Position;
    if x == c && s.ths[c].pc == R_CLAIM { ConsumerNoHazard(s, c); }
  }
}
