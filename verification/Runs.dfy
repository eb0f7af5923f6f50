/** The theorems over whole runs, from the start state. */
module Runs {
  import opened Slots
  import opened Stage
  import opened Ring
  import opened History
  import opened Safety
  import opened Payload
  import opened Completion
  import opened Consumer
  import opened Fifo
  import opened Queue
  import opened Wakeup

  /** Only thread c ever calls `read`. */
  predicate OnlyReader(sched: Schedule, c: nat) {
    forall i :: 0 <= i < |sched| && sched[i].1.CallRead? ==> sched[i].0 == c
  }

  ghost predicate QueueInv(s: State, c: nat) {
    DeliverInv(s, c) && OrderInv(s) && CountInv(s) && DataWakes(s, c)
  }

  lemma InitQueue(s: State, c: nat)
    requires Init(s) && c < |s.ths|
    ensures QueueInv(s, c)
  {
    InitDeliver(s, c);
    assert Writers(s.ths) == {};
    hide Inv, DataInv, Exact, Position;
  }

  /** One step, with one consumer: nothing breaks but the window, and that exactly by a producer's claim on a full ring.
      What such a claim does to the queue later is shown by `Limits.LapLosesMessages`. */
  lemma QueueKeeps(s: State, c: nat, x: nat, ch: Choice)
    requires QueueInv(s, c) && x < |s.ths| && (ch.CallRead? ==> x == c)
    ensures QueueInv(Step(s, x, ch), c) <==> !Hazard(s, x)
    ensures Window(Step(s, x, ch)) <==> !Hazard(s, x)
    ensures Hazard(s, x) ==> s.ths[x].pc == W_CLAIM
  {
    hide Step, StageInv, DataInv, Exact, Position, Hand, Delivered, OrderInv, CountInv, DataWakes, Aware;
    if s.ths[x].pc != W_CLAIM { NoReadHazard(s, c, x); }
    if Hazard(s, x) {
      StepKeeps(s, x, ch);
    } else {
      DeliverKeeps(s, c, x, ch);
      OrderKeeps(s, x, ch);
      CountKeeps(s, x, ch);
      DataWakesKeeps(s, c, x, ch);
    }
  }

  lemma {:induction false} QueueRun(s: State, sched: Schedule, c: nat)
    requires QueueInv(s, c) && Runs(sched, |s.ths|) && OnlyReader(sched, c) && Clean(s, sched)
    ensures QueueInv(Run(s, sched), c)
    decreases |sched|
  {
    hide Step, ConsumerInv, Hand, Delivered, CountInv, DataWakes, InOrder, Hazard;
    if sched == [] {
    } else {
      var k := |sched| - 1;
      QueueRun(s, sched[..k], c);
      QueueKeeps(Run(s, sched[..k]), c, sched[k].0, sched[k].1);
    }
  }

  /** What the completed reads have returned is the sequence of non-empty messages in claim order, each cut to the
      block and to the reader's buffer, up to the ticket the consumer is working on; the rest is still in flight. */
  ghost predicate DeliversInOrder(h: Hist, d: nat) {
    && d <= |h.msgs|
    && |NonEmpty(h.msgs[..d])| == |h.sizes| && h.out == Cuts(NonEmpty(h.msgs[..d]), h.sizes)
    && NonEmpty(h.msgs) == NonEmpty(h.msgs[..d]) + NonEmpty(h.msgs[d..])
  }

  /** The published part of what is in flight is what shared memory holds. */
  ghost predicate MemoryIsQueue(m: Mem, h: Hist)
    requires MemOk(m)
  {
    && |h.r.phase| <= h.w.end <= |h.msgs| == |h.w.phase|
    && Walk(m, m.r.start, |m.next|) == Waiting(h) && |Waiting(h)| < |m.next|
  }

  /** The FIFO theorem: any number of producers, one consumer, any interleaving.  Each producer's messages appear in
      the order of its calls, and no wakeup of the consumer is lost. */
  lemma FifoTheorem(s0: State, sched: Schedule, c: nat)
    requires Init(s0) && Runs(sched, |s0.ths|) && c < |s0.ths| && OnlyReader(sched, c) && Clean(s0, sched)
    ensures var s := Run(s0, sched);
      && Inv(s) && DeliversInOrder(s.h, Settled(s, c)) && MemoryIsQueue(s.m, s.h)
      && OrderInv(s) && DataWakes(s, c)
  {
    InitQueue(s0, c);
    QueueRun(s0, sched, c);
    var s := Run(s0, sched);
    hide Run, Step, Position, Exact, StageInv, OrderInv, CountInv, DataWakes;
    NonEmptySplit(s.h.msgs, Settled(s, c));
    MemoryHoldsQueue(s, c);
    QueueBounds(s, c);
  }

  /** The same under the assumption the program relies on: no thread sleeps between its load of a start cursor and
      its claim while that cursor goes round the ring. */
  lemma PromptFifo(s0: State, sched: Schedule, c: nat)
    requires Init(s0) && Runs(sched, |s0.ths|) && c < |s0.ths| && OnlyReader(sched, c) && Prompt(s0, sched)
    ensures var s := Run(s0, sched);
      Inv(s) && DeliversInOrder(s.h, Settled(s, c)) && MemoryIsQueue(s.m, s.h) && OrderInv(s) && DataWakes(s, c)
  {
    hide Run, Inv, DeliversInOrder, MemoryIsQueue, OrderInv, DataWakes, Clean, Prompt;
    InitInv(s0);
    PromptIsClean(s0, sched);
    FifoTheorem(s0, sched, c);
  }

  ghost predicate AllIdle(s: State) {
    forall x :: 0 <= x < |s.ths| ==> s.ths[x].pc == IDLE
  }

  ghost function Empties(ms: seq<Msg>): nat {
    if ms == [] then 0 else Empties(ms[..|ms| - 1]) + if ms[|ms| - 1] == [] then 1 else 0
  }

  lemma {:induction false} EmptiesCount(ms: seq<Msg>)
    ensures |NonEmpty(ms)| + Empties(ms) == |ms|
  {
    if ms != [] {
      EmptiesCount(ms[..|ms| - 1]);
    }
  }

  lemma CountAtRest(s: State, c: nat)
    requires QueueInv(s, c) && AllIdle(s)
    ensures var h := s.h; var rs := |h.r.phase|;
      && s.m.count == (|h.w.phase| - rs + Empties(h.msgs[..rs])) % COUNT_RANGE
      && (Empties(h.msgs[..rs]) == 0 && h.w.end == |h.w.phase| ==> s.m.count == |Waiting(h)| % COUNT_RANGE)
  {
    hide NonEmpty, Empties, OrderInv, DataWakes, Hand, StageInv, DataInv, Exact, Position, Aware;
    assert Writers(s.ths) == {};
    QueueBounds(s, c);
    var rs := |s.h.r.phase|;
    assert Settled(s, c) == rs;
    EmptiesCount(s.h.msgs[..rs]);
    assert |s.h.out| == |NonEmpty(s.h.msgs[..rs])|;
  }

  /** One consumer, no late claim.  When no call is in progress, m_msgCount is the number of claimed tickets the reader
      has not claimed plus the number of empty messages it skipped, on 32 bits.  Every ticket is published if and only
      if no compare-and-swap on m_writeEnd has failed; without empty messages the count is then the length of the
      queue. */
  lemma CountTheorem(s0: State, sched: Schedule, c: nat)
    requires Init(s0) && Runs(sched, |s0.ths|) && c < |s0.ths| && OnlyReader(sched, c) && Clean(s0, sched)
    requires AllIdle(Run(s0, sched))
    ensures var s := Run(s0, sched); var h, rs := s.h, |s.h.r.phase|;
      && rs <= h.w.end <= |h.w.phase| == |h.msgs|
      && s.m.count == (|h.w.phase| - rs + Empties(h.msgs[..rs])) % COUNT_RANGE
      && (h.w.end == |h.w.phase| <==> Unfailing(s0, sched, true))
      && (Unfailing(s0, sched, true) && Empties(h.msgs[..rs]) == 0 ==> s.m.count == |Waiting(h)| % COUNT_RANGE)
  {
    hide Run, Step, Unfailing, Clean, ConsumerInv, Hand, Delivered, OrderInv, CountInv, DataWakes, Empties;
    var s := Run(s0, sched);
    InitQueue(s0, c);
    QueueRun(s0, sched, c);
    QueueBounds(s, c);
    CountAtRest(s, c);
    StrandingExactly(s0, sched, true);
  }

  // ----- one producer, any number of consumers

  /** Only thread p ever calls `write`. */
  predicate OnlyWriter(sched: Schedule, p: nat) {
    forall i :: 0 <= i < |sched| && sched[i].1.CallWrite? ==> sched[i].0 == p
  }

  lemma {:induction false} RoomRun(s: State, sched: Schedule, p: nat)
    requires ProducerInv(s, p) && RoomWakes(s, p)
    requires Runs(sched, |s.ths|) && OnlyWriter(sched, p) && Clean(s, sched)
    ensures ProducerInv(Run(s, sched), p) && RoomWakes(Run(s, sched), p)
    decreases |sched|
  {
    hide Step, StageInv, Aware, Current, RoomWakes, Hazard, SoleProducer;
    if sched == [] {
    } else {
      var k := |sched| - 1;
      RoomRun(s, sched[..k], p);
      ProducerKeeps(Run(s, sched[..k]), p, sched[k].0, sched[k].1);
      RoomWakesKeeps(Run(s, sched[..k]), p, sched[k].0, sched[k].1);
    }
  }

  /** No lost wakeup for one producer waiting for room, any number of consumers, any interleaving without a late claim. */
  lemma RoomTheorem(s0: State, sched: Schedule, p: nat)
    requires Init(s0) && Runs(sched, |s0.ths|) && p < |s0.ths| && OnlyWriter(sched, p) && Clean(s0, sched)
    ensures Inv(Run(s0, sched)) && RoomWakes(Run(s0, sched), p)
  {
    InitInv(s0);
    hide Run, RoomWakes, Inv, Current, Clean;
    ProducerStart(s0, p);
    RoomRun(s0, sched, p);
  }

  lemma ProducerStart(s: State, p: nat)
    requires Init(s) && Inv(s) && p < |s.ths|
    ensures ProducerInv(s, p) && RoomWakes(s, p)
  {
    hide Inv;
  }

  // ----- one producer, one consumer: no assumption at all

  ghost predicate PairInv(s: State, p: nat, c: nat) {
    QueueInv(s, c) && ProducerInv(s, p) && RoomWakes(s, p) && Orderly(s) && Attended(s)
  }

  /** Only p calls `write` and only c calls `read`. */
  predicate PairSchedule(sched: Schedule, p: nat, c: nat) {
    forall i :: 0 <= i < |sched| ==>
      (sched[i].1.CallWrite? ==> sched[i].0 == p) && (sched[i].1.CallRead? ==> sched[i].0 == c)
  }

  lemma PairSafe(s: State, p: nat, c: nat, x: nat)
    requires PairInv(s, p, c) && x < |s.ths|
    ensures !Hazard(s, x) && !StaleTake(s.m, s.ths[x])
  {
    if s.ths[x].pc != W_CLAIM { NoReadHazard(s, c, x); } else { ProducerNoHazard(s, p); }
    hide StageInv, DataInv, Exact, Hand, Delivered, OrderInv, CountInv, DataWakes, RoomWakes, Orderly, Attended;
  }

  lemma PairKeeps(s: State, p: nat, c: nat, x: nat, ch: Choice)
    requires PairInv(s, p, c) && x < |s.ths| && (ch.CallWrite? ==> x == p) && (ch.CallRead? ==> x == c)
    ensures PairInv(Step(s, x, ch), p, c)
  {
    hide Step, StageInv, QueueInv, RoomWakes, Orderly, Attended, Current, Aware;
    PairSafe(s, p, c, x);
    QueueKeeps(s, c, x, ch);
    ProducerKeeps(s, p, x, ch);
    RoomWakesKeeps(s, p, x, ch);
    OrderlyKeeps(s, x, ch);
    AttendedKeeps(s, x, ch);
  }

  lemma {:induction false} PairRun(s: State, sched: Schedule, p: nat, c: nat)
    requires PairInv(s, p, c) && Runs(sched, |s.ths|) && PairSchedule(sched, p, c)
    ensures PairInv(Run(s, sched), p, c) && Clean(s, sched)
    decreases |sched|
  {
    hide Step, QueueInv, RoomWakes, Orderly, Attended, Current, Hazard;
    if sched == [] {
    } else {
      var k := |sched| - 1;
      PairRun(s, sched[..k], p, c);
      PairSafe(Run(s, sched[..k]), p, c, sched[k].0);
      PairKeeps(Run(s, sched[..k]), p, c, sched[k].0, sched[k].1);
    }
  }

  /** One producer and one consumer, every interleaving, however long either stalls: FIFO delivery, no lost wakeup on
      either side, and when both are idle every message is published and the count is exact. */
  lemma PairTheorem(s0: State, sched: Schedule, p: nat, c: nat)
    requires Init(s0) && Runs(sched, |s0.ths|) && p < |s0.ths| && c < |s0.ths| && PairSchedule(sched, p, c)
    ensures var s := Run(s0, sched);
      && PairInv(s, p, c) && DeliversInOrder(s.h, Settled(s, c)) && MemoryIsQueue(s.m, s.h)
      && (AllIdle(s) ==> s.h.w.end == |s.h.w.phase| && s.h.r.end == |s.h.r.phase|)
  {
    InitPair(s0, p, c);
    PairRun(s0, sched, p, c);
    FifoTheorem(s0, sched, c);
    hide Run, QueueInv, ProducerInv, RoomWakes, Inv, Attended, DeliversInOrder, MemoryIsQueue;
    if AllIdle(Run(s0, sched)) {
      Quiescent(Run(s0, sched), true);
      Quiescent(Run(s0, sched), false);
    }
  }

  lemma InitPair(s: State, p: nat, c: nat)
    requires Init(s) && p < |s.ths| && c < |s.ths|
    ensures PairInv(s, p, c)
  {
    InitQueue(s, c);
    hide QueueInv, Attended, Inv;
    InitAttended(s);
  }
}
