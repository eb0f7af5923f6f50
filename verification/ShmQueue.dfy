/** The shared buffer as an object that threads update in place, one atomic statement per call. */
module ShmQueue {
  import opened Slots
  import opened Stage
  import opened Ring
  import opened History

  datatype Block = Block(next: nat, prev: nat, doneRead: bool, doneWrite: bool, amount: nat, data: Msg)

  function Nexts(bs: seq<Block>): seq<nat> { seq(|bs|, i requires 0 <= i < |bs| => bs[i].next) }
  function Prevs(bs: seq<Block>): seq<nat> { seq(|bs|, i requires 0 <= i < |bs| => bs[i].prev) }
  function DoneReads(bs: seq<Block>): seq<bool> { seq(|bs|, i requires 0 <= i < |bs| => bs[i].doneRead) }
  function DoneWrites(bs: seq<Block>): seq<bool> { seq(|bs|, i requires 0 <= i < |bs| => bs[i].doneWrite) }
  function Amounts(bs: seq<Block>): seq<nat> { seq(|bs|, i requires 0 <= i < |bs| => bs[i].amount) }
  function Datas(bs: seq<Block>): seq<Msg> { seq(|bs|, i requires 0 <= i < |bs| => bs[i].data) }

  lemma BlockStore(bs: seq<Block>, b: nat, v: Block)
    requires b < |bs|
    ensures Nexts(bs[b := v]) == Nexts(bs)[b := v.next] && Prevs(bs[b := v]) == Prevs(bs)[b := v.prev]
    ensures DoneReads(bs[b := v]) == DoneReads(bs)[b := v.doneRead]
        && DoneWrites(bs[b := v]) == DoneWrites(bs)[b := v.doneWrite]
    ensures Amounts(bs[b := v]) == Amounts(bs)[b := v.amount] && Datas(bs[b := v]) == Datas(bs)[b := v.data]
  {
  }

  class MemBuff {
    const blockSize: nat
    const blocks: array<Block>
    var msgCount: nat
    var readEnd: nat
    var readStart: nat
    var writeEnd: nat
    var writeStart: nat
    var signal: bool
    var avail: bool

    ghost function Memory(): Mem
      reads this, blocks
    {
      var bs := blocks[..];
      Mem(blockSize, Nexts(bs), Prevs(bs),
          Side(writeStart, writeEnd, DoneWrites(bs)), Side(readStart, readEnd, DoneReads(bs)),
          Amounts(bs), Datas(bs), msgCount, signal, avail)
    }

    ghost predicate Valid()
      reads this, blocks
    {
      MemOk(Memory())
    }

    /** The initialisation loop of `create`, on zeroed memory. */
    constructor Create(n: nat, blockSize: nat)
      requires n >= 2
      ensures fresh(blocks) && StartMem(Memory())
      ensures |Memory().next| == n && Memory().blockSize == blockSize
    {
      this.blockSize := blockSize;
      var zero := Block(0, 0, false, false, 0, seq(blockSize, _ => 0));
      var bs := new Block[n](_ => zero);
      bs[0] := bs[0].(next := 1, prev := n - 1);
      var i := 1;
      while i < n - 1
        invariant 1 <= i <= n - 1
        invariant forall j :: 0 <= j < i ==> bs[j] == zero.(next := Succ(j, n), prev := Pred(j, n))
        invariant forall j :: i <= j < n ==> bs[j] == zero
      {
        bs[i] := bs[i].(next := i + 1, prev := i - 1);
        i := i + 1;
      }
      bs[i] := bs[i].(next := 0, prev := n - 2);
      blocks := bs;
      msgCount := 0;
      readEnd, readStart, writeEnd, writeStart := 0, 0, 0, 0;
      signal, avail := false, false;
    }

    method GetBlockWriteStep(th: Thread, ch: Choice) returns (t: Thread)
      requires Valid() && ThreadOk(Memory(), th) && W_LOAD_START <= th.pc <= W_CLAIM
      modifies this
      ensures View(Memory(), t) == GetBlockWrite(old(Memory()), th, ch)
    {
      if th.pc == W_LOAD_START {
        t := th.(blk := writeStart, pc := W_CHECK_ROOM);
      } else if th.pc == W_CHECK_ROOM {
        t := th.(pc := if blocks[th.blk].next == readEnd then W_WAIT_TEST else W_CLAIM);
      } else if th.pc == W_WAIT_TEST {
        t := th.(woke := avail, pc := if avail then W_WAIT_CLEAR else W_WAIT_LOOP);
      } else if th.pc == W_WAIT_LOOP {
        if ch.TimeOut? {
          t := th.(woke := false, pc := W_WAIT_CLEAR);
        } else {
          t := if avail then th.(woke := true, pc := W_WAIT_CLEAR) else th;
        }
      } else if th.pc == W_WAIT_CLEAR {
        avail := false;
        t := if th.woke then th.(pc := W_LOAD_START) else th.(ret := 0, pc := IDLE);
      } else if writeStart == th.blk {
        writeStart := blocks[th.blk].next;
        t := th.(len := Min(|th.buf|, blockSize), k := 0, pc := W_COPY);
      } else {
        t := th.(pc := W_LOAD_START);
      }
    }

    method CopyInStep(th: Thread) returns (t: Thread)
      requires Valid() && ThreadOk(Memory(), th) && th.pc == W_COPY
      modifies blocks
      ensures View(Memory(), t) == CopyIn(old(Memory()), th)
    {
      var b := th.blk;
      ghost var was := blocks[..];
      assert |Datas(was)[b]| == blockSize;
      if th.k < th.len {
        blocks[b] := blocks[b].(data := blocks[b].data[th.k := th.buf[th.k]]);
        t := th.(k := th.k + 1);
      } else {
        blocks[b] := blocks[b].(amount := th.len);
        t := th.(pc := W_SET_DONE);
      }
      BlockStore(was, b, blocks[b]);
      Untouched(was, b);
      assert blocks[..] == was[b := blocks[b]];
    }

    method PostBlockStep(th: Thread) returns (t: Thread)
      requires Valid() && ThreadOk(Memory(), th) && W_SET_DONE <= th.pc <= W_SIGNAL
      modifies this, blocks
      ensures View(Memory(), t) == PostBlock(old(Memory()), th)
    {
      var b := th.blk;
      ghost var was := blocks[..];
      Untouched(was, b);
      if th.pc == W_SET_DONE {
        blocks[b] := blocks[b].(doneWrite := true);
        t := th.(pc := W_LOAD_END);
      } else if th.pc == W_LOAD_END {
        t := th.(blk := writeEnd, pc := W_TAKE_FLAG);
      } else if th.pc == W_TAKE_FLAG {
        if blocks[b].doneWrite {
          blocks[b] := blocks[b].(doneWrite := false);
          t := th.(pc := W_MOVE_END);
        } else {
          t := th.(pc := W_INCREMENT);
        }
      } else if th.pc == W_MOVE_END {
        if writeEnd == b { writeEnd := blocks[b].next; }
        t := th.(pc := W_TEST_SIGNAL);
      } else if th.pc == W_TEST_SIGNAL {
        t := th.(pc := if b == readStart then W_SIGNAL else W_LOAD_END);
      } else {
        signal := true;
        t := th.(pc := W_LOAD_END);
      }
      assert blocks[..] == was[b := blocks[b]];
      BlockStore(was, b, blocks[b]);
    }

    method GetBlockReadStep(th: Thread, ch: Choice) returns (t: Thread)
      requires Valid() && ThreadOk(Memory(), th) && R_LOAD_START <= th.pc <= R_CLAIM
      modifies this
      ensures View(Memory(), t) == GetBlockRead(old(Memory()), th, ch)
    {
      if th.pc == R_LOAD_START {
        t := th.(blk := readStart, pc := R_CHECK_EMPTY);
      } else if th.pc == R_CHECK_EMPTY {
        if th.blk == writeEnd {
          t := if th.timed then th.(pc := R_WAIT_TEST) else th.(ret := 0, pc := IDLE);
        } else {
          t := th.(pc := R_CLAIM);
        }
      } else if th.pc == R_WAIT_TEST {
        t := th.(woke := signal, pc := if signal then R_WAIT_CLEAR else R_WAIT_LOOP);
      } else if th.pc == R_WAIT_LOOP {
        if ch.TimeOut? {
          t := th.(woke := false, pc := R_WAIT_CLEAR);
        } else {
          t := if signal then th.(woke := true, pc := R_WAIT_CLEAR) else th;
        }
      } else if th.pc == R_WAIT_CLEAR {
        signal := false;
        t := if th.woke then th.(pc := R_LOAD_START) else th.(ret := 0, pc := IDLE);
      } else if readStart == th.blk {
        readStart := blocks[th.blk].next;
        t := th.(pc := R_GET_AMOUNT);
      } else {
        t := th.(pc := R_LOAD_START);
      }
    }

    method CopyOutStep(th: Thread) returns (t: Thread)
      requires Valid() && ThreadOk(Memory(), th) && R_GET_AMOUNT <= th.pc <= R_COPY
      ensures t == CopyOut(Memory(), th).th
    {
      var b := th.blk;
      if th.pc == R_GET_AMOUNT {
        var amount := blocks[b].amount;
        t := th.(again := amount == 0, pc := if amount == 0 then R_SET_DONE else R_MIN);
      } else if th.pc == R_MIN {
        t := th.(len := Min(blocks[b].amount, th.size), buf := [], pc := R_COPY);
      } else if |th.buf| < th.len {
        assert |Datas(blocks[..])[b]| == blockSize;
        t := th.(buf := th.buf + [blocks[b].data[|th.buf|]]);
      } else {
        t := th.(pc := R_SET_DONE);
      }
    }

    method ReturnBlockStep(th: Thread) returns (t: Thread)
      requires Valid() && ThreadOk(Memory(), th) && R_SET_DONE <= th.pc <= R_SIGNAL
      modifies this, blocks
      ensures View(Memory(), t) == ReturnBlock(old(Memory()), th)
    {
      var b := th.blk;
      ghost var was := blocks[..];
      Untouched(was, b);
      if th.pc == R_SET_DONE {
        blocks[b] := blocks[b].(doneRead := true);
        t := th.(pc := R_CLEAR_AMOUNT);
      } else if th.pc == R_CLEAR_AMOUNT {
        blocks[b] := blocks[b].(amount := 0);
        t := th.(pc := R_LOAD_END);
      } else if th.pc == R_LOAD_END {
        t := th.(blk := readEnd, pc := R_TAKE_FLAG);
      } else if th.pc == R_TAKE_FLAG {
        if blocks[b].doneRead {
          blocks[b] := blocks[b].(doneRead := false);
          t := th.(pc := R_MOVE_END);
        } else {
          t := th.(pc := if th.again then R_LOAD_START else R_DECREMENT);
        }
      } else if th.pc == R_MOVE_END {
        if readEnd == b { readEnd := blocks[b].next; }
        t := th.(pc := R_TEST_SIGNAL);
      } else if th.pc == R_TEST_SIGNAL {
        t := th.(pc := if blocks[b].prev == writeStart then R_SIGNAL else R_LOAD_END);
      } else {
        avail := true;
        t := th.(pc := R_LOAD_END);
      }
      assert blocks[..] == was[b := blocks[b]];
      BlockStore(was, b, blocks[b]);
    }

    /** A store to one field leaves the lists of the other fields as they were. */
    lemma Untouched(was: seq<Block>, b: nat)
      requires b < |was|
      ensures Nexts(was)[b := was[b].next] == Nexts(was) && Prevs(was)[b := was[b].prev] == Prevs(was)
      ensures DoneReads(was)[b := was[b].doneRead] == DoneReads(was)
      ensures DoneWrites(was)[b := was[b].doneWrite] == DoneWrites(was)
      ensures Amounts(was)[b := was[b].amount] == Amounts(was) && Datas(was)[b := was[b].data] == Datas(was)
    {
    }

    /** `incrementCount` and `decrementCount`. */
    method ReturnStep(th: Thread) returns (t: Thread)
      requires Valid() && ThreadOk(Memory(), th) && (th.pc == W_INCREMENT || th.pc == R_DECREMENT)
      modifies this
      ensures View(Memory(), t) == Return(old(Memory()), th)
    {
      if th.pc == W_INCREMENT {
        msgCount := (msgCount + 1) % COUNT_RANGE;
      } else {
        msgCount := (msgCount + COUNT_RANGE - 1) % COUNT_RANGE;
      }
      t := th.(ret := th.len, pc := IDLE);
    }

    /** The next atomic statement of a thread. */
    method Execute(th: Thread, ch: Choice) returns (t: Thread)
      requires Valid() && ThreadOk(Memory(), th)
      modifies this, blocks
      ensures Valid() && View(Memory(), t) == Exec(old(Memory()), th, ch)
    {
      if W_LOAD_START <= th.pc <= W_CLAIM {
        t := GetBlockWriteStep(th, ch);
      } else if th.pc == W_COPY {
        t := CopyInStep(th);
      } else if W_SET_DONE <= th.pc <= W_SIGNAL {
        t := PostBlockStep(th);
      } else if R_LOAD_START <= th.pc <= R_CLAIM {
        t := GetBlockReadStep(th, ch);
      } else if R_GET_AMOUNT <= th.pc <= R_COPY {
        t := CopyOutStep(th);
      } else if R_SET_DONE <= th.pc <= R_SIGNAL {
        t := ReturnBlockStep(th);
      } else if th.pc == W_INCREMENT || th.pc == R_DECREMENT {
        t := ReturnStep(th);
      } else {
        t := StartCall(th, ch);
      }
    }
  }

  /** Runs any number of threads under any schedule on the object. */
  method Interleave(buff: MemBuff, start: seq<Thread>, sched: Schedule) returns (ths: seq<Thread>)
    requires Init(StartState(buff.Memory(), start)) && Runs(sched, |start|)
    modifies buff, buff.blocks
    ensures buff.Valid() && |ths| == |start|
    ensures var s := Run(old(StartState(buff.Memory(), start)), sched); buff.Memory() == s.m && ths == s.ths
  {
    ths := start;
    ghost var s0 := StartState(buff.Memory(), start);
    var i := 0;
    while i < |sched|
      invariant 0 <= i <= |sched| && Runs(sched[..i], |s0.ths|)
      invariant buff.Memory() == Run(s0, sched[..i]).m && ths == Run(s0, sched[..i]).ths
    {
      var (x, ch) := sched[i];
      ghost var s := Run(s0, sched[..i]);
      assert Sane(s);
      var t := buff.Execute(ths[x], ch);
      ths := ths[x := t];
      assert sched[..i + 1][..i] == sched[..i];
      assert Run(s0, sched[..i + 1]) == Step(s, x, ch);
      i := i + 1;
    }
    assert sched[..i] == sched;
  }
}
