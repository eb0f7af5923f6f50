/** The ring with its two events opened up: WaitForEvent and SetEvent take the statements of events.h one at a time,
    between the statements of all other threads. */
module RingWait {
  import opened Ring
  import opened History
  import opened Safety
  import opened Wakeup
  import opened Runs
  import opened Consumer
  import opened Fifo
  import opened Queue
  import E = Events

  /** m_signal, on which consumers wait for data, and m_avail, on which producers wait for room. */
  datatype Site = Data | Room

  // where the ring uses each event: the three parts of its WaitForEvent, what follows a successful wait, its SetEvent,
  // and what follows that

  function TestAt(site: Site): Pc { if site.Data? then R_WAIT_TEST else W_WAIT_TEST }
  function LoopAt(site: Site): Pc { if site.Data? then R_WAIT_LOOP else W_WAIT_LOOP }
  function ClearAt(site: Site): Pc { if site.Data? then R_WAIT_CLEAR else W_WAIT_CLEAR }
  function RetryAt(site: Site): Pc { if site.Data? then R_LOAD_START else W_LOAD_START }
  function SetAt(site: Site): Pc { if site.Data? then W_SIGNAL else R_SIGNAL }
  function AfterAt(site: Site): Pc { if site.Data? then W_LOAD_END else R_LOAD_END }

  function Flag(m: Mem, site: Site): bool {
    if site.Data? then m.signal else m.avail
  }

  predicate AtEvent(pc: Pc, site: Site) {
    pc == TestAt(site) || pc == LoopAt(site) || pc == ClearAt(site) || pc == SetAt(site)
  }

  predicate Enters(pc: Pc, site: Site) {
    pc == TestAt(site) || pc == SetAt(site)
  }

  /** Where a thread of the ring is while it executes a statement of events.h. */
  predicate Aligned(th: Thread, et: E.Thread, site: Site) {
    if et.pc == E.IDLE then th.pc != LoopAt(site) && th.pc != ClearAt(site)
    else if et.pc <= E.S_CAS then th.pc == SetAt(site)
    else if et.pc <= E.S_UNLOCK then th.pc == AfterAt(site)
    else if et.pc == E.T_LOOK then th.pc == TestAt(site)
    else if et.pc <= E.T_WOKEN then th.pc == LoopAt(site)
    else if et.pc <= E.C_CAS then th.pc == ClearAt(site) && th.woke == et.ok
    else th.woke == et.ok && th.pc == if et.ok then RetryAt(site) else IDLE
  }

  /** The flag of the ring is the state_ of the event, and every thread is in step with it. */
  ghost predicate Coupled(s: State, event: E.State, site: Site) {
    && Sane(s) && |event.ths| == |s.ths| && event.locked && Flag(s.m, site) == event.state
    && (forall x :: 0 <= x < |s.ths| ==> Aligned(s.ths[x], event.ths[x], site))
  }

  // ----- one event

  datatype Pair = Pair(ring: State, event: E.State)

  /** Thread x, inside WaitForEvent or SetEvent or entering it, executes its next statement there. */
  function EventMove(s: State, event: E.State, x: nat, ec: E.Choice, site: Site): Pair
    requires Sane(s) && x < |s.ths| == |event.ths|
  {
    var et := event.ths[x];
    if et.pc == E.IDLE then
      Pair(s, E.Step(event, x, if s.ths[x].pc == TestAt(site) then E.CallWait else E.CallSet))
    else
      var event' := E.Step(event, x, ec);
      if et.pc == E.S_CAS || et.pc == E.T_LOOK || et.pc == E.C_CAS then Pair(Step(s, x, Go), event')
      else if et.pc == E.T_CHECK && event'.ths[x].pc == E.T_UNLOCK then
        Pair(Step(s, x, if et.ok then Go else TimeOut), event')
      else Pair(s, event')
  }

  lemma OutsideData(m: Mem, th: Thread, ch: Choice)
    requires MemOk(m) && ThreadOk(m, th) && th.pc != W_SIGNAL && !(R_WAIT_TEST <= th.pc <= R_WAIT_CLEAR)
    ensures var r := Exec(m, th, ch); r.m.signal == m.signal && r.th.pc != R_WAIT_LOOP && r.th.pc != R_WAIT_CLEAR
  {
    hide MemOk, ThreadOk, GetBlockWrite, CopyIn, CopyOut, ReturnBlock, Return;
  }

  lemma OutsideRoom(m: Mem, th: Thread, ch: Choice)
    requires MemOk(m) && ThreadOk(m, th) && th.pc != R_SIGNAL && !(W_WAIT_TEST <= th.pc <= W_WAIT_CLEAR)
    ensures var r := Exec(m, th, ch); r.m.avail == m.avail && r.th.pc != W_WAIT_LOOP && r.th.pc != W_WAIT_CLEAR
  {
    hide MemOk, ThreadOk, GetBlockRead, CopyIn, CopyOut, PostBlock, Return;
  }

  /** Outside the event, a statement of the ring neither touches its flag nor enters its wait. */
  lemma OutsideEvent(m: Mem, th: Thread, ch: Choice, site: Site)
    requires MemOk(m) && ThreadOk(m, th) && !AtEvent(th.pc, site)
    ensures var r := Exec(m, th, ch); Flag(r.m, site) == Flag(m, site) && r.th.pc != LoopAt(site) && r.th.pc != ClearAt(site)
  {
    hide Exec, MemOk, ThreadOk;
    if site.Data? { OutsideData(m, th, ch); } else { OutsideRoom(m, th, ch); }
  }

  /** The atomic event statements of the ring, without the set. */
  lemma InsideWait(m: Mem, th: Thread, ch: Choice, site: Site)
    requires MemOk(m) && ThreadOk(m, th) && (th.pc == TestAt(site) || th.pc == LoopAt(site) || th.pc == ClearAt(site))
    ensures var r := Exec(m, th, ch);
      && (th.pc == TestAt(site) ==>
            && Flag(r.m, site) == Flag(m, site) && r.th.woke == Flag(m, site)
            && r.th.pc == if Flag(m, site) then ClearAt(site) else LoopAt(site))
      && (th.pc == LoopAt(site) && (Flag(m, site) || ch.TimeOut?) ==>
            Flag(r.m, site) == Flag(m, site) && r.th.woke == !ch.TimeOut? && r.th.pc == ClearAt(site))
      && (th.pc == ClearAt(site) ==>
            !Flag(r.m, site) && r.th.woke == th.woke && r.th.pc == if th.woke then RetryAt(site) else IDLE)
  {
    hide MemOk, ThreadOk, CopyIn, CopyOut, PostBlock, ReturnBlock, Return;
  }

  lemma InsideSet(m: Mem, th: Thread, ch: Choice, site: Site)
    requires MemOk(m) && ThreadOk(m, th) && th.pc == SetAt(site)
    ensures Flag(Exec(m, th, ch).m, site) && Exec(m, th, ch).th.pc == AfterAt(site)
  {
    hide MemOk, ThreadOk, CopyIn, CopyOut, GetBlockRead, GetBlockWrite, Return;
  }

  /** Only the set, the clear and the two looks at state_ matter to the ring. */
  lemma EventStep(s: E.State, x: nat, ec: E.Choice)
    requires x < |s.ths| && s.locked && s.ths[x].pc != E.IDLE
    ensures var s', et := E.Step(s, x, ec), s.ths[x]; var et' := s'.ths[x];
      && s'.state == (if et.pc == E.S_CAS then true else if et.pc == E.C_CAS then false else s.state)
      && (et.pc == E.S_LOCK ==> et'.pc == E.S_LOCK || et'.pc == E.S_CAS)
      && (et.pc == E.S_CAS ==> et'.pc == E.S_NOTIFY)
      && (et.pc == E.S_NOTIFY ==> et'.pc == E.S_UNLOCK) && (et.pc == E.S_UNLOCK ==> et'.pc == E.IDLE)
      && (et.pc == E.T_LOOK ==> et'.ok && et'.pc == if s.state then E.C_LOCK else E.T_LOCK)
      && (E.T_LOCK <= et.pc <= E.T_WOKEN ==>
            || E.T_LOCK <= et'.pc <= E.T_WOKEN
            || (et.pc == E.T_CHECK && et'.pc == E.T_UNLOCK && et'.ok == et.ok && (et.ok ==> s.state)))
      && (et.pc == E.T_UNLOCK ==> et'.pc == E.C_LOCK && et'.ok == et.ok)
      && (et.pc == E.C_LOCK ==> (et'.pc == E.C_LOCK || et'.pc == E.C_CAS) && et'.ok == et.ok)
      && (et.pc == E.C_CAS ==> et'.pc == E.C_UNLOCK && et'.ok == et.ok)
      && (et.pc == E.C_UNLOCK ==> et'.pc == E.IDLE)
  {
  }

  lemma CallEvent(s: E.State, x: nat)
    requires x < |s.ths| && s.locked && s.ths[x].pc == E.IDLE
    ensures E.Step(s, x, E.CallWait).ths[x].pc == E.T_LOOK && E.Step(s, x, E.CallWait).state == s.state
    ensures E.Step(s, x, E.CallSet).ths[x].pc == E.S_LOCK && E.Step(s, x, E.CallSet).state == s.state
  {
  }

  /** A step of one thread moves others at most from blocked to woken. */
  lemma OthersAligned(s: E.State, x: nat, ec: E.Choice, y: nat, th: Thread, site: Site)
    requires x < |s.ths| && y < |s.ths| && x != y && Aligned(th, s.ths[y], site)
    ensures Aligned(th, E.Step(s, x, ec).ths[y], site)
    ensures s.ths[y].pc == E.IDLE <==> E.Step(s, x, ec).ths[y].pc == E.IDLE
  {
  }

  /** A statement outside the event keeps the ring in step with it. */
  lemma OutsideKeeps(s: State, event: E.State, x: nat, ch: Choice, site: Site)
    requires Coupled(s, event, site) && x < |s.ths| && event.ths[x].pc == E.IDLE && !AtEvent(s.ths[x].pc, site)
    ensures Coupled(Step(s, x, ch), event, site)
  {
    hide Step, Exec, Record, MemOk;
    StepParts(s, x, ch);
    assert ThreadOk(s.m, s.ths[x]);
    OutsideEvent(s.m, s.ths[x], ch, site);
  }

  /** So does a statement inside. */
  lemma InsideKeeps(s: State, event: E.State, x: nat, ec: E.Choice, site: Site)
    requires Coupled(s, event, site) && x < |s.ths| && (event.ths[x].pc != E.IDLE || Enters(s.ths[x].pc, site))
    ensures Coupled(EventMove(s, event, x, ec, site).ring, EventMove(s, event, x, ec, site).event, site)
  {
    hide Step, E.Step, Aligned;
    var b' := EventMove(s, event, x, ec, site);
    HereAligned(s, event, x, ec, site);
    forall y | 0 <= y < |s.ths|
      ensures Aligned(b'.ring.ths[y], b'.event.ths[y], site)
    {
      if y != x { OthersThere(s, event, x, ec, y, site); }
    }
  }

  lemma OthersThere(s: State, event: E.State, x: nat, ec: E.Choice, y: nat, site: Site)
    requires Coupled(s, event, site) && x < |s.ths| && y < |s.ths| && y != x
    ensures var b' := EventMove(s, event, x, ec, site);
      Aligned(b'.ring.ths[y], b'.event.ths[y], site) && (event.ths[y].pc == E.IDLE <==> b'.event.ths[y].pc == E.IDLE)
  {
    hide Step, E.Step, Exec, Record, Aligned;
    var th := s.ths[y];
    StepParts(s, x, Go);
    StepParts(s, x, TimeOut);
    OthersAligned(event, x, ec, y, th, site);
    OthersAligned(event, x, E.CallWait, y, th, site);
    OthersAligned(event, x, E.CallSet, y, th, site);
  }

  lemma HereAligned(s: State, event: E.State, x: nat, ec: E.Choice, site: Site)
    requires Coupled(s, event, site) && x < |s.ths| && (event.ths[x].pc != E.IDLE || Enters(s.ths[x].pc, site))
    ensures var b' := EventMove(s, event, x, ec, site);
      Flag(b'.ring.m, site) == b'.event.state && Aligned(b'.ring.ths[x], b'.event.ths[x], site)
  {
    hide Step, E.Step, Exec, Record, MemOk;
    var th, et := s.ths[x], event.ths[x];
    assert Aligned(th, et, site);
    StepParts(s, x, Go);
    StepParts(s, x, TimeOut);
    if et.pc == E.IDLE {
      CallEvent(event, x);
    } else {
      EventStep(event, x, ec);
      if th.pc == SetAt(site) {
        InsideSet(s.m, th, Go, site);
      } else if th.pc == TestAt(site) || th.pc == LoopAt(site) || th.pc == ClearAt(site) {
        InsideWait(s.m, th, Go, site);
        InsideWait(s.m, th, TimeOut, site);
      }
    }
  }

  /** The ring takes a step of its own or stays as it is; it steps only at this event. */
  lemma EventMoveRing(s: State, event: E.State, x: nat, ec: E.Choice, site: Site) returns (ch: Choice)
    requires Coupled(s, event, site) && x < |s.ths| && (event.ths[x].pc != E.IDLE || Enters(s.ths[x].pc, site))
    ensures var b' := EventMove(s, event, x, ec, site);
      b'.ring == s || (b'.ring == Step(s, x, ch) && AtEvent(s.ths[x].pc, site))
    ensures ch == Go || ch == TimeOut
  {
    hide Step, E.Step;
    assert Aligned(s.ths[x], event.ths[x], site);
    ch := if event.ths[x].pc == E.T_CHECK && !event.ths[x].ok then TimeOut else Go;
  }

  // ----- both events

  datatype Both = Both(ring: State, data: E.State, room: E.State)

  function EventOf(b: Both, site: Site): E.State {
    if site.Data? then b.data else b.room
  }

  /** No thread is inside both events. */
  ghost predicate AllCoupled(b: Both) {
    && Coupled(b.ring, b.data, Data) && Coupled(b.ring, b.room, Room)
    && forall x :: 0 <= x < |b.ring.ths| ==> b.data.ths[x].pc == E.IDLE || b.room.ths[x].pc == E.IDLE
  }

  predicate InEvent(b: Both, x: nat, site: Site)
    requires x < |b.ring.ths| == |EventOf(b, site).ths|
  {
    EventOf(b, site).ths[x].pc != E.IDLE || Enters(b.ring.ths[x].pc, site)
  }

  /** Thread x executes its next statement: of events.h while it is inside WaitForEvent or SetEvent, of the ring
      otherwise. */
  function Move(b: Both, x: nat, rc: Choice, ec: E.Choice): Both
    requires Sane(b.ring) && x < |b.ring.ths| == |b.data.ths| == |b.room.ths|
  {
    if b.room.ths[x].pc == E.IDLE && InEvent(b, x, Data) then
      var Pair(ring', data') := EventMove(b.ring, b.data, x, ec, Data);
      Both(ring', data', b.room)
    else if InEvent(b, x, Room) then
      var Pair(ring', room') := EventMove(b.ring, b.room, x, ec, Room);
      Both(ring', b.data, room')
    else b.(ring := Step(b.ring, x, rc))
  }

  /** The opened-up machine refines the ring: each of its steps is a step of the ring or leaves the ring as it is. */
  lemma Refines(b: Both, x: nat, rc: Choice, ec: E.Choice) returns (ch: Choice)
    requires AllCoupled(b) && x < |b.ring.ths|
    ensures Move(b, x, rc, ec).ring == b.ring || Move(b, x, rc, ec).ring == Step(b.ring, x, ch)
    ensures ch == rc || ch == Go || ch == TimeOut
  {
    hide Step, EventMove, Coupled;
    CoupledSize(b);
    ch := rc;
    if b.room.ths[x].pc == E.IDLE && InEvent(b, x, Data) {
      ch := EventMoveRing(b.ring, b.data, x, ec, Data);
    } else if InEvent(b, x, Room) {
      ch := EventMoveRing(b.ring, b.room, x, ec, Room);
    }
  }

  lemma CoupledSize(b: Both)
    requires Coupled(b.ring, b.data, Data) && Coupled(b.ring, b.room, Room)
    ensures Sane(b.ring) && |b.ring.ths| == |b.data.ths| == |b.room.ths|
  {
  }

  /** A step inside one event keeps the ring in step with the other. */
  lemma OtherEventKeeps(s: State, event: E.State, other: E.State, x: nat, ec: E.Choice, site: Site, site': Site)
    requires Coupled(s, event, site) && Coupled(s, other, site') && site != site' && x < |s.ths|
    requires (event.ths[x].pc != E.IDLE || Enters(s.ths[x].pc, site)) && other.ths[x].pc == E.IDLE
    ensures Coupled(EventMove(s, event, x, ec, site).ring, other, site')
  {
    hide Step, EventMove, Coupled;
    CoupledSizes(s, event, site);
    CoupledSizes(s, other, site');
    var ch := EventMoveRing(s, event, x, ec, site);
    if AtEvent(s.ths[x].pc, site) { OutsideKeeps(s, other, x, ch, site'); }
  }

  lemma CoupledSizes(s: State, event: E.State, site: Site)
    requires Coupled(s, event, site)
    ensures Sane(s) && |s.ths| == |event.ths|
  {
  }

  lemma CoupledKeeps(b: Both, x: nat, rc: Choice, ec: E.Choice)
    requires AllCoupled(b) && x < |b.ring.ths|
    ensures AllCoupled(Move(b, x, rc, ec))
  {
    hide Step, E.Step, EventMove, Coupled;
    CoupledSize(b);
    if b.room.ths[x].pc == E.IDLE && InEvent(b, x, Data) {
      InsideKeeps(b.ring, b.data, x, ec, Data);
      OtherEventKeeps(b.ring, b.data, b.room, x, ec, Data, Room);
    } else if InEvent(b, x, Room) {
      InsideKeeps(b.ring, b.room, x, ec, Room);
      OtherEventKeeps(b.ring, b.room, b.data, x, ec, Room, Data);
    } else {
      NotAtEvent(b, x);
      OutsideKeeps(b.ring, b.data, x, rc, Data);
      OutsideKeeps(b.ring, b.room, x, rc, Room);
    }
    StaysExclusive(b, x, rc, ec);
    CoupledSize(Move(b, x, rc, ec));
  }

  lemma NotAtEvent(b: Both, x: nat)
    requires AllCoupled(b) && x < |b.ring.ths|
    requires b.data.ths[x].pc == E.IDLE && b.room.ths[x].pc == E.IDLE && !InEvent(b, x, Data) && !InEvent(b, x, Room)
    ensures !AtEvent(b.ring.ths[x].pc, Data) && !AtEvent(b.ring.ths[x].pc, Room)
  {
    hide Sane;
    assert Aligned(b.ring.ths[x], b.data.ths[x], Data) && Aligned(b.ring.ths[x], b.room.ths[x], Room);
  }

  lemma StaysExclusive(b: Both, x: nat, rc: Choice, ec: E.Choice)
    requires AllCoupled(b) && x < |b.ring.ths|
    ensures var b' := Move(b, x, rc, ec);
      |b'.data.ths| == |b'.room.ths| == |b.ring.ths|
      && forall y :: 0 <= y < |b.ring.ths| ==> b'.data.ths[y].pc == E.IDLE || b'.room.ths[y].pc == E.IDLE
  {
    hide Step, E.Step, Coupled;
    CoupledSize(b);
    forall y | 0 <= y < |b.ring.ths| && y != x
      ensures var d := EventMove(b.ring, b.data, x, ec, Data).event; d.ths[y].pc == E.IDLE <==> b.data.ths[y].pc == E.IDLE
      ensures var r := EventMove(b.ring, b.room, x, ec, Room).event; r.ths[y].pc == E.IDLE <==> b.room.ths[y].pc == E.IDLE
    {
      OthersThere(b.ring, b.data, x, ec, y, Data);
      OthersThere(b.ring, b.room, x, ec, y, Room);
    }
    hide EventMove;
  }

  /** `WaitForEvent(...) > 0` of lines 300 and 364: when the opened-up wait returns, the ring goes on to its next round
      exactly if the value is positive, and ends its call with 0 exactly if it is 0. */
  lemma ReturnDecides(b: Both, x: nat, rc: Choice, ec: E.Choice, site: Site)
    requires AllCoupled(b) && x < |b.ring.ths| && EventOf(b, site).ths[x].pc == E.C_UNLOCK
    ensures var b' := Move(b, x, rc, ec); var th, et := b'.ring.ths[x], EventOf(b', site).ths[x];
      && et.pc == E.IDLE && b'.ring == b.ring && (th.woke <==> et.ret > 0)
      && (th.pc == RetryAt(site) <==> et.ret > 0) && (th.pc == IDLE <==> et.ret == 0)
  {
    hide Step, Sane;
    assert Aligned(b.ring.ths[x], EventOf(b, site).ths[x], site);
    UnlockReturns(EventOf(b, site), x, ec);
    hide E.Step;
  }

  lemma UnlockReturns(s: E.State, x: nat, ec: E.Choice)
    requires x < |s.ths| && s.ths[x].pc == E.C_UNLOCK
    ensures var et := E.Step(s, x, ec).ths[x]; et.pc == E.IDLE && et.ret == if s.ths[x].ok then 1 else 0
  {
  }

  // ----- no lost wakeup

  /** What the ring keeps for the one thread that waits on this event. */
  ghost predicate Waits(s: State, who: nat, site: Site) {
    if site.Data? then QueueInv(s, who) else ProducerInv(s, who) && RoomWakes(s, who)
  }

  /** Only this thread reads, or writes; and no claim goes wrong that would matter to it. */
  ghost predicate Allowed(s: State, who: nat, x: nat, rc: Choice, site: Site)
    requires Sane(s) && x < |s.ths|
  {
    if site.Data? then (rc.CallRead? ==> x == who) && (s.ths[x].pc == W_CLAIM ==> !Hazard(s, x))
    else (rc.CallWrite? ==> x == who) && !Hazard(s, x)
  }

  ghost predicate BothInv(b: Both, who: nat, site: Site) {
    AllCoupled(b) && Waits(b.ring, who, site) && E.LockedInv(b.data) && E.LockedInv(b.room)
  }

  lemma LockedMove(s: State, event: E.State, x: nat, ec: E.Choice, site: Site)
    requires Sane(s) && x < |s.ths| == |event.ths| && E.LockedInv(event)
    ensures E.LockedInv(EventMove(s, event, x, ec, site).event)
  {
    hide Step, E.Step, E.LockedInv;
    E.LockedKeeps(event, x, ec);
    E.LockedKeeps(event, x, E.CallWait);
    E.LockedKeeps(event, x, E.CallSet);
  }

  lemma WaitsKeeps(s: State, who: nat, x: nat, ch: Choice, site: Site)
    requires Waits(s, who, site) && Sane(s) && x < |s.ths| && Allowed(s, who, x, ch, site)
    ensures Waits(Step(s, x, ch), who, site)
  {
    hide Step, QueueInv, ProducerInv, RoomWakes, Hazard;
    if site.Data? {
      NoOtherHazard(s, who, x);
      QueueKeeps(s, who, x, ch);
    } else {
      ProducerKeeps(s, who, x, ch);
      RoomWakesKeeps(s, who, x, ch);
    }
  }

  lemma NoOtherHazard(s: State, who: nat, x: nat)
    requires QueueInv(s, who) && Sane(s) && x < |s.ths|
    ensures Hazard(s, x) ==> s.ths[x].pc == W_CLAIM
  {
    hide OrderInv, CountInv, DataWakes, Hand, Delivered, ConsumerInv;
    if s.ths[x].pc != W_CLAIM { NoReadHazard(s, who, x); }
  }

  lemma BothKeeps(b: Both, who: nat, site: Site, x: nat, rc: Choice, ec: E.Choice)
    requires BothInv(b, who, site) && Sane(b.ring) && x < |b.ring.ths| && Allowed(b.ring, who, x, rc, site)
    ensures BothInv(Move(b, x, rc, ec), who, site)
  {
    hide Step, EventMove, Waits, E.LockedInv, Coupled, Hazard;
    CoupledSize(b);
    CoupledKeeps(b, x, rc, ec);
    LockedMove(b.ring, b.data, x, ec, Data);
    LockedMove(b.ring, b.room, x, ec, Room);
    var ch := Refines(b, x, rc, ec);
    WaitsKeeps(b.ring, who, x, ch, site);
  }

  /** The condition the waiting thread has tested has changed: there is data, or there is room. */
  predicate Ready(m: Mem, site: Site)
    requires m.w.start < |m.next|
  {
    if site.Data? then m.r.start != m.w.end else m.next[m.w.start] != m.r.end
  }

  /** Thread x is on its way to notify the waiting thread: about to test for the signal and bound to pass the test, about
      to set the event, or about to notify. */
  predicate OnItsWay(b: Both, x: nat, site: Site)
    requires x < |b.ring.ths| == |EventOf(b, site).ths| && b.ring.ths[x].blk < |b.ring.m.prev|
  {
    || (if site.Data? then WillSignal(b.ring.m, b.ring.ths[x]) else WillAvail(b.ring.m, b.ring.ths[x]))
    || EventOf(b, site).ths[x].pc == E.S_NOTIFY
  }

  ghost predicate SomeoneComes(b: Both, site: Site)
    requires Sane(b.ring) && |b.ring.ths| == |EventOf(b, site).ths|
  {
    exists x :: 0 <= x < |b.ring.ths| && OnItsWay(b, x, site)
  }

  /** The two halves together: if the thread is blocked on the condition variable and the ring has what it waits for,
      some thread is on its way to notify it. */
  lemma NeverForgotten(b: Both, who: nat, site: Site)
    requires BothInv(b, who, site) && Sane(b.ring) && |b.ring.ths| == |EventOf(b, site).ths| && who < |b.ring.ths|
    requires EventOf(b, site).ths[who].pc == E.T_BLOCKED && Ready(b.ring.m, site)
    ensures SomeoneComes(b, site)
  {
    hide DeliverInv, OrderInv, CountInv, ProducerInv;
    var event := EventOf(b, site);
    assert Aligned(b.ring.ths[who], event.ths[who], site);
    if event.state {
      var y :| 0 <= y < |event.ths| && event.ths[y].pc == E.S_NOTIFY;
      assert OnItsWay(b, y, site);
    } else if site.Data? {
      var y :| 0 <= y < |b.ring.ths| && WillSignal(b.ring.m, b.ring.ths[y]);
      assert OnItsWay(b, y, site);
    } else {
      var y :| 0 <= y < |b.ring.ths| && WillAvail(b.ring.m, b.ring.ths[y]);
      assert OnItsWay(b, y, site);
    }
  }

  type Plan = seq<(nat, Choice, E.Choice)>

  /** A schedule of allowed steps, and the state it leads to. */
  ghost predicate Reaches(b: Both, who: nat, site: Site, plan: Plan, e: Both)
    decreases |plan|
  {
    if plan == [] then e == b
    else
      var (x, rc, ec) := plan[0];
      && Sane(b.ring) && x < |b.ring.ths| == |b.data.ths| == |b.room.ths| && Allowed(b.ring, who, x, rc, site)
      && Reaches(Move(b, x, rc, ec), who, site, plan[1..], e)
  }

  lemma {:induction false} BothRun(b: Both, who: nat, site: Site, plan: Plan, e: Both)
    requires BothInv(b, who, site) && Reaches(b, who, site, plan, e)
    ensures BothInv(e, who, site)
    decreases |plan|
  {
    hide Move, BothInv, Hazard;
    if plan != [] {
      var (x, rc, ec) := plan[0];
      BothKeeps(b, who, site, x, rc, ec);
      BothRun(Move(b, x, rc, ec), who, site, plan[1..], e);
    }
  }

  /** Every interleaving down to the statements of events.h.  With one consumer and any number of producers none of whose
      claims goes wrong: a consumer blocked on the condition variable of a ring that is not empty will be notified.  With
      one producer and any number of consumers, without wrong claims: so will a producer blocked while there is room. */
  lemma NoLostWakeup(b: Both, who: nat, site: Site, plan: Plan, e: Both)
    requires Init(b.ring) && E.Start(b.data) && E.Start(b.room) && b.data.locked && b.room.locked
    requires |b.data.ths| == |b.room.ths| == |b.ring.ths| && who < |b.ring.ths|
    requires Reaches(b, who, site, plan, e)
    ensures Sane(e.ring) && |e.ring.ths| == |EventOf(e, site).ths| && who < |e.ring.ths|
    ensures EventOf(e, site).ths[who].pc == E.T_BLOCKED && Ready(e.ring.m, site) ==> SomeoneComes(e, site)
  {
    StartsTogether(b, who, site);
    BothRun(b, who, site, plan, e);
    InRange(e, who, site);
    hide BothInv, Init, Reaches, SomeoneComes;
    if EventOf(e, site).ths[who].pc == E.T_BLOCKED && Ready(e.ring.m, site) { NeverForgotten(e, who, site); }
  }

  lemma InRange(b: Both, who: nat, site: Site)
    requires BothInv(b, who, site)
    ensures Sane(b.ring) && |b.ring.ths| == |EventOf(b, site).ths| && who < |b.ring.ths|
  {
    hide Sane, OrderInv, CountInv;
  }

  lemma StartsTogether(b: Both, who: nat, site: Site)
    requires Init(b.ring) && E.Start(b.data) && E.Start(b.room) && b.data.locked && b.room.locked
    requires |b.data.ths| == |b.room.ths| == |b.ring.ths| && who < |b.ring.ths|
    ensures BothInv(b, who, site)
  {
    hide QueueInv, ProducerInv, RoomWakes, Inv;
    InitQueue(b.ring, who);
    InitInv(b.ring);
    ProducerStart(b.ring, who);
  }
}
