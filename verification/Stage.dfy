/** In-order completion over a circular array of done flags.

    The ring uses this protocol twice: producers complete blocks with `doneWrite` and `m_writeEnd`, consumers with
    `doneRead` and `m_readEnd`.  A thread claims a block at the start cursor, works on it, sets its flag, and then
    every thread in the completion loop takes flags at the end cursor and moves that cursor on.

    `Side` is what is in shared memory.  `Track` and `Claim` record, for the proof only, which unbounded ticket each
    block stands for. */
module Stage {
  import opened Slots

  /** One start cursor, one end cursor and one flag per block. */
  datatype Side = Side(start: nat, end: nat, done: seq<bool>)

  /** The life of one ticket. */
  datatype Phase =
    | Owned(who: nat)    // claimed by a thread that is still working on the block
    | Done              // flag set
    | Moving(who: nat)   // flag taken by a thread about to move the end cursor
    | Lost              // flag taken, but the end cursor was elsewhere
    | Passed            // the end cursor is beyond it

  /** Tickets 0..|phase| have been claimed; those below `end` have been passed by the end cursor. */
  datatype Track = Track(end: nat, phase: seq<Phase>)

  /** What a thread is doing in this stage. */
  datatype Claim =
    | Free
    | Owns(ticket: nat, blk: nat)
    | Looking             // in the completion loop, about to load the end cursor
    | Loaded(blk: nat)    // in the completion loop, holding a loaded end cursor
    | Moves(ticket: nat, blk: nat)
  {
    predicate Holds() { Owns? || Moves? }
  }

  function Enter(k: Track, x: nat): Track {
    k.(phase := k.phase + [Owned(x)])
  }

  function Put(k: Track, t: nat, p: Phase): Track {
    if t < |k.phase| then k.(phase := k.phase[t := p]) else k
  }

  function Finish(k: Track, t: nat, moved: bool): Track {
    if moved then Put(k, k.end, Passed).(end := k.end + 1) else Put(k, t, Lost)
  }

  ghost predicate Shape(n: nat, s: Side, k: Track) {
    && n >= 2 && |s.done| == n
    && k.end <= |k.phase| < k.end + n
    && s.start == Slot(|k.phase|, n)
    && s.end == Slot(k.end, n)
  }

  ghost predicate Zones(k: Track) {
    && (forall t :: 0 <= t < |k.phase| && t < k.end ==> k.phase[t] == Passed)
    && (forall t :: k.end <= t < |k.phase| ==> k.phase[t] != Passed)
  }

  /** Over the lap that starts at the end cursor, a flag is up exactly when its ticket is done. */
  ghost predicate Flags(n: nat, s: Side, k: Track)
    requires n > 0 && |s.done| == n
  {
    forall t {:trigger Slot(t, n)} :: k.end <= t < k.end + n ==>
      (s.done[Slot(t, n)] <==> t < |k.phase| && k.phase[t] == Done)
  }

  ghost predicate HolderOk(n: nat, k: Track, c: Claim, x: nat)
    requires n > 0
  {
    && (c.Owns? ==> k.end <= c.ticket < |k.phase| && k.phase[c.ticket] == Owned(x) && c.blk == Slot(c.ticket, n))
    && (c.Moves? ==> k.end <= c.ticket < |k.phase| && k.phase[c.ticket] == Moving(x) && c.blk == Slot(c.ticket, n))
  }

  ghost predicate TicketOk(k: Track, cl: seq<Claim>, t: nat)
    requires t < |k.phase|
  {
    match k.phase[t]
    case Owned(x) => x < |cl| && cl[x].Owns? && cl[x].ticket == t
    case Moving(x) => x < |cl| && cl[x].Moves? && cl[x].ticket == t
    case _ => true
  }

  /** Each ticket in progress has exactly the holder its phase names, and each holder exactly that ticket. */
  ghost predicate Holders(n: nat, k: Track, cl: seq<Claim>)
    requires n > 0
  {
    && (forall x :: 0 <= x < |cl| ==> HolderOk(n, k, cl[x], x))
    && (forall t :: 0 <= t < |k.phase| ==> TicketOk(k, cl, t))
  }

  ghost predicate StageInv(n: nat, s: Side, k: Track, cl: seq<Claim>) {
    Shape(n, s, k) && Zones(k) && Flags(n, s, k) && Holders(n, k, cl)
  }

  // ----- every step of the protocol keeps the invariant

  lemma RelabelKeeps(n: nat, s: Side, k: Track, cl: seq<Claim>, x: nat, c: Claim)
    requires StageInv(n, s, k, cl) && x < |cl| && !cl[x].Holds() && !c.Holds()
    ensures StageInv(n, s, k, cl[x := c])
  {
    var cl' := cl[x := c];
    forall t | 0 <= t < |k.phase|
      ensures TicketOk(k, cl', t)
    {
      assert TicketOk(k, cl, t);
    }
  }

  /** Claiming the block at the start cursor, when fewer than n-1 tickets are outstanding. */
  lemma EnterKeeps(n: nat, s: Side, k: Track, cl: seq<Claim>, x: nat)
    requires StageInv(n, s, k, cl) && x < |cl| && !cl[x].Holds()
    requires |k.phase| + 1 < k.end + n
    ensures StageInv(n, s.(start := Succ(s.start, n)), Enter(k, x), cl[x := Owns(|k.phase|, s.start)])
  {
    var k', cl' := Enter(k, x), cl[x := Owns(|k.phase|, s.start)];
    forall t | 0 <= t < |k'.phase|
      ensures TicketOk(k', cl', t)
    {
      if t < |k.phase| { assert TicketOk(k, cl, t); }
    }
    forall y | 0 <= y < |cl'|
      ensures HolderOk(n, k', cl'[y], y)
    {
      assert HolderOk(n, k, cl[y], y);
    }
  }

  /** Setting the flag of an owned block. */
  lemma DoneKeeps(n: nat, s: Side, k: Track, cl: seq<Claim>, x: nat)
    requires StageInv(n, s, k, cl) && x < |cl| && cl[x].Owns?
    ensures cl[x].blk < n
    ensures StageInv(n, s.(done := s.done[cl[x].blk := true]), Put(k, cl[x].ticket, Done), cl[x := Looking])
  {
    assert HolderOk(n, k, cl[x], x);
    PhaseChange(n, s, k, cl, x, cl[x].ticket, Done, Looking, true);
  }

  /** Taking a raised flag with the compare-and-swap, however old the loaded cursor value is: the flag belongs to
      one outstanding ticket, which is done and which nobody else holds. */
  lemma TakeKeeps(n: nat, s: Side, k: Track, cl: seq<Claim>, x: nat, b: nat)
    requires StageInv(n, s, k, cl) && x < |cl| && !cl[x].Holds() && b < n && s.done[b]
    ensures var t := TicketAt(k.end, b, n);
      && t < |k.phase| && k.phase[t] == Done
      && StageInv(n, s.(done := s.done[b := false]), Put(k, t, Moving(x)), cl[x := Moves(t, b)])
  {
    var t := TicketAt(k.end, b, n);
    TicketAtSlot(k.end, b, n);
    PhaseChange(n, s, k, cl, x, t, Moving(x), Moves(t, b), false);
  }

  /** Moving the end cursor with an index-only compare-and-swap: it succeeds exactly when the cursor is at the
      ticket whose flag was taken, never for another lap's ticket in the same block. */
  lemma MoveKeeps(n: nat, s: Side, k: Track, cl: seq<Claim>, x: nat)
    requires StageInv(n, s, k, cl) && x < |cl| && cl[x].Moves?
    ensures s.end == cl[x].blk <==> k.end == cl[x].ticket
    ensures var moved := s.end == cl[x].blk;
      StageInv(n, if moved then s.(end := Succ(s.end, n)) else s, Finish(k, cl[x].ticket, moved), cl[x := Looking])
  {
    assert HolderOk(n, k, cl[x], x);
    LapInjective(k.end, n);
    var t := cl[x].ticket;
    if s.end == cl[x].blk {
      PassKeeps(n, s, k, cl, x);
    } else {
      PhaseChange(n, s, k, cl, x, t, Lost, Looking, false);
      assert s.done == s.done[Slot(t, n) := false];
    }
  }

  /** One outstanding ticket changes phase, and with it its flag and the claim of one thread. */
  lemma PhaseChange(n: nat, s: Side, k: Track, cl: seq<Claim>, x: nat, t: nat, p: Phase, c: Claim, up: bool)
    requires StageInv(n, s, k, cl) && x < |cl|
    requires k.end <= t < |k.phase| && p != Passed && (p == Done <==> up)
    requires cl[x].Holds() ==> cl[x].ticket == t
    requires !cl[x].Holds() ==> k.phase[t] == Done
    requires p.Moving? || c == Looking
    requires p.Moving? ==> p == Moving(x) && c == Moves(t, Slot(t, n))
    requires !p.Owned?
    ensures StageInv(n, s.(done := s.done[Slot(t, n) := up]), Put(k, t, p), cl[x := c])
  {
    LapInjective(k.end, n);
    var k', cl' := Put(k, t, p), cl[x := c];
    assert HolderOk(n, k, cl[x], x);
    forall y | 0 <= y < |cl'|
      ensures HolderOk(n, k', cl'[y], y)
    {
      assert HolderOk(n, k, cl[y], y);
    }
    forall u | 0 <= u < |k'.phase|
      ensures TicketOk(k', cl', u)
    {
      assert TicketOk(k, cl, u);
    }
  }

  lemma PassKeeps(n: nat, s: Side, k: Track, cl: seq<Claim>, x: nat)
    requires StageInv(n, s, k, cl) && x < |cl| && cl[x].Moves? && cl[x].ticket == k.end
    ensures StageInv(n, s.(end := Succ(s.end, n)), Finish(k, k.end, true), cl[x := Looking])
  {
    var k', cl', s' := Finish(k, k.end, true), cl[x := Looking], s.(end := Succ(s.end, n));
    assert HolderOk(n, k, cl[x], x);
    SlotPeriod(k.end, n);
    assert Flags(n, s', k') by {
      forall t {:trigger Slot(t, n)} | k'.end <= t < k'.end + n
        ensures s'.done[Slot(t, n)] <==> t < |k'.phase| && k'.phase[t] == Done
      {
        if t == k.end + n { assert !s.done[Slot(k.end, n)]; }
      }
    }
    forall y | 0 <= y < |cl'|
      ensures HolderOk(n, k', cl'[y], y)
    {
      assert HolderOk(n, k, cl[y], y);
    }
    forall u | 0 <= u < |k'.phase|
      ensures TicketOk(k', cl', u)
    {
      assert TicketOk(k, cl, u);
    }
  }

  // ----- no stranded block

  ghost predicate NoneLost(k: Track) {
    forall t :: k.end <= t < |k.phase| ==> k.phase[t] != Lost
  }

  predicate Helps(s: Side, c: Claim) {
    c.Looking? || c.Moves? || (c.Loaded? && c.blk == s.end)
  }

  /** If the ticket at the end cursor is done, some thread is in the completion loop and will look there. */
  ghost predicate Helped(s: Side, k: Track, cl: seq<Claim>) {
    k.end < |k.phase| && k.phase[k.end] == Done ==> exists x :: 0 <= x < |cl| && Helps(s, cl[x])
  }

  /** With nobody in the stage, every claimed ticket has been passed if and only if none is lost. */
  lemma NothingStranded(n: nat, s: Side, k: Track, cl: seq<Claim>)
    requires StageInv(n, s, k, cl) && Helped(s, k, cl)
    requires forall x :: 0 <= x < |cl| ==> cl[x] == Free
    ensures k.end == |k.phase| <==> NoneLost(k)
    ensures k.end == |k.phase| <==> s.end == s.start
  {
    assert k.end < |k.phase| ==> TicketOk(k, cl, k.end);
    if s.end == s.start { SlotInjective(k.end, |k.phase|, n); }
  }

  /** The compare-and-swap on the end cursor loses the ticket exactly if it fails. */
  lemma MoveLoses(n: nat, s: Side, k: Track, cl: seq<Claim>, x: nat)
    requires StageInv(n, s, k, cl) && NoneLost(k) && x < |cl| && cl[x].Moves?
    ensures var moved := s.end == cl[x].blk; NoneLost(Finish(k, cl[x].ticket, moved)) <==> moved
  {
    assert HolderOk(n, k, cl[x], x);
    MoveKeeps(n, s, k, cl, x);
    if s.end != cl[x].blk { assert Finish(k, cl[x].ticket, false).phase[cl[x].ticket] == Lost; }
  }

  /** Nothing is lost, and only the ticket at the end cursor has its flag taken. */
  ghost predicate Tidy(k: Track) {
    forall t :: k.end <= t < |k.phase| ==> k.phase[t] != Lost && (k.phase[t].Moving? ==> t == k.end)
  }

  /** Flags are taken in turn exactly as long as each is taken with the current value of the end cursor. */
  lemma TakeTidy(n: nat, s: Side, k: Track, cl: seq<Claim>, x: nat, b: nat)
    requires StageInv(n, s, k, cl) && Tidy(k) && x < |cl| && !cl[x].Holds() && b < n && s.done[b]
    ensures var t := TicketAt(k.end, b, n); t < |k.phase| && (Tidy(Put(k, t, Moving(x))) <==> b == s.end)
  {
    var t := TicketAt(k.end, b, n);
    TakeKeeps(n, s, k, cl, x, b);
    assert Put(k, t, Moving(x)).phase[t].Moving?;
  }

  /** A flag taken in turn is followed by a successful move. */
  lemma MoveTidy(n: nat, s: Side, k: Track, cl: seq<Claim>, x: nat)
    requires StageInv(n, s, k, cl) && Tidy(k) && x < |cl| && cl[x].Moves?
    ensures s.end == cl[x].blk && cl[x].ticket == k.end
    ensures Tidy(Finish(k, cl[x].ticket, true))
  {
    assert HolderOk(n, k, cl[x], x);
    forall t | k.end < t < |k.phase|
      ensures !k.phase[t].Moving?
    {
    }
  }

  lemma RelabelHelped(n: nat, s: Side, k: Track, cl: seq<Claim>, x: nat, c: Claim)
    requires StageInv(n, s, k, cl) && Helped(s, k, cl) && x < |cl|
    requires Helps(s, cl[x]) && !Helps(s, c) ==> cl[x] == Loaded(s.end) && !s.done[s.end]
    ensures Helped(s, k, cl[x := c])
  {
    assert Flags(n, s, k);
    assert s.end == Slot(k.end, n);
    if k.end < |k.phase| && k.phase[k.end] == Done {
      var y :| 0 <= y < |cl| && Helps(s, cl[y]);
      assert Helps(s, cl[x := c][y]);
    }
  }

  lemma EnterHelped(s: Side, i: nat, k: Track, cl: seq<Claim>, x: nat, c: Claim)
    requires Helped(s, k, cl) && x < |cl| && cl[x] == Free
    ensures Helped(s.(start := i), Enter(k, x), cl[x := c])
  {
    if k.end < |k.phase| && k.phase[k.end] == Done {
      var y :| 0 <= y < |cl| && Helps(s, cl[y]);
      assert Helps(s.(start := i), cl[x := c][y]);
    }
  }

  lemma HelperHelps(s: Side, k: Track, cl: seq<Claim>, x: nat)
    requires x < |cl| && Helps(s, cl[x])
    ensures Helped(s, k, cl)
  {
  }
}
