/** No mutex of pevents.h is held for ever by a thread that can go on: every step brings a call closer to the point where
    it returns or gives its mutexes up in a condition wait, and no other thread can push it back. */
module Progress {
  import opened LockOrder

  /** How far a call is from there: the events of its list still to visit, or the entries still to serve. */
  datatype Rank = Rank(a: nat, b: nat, c: nat)

  predicate Below(r: Rank, q: Rank) {
    r.a < q.a || (r.a == q.a && (r.b < q.b || (r.b == q.b && r.c < q.c)))
  }

  /** Between calls, or in a condition wait. */
  predicate Resting(th: Thread) {
    th.Idle? || th.Sleeping? || th.Parked?
  }

  function RankOf(s: State, th: Thread): Rank
    requires ThreadOk(s, th)
  {
    match th
    case WantEvent(_, _) => Rank(2, 0, 0)
    case Setting(e, k) => Rank(1, |s.queues[e]| - k, 2)
    case WantWaiter(e, k) => Rank(1, |s.queues[e]| - k, 1)
    case Serving(e, k) => Rank(1, |s.queues[e]| - k, 0)
    case Holding(_) => Rank(1, 0, 0)
    case WantBack(x) => Rank(0, 2, 0)
    case Entering(x, i) => Rank(|s.lists[x]| - i, 1, 0)
    case Cleaning(x, i, j) => Rank(|s.lists[x]| - i, 0, 2 * (|s.queues[s.lists[x][i]]| - j))
    case Probing(x, i, j) => Rank(|s.lists[x]| - i, 0, 2 * (|s.queues[s.lists[x][i]]| - j) - 1)
    case _ => Rank(0, 0, 0)
  }

  lemma SetterCloser(s: State, t: nat, ch: Choice)
    requires Sized(s) && t < |s.ths| && !Blocked(s, t) && ThreadOk(Step(s, t, ch), Step(s, t, ch).ths[t])
    requires var th := s.ths[t]; th.WantEvent? || th.Setting? || th.WantWaiter? || th.Serving? || th.Holding?
    ensures var s' := Step(s, t, ch); Resting(s'.ths[t]) || Below(RankOf(s', s'.ths[t]), RankOf(s, s.ths[t]))
  {
    assert ThreadOk(s, s.ths[t]);
    hide Sized, Blocked;
  }

  lemma WaiterCloser(s: State, t: nat, ch: Choice)
    requires Sized(s) && t < |s.ths| && !Blocked(s, t) && ThreadOk(Step(s, t, ch), Step(s, t, ch).ths[t])
    requires var th := s.ths[t]; th.Entering? || th.WantBack? || th.Leaving?
    ensures var s' := Step(s, t, ch); Resting(s'.ths[t]) || Below(RankOf(s', s'.ths[t]), RankOf(s, s.ths[t]))
  {
    assert ThreadOk(s, s.ths[t]);
    hide Sized, Blocked;
  }

  lemma CleanerCloser(s: State, t: nat, ch: Choice)
    requires Sized(s) && t < |s.ths| && !Blocked(s, t) && ThreadOk(Step(s, t, ch), Step(s, t, ch).ths[t])
    requires s.ths[t].Cleaning? || s.ths[t].Probing?
    ensures var s' := Step(s, t, ch); Below(RankOf(s', s'.ths[t]), RankOf(s, s.ths[t]))
  {
    assert ThreadOk(s, s.ths[t]);
    hide Sized, Blocked;
  }

  /** A thread inside a call that is not blocked comes closer with every step, whatever it decides. */
  lemma ComesCloser(s: State, t: nat, ch: Choice)
    requires Base(s) && t < |s.ths| && !Blocked(s, t) && !Resting(s.ths[t])
    ensures var s' := Step(s, t, ch);
      ThreadOk(s', s'.ths[t]) && (Resting(s'.ths[t]) || Below(RankOf(s', s'.ths[t]), RankOf(s, s.ths[t])))
  {
    hide Step, OwnersOk, ThreadOk, Blocked, RankOf, Below, Frame;
    HereKeeps(s, t, ch);
    InPlace(Step(s, t, ch), t);
    match s.ths[t]
    case Cleaning(_, _, _) => CleanerCloser(s, t, ch);
    case Probing(_, _, _) => CleanerCloser(s, t, ch);
    case Entering(_, _) => WaiterCloser(s, t, ch);
    case WantBack(_) => WaiterCloser(s, t, ch);
    case Leaving(_) => WaiterCloser(s, t, ch);
    case _ => SetterCloser(s, t, ch);
  }

  lemma InPlace(s: State, t: nat)
    requires t < |s.ths| && OwnOk(s, t)
    ensures ThreadOk(s, s.ths[t])
  {
  }

  lemma FrameLeaves(s: State, s': State, u: nat, t: nat)
    requires Base(s) && Frame(s, s', u) && t < |s.ths| && t != u && ThreadOk(s', s.ths[t])
    ensures s'.ths[t] == s.ths[t] && RankOf(s', s.ths[t]) == RankOf(s, s.ths[t])
  {
    var th := s.ths[t];
    assert ThreadOk(s, th);
    assert forall e :: 0 <= e < |s.eOwner| && HoldsEvent(s, th, e) ==> s'.queues[e] == s.queues[e];
  }

  /** No step of another thread changes how far it is. */
  lemma NobodyPushesBack(s: State, u: nat, ch: Choice, t: nat)
    requires Base(s) && t < |s.ths| && u < |s.ths| && t != u
    ensures var s' := Step(s, u, ch);
      && s'.ths[t] == s.ths[t] && ThreadOk(s', s'.ths[t]) && RankOf(s', s'.ths[t]) == RankOf(s, s.ths[t])
  {
    hide Step, OwnersOk, ThreadOk, RankOf, Frame, OwnOk, Tables;
    HereKeeps(s, u, ch);
    OthersKeep(s, Step(s, u, ch), u, t);
    InPlace(Step(s, u, ch), t);
    Unmoved(s, Step(s, u, ch), u, t);
    FrameLeaves(s, Step(s, u, ch), u, t);
  }

  lemma Unmoved(s: State, s': State, u: nat, t: nat)
    requires Frame(s, s', u) && t < |s.ths| && t != u
    ensures |s'.ths| == |s.ths| && s'.ths[t] == s.ths[t]
  {
  }
}
