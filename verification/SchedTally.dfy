/** Hierarchical time conservation: what queues charge is what their members gain, in every step
    and over every run (pss.c:852-884, 1068-1085; sched.c:491-497). */
module SchedTally {
  import opened SchedState
  import opened SchedOps
  import opened SchedSteps
  import opened SchedMembers
  import opened SchedWalks
  import opened SchedTimes
  import opened SchedClass
  import opened SchedRoles
  import opened SchedEntry
  import opened SchedChange
  import opened SchedHistory
  import opened SchedRun
  import opened SchedLaws
  import FixedPoint

  // ---------- who is not charged ----------

  /** Entity e is nowhere current and is not charged. */
  ghost predicate Spared(s: State, r: State, e: nat)
    requires Sane(s) && Sane(r) && IsEnt(s, e)
  {
    r.t == s.t && r.m.curr == s.m.curr && r.tm.sum[e] == s.tm.sum[e]
  }

  ghost predicate Idle(s: State, e: nat)
    requires Sane(s)
  {
    forall q :: 0 <= q < |s.m.curr| ==> s.m.curr[q] != e
  }

  lemma UpdateCurrSpares(s: State, q: nat, e: nat)
    requires Sane(s) && IsQueue(s, q) && IsEnt(s, e) && Idle(s, e)
    ensures Spared(s, UpdateCurr(s, q), e)
  {
    hide FixedPoint.ScaleDelta;
  }

  lemma UpdateSharesSpares(s: State, q: nat, e: nat)
    requires Sane(s) && IsQueue(s, q) && IsEnt(s, e) && Idle(s, e)
    ensures Spared(s, UpdateShares(s, q), e)
  {
    hide UpdateCurr;
    var p, r := s.t.owner[q], UpdateShares(s, q);
    if p != NIL {
      UpdateCurrSpares(s, s.t.sfq[p], e);
      assert r.tm == s.tm || r.tm == UpdateCurr(s, s.t.sfq[p]).tm;
    }
  }

  lemma EnqueueEntitySpares(s: State, x: nat, wakeup: bool, e: nat)
    requires Sane(s) && IsEnt(s, x) && IsEnt(s, e) && Idle(s, e)
    ensures Spared(s, EnqueueEntity(s, x, wakeup), e)
  {
    hide UpdateCurr, TreeEnqueue, UpdateShares, MakeRunnable, Account;
    var q := s.t.sfq[x];
    var s0 := s.(ok := s.ok && !s.m.joined[x]);
    UpdateCurrSpares(s0, q, e);
    UpdateCurrSpares(AddVtime(s0, x), q, e);
    var s2 := Account(TreeEnqueue(MakeRunnable(Arrive(s0, x, wakeup), x), x), x, 1);
    UpdateSharesSpares(s2, q, e);
  }

  lemma {:induction false} SharesWalkSpares(s: State, x: int, e: nat)
    requires Sane(s) && (x == NIL || IsEnt(s, x)) && IsEnt(s, e) && Idle(s, e)
    ensures Spared(s, SharesWalk(s, x), e)
    decreases Rank(s.t, x)
  {
    hide UpdateShares, WfTopo;
    if x != NIL {
      ParentGroup(s, x);
      UpdateSharesSpares(s, s.t.sfq[x], e);
      SharesWalkSpares(UpdateShares(s, s.t.sfq[x]), s.t.parent[x], e);
    }
  }

  lemma {:induction false} EnqueueWalkSpares(s: State, x: int, wakeup: bool, e: nat)
    requires Sane(s) && (x == NIL || IsEnt(s, x)) && IsEnt(s, e) && Idle(s, e)
    ensures Spared(s, EnqueueWalk(s, x, wakeup).0, e)
    decreases Rank(s.t, x)
  {
    hide EnqueueEntity, WfTopo;
    if x != NIL && !s.m.joined[x] {
      ParentGroup(s, x);
      EnqueueEntitySpares(s, x, wakeup, e);
      EnqueueWalkSpares(EnqueueEntity(s, x, wakeup), s.t.parent[x], true, e);
    }
  }

  lemma EnqueueSpares(s: State, e: nat)
    requires Sane(s) && IsEnt(s, e) && Idle(s, e)
    ensures Spared(s, Enqueue(s, e, false), e)
  {
    hide EnqueueWalk, SharesWalk, RtEnqueue;
    if s.th.cls[e] == Pss {
      var s0 := NotRealtime(s, e);
      var (s1, e1) := EnqueueWalk(s0, e, false);
      EnqueueWalkSpares(s0, e, false, e);
      SharesWalkSpares(s1, e1, e);
    }
  }

  lemma {:induction false} ActivateWalkSpares(s: State, x: int)
    requires Sane(s) && (x == NIL || IsEnt(s, x))
    ensures ActivateWalk(s, x).tm.sum == s.tm.sum
    decreases Rank(s.t, x)
  {
    hide TreeDequeue, RunqDequeue, WfTopo;
    if x != NIL {
      ParentGroup(s, x);
      ActivateWalkSpares(ActivateEntity(s, x), s.t.parent[x]);
    }
  }

  /** A thread that is put back is not charged on the way. */
  lemma RestoreSpares(s: State, e: nat, was: TdState, now: int)
    requires Sane(s) && IsEnt(s, e) && Idle(s, e)
    ensures Restore(s, e, was, now).tm.sum[e] == s.tm.sum[e]
  {
    hide Enqueue, ActivateWalk, RtActivate;
    EnqueueSpares(s, e);
    var s1 := if was != Inhibited then Enqueue(s, e, false) else s;
    ActivateWalkSpares(NotRealtime(s1, e), e);
  }

  // ---------- changing queues ----------

  lemma {:induction false} GainMoved(sfq: seq<nat>, sum: seq<int>, sum': seq<int>, q: nat, n: nat, e: nat, p: nat)
    requires n <= |sfq| == |sum| == |sum'| && e < |sfq| && sum'[e] == sum[e]
    ensures MembersSum(sfq[e := p], sum', q, n) - MembersSum(sfq[e := p], sum, q, n)
         == MembersSum(sfq, sum', q, n) - MembersSum(sfq, sum, q, n)
  {
    if n > 0 {
      GainMoved(sfq, sum, sum', q, n - 1, e, p);
    }
  }

  /** An entity that gains nothing may be counted in either queue. */
  lemma TalliedMoved(s: State, e: nat, q: nat, tm: Times)
    requires Sane(s) && IsEnt(s, e) && IsQueue(s, q) && IsThread(s.t, e) && SizedTm(tm, |s.t.parent|, |s.t.owner|)
    requires tm.sum[e] == s.tm.sum[e] && |SetQueue(s, e, q).t.sfq| == |s.t.parent|
    requires Tallied(SetQueue(s, e, q).t, s.tm, tm)
    ensures |s.t.sfq| == |s.t.parent| && Tallied(s.t, s.tm, tm)
  {
    var t' := SetQueue(s, e, q).t;
    forall p | 0 <= p < |s.t.owner|
      ensures MembersSum(s.t.sfq, tm.sum, p, |s.t.sfq|) - MembersSum(s.t.sfq, s.tm.sum, p, |s.t.sfq|) ==
                tm.charged[p] - s.tm.charged[p]
    {
      GainMoved(s.t.sfq, s.tm.sum, tm.sum, p, |s.t.sfq|, e, q);
    }
  }

  lemma TalliedThrough(t: Topo, a: Times, b: Times, c: Times)
    requires |t.sfq| == |a.sum| == |b.sum| == |c.sum| && |t.owner| == |a.charged| == |b.charged| == |c.charged|
    requires Tallied(t, a, b) && Tallied(t, b, c)
    ensures Tallied(t, a, c)
  {
    forall q | 0 <= q < |t.owner|
      ensures MembersSum(t.sfq, c.sum, q, |t.sfq|) - MembersSum(t.sfq, a.sum, q, |t.sfq|) == c.charged[q] - a.charged[q]
    {
    }
  }

  lemma AheadTallied(s: State, r: State)
    requires Sane(s) && Sane(r) && Ahead(s, r)
    ensures |s.t.sfq| == |s.t.parent| && Tallied(s.t, s.tm, r.tm)
  {
  }

  /** Nothing is charged. */
  lemma NoCharge(s: State, tm: Times)
    requires Sane(s) && tm.sum == s.tm.sum && tm.charged == s.tm.charged
    ensures |s.t.sfq| == |s.t.parent| && Tallied(s.t, s.tm, tm)
  {
  }

  lemma WithdrawnIdle(s: State, e: nat, was: TdState)
    requires Sane(s) && IsEnt(s, e) && IsThread(s.t, e) && Withdrawn(s, e, was)
    ensures Idle(s, e) && Home(s)
  {
    hide Linked, Roles;
    GoneFromChain(s, Asleep(s, e).th, e, if was == Running then NIL else s.th.current);
    LinkedCurrs(s);
    CurrElsewhere(s, e);
    CurrsMean(s);
  }

  lemma MoveTallied(s: State, e: nat, q: nat, now: int, later: int)
    requires Sane(s) && IsLive(s, e) && IsQueue(s, q) && Inv(s)
    ensures |s.t.sfq| == |s.t.parent| && Tallied(s.t, s.tm, Move(s, e, q, now, later).tm)
  {
    hide Inv, Withdraw, Restore, SetQueue, Withdrawn, Home, Ahead, Tallied;
    var r := Move(s, e, q, now, later);
    if s.th.state[e] == Inhibited {
      MoveIdleSums(s, e, q);
      NoCharge(s, r.tm);
    } else {
      InvHome(s);
      var s0 := SetClock(s, now);
      ClockAhead(s, now);
      AheadHome(s, s0);
      WithdrawAhead(s0, e);
      var s1 := Withdraw(s0, e);
      AheadThrough(s, s0, s1);
      AheadTallied(s, s1);
      MoveReadyKeeps(s, e, q, now, later);
      MoveUnfolds(s, e, q, now, later);
      var m := MoveReady(s, e, q, now, later);
      PutBackTallied(s1, m, e, q, s.th.state[e], later);
      TalliedThrough(s.t, s.tm, s1.tm, r.tm);
    }
  }

  lemma MoveIdleSums(s: State, e: nat, q: nat)
    requires Sane(s) && IsEnt(s, e) && IsQueue(s, q) && IsThread(s.t, e)
    ensures var r := MoveIdle(s, e, q); r.tm.sum == s.tm.sum && r.tm.charged == s.tm.charged
  {
  }

  /** The second half of a move charges what it charges to others. */
  lemma PutBackTallied(s: State, m: State, e: nat, q: nat, was: TdState, later: int)
    requires Sane(s) && Sane(m) && IsEnt(s, e) && IsQueue(s, q) && IsThread(s.t, e)
    requires m == SetClock(SetQueue(s, e, q), later) && IsEnt(m, e) && IsThread(m.t, e) && Withdrawn(m, e, was)
    ensures |s.t.sfq| == |s.t.parent| && Tallied(s.t, s.tm, Restore(m, e, was, later).tm)
  {
    hide Withdrawn, Restore, SetQueue, Home, Ahead, Tallied, Idle;
    var r := Restore(m, e, was, later);
    WithdrawnIdle(m, e, was);
    RestoreAhead(m, e, was, later);
    AheadTallied(m, r);
    RestoreSpares(m, e, was, later);
    var s' := s.(tm := m.tm);
    SaneTimes(s, m.tm);
    MovedTopo(s, s', e, q);
    TalliedMoved(s', e, q, r.tm);
    NoCharge(s, m.tm);
    TalliedThrough(s.t, s.tm, m.tm, r.tm);
  }

  lemma MovedTopo(s: State, r: State, e: nat, q: nat)
    requires Sane(s) && Sane(r) && r.t == s.t && IsEnt(s, e) && IsQueue(s, q) && IsThread(s.t, e)
    ensures SetQueue(r, e, q).t == SetQueue(s, e, q).t && |SetQueue(s, e, q).t.sfq| == |s.t.parent|
  {
    hide WfTopo, SizedM, SizedA, SizedTm, SizedC, SizedTh;
    GroupQueues(s, e);
  }

  lemma SaneTimes(s: State, tm: Times)
    requires Sane(s) && SizedTm(tm, |s.t.parent|, |s.t.owner|)
    ensures Sane(s.(tm := tm))
  {
  }

  // ---------- forks ----------

  lemma ForkTallied(s: State, child: nat, prio: int, debit: nat, now: int)
    requires Sane(s) && s.th.current != NIL && IsEnt(s, child) && IsThread(s.t, child) && !s.th.live[child] && Inv(s)
    ensures |s.t.sfq| == |s.t.parent| && Tallied(s.t, s.tm, Fork(s, child, prio, debit, now).tm)
  {
    hide Inv, ForkPss, SetQueue, Home, Tallied, Idle, WfTopo;
    var e, r := s.th.current, Fork(s, child, prio, debit, now);
    ParentGroup(s, e);
    NewbornIdle(s, child);
    var th := s.th.(cls := s.th.cls[child := s.th.cls[e]], pri := s.th.pri[child := s.th.pri[e]],
                    initial := s.th.initial[child := true], live := s.th.live[child := true],
                    prio := s.th.prio[child := prio]);
    var q := s.t.sfq[e];
    var s1 := SetQueue(SetWeight(s, child, s.a.weight[e]), child, q).(th := th);
    if s.th.cls[e] != Pss {
      NoCharge(s, r.tm);
    } else {
      var s2 := SetClock(s1, now);
      MovedTopo(s, SetWeight(s, child, s.a.weight[e]), child, q);
      MovedHomeIdle(s, child, q, s2);
      ForkCharges(s2, e, child, debit);
      SaneTimes(s, s2.tm);
      MovedTopo(s, s.(tm := s2.tm), child, q);
      TalliedMoved(s.(tm := s2.tm), child, q, r.tm);
      NoCharge(s, s2.tm);
      TalliedThrough(s.t, s.tm, s2.tm, r.tm);
    }
  }

  lemma MovedHomeIdle(s: State, e: nat, q: nat, r: State)
    requires Sane(s) && Sane(r) && IsEnt(s, e) && IsQueue(s, q) && IsThread(s.t, e) && Idle(s, e) && Home(s)
    requires r.t == SetQueue(s, e, q).t && r.m == s.m
    ensures Idle(r, e) && Home(r)
  {
  }

  lemma NewbornIdle(s: State, child: nat)
    requires Sane(s) && IsEnt(s, child) && IsThread(s.t, child) && !s.th.live[child] && Inv(s)
    ensures Idle(s, child) && Home(s)
  {
    hide Linked, Roles;
    RolesMean(s.t, s.m, s.th, s.th.current, child);
    LinkedCurrs(s);
    CurrElsewhere(s, child);
    CurrsMean(s);
  }

  /** pss_fork_thread charges the parent. */
  lemma ForkCharges(s: State, e: nat, child: nat, debit: nat)
    requires Sane(s) && IsEnt(s, e) && IsEnt(s, child) && Idle(s, child) && Home(s)
    ensures var r := ForkPss(s, e, child, debit);
            && r.t == s.t && |s.t.sfq| == |s.t.parent| && Tallied(s.t, s.tm, r.tm) && r.tm.sum[child] == s.tm.sum[child]
  {
    hide UpdateCurr, Tallied, WfTopo;
    ParentGroup(s, e);
    var q, r := s.t.sfq[e], ForkPss(s, e, child, debit);
    UpdateCurrAhead(s, q);
    UpdateCurrSpares(s, q, child);
    var s1 := UpdateCurr(s, q);
    AheadTallied(s, s1);
    NoCharge(s1, r.tm);
    TalliedThrough(s.t, s.tm, s1.tm, r.tm);
  }

  // ---------- steps and runs ----------

  /** In every step each queue charges exactly what its members gain. */
  lemma StepTallied(s: State, ev: Event)
    requires Sane(s) && Allowed(s, ev) && Inv(s)
    ensures |s.t.sfq| == |s.t.parent| && Tallied(s.t, s.tm, Do(s, ev).tm)
  {
    hide Inv, Ahead, Tallied, Fork, Move;
    hide Add, Yield, Vacate, Leaves, ChooseThread, Nice, SetClass, Tick, SetShares, SetPriority, WfTopo;
    match ev
    case Forks(child, prio, debit, now) => ForkTallied(s, child, prio, debit, now);
    case Moves(e, q, now, later) => MoveTallied(s, e, q, now, later);
    case _ =>
      InvHome(s);
      StepAhead(s, ev);
      AheadTallied(s, Do(s, ev));
  }

  /** What the members of queue q gain by a step. */
  ghost function Gain(s: State, ev: Event, q: nat): int
    requires Sane(s) && Allowed(s, ev)
  {
    GainLengths(s, Do(s, ev));
    Lengths(s, ev);
    MembersSum(s.t.sfq, Do(s, ev).tm.sum, q, |s.t.sfq|) - MembersSum(s.t.sfq, s.tm.sum, q, |s.t.sfq|)
  }

  lemma GainLengths(s: State, r: State)
    requires Sane(s) && Sane(r)
    ensures |s.t.sfq| == |s.tm.sum| == |s.t.parent| && |r.tm.sum| == |r.t.parent|
  {
  }

  /** No step changes how many entities and queues there are, or which group owns which queue. */
  lemma Lengths(s: State, ev: Event)
    requires Sane(s) && Allowed(s, ev)
    ensures var r := Do(s, ev); |r.t.parent| == |s.t.parent| && r.t.owner == s.t.owner && r.t.myq == s.t.myq
  {
    hide Add, Yield, Vacate, Leaves, ChooseThread, Nice, SetClass, Tick, SetShares, SetPriority, WfTopo;
    match ev
    case Forks(child, prio, debit, now) => ForkLengths(s, child, prio, debit, now);
    case Moves(e, q, now, later) => MoveLengths(s, e, q, now, later);
    case _ =>
  }

  lemma ForkLengths(s: State, child: nat, prio: int, debit: nat, now: int)
    requires Sane(s) && s.th.current != NIL && IsEnt(s, child) && IsThread(s.t, child)
    ensures var r := Fork(s, child, prio, debit, now);
            |r.t.parent| == |s.t.parent| && r.t.owner == s.t.owner && r.t.myq == s.t.myq
  {
    hide ForkPss, SetQueue;
  }

  lemma MoveLengths(s: State, e: nat, q: nat, now: int, later: int)
    requires Sane(s) && IsEnt(s, e) && IsQueue(s, q) && IsThread(s.t, e)
    ensures var r := Move(s, e, q, now, later);
            |r.t.parent| == |s.t.parent| && r.t.owner == s.t.owner && r.t.myq == s.t.myq
  {
    hide Withdraw, Restore, SetQueue, SetClock, AddVtime, SubVtime;
  }

  /** The same over a run, step by step: threads may come and go meanwhile. */
  ghost function Gains(s: State, evs: seq<Event>, q: nat): int
    requires Sane(s) && Runs(s, evs)
    decreases |evs|
  {
    if evs == [] then 0 else Gain(s, evs[0], q) + Gains(Do(s, evs[0]), evs[1..], q)
  }

  lemma GainIsCharged(s: State, ev: Event, q: nat)
    requires Sane(s) && Allowed(s, ev) && IsQueue(s, q) && Inv(s)
    ensures |Do(s, ev).tm.charged| == |s.tm.charged| == |s.t.owner|
    ensures Gain(s, ev, q) == Do(s, ev).tm.charged[q] - s.tm.charged[q]
  {
    hide Inv, Do, Allowed, MembersSum;
    StepTallied(s, ev);
    Lengths(s, ev);
  }

  /** Over every run a queue charges what its members gain while they are its members. */
  lemma {:induction false} RunTallied(s: State, evs: seq<Event>, q: nat)
    requires Sane(s) && IsQueue(s, q) && Runs(s, evs) && Inv(s)
    ensures |After(s, evs).tm.charged| == |s.tm.charged| == |s.t.owner| && After(s, evs).t.owner == s.t.owner
    ensures After(s, evs).t.myq == s.t.myq && |After(s, evs).t.parent| == |s.t.parent|
    ensures After(s, evs).tm.charged[q] - s.tm.charged[q] == Gains(s, evs, q)
    decreases |evs|
  {
    hide Inv, Do, Allowed, Gain, WfTopo;
    if evs != [] {
      StepKeeps(s, evs[0]);
      GainIsCharged(s, evs[0], q);
      Lengths(s, evs[0]);
      RunTallied(Do(s, evs[0]), evs[1..], q);
    }
  }

  /** What group g has earned up to now, and what its members owe. */
  ghost function NetEarned(s: State, g: nat): int
    requires Sane(s) && IsEnt(s, g) && !IsThread(s.t, g)
  {
    Earned(s.t, s.m, s.tm, g) - Owed(s.m, s.tm, s.t.myq[g])
  }

  lemma GroupConserved(s: State, g: nat)
    requires Sane(s) && IsEnt(s, g) && !IsThread(s.t, g) && Inv(s)
    ensures NetEarned(s, g) == s.tm.charged[s.t.myq[g]]
  {
    hide Structure, Roles, Chain, Earned, Owed;
  }

  /** Over every run the execution time that a group entity gains is what the entities of its queue
      gain while they are there, time still owed included. */
  lemma GroupEarnsItsMembers(s: State, evs: seq<Event>, g: nat)
    requires Sane(s) && Runs(s, evs) && IsEnt(s, g) && !IsThread(s.t, g) && Inv(s)
    ensures IsEnt(After(s, evs), g) && !IsThread(After(s, evs).t, g)
    ensures NetEarned(After(s, evs), g) - NetEarned(s, g) == Gains(s, evs, s.t.myq[g])
  {
    hide Inv, Runs, After, NetEarned, Gains;
    GroupQueues(s, g);
    RunTallied(s, evs, s.t.myq[g]);
    RunKeeps(s, evs);
    GroupConserved(s, g);
    GroupConserved(After(s, evs), g);
  }
}
