/** Clocks and virtual times never go back in any run (pss.c:750-777, 852-884). */
module SchedLaws {
  import opened SchedState
  import opened SchedOps
  import opened SchedSteps
  import opened SchedBooks
  import opened SchedMembers
  import opened SchedWalks
  import opened SchedTimes
  import opened SchedClass
  import opened SchedPick
  import opened SchedRoles
  import opened SchedEntry
  import opened SchedChange
  import opened SchedHistory
  import opened SchedRun
  import FixedPoint

  // ---------- steps ----------

  lemma ClockAhead(s: State, now: int)
    requires Sane(s) && Home(s)
    ensures Ahead(s, SetClock(s, now))
  {
    AheadFrame(s, SetClock(s, now));
  }

  lemma WithdrawAhead(s: State, e: nat)
    requires Sane(s) && IsEnt(s, e) && Home(s)
    ensures Ahead(s, Withdraw(s, e))
  {
    hide Dequeue, PutPrev, Ahead;
    var s1 := if s.th.state[e] != Inhibited then Dequeue(s, e, false) else s;
    if s.th.state[e] != Inhibited {
      DequeueAhead(s, e, false);
    } else {
      AheadFrame(s, s1);
    }
    if s.th.state[e] == Running {
      AheadHome(s, s1);
      PutPrevAhead(s1, e, false);
      AheadThrough(s, s1, Withdraw(s, e));
    }
  }

  lemma RestoreAhead(s: State, e: nat, was: TdState, now: int)
    requires Sane(s) && IsEnt(s, e) && Home(s)
    ensures Ahead(s, Restore(s, e, was, now))
  {
    hide Enqueue, Activate, Ahead;
    var s1 := if was != Inhibited then Enqueue(s, e, false) else s;
    if was != Inhibited {
      EnqueueAhead(s, e, false);
    } else {
      AheadFrame(s, s1);
    }
    if was == Running {
      AheadHome(s, s1);
      ActivateAhead(s1, e, now);
      AheadThrough(s, s1, Restore(s, e, was, now));
    }
  }

  lemma ChooseAhead(s: State, pick: nat, now: int)
    requires Sane(s) && Home(s)
    ensures Ahead(s, ChooseThread(s, pick, now))
  {
    hide PssPick, Activate, Ahead;
    var (s1, e) := if pick in s.th.runq then (s, pick) else PssPick(s);
    var r := ChooseThread(s, pick, now);
    AheadFrame(s, s1);
    if e == NIL {
      AheadFrame(s, r);
    } else {
      var s2 := Activate(s1, e, now);
      ActivateAhead(s1, e, now);
      AheadHome(s1, s2);
      AheadFrame(s2, r);
      AheadThrough(s, s1, s2);
      AheadThrough(s, s2, r);
    }
  }

  lemma YieldAhead(s: State, relinquish: bool, now: int)
    requires Sane(s) && Home(s)
    ensures Ahead(s, Yield(s, relinquish, now))
  {
    hide PutPrev, SetClock, Ahead;
    if s.th.current == NIL {
      AheadFrame(s, s);
    } else {
      var s1 := SetClock(s, now);
      ClockAhead(s, now);
      AheadHome(s, s1);
      PutPrevAhead(s1, s.th.current, relinquish);
      AheadThrough(s, s1, Yield(s, relinquish, now));
    }
  }

  lemma VacateAhead(s: State, sleep: bool, now: int)
    requires Sane(s) && s.th.current != NIL && Home(s)
    ensures Ahead(s, Vacate(s, sleep, now))
  {
    hide PutPrev, Dequeue, SetClock, Ahead;
    var e := s.th.current;
    var s0 := SetState(s, e, Inhibited);
    var s1 := SetClock(s0, now);
    AheadFrame(s, s0);
    ClockAhead(s0, now);
    AheadHome(s0, s1);
    var s2 := Dequeue(s1, e, sleep);
    DequeueAhead(s1, e, sleep);
    AheadHome(s1, s2);
    PutPrevAhead(s2, e, false);
    AheadThrough(s, s0, s1);
    AheadThrough(s, s1, s2);
    AheadThrough(s, s2, Vacate(s, sleep, now));
  }

  lemma LeavesAhead(s: State, now: int)
    requires Sane(s) && s.th.current != NIL && Home(s)
    ensures Ahead(s, Leaves(s, now))
  {
    hide Vacate, Ahead;
    var s1 := Vacate(s, false, now);
    VacateAhead(s, false, now);
    AheadHome(s, s1);
    AheadFrame(s1, Leaves(s, now));
    AheadThrough(s, s1, Leaves(s, now));
  }

  lemma AddAhead(s: State, e: nat, now: int, resched: bool)
    requires Sane(s) && IsEnt(s, e) && Home(s)
    ensures Ahead(s, Add(s, e, now, resched))
  {
    hide Enqueue, CheckClassPreempt, SetClock, Ahead;
    var s0 := s.(th := s.th.(initial := s.th.initial[e := false]));
    var s1 := SetClock(s0, now);
    AheadFrame(s, s0);
    ClockAhead(s0, now);
    AheadHome(s0, s1);
    var s2 := Enqueue(s1, e, !s.th.initial[e]);
    EnqueueAhead(s1, e, !s.th.initial[e]);
    AheadHome(s1, s2);
    CheckAhead(s2, e, resched);
    AheadThrough(s, s0, s1);
    AheadThrough(s, s1, s2);
    AheadThrough(s, s2, Add(s, e, now, resched));
  }

  lemma NiceAhead(s: State, e: nat, weight: nat, now: int, later: int)
    requires Sane(s) && IsEnt(s, e) && Home(s)
    ensures Ahead(s, Nice(s, e, weight, now, later))
  {
    hide Withdraw, Restore, SetClock, Ahead;
    var r := Nice(s, e, weight, now, later);
    if s.th.cls[e] != Pss || s.th.state[e] == Inhibited {
      AheadFrame(s, r);
    } else {
      var s0 := SetClock(s, now);
      ClockAhead(s, now);
      AheadHome(s, s0);
      var s1 := Withdraw(s0, e);
      WithdrawAhead(s0, e);
      AheadHome(s0, s1);
      var s2 := SetWeight(s1, e, weight);
      AheadFrame(s1, s2);
      var s3 := SetClock(s2, later);
      ClockAhead(s2, later);
      AheadHome(s2, s3);
      RestoreAhead(s3, e, s.th.state[e], later);
      AheadThrough(s, s0, s1);
      AheadThrough(s, s1, s2);
      AheadThrough(s, s2, s3);
      AheadThrough(s, s3, r);
    }
  }

  lemma SetClassAhead(s: State, e: nat, pri: PriClass, now: int, resched: bool)
    requires Sane(s) && IsEnt(s, e) && Home(s)
    ensures Ahead(s, SetClass(s, e, pri, now, resched))
  {
    hide Withdraw, Restore, SwitchedFrom, SwitchedTo, Ahead;
    var r := SetClass(s, e, pri, now, resched);
    if s.th.pri[e] == pri {
      AheadFrame(s, r);
    } else {
      var s1 := Withdraw(s, e);
      WithdrawAhead(s, e);
      AheadHome(s, s1);
      var s2 := ClassReady(s, e, pri);
      AheadFrame(s1, s2);
      var s3 := Restore(s2, e, s.th.state[e], now);
      RestoreAhead(s2, e, s.th.state[e], now);
      AheadHome(s2, s3);
      SwitchedAhead(s3, e, resched);
      AheadThrough(s, s1, s2);
      AheadThrough(s, s2, s3);
      if r != s3 {
        AheadThrough(s, s3, r);
      }
    }
  }

  lemma SwitchedAhead(s: State, e: nat, resched: bool)
    requires Sane(s) && IsEnt(s, e) && Home(s)
    ensures Ahead(s, SwitchedFrom(s, e)) && Ahead(s, SwitchedTo(s, e, resched))
  {
    hide CheckClassPreempt, Ahead;
    AheadFrame(s, s);
    CheckAhead(s, e, resched);
    AheadFrame(s, SwitchedFrom(s, e));
    if !s.th.initial[e] && s.th.state[e] == Inhibited {
      AheadFrame(s, AddVtime(s, e));
    }
  }

  lemma TickAhead(s: State, now: int, slices: seq<nat>)
    requires Sane(s) && |slices| == |s.t.parent| && Home(s)
    ensures Ahead(s, Tick(s, now, slices))
  {
    hide TickWalk, SetClock, Ahead;
    var s1, r := SetClock(s, now), Tick(s, now, slices);
    ClockAhead(s, now);
    AheadHome(s, s1);
    if r != s1 {
      TickWalkAhead(s1, s.th.current, slices);
      AheadThrough(s, s1, r);
    }
  }

  lemma SetSharesAhead(s: State, g: nat, shares: nat)
    requires Sane(s) && IsEnt(s, g) && !IsThread(s.t, g) && Home(s)
    ensures Ahead(s, SetShares(s, g, shares))
  {
    hide SharesWalk, Ahead;
    var r, q := SetShares(s, g, shares), s.t.myq[g];
    AheadFrame(s, s);
    if r != s {
      var n := if shares < MIN_SHARES then MIN_SHARES else if shares > MAX_SHARES then MAX_SHARES else shares;
      var s1 := s.(a := s.a.(shares := s.a.shares[q := n]));
      AheadFrame(s, s1);
      SharesWalkAhead(s1, g);
      AheadThrough(s, s1, r);
    }
  }

  /** In every step that leaves threads in their groups, clocks and virtual times go on and each
      queue charges what its members gain. */
  lemma StepAhead(s: State, ev: Event)
    requires Sane(s) && Home(s) && Allowed(s, ev) && !ev.Forks? && !ev.Moves?
    ensures Ahead(s, Do(s, ev))
  {
    hide Fork, Add, Yield, Vacate, Leaves, ChooseThread, Nice, SetClass, Move, Tick, SetShares, SetPriority, Ahead, WfTopo;
    match ev
    case Starts(e, now, resched) => AddAhead(s, e, now, resched);
    case Yields(relinquish, now, pick) =>
      YieldAhead(s, relinquish, now);
      ThenChoose(s, Yield(s, relinquish, now), pick, now);
    case Sleeps(now, pick) =>
      VacateAhead(s, true, now);
      ThenChoose(s, Vacate(s, true, now), pick, now);
    case Exits(now, pick) =>
      LeavesAhead(s, now);
      ThenChoose(s, Leaves(s, now), pick, now);
    case Renices(e, weight, now, later) => NiceAhead(s, e, weight, now, later);
    case Reclasses(e, pri, now, resched) => SetClassAhead(s, e, pri, now, resched);
    case Ticks(now, slices) => TickAhead(s, now, slices);
    case Reshares(g, shares) => SetSharesAhead(s, g, shares);
    case Reprioritizes(e, prio) => AheadFrame(s, SetPriority(s, e, prio));
  }

  lemma ThenChoose(s: State, s': State, pick: nat, now: int)
    requires Sane(s) && Sane(s') && Ahead(s, s')
    ensures Ahead(s, ChooseThread(s', pick, now))
  {
    hide Ahead, ChooseThread;
    AheadHome(s, s');
    ChooseAhead(s', pick, now);
    AheadThrough(s, s', ChooseThread(s', pick, now));
  }

  lemma InvHome(s: State)
    requires Sane(s) && Inv(s)
    ensures Home(s)
  {
  }

  lemma OnwardThrough(a: Times, b: Times, c: Times)
    requires Onward(a, b) && Onward(b, c)
    ensures Onward(a, c)
  {
  }

  lemma AheadOnward(s: State, r: State)
    requires Sane(s) && Sane(r) && Ahead(s, r)
    ensures Onward(s.tm, r.tm)
  {
  }

  lemma ForkOnward(s: State, child: nat, prio: int, debit: nat, now: int)
    requires Sane(s) && s.th.current != NIL && IsEnt(s, child) && IsThread(s.t, child)
    ensures Onward(s.tm, Fork(s, child, prio, debit, now).tm)
  {
    hide FixedPoint.ScaleDelta, SetQueue, WfTopo, SizedTh, SizedM, SizedC, SetWeight, SizedA;
  }

  lemma MoveOnward(s: State, e: nat, q: nat, now: int, later: int)
    requires Sane(s) && Inv(s) && IsLive(s, e) && IsQueue(s, q)
    ensures Onward(s.tm, Move(s, e, q, now, later).tm)
  {
    hide Withdraw, Restore, SetClock, SetQueue, Linked, Roles, Ahead, Onward;
    if s.th.state[e] == Inhibited {
      MoveIdleOnward(s, e, q);
    } else {
      InvHome(s);
      var s0 := SetClock(s, now);
      ClockAhead(s, now);
      AheadHome(s, s0);
      var s1 := Withdraw(s0, e);
      WithdrawAhead(s0, e);
      AheadHome(s0, s1);
      SetClockLinked(s, now);
      WithdrawKeeps(s0, e);
      GoneFromChain(s1, Asleep(s1, e).th, e, if s.th.current == e then NIL else s.th.current);
      var s2 := SetQueue(s1, e, q);
      MovedHome(s1, e, q);
      var s3 := SetClock(s2, later);
      ClockAhead(s2, later);
      AheadHome(s2, s3);
      RestoreAhead(s3, e, s.th.state[e], later);
      AheadThrough(s, s0, s1);
      AheadThrough(s2, s3, Move(s, e, q, now, later));
      AheadOnward(s, s1);
      AheadOnward(s2, Move(s, e, q, now, later));
      OnwardThrough(s.tm, s1.tm, Move(s, e, q, now, later).tm);
    }
  }

  lemma MoveIdleOnward(s: State, e: nat, q: nat)
    requires Sane(s) && IsEnt(s, e) && IsQueue(s, q) && IsThread(s.t, e)
    ensures Onward(s.tm, MoveIdle(s, e, q).tm)
  {
  }

  lemma MovedHome(s: State, e: nat, q: nat)
    requires Sane(s) && IsEnt(s, e) && IsQueue(s, q) && IsThread(s.t, e) && Home(s) && s.m.curr[s.t.sfq[e]] != e
    ensures Home(SetQueue(s, e, q)) && SetQueue(s, e, q).tm == s.tm
  {
  }

  // ---------- runs ----------

  /** No clock and no vtime goes back in any step. */
  lemma StepOnward(s: State, ev: Event)
    requires Sane(s) && Inv(s) && Allowed(s, ev)
    ensures Onward(s.tm, Do(s, ev).tm)
  {
    hide Inv, Ahead, Onward, Fork, Move;
    hide Add, Yield, Vacate, Leaves, ChooseThread, Nice, SetClass, Tick, SetShares, SetPriority, WfTopo;
    match ev
    case Forks(child, prio, debit, now) => ForkOnward(s, child, prio, debit, now);
    case Moves(e, q, now, later) => MoveOnward(s, e, q, now, later);
    case _ =>
      InvHome(s);
      StepAhead(s, ev);
      AheadOnward(s, Do(s, ev));
  }

  /** The virtual time of every queue is non-decreasing over all runs. */
  lemma {:induction false} RunOnward(s: State, evs: seq<Event>)
    requires Sane(s) && Inv(s) && Runs(s, evs)
    ensures Onward(s.tm, After(s, evs).tm)
    decreases |evs|
  {
    hide Inv, Do, Allowed;
    if evs != [] {
      StepKeeps(s, evs[0]);
      StepOnward(s, evs[0]);
      RunOnward(Do(s, evs[0]), evs[1..]);
      OnwardThrough(s.tm, Do(s, evs[0]).tm, After(s, evs).tm);
    }
  }
}
