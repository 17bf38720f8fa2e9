/** The entry points of the scheduler keep the invariant (sched.c:474-984, 1165-1189). */
module SchedEntry {
  import opened SchedState
  import opened SchedOps
  import opened SchedSteps
  import opened SchedBooks
  import opened SchedMembers
  import opened SchedWalks
  import opened SchedTimes
  import opened SchedClass
  import opened SchedPick
  import opened SchedRoles
  import FixedPoint

  // ---------- frames ----------

  lemma SetClockLinked(s: State, now: int)
    requires Sane(s) && Linked(s)
    ensures Linked(SetClock(s, now)) && (Bounded(s) ==> Bounded(SetClock(s, now)))
  {
    hide Kept, Timelines, Currs, Groups, Joins, Candidates, Chain, Timed, Lag;
    var r := SetClock(s, now);
    SetClockTimed(s, now);
    KeptOnly(s, r);
    PlacedOnly(s, r);
    LagSame(s, r);
  }

  lemma QuietLinked(s: State, r: State)
    requires Sane(s) && Sane(r) && Quiet(s, r) && Linked(s)
    ensures Linked(r) && Steady(s, r, NIL) && (Bounded(s) ==> Bounded(r))
  {
    hide Core, Chain, CurrJoined, Bounded, Currs;
    CoreCurrs(s);
    CurrsMean(s);
  }

  lemma FrameLinked(s: State, r: State)
    requires Sane(s) && Sane(r) && r == s.(th := r.th) && r.th.absolute == s.th.absolute
    ensures Linked(s) <==> Linked(r)
    ensures Bounded(s) <==> Bounded(r)
  {
    hide Linked, Bounded;
    ThreadsOnly(s, r);
  }

  // ---------- choosing ----------

  /** A joined thread makes the root queue non-empty. */
  lemma {:induction false} JoinedAtRoot(s: State, e: nat)
    requires Sane(s) && IsEnt(s, e) && Kept(s) && Groups(s.t, s.m, s.a, NIL) && s.m.joined[e]
    ensures s.a.nr[0] > 0
    decreases Rank(s.t, e)
  {
    hide Kept, Groups;
    ParentGroup(s, e);
    ParentJoined(s, e);
    RootParent(s, e);
    if s.t.parent[e] != NIL {
      JoinedAtRoot(s, s.t.parent[e]);
    }
  }

  /** sched_choose finds a runnable thread if there is one, and makes it the running thread. */
  lemma ChooseKeeps(s: State, pick: nat, now: int)
    requires Sane(s) && Linked(s) && NoCurr(s.m) && Roles(s.t, s.m, s.th, NIL)
    requires s.th.runq == {} || pick in s.th.runq
    ensures var r := ChooseThread(s, pick, now);
            && Linked(r) && Roles(r.t, r.m, r.th, r.th.current)
            && Steady(s, r.(th := r.th.(current := s.th.current)), NIL)
            && (Bounded(s) ==> Bounded(r))
            && (r.th.current == NIL <==> s.th.nrRunning == 0)
  {
    hide Activate, PssPick, Core, Bounded, Roles, Chain, WfTopo;
    var r := ChooseThread(s, pick, now);
    if pick in s.th.runq {
      RolesMean(s.t, s.m, s.th, NIL, pick);
      ActivateChosen(s, pick, now);
    } else {
      PssPickKeeps(s);
      var (s1, e) := PssPick(s);
      PickedLinked(s, s1);
      if e != NIL {
        RolesMean(s.t, s.m, s.th, NIL, e);
        ActivateChosen(s1, e, now);
      } else {
        NothingRuns(s);
        FrameLinked(s1, r);
        CurrentFree(s1.t, s1.m, s1.th, r.th, NIL);
      }
    }
  }

  lemma PickedLinked(s: State, r: State)
    requires Sane(s) && Sane(r) && Linked(s) && Core(r) && r == s.(c := r.c, ok := r.ok)
    ensures Linked(r) && (Bounded(s) <==> Bounded(r))
  {
    hide Core, Chain;
  }

  /** Roles do not look at the field current. */
  lemma CurrentFree(t: Topo, m: Members, th: Threads, th': Threads, cur: int)
    requires WfTopo(t) && SizedM(m, |t.parent|, |t.owner|) && SizedTh(th, |t.parent|) && SizedTh(th', |t.parent|)
    requires NIL <= cur < |t.parent| && th' == th.(current := th'.current)
    ensures Roles(t, m, th, cur) <==> Roles(t, m, th', cur)
  {
    assert forall e :: 0 <= e < |t.parent| ==> (Role(t, m, th, cur, e) <==> Role(t, m, th', cur, e));
  }

  lemma ActivateChosen(s: State, e: nat, now: int)
    requires Sane(s) && IsEnt(s, e) && IsThread(s.t, e) && Linked(s) && NoCurr(s.m)
    requires Roles(s.t, s.m, s.th, NIL) && s.th.state[e] == OnRunq
    ensures var r := SetCurrent(Activate(s, e, now), e);
            && Linked(r) && Roles(r.t, r.m, r.th, e)
            && Steady(s, r.(th := r.th.(current := s.th.current)), NIL) && (Bounded(s) ==> Bounded(r))
            && s.th.nrRunning != 0
  {
    hide Activate, Linked, Bounded, Later, Roles, WfTopo, NoCurr;
    ActivatedSame(s, e, now);
    RolesMean(s.t, s.m, s.th, NIL, e);
    ActivateRoles(s, e, now);
    var s1 := Activate(s, e, now);
    var r := SetCurrent(s1, e);
    FrameLinked(s1, r);
    CurrentFree(s.t, s1.m, s1.th, r.th, e);
  }

  lemma ActivatedSame(s: State, e: nat, now: int)
    requires Sane(s) && IsEnt(s, e) && IsThread(s.t, e) && Linked(s) && NoCurr(s.m)
    requires Roles(s.t, s.m, s.th, NIL) && s.th.state[e] == OnRunq
    ensures Steady(s, Activate(s, e, now), NIL)
  {
    hide Activate, Linked, Bounded, Later, Roles, WfTopo;
    ParentGroup(s, e);
    RolesMean(s.t, s.m, s.th, NIL, e);
    ActivateRoles(s, e, now);
    ActivateLinked(s, e, now);
  }

  /** With the root queue and the run queue empty no thread is joined. */
  lemma NothingRuns(s: State)
    requires Sane(s) && Linked(s) && Roles(s.t, s.m, s.th, NIL) && s.th.runq == {} && s.a.nr[0] <= 0
    ensures s.th.nrRunning == 0
  {
    hide Kept, Groups, Timed, Placed, Chain, Candidates;
    forall e | 0 <= e < |s.t.parent| && IsThread(s.t, e) ensures !s.m.joined[e] && !s.th.rtJoined[e] {
      assert Role(s.t, s.m, s.th, NIL, e);
      assert e !in s.th.runq;
      if s.m.joined[e] {
        JoinedAtRoot(s, e);
      }
    }
    RunnableNone(s.t, s.m.joined, s.th.rtJoined, |s.t.parent|);
  }

  lemma {:induction false} RunnableNone(t: Topo, j: seq<bool>, rj: seq<bool>, n: nat)
    requires n <= |t.myq| == |j| == |rj| && (forall e :: 0 <= e < |j| && t.myq[e] == NIL ==> !j[e] && !rj[e])
    ensures Runnable(t, j, rj, n) == 0
  {
    if n > 0 {
      RunnableNone(t, j, rj, n - 1);
    }
  }

  // ---------- starting and waking ----------

  ghost predicate IsLive(s: State, e: int)
    requires Sane(s)
  {
    IsEnt(s, e) && IsThread(s.t, e) && s.th.live[e]
  }

  /** sched_add: a sleeping thread wakes up, or a new one is started. */
  lemma AddKeeps(s: State, e: nat, now: int, resched: bool)
    requires Sane(s) && Inv(s) && IsLive(s, e) && s.th.state[e] == Inhibited
    ensures Inv(Add(s, e, now, resched))
    ensures Near(s) ==>
              (Near(Add(s, e, now, resched)) <==> (s.th.cls[e] == Pss && s.th.initial[e] ==> Welcome(SetClock(s, now), e, false)))
  {
    hide Welcome, Late, Enqueue, CheckClassPreempt, Linked, Roles, WfTopo, Steady, Bounded;
    ParentGroup(s, e);
    var s0 := s.(th := s.th.(initial := s.th.initial[e := false]));
    var cur, wakeup := s.th.current, !s.th.initial[e];
    FrameLinked(s, s0);
    RolesMean(s.t, s.m, s.th, cur, e);
    assert s.th.state[e := Inhibited] == s.th.state;
    Began(s, e);
    var s1 := SetClock(s0, now);
    SetClockLinked(s0, now);
    WelcomeSame(SetClock(s, now), s1, e);
    JoinKeeps(s1, e, wakeup);
    var s2 := Enqueue(s1, e, wakeup);
    CheckKeeps(s2, e, resched);
    CheckNear(s2, e, resched);
    if s.th.cls[e] == Pss && !Welcome(s1, e, wakeup) {
      LateNotNear(Add(s, e, now, resched), e);
    }
  }

  lemma WelcomeSame(s: State, r: State, e: nat)
    requires Sane(s) && Sane(r) && IsEnt(s, e) && r == s.(th := r.th)
    ensures Welcome(r, e, false) <==> Welcome(s, e, false)
    ensures Welcome(s, e, true) && Welcome(r, e, true)
  {
  }

  lemma LateNotNear(s: State, e: nat)
    requires Sane(s) && IsEnt(s, e) && s.m.joined[e] && Late(s, e)
    ensures !Near(s)
  {
  }

  /** A joined thread of the pss class is joined in the hierarchy. */
  lemma PssJoined(s: State, th: Threads, cur: int, e: nat)
    requires Sane(s) && IsEnt(s, e) && IsThread(s.t, e) && SizedTh(th, |s.t.parent|) && NIL <= cur < |s.t.parent|
    requires Roles(s.t, s.m, th, cur) && th.cls[e] == Pss && th.state[e] != Inhibited
    ensures s.m.joined[e] && (cur != e ==> s.m.curr[s.t.sfq[e]] != e)
  {
    assert Role(s.t, s.m, th, cur, e);
  }

  lemma CheckNear(s: State, e: nat, resched: bool)
    requires Sane(s) && Linked(s) && IsEnt(s, e) && IsThread(s.t, e)
    requires Roles(s.t, s.m, s.th, s.th.current) && Normal(s.t, s.th, NIL) && s.th.state[e] != Inhibited
    ensures Near(s) ==> Near(CheckClassPreempt(s, e, resched))
    ensures s.th.cls[e] == Pss && s.th.current != e ==>
              var r := CheckClassPreempt(s, e, resched);
              r.m.joined[e] && r.tm.vruntime[e] == s.tm.vruntime[e] && (Late(s, e) ==> Late(r, e))
  {
    hide CheckClassPreempt, Linked, Roles, Steady, Bounded;
    CheckKeeps(s, e, resched);
    RolesAbsolute(s, s.th, s.th.current, NIL);
    NearSteady(s, CheckClassPreempt(s, e, resched), NIL);
    if s.th.cls[e] == Pss && s.th.current != e {
      PssJoined(s, s.th, s.th.current, e);
      CheckLate(s, e, resched);
    }
  }

  /** The check leaves a waiting thread where it is. */
  lemma CheckLate(s: State, e: nat, resched: bool)
    requires Sane(s) && Linked(s) && IsEnt(s, e) && IsThread(s.t, e) && s.m.joined[e] && s.m.curr[s.t.sfq[e]] != e
    ensures var r := CheckClassPreempt(s, e, resched);
            r.m == s.m && r.tm.vruntime[e] == s.tm.vruntime[e] && (Late(s, e) ==> Late(r, e))
  {
    hide CheckPreempt, Core, Chain, CurrJoined;
    var c := s.th.current;
    if c != NIL && s.th.cls[c] == Pss && s.th.cls[e] == Pss {
      CheckPreemptQuiet(s, c, e, resched);
    }
  }

  /** A sleeping thread is queued. */
  lemma JoinKeeps(s: State, e: nat, wakeup: bool)
    requires Sane(s) && Linked(s) && IsLive(s, e) && !s.th.initial[e] && s.th.state[e] == Inhibited
    requires Roles(s.t, s.m, s.th, s.th.current) && Normal(s.t, s.th, e)
    requires if s.th.cls[e] == Pss then s.th.absolute[e] == wakeup else !s.th.absolute[e]
    ensures var r := Enqueue(s, e, wakeup);
            && Linked(r) && Roles(r.t, r.m, r.th, s.th.current) && Normal(r.t, r.th, NIL)
            && r.th.state[e] == OnRunq && r.th.current == s.th.current && r.th.cls == s.th.cls
            && (Near(s) && (s.th.cls[e] == Pss ==> Welcome(s, e, wakeup)) ==> Near(r))
            && (s.th.cls[e] == Pss && !Welcome(s, e, wakeup) ==> Late(r, e))
  {
    hide Welcome, Late, Enqueue, Linked, Roles, WfTopo, Steady, Bounded;
    ParentGroup(s, e);
    var cur := s.th.current;
    RolesMean(s.t, s.m, s.th, cur, e);
    assert Asleep(s, e).th == s.th by {
      assert s.th.state[e := Inhibited] == s.th.state;
    }
    EnqueueLinked(s, e, wakeup);
    EnqueueRoles(s, e, wakeup, cur);
    var r := Enqueue(s, e, wakeup);
    SteadyNormal(s, r, e);
    RolesAbsolute(s, s.th, cur, e);
    StillNear(s, r, e);
    NearSteady(s, r, e);
  }

  /** A realtime thread's vruntime stands still. */
  lemma StillNear(s: State, r: State, e: nat)
    requires Sane(s) && Sane(r) && r.t == s.t && r.p == s.p && IsEnt(s, e) && IsThread(s.t, e)
    ensures Near(s) && r.tm == s.tm && !s.th.absolute[e] ==> r.tm.vruntime[e] + r.p.thresh >= 0
  {
    hide Bounded;
  }

  /** The current entity of queue q, if any, has been charged up to now. */
  ghost predicate PaidAt(s: State, q: nat)
    requires Sane(s) && IsQueue(s, q)
  {
    Owed(s.m, s.tm, q) == 0
  }

  lemma SteadyNormal(s: State, r: State, e: nat)
    requires Sane(s) && Sane(r) && r.t == s.t && Steady(s, r, e) && Normal(s.t, s.th, e) && IsEnt(s, e)
    ensures Normal(r.t, r.th, e)
    ensures r.th.live == s.th.live && r.th.cls == s.th.cls && r.th.initial == s.th.initial
    ensures r.th.current == s.th.current && r.th.pri == s.th.pri && r.th.prio == s.th.prio
  {
  }

  lemma Began(s: State, e: nat)
    requires Sane(s) && IsEnt(s, e) && IsThread(s.t, e) && s.th.state[e] == Inhibited
    requires Roles(s.t, s.m, s.th, s.th.current)
    ensures Roles(s.t, s.m, s.th.(initial := s.th.initial[e := false]), s.th.current)
  {
    var th := s.th.(initial := s.th.initial[e := false]);
    forall x | 0 <= x < |s.t.parent| ensures Role(s.t, s.m, th, s.th.current, x) {
      assert Role(s.t, s.m, s.th, s.th.current, x);
    }
  }

  /** The preemption check changes only times and candidates. */
  lemma CheckKeeps(s: State, e: nat, resched: bool)
    requires Sane(s) && Linked(s) && IsEnt(s, e) && IsThread(s.t, e)
    requires Roles(s.t, s.m, s.th, s.th.current) && s.th.state[e] != Inhibited
    ensures var r := CheckClassPreempt(s, e, resched);
            Linked(r) && Roles(r.t, r.m, r.th, r.th.current) && Steady(s, r, NIL) && r.th == s.th && (Bounded(s) ==> Bounded(r))
  {
    hide CheckPreempt, Core, Chain, CurrJoined, Roles, Quiet, Bounded;
    RolesMean(s.t, s.m, s.th, s.th.current, e);
    var c, r := s.th.current, CheckClassPreempt(s, e, resched);
    if c != NIL && s.th.cls[c] == Pss && s.th.cls[e] == Pss {
      CheckPreemptQuiet(s, c, e, resched);
      QuietLinked(s, r);
    }
  }

  // ---------- switching ----------

  /** sched_switch of a thread that stays runnable, up to the choice of the next. */
  lemma YieldKeeps(s: State, relinquish: bool, now: int)
    requires Sane(s) && Inv(s)
    ensures var r := Yield(s, relinquish, now);
            && Linked(r) && NoCurr(r.m) && Roles(r.t, r.m, r.th, NIL) && Normal(r.t, r.th, NIL)
            && r.th.current == s.th.current && r.th.live == s.th.live
            && (Near(s) ==> Near(r))
  {
    hide PutPrev, SetClock, Linked, Roles, Bounded, WfTopo;
    var e := s.th.current;
    if e == NIL {
      RunningChain(s, NIL);
    } else {
      RolesThread(s, e);
      ParentGroup(s, e);
      SetClockLinked(s, now);
      var s1 := SetClock(s, now);
      PutPrevRoles(s1, e, relinquish);
      var r := PutPrev(s1, e, relinquish);
      RolesAbsolute(s1, s.th, e, NIL);
      NearSteady(s1, r, e);
    }
  }

  lemma RolesThread(s: State, e: nat)
    requires Sane(s) && IsEnt(s, e) && Roles(s.t, s.m, s.th, e)
    ensures IsThread(s.t, e) && s.th.state[e] == Running && s.th.live[e] && !s.th.initial[e]
    ensures s.th.cls[e] == ClassOf(s.th.pri[e])
  {
    assert Role(s.t, s.m, s.th, e, e);
  }

  /** Joined threads other than y have absolute vruntimes. */
  ghost predicate JoinedAbsolute(s: State, y: int)
    requires Sane(s)
  {
    forall x :: 0 <= x < |s.t.myq| && IsThread(s.t, x) && x != y && s.m.joined[x] ==> s.th.absolute[x]
  }

  lemma RolesAbsolute(s: State, th: Threads, cur: int, y: int)
    requires Sane(s) && SizedTh(th, |s.t.parent|) && NIL <= cur < |s.t.parent|
    requires Roles(s.t, s.m, th, cur) && Normal(s.t, s.th, y)
    requires th.live == s.th.live && th.cls == s.th.cls && th.initial == s.th.initial
    ensures JoinedAbsolute(s, y)
  {
    forall x | 0 <= x < |s.t.myq| && IsThread(s.t, x) && x != y && s.m.joined[x] ensures s.th.absolute[x] {
      assert Role(s.t, s.m, th, cur, x);
    }
  }

  /** Relative vruntimes stay in bounds if e's does. */
  lemma NearSteady(s: State, r: State, e: int)
    requires Sane(s) && Sane(r) && r.t == s.t && r.p == s.p && Steady(s, r, e) && JoinedAbsolute(s, e)
    requires e == NIL || IsEnt(s, e)
    requires e != NIL && Near(s) ==> r.th.absolute[e] || r.tm.vruntime[e] + r.p.thresh >= 0
    ensures Near(s) && Bounded(r) ==> Near(r)
  {
    hide Bounded;
  }

  /** sched_switch of a thread that goes to sleep, and sched_throw, up to the choice of the next. */
  lemma VacateKeeps(s: State, sleep: bool, now: int)
    requires Sane(s) && Inv(s) && s.th.current != NIL
    ensures var r, e := Vacate(s, sleep, now), s.th.current;
            && Linked(r) && NoCurr(r.m) && Roles(r.t, r.m, r.th, NIL) && Normal(r.t, r.th, e)
            && r.th.current == e && r.th.live == s.th.live && r.th.cls == s.th.cls && r.th.initial == s.th.initial
            && !r.m.joined[e] && !r.th.rtJoined[e] && r.th.state[e] == Inhibited
            && r.th.absolute[e] == (s.th.cls[e] == Pss && sleep)
            && (Near(s) ==> Near(r))
  {
    hide PutPrev, Dequeue, SetClock, Linked, Roles, Bounded, WfTopo;
    var e := s.th.current;
    RolesThread(s, e);
    ParentGroup(s, e);
    var s0 := SetState(s, e, Inhibited);
    FrameLinked(s, s0);
    SetClockLinked(s0, now);
    var s1 := SetClock(s0, now);
    assert SetState(s1, e, Running).th == s.th by {
      assert s.th.state[e := Inhibited][e := Running] == s.th.state;
    }
    VacateRoles(s1, e, sleep);
    var r := PutPrev(Dequeue(s1, e, sleep), e, false);
    assert Asleep(r, e).th == r.th by {
      assert r.th.state[e := Inhibited] == r.th.state;
    }
    RolesAbsolute(s1, s.th, e, NIL);
    NearSteady(s1, r, e);
  }

  // ---------- off the queues and back ----------

  /** A queued or running thread is taken off its queues; only its state does not say so yet. */
  lemma WithdrawKeeps(s: State, e: nat)
    requires Sane(s) && Inv(s) && IsLive(s, e) && s.th.state[e] != Inhibited
    ensures var r, cur := Withdraw(s, e), if s.th.current == e then NIL else s.th.current;
            && Linked(r) && Roles(r.t, r.m, Asleep(r, e).th, cur) && Steady(s, r, e)
            && !r.m.joined[e] && !r.th.rtJoined[e] && !r.th.onRunq[e] && !r.th.absolute[e]
            && r.th.state == s.th.state && (cur == NIL ==> NoCurr(r.m))
            && (s.th.state[e] == Running <==> s.th.current == e)
            && (Bounded(s) ==> Bounded(r))
            && (Near(s) ==> r.tm.vruntime[e] + s.p.thresh >= 0)
            && (s.th.cls[e] == Pss ==> r.tm.vruntime[e] == LagNow(s, e))
            && (s.th.cls[e] != Pss ==> r.tm == s.tm)
  {
    hide LagNow, PutPrev, Dequeue, Linked, Roles, Bounded, WfTopo, Steady;
    ParentGroup(s, e);
    var cur := s.th.current;
    RolesMean(s.t, s.m, s.th, cur, e);
    if s.th.state[e] == Running {
      assert SetState(s, e, Running).th == s.th by {
        assert s.th.state[e := Running] == s.th.state;
      }
      VacateRoles(s, e, false);
    } else {
      DequeueRoles(s, e, cur);
      var r := Withdraw(s, e);
      FrameLinked(r, Asleep(r, e));
      if cur == NIL {
        RunningChain(Asleep(r, e), NIL);
      }
    }
  }

  /** A thread that has been taken off its queues and not been put back. */
  ghost predicate Withdrawn(s: State, e: nat, was: TdState)
    requires Sane(s)
  {
    && IsLive(s, e) && !s.th.initial[e] && was != Inhibited
    && !s.m.joined[e] && !s.th.rtJoined[e] && !s.th.onRunq[e] && !s.th.absolute[e]
    && (was == Running <==> s.th.current == e)
    && Linked(s) && Normal(s.t, s.th, e)
    && Roles(s.t, s.m, Asleep(s, e).th, if was == Running then NIL else s.th.current)
  }

  /** A withdrawn thread goes back to where it was, and keeps the lag bound exactly if it is welcome. */
  lemma RestoreKeeps(s: State, e: nat, was: TdState, now: int)
    requires Sane(s) && IsEnt(s, e) && Withdrawn(s, e, was)
    ensures var r := Restore(s, e, was, now);
            && Inv(r) && Steady(s, r, e) && r.th.state[e] == was
            && (Near(s) ==> (Near(r) <==> (s.th.cls[e] == Pss ==> Welcome(s, e, false))))
  {
    hide Activate, Enqueue, Linked, Roles, Bounded, WfTopo, Welcome, Late;
    ParentGroup(s, e);
    var cur := if was == Running then NIL else s.th.current;
    EnqueueLinked(s, e, false);
    EnqueueRoles(s, e, false, cur);
    var r := Enqueue(s, e, false);
    RolesAbsolute(s, Asleep(s, e).th, cur, e);
    NearSteady(s, r, e);
    if was == Running {
      RunningChain(r, NIL);
      ActivateRoles(r, e, now);
      SteadyThrough(s, r, Activate(r, e, now), e);
      RolesThread(Activate(r, e, now), e);
    }
    if s.th.cls[e] == Pss && !Welcome(s, e, false) {
      RestoreLag(s, e, was, now);
      LateNotNear(Restore(s, e, was, now), e);
    }
  }

  /** Its relative vruntime becomes its lag in the queue as it finds it. */
  lemma RestoreLag(s: State, e: nat, was: TdState, now: int)
    requires Sane(s) && IsEnt(s, e) && s.th.cls[e] == Pss && Withdrawn(s, e, was)
    ensures var r := Restore(s, e, was, now);
            && r.m.joined[e] && r.tm.vruntime[e] == s.tm.vruntime[e] + s.tm.vtime[s.t.sfq[e]]
            && (!Welcome(s, e, false) ==> Late(r, e))
  {
    hide Activate, Enqueue, Linked, Roles, Bounded, WfTopo, Welcome, Late;
    ParentGroup(s, e);
    var cur := if was == Running then NIL else s.th.current;
    EnqueueLinked(s, e, false);
    EnqueueRoles(s, e, false, cur);
    var r := Enqueue(s, e, false);
    PssJoined(r, r.th, cur, e);
    if was == Running {
      RunningChain(r, NIL);
      ActivateRoles(r, e, now);
      var r' := Activate(r, e, now);
      RolesThread(r', e);
      PssJoined(r', r'.th, e, e);
      if !Welcome(s, e, false) {
        LateStays(r, r', e);
      }
    }
  }

  /** A thread of the realtime class keeps its vruntime untouched. */
  lemma RestoreRealtime(s: State, e: nat, was: TdState, now: int)
    requires Sane(s) && IsEnt(s, e) && s.th.cls[e] == Realtime && Withdrawn(s, e, was)
    ensures Restore(s, e, was, now).tm.vruntime == s.tm.vruntime
  {
    hide Activate, Enqueue, Linked, Roles, Bounded, WfTopo, Welcome, Late;
    ParentGroup(s, e);
    EnqueueLinked(s, e, false);
    EnqueueRoles(s, e, false, if was == Running then NIL else s.th.current);
    var r := Enqueue(s, e, false);
    if was == Running {
      RunningChain(r, NIL);
      ActivateRoles(r, e, now);
    }
  }

  lemma LateStays(s: State, r: State, e: nat)
    requires Sane(s) && Sane(r) && IsEnt(s, e) && r.t == s.t && r.p == s.p && Late(s, e)
    requires r.tm.vruntime[e] == s.tm.vruntime[e] && Later(s.tm, r.tm)
    ensures Late(r, e)
  {
  }

  // ---------- nice ----------

  /** Weights of entities that are not joined are free, as long as they are positive. */
  lemma SetWeightCore(s: State, e: nat, w: nat)
    requires Sane(s) && IsEnt(s, e) && !s.m.joined[e] && w > 0 && Core(s)
    ensures Core(SetWeight(s, e, w))
  {
    hide Timelines, Currs, Groups, Joins, Candidates, Conserved, Started, Sorted, Books;
    var r := SetWeight(s, e, w);
    SetWeightBooks(s, s.m.joined, e, w);
    PlacedOnly(s, r);
    GroupsOnly(s, r, NIL);
  }

  lemma SetWeightLinked(s: State, e: nat, w: nat)
    requires Sane(s) && IsEnt(s, e) && !s.m.joined[e] && w > 0 && Linked(s)
    ensures Linked(SetWeight(s, e, w)) && (Bounded(s) <==> Bounded(SetWeight(s, e, w)))
  {
    hide Core, Chain, CurrJoined, SetWeight;
    SetWeightCore(s, e, w);
  }

  /** With nothing owed in its queue a thread that is not too far behind is welcome. */
  lemma PaidIsWelcome(s: State, e: nat)
    requires Sane(s) && IsEnt(s, e) && s.tm.vruntime[e] + s.p.thresh >= 0
    ensures NoCurr(s.m) || PaidAt(s, s.t.sfq[e]) ==> Welcome(s, e, false)
  {
  }

  /** Where sched_nice stands when it puts a queued or running thread back. */
  function NiceReady(s: State, e: nat, weight: nat, now: int, later: int): (r: State)
    requires Sane(s) && IsEnt(s, e)
    ensures Same(s, r)
  {
    SetClock(SetWeight(Withdraw(SetClock(s, now), e), e, weight), later)
  }

  /** The lag bound holds except that e may not be welcome; if it was running it is. */
  ghost predicate NearReady(s: State, e: nat, was: TdState)
    requires Sane(s) && IsEnt(s, e)
  {
    Near(s) && (was == Running ==> Welcome(s, e, false))
  }

  /** What a thread has when it is off its queues is its lag as of now. */
  lemma WithdrawnKeeps(s: State, e: nat, now: int)
    requires Sane(s) && Inv(s) && IsLive(s, e) && s.th.state[e] != Inhibited
    ensures var r := Withdraw(SetClock(s, now), e);
            && Withdrawn(r, e, s.th.state[e]) && r.th.cls == s.th.cls
            && (s.th.state[e] == Running ==> NoCurr(r.m))
            && (Near(s) ==> Near(r) && r.tm.vruntime[e] + r.p.thresh >= 0)
    ensures s.th.cls[e] == Pss ==> Withdraw(SetClock(s, now), e).tm.vruntime[e] == LagNow(SetClock(s, now), e)
  {
    hide Withdraw, SetClock, Linked, Roles, WfTopo, Steady, Bounded, LagNow, NoCurr;
    ParentGroup(s, e);
    RolesMean(s.t, s.m, s.th, s.th.current, e);
    var s0 := SetClock(s, now);
    SetClockLinked(s, now);
    WithdrawKeeps(s0, e);
    var s1 := Withdraw(s0, e);
    SteadyNormal(s0, s1, e);
    RolesAbsolute(s0, s.th, s.th.current, e);
    NearSteady(s0, s1, e);
  }

  lemma NiceReadyKeeps(s: State, e: nat, weight: nat, now: int, later: int)
    requires Sane(s) && Inv(s) && IsLive(s, e) && weight > 0 && s.th.cls[e] == Pss && s.th.state[e] != Inhibited
    ensures var r := NiceReady(s, e, weight, now, later);
            Withdrawn(r, e, s.th.state[e]) && r.th.cls == s.th.cls && (Near(s) ==> NearReady(r, e, s.th.state[e]))
    ensures NiceReady(s, e, weight, now, later).tm.vruntime[e] == LagNow(SetClock(s, now), e)
  {
    hide Inv, Welcome, Withdraw, SetClock, Linked, Roles, WfTopo, SetWeight, Bounded, LagNow, NoCurr;
    WithdrawnKeeps(s, e, now);
    var s1 := Withdraw(SetClock(s, now), e);
    SetWeightLinked(s1, e, weight);
    var s2 := SetWeight(s1, e, weight);
    SetClockLinked(s2, later);
    if Near(s) {
      PaidIsWelcome(SetClock(s2, later), e);
    }
  }

  /** sched_nice, with a positive weight from the table. */
  lemma NiceKeeps(s: State, e: nat, weight: nat, now: int, later: int)
    requires Sane(s) && Inv(s) && IsLive(s, e) && weight > 0
    ensures Inv(Nice(s, e, weight, now, later))
    ensures Near(s) ==>
              (Near(Nice(s, e, weight, now, later)) <==>
                 (s.th.cls[e] == Pss && s.th.state[e] == OnRunq ==> Welcome(NiceReady(s, e, weight, now, later), e, false)))
  {
    hide Welcome, Withdraw, Restore, SetClock, Linked, Roles, WfTopo, Steady, SetWeight, Bounded, Withdrawn;
    if s.th.cls[e] != Pss || s.th.state[e] == Inhibited {
      RolesMean(s.t, s.m, s.th, s.th.current, e);
      SetWeightLinked(s, e, weight);
    } else {
      NiceReadyKeeps(s, e, weight, now, later);
      RestoreKeeps(NiceReady(s, e, weight, now, later), e, s.th.state[e], later);
    }
  }

  /** sched_nice leaves a queued or running thread its lag: what it had when its queue was last
      charged before the change is what it has against the queue it is put back into. */
  lemma NiceKeepsLag(s: State, e: nat, weight: nat, now: int, later: int)
    requires Sane(s) && Inv(s) && IsLive(s, e) && weight > 0 && s.th.cls[e] == Pss && s.th.state[e] != Inhibited
    ensures Nice(s, e, weight, now, later).tm.vruntime[e] - NiceReady(s, e, weight, now, later).tm.vtime[s.t.sfq[e]]
         == LagNow(SetClock(s, now), e)
  {
    hide Withdraw, Restore, SetClock, Linked, Roles, WfTopo, SetWeight, Withdrawn, LagNow, Inv;
    NiceReadyKeeps(s, e, weight, now, later);
    RestoreLag(NiceReady(s, e, weight, now, later), e, s.th.state[e], later);
  }
}
