/** Class switches, group moves, forks and the other entry points keep the invariant
    (sched.c:692-782, 859-874, 1433-1461, pss.c:1218-1239, 1356-1413, 1502-1549). */
module SchedChange {
  import opened SchedState
  import opened SchedOps
  import opened SchedSteps
  import opened SchedBooks
  import opened SchedMembers
  import opened SchedWalks
  import opened SchedTimes
  import opened SchedClass
  import opened SchedPick
  import opened SchedRoles
  import opened SchedEntry
  import FixedPoint

  // ---------- class switches ----------

  /** The vruntime of a thread that is not joined may change, and with it the flag absolute. */
  lemma VruntimeLinked(s: State, r: State, e: nat)
    requires Sane(s) && Sane(r) && IsEnt(s, e) && IsThread(s.t, e) && Linked(s) && !s.m.joined[e] && r.ok == s.ok
    requires r == s.(ok := r.ok, tm := s.tm.(vruntime := r.tm.vruntime), th := s.th.(absolute := r.th.absolute))
    requires r.tm.vruntime == s.tm.vruntime[e := r.tm.vruntime[e]] && r.th.absolute == s.th.absolute[e := r.th.absolute[e]]
    ensures Linked(r) && (Bounded(s) ==> Bounded(r))
    ensures Near(s) && (r.th.absolute[e] || r.tm.vruntime[e] + r.p.thresh >= 0) ==> Near(r)
  {
    hide Kept, Timelines, Currs, Groups, Candidates, Timed, Chain, CurrJoined, Joins, Lag;
    OffTimeline(s, e);
    KeptOnly(s, r);
    PlacedOnly(s, r);
    VruntimeOnly(s, r, e);
    LagBut(s, r, e);
  }

  /** A sleeping thread that leaves the pss class gives up what it would gain by sleeping on. */
  lemma SwitchedFromKeeps(s: State, e: nat)
    requires Sane(s) && Linked(s) && IsLive(s, e) && !s.m.joined[e] && !s.th.initial[e] && s.th.state[e] == Inhibited
    requires s.th.absolute[e]
    ensures var r := SwitchedFrom(s, e);
            && Linked(r) && r.m == s.m && r.th == s.th.(absolute := s.th.absolute[e := false])
            && (Near(s) ==> Near(r))
  {
    hide Linked, Bounded;
    var s1 := Place(s, e, false, 0);
    assert s1.th.absolute == s.th.absolute[e := true];
    VruntimeLinked(s, s1, e);
    VruntimeLinked(s1, SubVtime(s1, e), e);
  }

  lemma SwitchedToKeeps(s: State, e: nat)
    requires Sane(s) && Linked(s) && IsLive(s, e) && !s.m.joined[e] && !s.th.initial[e] && s.th.state[e] == Inhibited
    requires !s.th.absolute[e]
    ensures var r := SwitchedTo(s, e, false);
            && Linked(r) && r.m == s.m && r.th == s.th.(absolute := s.th.absolute[e := true])
            && (Near(s) ==> Near(r))
  {
    hide Linked, Bounded;
    VruntimeLinked(s, AddVtime(s, e), e);
  }

  /** Changing the class of a thread that is on no queue. */
  lemma ReclassRoles(s: State, e: nat, pri: PriClass, cur: int)
    requires Sane(s) && IsEnt(s, e) && IsThread(s.t, e) && NIL <= cur < |s.t.parent| && cur != e
    requires !s.m.joined[e] && !s.th.rtJoined[e] && !s.th.onRunq[e]
    requires Roles(s.t, s.m, Asleep(s, e).th, cur)
    ensures var th := s.th.(cls := s.th.cls[e := ClassOf(pri)], pri := s.th.pri[e := pri]);
            Roles(s.t, s.m, th.(state := s.th.state[e := Inhibited]), cur)
  {
    hide Roles;
    var th := s.th.(cls := s.th.cls[e := ClassOf(pri)], pri := s.th.pri[e := pri]);
    RolesMean(s.t, s.m, Asleep(s, e).th, cur, e);
    assert s.th.runq - {e} == s.th.runq;
    RolesStep(s.t, s.m, Asleep(s, e).th, cur, s.m, th.(state := s.th.state[e := Inhibited]), cur, e);
  }

  /** The state of sched_class when it puts a queued or running thread back. */
  function ClassReady(s: State, e: nat, pri: PriClass): (r: State)
    requires Sane(s) && IsEnt(s, e)
    ensures Same(s, r)
  {
    var s1 := Withdraw(s, e);
    s1.(th := s1.th.(cls := s1.th.cls[e := ClassOf(pri)], pri := s1.th.pri[e := pri]))
  }

  /** sched_class of a thread that has been started. */
  lemma SetClassKeeps(s: State, e: nat, pri: PriClass, now: int, resched: bool)
    requires Sane(s) && Inv(s) && IsLive(s, e) && !s.th.initial[e]
    ensures Inv(SetClass(s, e, pri, now, resched))
    ensures Near(s) ==>
              (Near(SetClass(s, e, pri, now, resched)) <==>
                 (s.th.pri[e] != pri && ClassOf(pri) == Pss && s.th.state[e] == OnRunq ==> Welcome(ClassReady(s, e, pri), e, false)))
  {
    hide Welcome, Withdraw, Restore, SwitchedFrom, SwitchedTo, Linked, Roles, WfTopo, Steady, Bounded, SetClass;
    if s.th.pri[e] == pri {
      assert SetClass(s, e, pri, now, resched) == s by { ClassSame(s, e, pri, now, resched); }
    } else if s.th.state[e] == Inhibited {
      SleeperClass(s, e, pri, now, resched);
    } else {
      AwakeClass(s, e, pri, now, resched);
    }
  }

  lemma ClassSame(s: State, e: nat, pri: PriClass, now: int, resched: bool)
    requires Sane(s) && IsEnt(s, e) && s.th.pri[e] == pri
    ensures SetClass(s, e, pri, now, resched) == s
  {
  }

  lemma SleeperClass(s: State, e: nat, pri: PriClass, now: int, resched: bool)
    requires Sane(s) && Inv(s) && IsLive(s, e) && !s.th.initial[e] && s.th.state[e] == Inhibited
    requires !(s.th.pri[e] == pri)
    ensures Inv(SetClass(s, e, pri, now, resched))
    ensures Near(s) ==> Near(SetClass(s, e, pri, now, resched))
  {
    hide SwitchedFrom, SwitchedTo, Linked, Roles, WfTopo, Bounded;
    ParentGroup(s, e);
    RolesMean(s.t, s.m, s.th, s.th.current, e);
    var th := s.th.(cls := s.th.cls[e := ClassOf(pri)], pri := s.th.pri[e := pri]);
    var s2 := s.(th := th);
    FrameLinked(s, s2);
    assert s.th.state[e := Inhibited] == s.th.state;
    ReclassRoles(s, e, pri, s.th.current);
    var cls := ClassOf(pri);
    if s.th.cls[e] != cls {
      var a := s.th.absolute[e := !s.th.absolute[e]];
      AbsoluteFree(s.t, s.m, th, a, s.th.current);
      if cls == Realtime {
        SwitchedFromKeeps(s2, e);
      } else {
        SwitchedToKeeps(s2, e);
        SwitchedToAny(s2, e, resched);
      }
    }
  }

  lemma SwitchedToAny(s: State, e: nat, resched: bool)
    requires Sane(s) && IsEnt(s, e) && !s.th.initial[e] && s.th.state[e] == Inhibited
    ensures SwitchedTo(s, e, resched) == SwitchedTo(s, e, false)
  {
  }

  lemma AbsoluteFree(t: Topo, m: Members, th: Threads, a: seq<bool>, cur: int)
    requires WfTopo(t) && SizedM(m, |t.parent|, |t.owner|) && SizedTh(th, |t.parent|) && |a| == |t.parent|
    requires NIL <= cur < |t.parent| && Roles(t, m, th, cur)
    ensures Roles(t, m, th.(absolute := a), cur)
  {
    forall e | 0 <= e < |t.parent| ensures Role(t, m, th.(absolute := a), cur, e) {
      assert Role(t, m, th, cur, e);
    }
  }

  lemma ClassReadyKeeps(s: State, e: nat, pri: PriClass)
    requires Sane(s) && Inv(s) && IsLive(s, e) && !s.th.initial[e] && s.th.state[e] != Inhibited
    ensures var r := ClassReady(s, e, pri);
            && Withdrawn(r, e, s.th.state[e]) && r.th.cls == s.th.cls[e := ClassOf(pri)]
            && (Near(s) ==> NearReady(r, e, s.th.state[e]))
    ensures s.th.cls[e] == Pss ==> ClassReady(s, e, pri).tm.vruntime[e] == LagNow(s, e)
    ensures s.th.cls[e] == Realtime ==> ClassReady(s, e, pri).tm == s.tm
  {
    hide Welcome, Withdraw, Linked, Roles, WfTopo, Steady, Bounded, LagNow;
    ParentGroup(s, e);
    WithdrawKeeps(s, e);
    var s1, cur := Withdraw(s, e), if s.th.current == e then NIL else s.th.current;
    SteadyNormal(s, s1, e);
    RolesAbsolute(s, s.th, s.th.current, e);
    NearSteady(s, s1, e);
    var s2 := ClassReady(s, e, pri);
    FrameLinked(s1, s2);
    ReclassRoles(s1, e, pri, cur);
    assert Asleep(s2, e).th == s2.th.(state := s1.th.state[e := Inhibited]);
    if Near(s) {
      PaidIsWelcome(s2, e);
    }
  }

  lemma AwakeClass(s: State, e: nat, pri: PriClass, now: int, resched: bool)
    requires Sane(s) && Inv(s) && IsLive(s, e) && !s.th.initial[e] && s.th.state[e] != Inhibited
    requires s.th.pri[e] != pri
    ensures Inv(SetClass(s, e, pri, now, resched))
    ensures Near(s) ==>
              (Near(SetClass(s, e, pri, now, resched)) <==>
                 (ClassOf(pri) == Pss && s.th.state[e] == OnRunq ==> Welcome(ClassReady(s, e, pri), e, false)))
  {
    hide Welcome, Late, Withdraw, Restore, Linked, Roles, WfTopo, Steady, Bounded, CheckClassPreempt, Withdrawn, ClassReady;
    ClassReadyKeeps(s, e, pri);
    var s2, was := ClassReady(s, e, pri), s.th.state[e];
    RestoreKeeps(s2, e, was, now);
    var s3 := Restore(s2, e, was, now);
    SteadyClass(s2, s3, e);
    ClassUnfolds(s, e, pri, now, resched);
    if s.th.cls[e] != ClassOf(pri) && ClassOf(pri) == Pss && s3.th.current != e {
      CheckKeeps(s3, e, resched);
      CheckNear(s3, e, resched);
      if !Welcome(s2, e, false) {
        RestoreLag(s2, e, was, now);
        LateNotNear(CheckClassPreempt(s3, e, resched), e);
      }
    }
  }

  lemma ClassUnfolds(s: State, e: nat, pri: PriClass, now: int, resched: bool)
    requires Sane(s) && IsEnt(s, e) && s.th.pri[e] != pri && s.th.state[e] != Inhibited
    ensures var s3 := Restore(ClassReady(s, e, pri), e, s.th.state[e], now);
            SetClass(s, e, pri, now, resched) ==
              if s.th.cls[e] == ClassOf(pri) then s3
              else if ClassOf(pri) == Realtime then SwitchedFrom(s3, e)
              else SwitchedTo(s3, e, resched)
  {
    hide Withdraw, Restore, SwitchedFrom, SwitchedTo;
  }

  /** A queued or running thread that leaves the pss class takes its lag with it, and one that enters
      it brings along what it left with, against the queue as it finds it. */
  lemma ClassKeepsLag(s: State, e: nat, pri: PriClass, now: int, resched: bool)
    requires Sane(s) && Inv(s) && IsLive(s, e) && !s.th.initial[e] && s.th.state[e] != Inhibited
    ensures s.th.cls[e] == Pss && ClassOf(pri) == Realtime && s.th.pri[e] != pri ==>
              SetClass(s, e, pri, now, resched).tm.vruntime[e] == LagNow(s, e)
    ensures s.th.cls[e] == Realtime && ClassOf(pri) == Pss && s.th.pri[e] != pri ==>
              SetClass(s, e, pri, now, resched).tm.vruntime[e] - s.tm.vtime[s.t.sfq[e]] == s.tm.vruntime[e]
  {
    hide LagNow, Withdraw, Restore, Linked, Roles, WfTopo, Steady, CheckClassPreempt, Withdrawn, ClassReady;
    if s.th.cls[e] != ClassOf(pri) && s.th.pri[e] != pri {
      ClassReadyKeeps(s, e, pri);
      ClassUnfolds(s, e, pri, now, resched);
      var s2, was := ClassReady(s, e, pri), s.th.state[e];
      RestoreKeeps(s2, e, was, now);
      var s3 := Restore(s2, e, was, now);
      SteadyClass(s2, s3, e);
      if ClassOf(pri) == Realtime {
        RestoreRealtime(s2, e, was, now);
      } else {
        RestoreLag(s2, e, was, now);
        if s3.th.current != e {
          CheckNear(s3, e, resched);
        }
      }
    }
  }

  lemma SteadyClass(s: State, r: State, e: nat)
    requires Sane(s) && Sane(r) && r.t == s.t && Steady(s, r, e)
    ensures r.th.initial == s.th.initial && r.th.cls == s.th.cls && r.th.current == s.th.current
  {
  }

  // ---------- another group ----------

  lemma {:induction false} LoadSumMove(sfq: seq<nat>, joined: seq<bool>, weight: seq<nat>, q: nat, n: nat, e: nat, p: nat)
    requires n <= |sfq| == |joined| == |weight| && e < |sfq| && !joined[e]
    ensures LoadSum(sfq[e := p], joined, weight, q, n) == LoadSum(sfq, joined, weight, q, n)
    ensures Count(sfq[e := p], joined, q, n) == Count(sfq, joined, q, n)
  {
    if n > 0 {
      LoadSumMove(sfq, joined, weight, q, n - 1, e, p);
    }
  }

  lemma SetQueueKept(s: State, e: nat, q: nat)
    requires Sane(s) && IsEnt(s, e) && IsQueue(s, q) && IsThread(s.t, e) && !s.m.joined[e] && Kept(s)
    ensures Kept(SetQueue(s, e, q))
  {
    var r := SetQueue(s, e, q);
    forall p | 0 <= p < |s.a.load| ensures QueueBooks(r.t, r.m.joined, r.a, p) {
      assert QueueBooks(s.t, s.m.joined, s.a, p);
      LoadSumMove(s.t.sfq, s.m.joined, s.a.weight, p, |s.t.sfq|, e, q);
    }
  }

  lemma SetQueueMembers(s: State, e: nat, q: nat)
    requires Sane(s) && IsEnt(s, e) && IsQueue(s, q) && IsThread(s.t, e) && !s.m.joined[e]
    requires s.m.curr[s.t.sfq[e]] != e && Membership(s, NIL)
    ensures Membership(SetQueue(s, e, q), NIL)
  {
    var r := SetQueue(s, e, q);
    CurrElsewhere(s, e);
    assert Timelines(r.t, r.m) by {
      forall p, i | 0 <= p < |r.m.timeline| && 0 <= i < |r.m.timeline[p]|
        ensures r.t.sfq[r.m.timeline[p][i]] == p && r.m.onSfq[r.m.timeline[p][i]]
      {
        assert s.t.sfq[s.m.timeline[p][i]] == p;
      }
    }
  }

  lemma SetQueueCands(s: State, e: nat, q: nat)
    requires Sane(s) && IsEnt(s, e) && IsQueue(s, q) && IsThread(s.t, e) && !s.m.joined[e]
    requires Candidates(s.t, s.m.joined, s.c)
    ensures var r := SetQueue(s, e, q); Candidates(r.t, r.m.joined, r.c)
  {
    var r := SetQueue(s, e, q);
    forall p | 0 <= p < |s.c.skip| ensures CandOf(r.t, r.m.joined, r.c.skip[p], p) {
      assert CandOf(s.t, s.m.joined, s.c.skip[p], p);
    }
    forall p | 0 <= p < |s.c.next| ensures CandOf(r.t, r.m.joined, r.c.next[p], p) {
      assert CandOf(s.t, s.m.joined, s.c.next[p], p);
    }
    forall p | 0 <= p < |s.c.last| ensures CandOf(r.t, r.m.joined, r.c.last[p], p) {
      assert CandOf(s.t, s.m.joined, s.c.last[p], p);
    }
  }

  lemma SetQueueTimed(s: State, e: nat, q: nat)
    requires Sane(s) && IsEnt(s, e) && IsQueue(s, q) && IsThread(s.t, e) && Timed(s.t, s.m, s.tm)
    ensures var r := SetQueue(s, e, q); Timed(r.t, r.m, r.tm)
  {
    var r := SetQueue(s, e, q);
    forall g | 0 <= g < |r.t.parent| && r.t.myq[g] != NIL
      ensures Earned(r.t, r.m, r.tm, g) == r.tm.charged[r.t.myq[g]] + Owed(r.m, r.tm, r.t.myq[g])
    {
      assert Earned(s.t, s.m, s.tm, g) == s.tm.charged[s.t.myq[g]] + Owed(s.m, s.tm, s.t.myq[g]);
    }
  }

  lemma SetQueueChain(s: State, e: nat, q: nat)
    requires Sane(s) && IsEnt(s, e) && IsQueue(s, q) && IsThread(s.t, e) && !s.m.joined[e]
    ensures var r := SetQueue(s, e, q);
            && (Chain(s.t, s.m, NIL) ==> Chain(r.t, r.m, NIL))
            && (Bounded(s) ==> Bounded(r))
            && (RelativeLag(s.p, s.t, s.th.absolute, s.tm) ==> RelativeLag(r.p, r.t, r.th.absolute, r.tm))
            && (GroupsAbsolute(s.t, s.th.absolute) ==> GroupsAbsolute(r.t, r.th.absolute))
  {
    var r := SetQueue(s, e, q);
    if Chain(s.t, s.m, NIL) {
      forall g | 0 <= g < |r.t.myq| && 0 <= r.t.myq[g] < |r.m.curr| && r.t.sfq[g] < |r.m.curr|
        ensures r.m.curr[r.t.sfq[g]] == g <==> r.m.curr[r.t.myq[g]] != NIL
      {
        assert s.t.myq[g] != NIL;
      }
    }
  }

  /** A thread that is not joined may be given another queue at any time. */
  lemma SetQueueLinked(s: State, e: nat, q: nat)
    requires Sane(s) && IsEnt(s, e) && IsQueue(s, q) && IsThread(s.t, e) && !s.m.joined[e] && s.m.curr[s.t.sfq[e]] != e
    requires Linked(s)
    ensures Linked(SetQueue(s, e, q)) && (Near(s) ==> Near(SetQueue(s, e, q)))
  {
    hide Kept, Membership, Candidates, Timed, Chain, SetQueue, Lag;
    SetQueueKept(s, e, q);
    SetQueueMembers(s, e, q);
    SetQueueCands(s, e, q);
    SetQueueTimed(s, e, q);
    SetQueueChain(s, e, q);
  }

  lemma SetQueueRoles(s: State, th: Threads, e: nat, q: nat, cur: int)
    requires Sane(s) && IsEnt(s, e) && IsQueue(s, q) && IsThread(s.t, e) && NIL <= cur < |s.t.parent| && cur != e
    requires SizedTh(th, |s.t.parent|) && Currs(s.t, s.m) && Roles(s.t, s.m, th, cur)
    ensures var r := SetQueue(s, e, q); Roles(r.t, r.m, th, cur)
  {
    var r := SetQueue(s, e, q);
    assert Role(s.t, s.m, th, cur, e);
    CurrElsewhere(s, e);
    forall x | 0 <= x < |r.t.parent| ensures Role(r.t, r.m, th, cur, x) {
      assert Role(s.t, s.m, th, cur, x);
    }
    RunnableTopo(s.t, r.t, s.m.joined, th.rtJoined, |s.t.parent|);
  }

  lemma {:induction false} RunnableTopo(t: Topo, t': Topo, j: seq<bool>, rj: seq<bool>, n: nat)
    requires n <= |t.myq| == |j| == |rj| && t'.myq == t.myq
    ensures Runnable(t', j, rj, n) == Runnable(t, j, rj, n)
  {
    if n > 0 {
      RunnableTopo(t, t', j, rj, n - 1);
    }
  }

  lemma MoveIdleKeeps(s: State, e: nat, q: nat)
    requires Sane(s) && Inv(s) && IsLive(s, e) && IsQueue(s, q) && s.th.state[e] == Inhibited
    ensures Inv(MoveIdle(s, e, q)) && (Near(s) ==> Near(MoveIdle(s, e, q)))
  {
    hide SetQueue, Linked, Roles, Bounded, Near, WfTopo;
    ParentGroup(s, e);
    RolesMean(s.t, s.m, s.th, s.th.current, e);
    LinkedCurrs(s);
    if s.th.cls[e] == Pss && !s.th.initial[e] {
      var s1 := SubVtime(s, e);
      var s2 := SetQueue(s1, e, q);
      var r := AddVtime(s2, e);
      var v1 := s1.(tm := s1.tm.(vruntime := s1.tm.vruntime[e := r.tm.vruntime[e]]), th := s.th);
      assert s1.th.absolute[e := true] == s.th.absolute;
      assert r == SetQueue(v1, e, q) by { MoveCommutes(s, e, q); }
      VruntimeLinked(s, v1, e);
      SetQueueLinked(v1, e, q);
      SetQueueRoles(v1, s.th, e, q, s.th.current);
    } else {
      SetQueueLinked(s, e, q);
      SetQueueRoles(s, s.th, e, q, s.th.current);
    }
  }

  lemma LinkedCurrs(s: State)
    requires Sane(s) && Linked(s)
    ensures Currs(s.t, s.m)
  {
  }

  lemma MoveCommutes(s: State, e: nat, q: nat)
    requires Sane(s) && IsEnt(s, e) && IsQueue(s, q) && IsThread(s.t, e) && s.th.absolute[e]
    ensures var s1 := SubVtime(s, e);
            var r := AddVtime(SetQueue(s1, e, q), e);
            var v1 := s1.(tm := s1.tm.(vruntime := s1.tm.vruntime[e := r.tm.vruntime[e]]), th := s.th);
            r == SetQueue(v1, e, q)
  {
    hide WfTopo, SizedM, SizedC;
    var s1 := SubVtime(s, e);
    var s2 := SetQueue(s1, e, q);
    var r := AddVtime(s2, e);
    var v1 := s1.(tm := s1.tm.(vruntime := s1.tm.vruntime[e := r.tm.vruntime[e]]), th := s.th);
    assert s.th.absolute[e := false][e := true] == s.th.absolute;
    assert r.tm == v1.tm;
    assert s2.t == SetQueue(v1, e, q).t by {
      assert v1.t == s1.t;
    }
  }

  /** Where sched_group_move stands when it puts a queued or running thread back. */
  function MoveReady(s: State, e: nat, q: nat, now: int, later: int): (r: State)
    requires Sane(s) && IsEnt(s, e) && IsQueue(s, q) && IsThread(s.t, e)
    ensures Sane(r) && |r.t.owner| == |s.t.owner|
  {
    SetClock(SetQueue(Withdraw(SetClock(s, now), e), e, q), later)
  }

  /** sched_group_move. */
  lemma MoveKeeps(s: State, e: nat, q: nat, now: int, later: int)
    requires Sane(s) && Inv(s) && IsLive(s, e) && IsQueue(s, q)
    ensures Inv(Move(s, e, q, now, later))
    ensures Near(s) ==>
              (Near(Move(s, e, q, now, later)) <==>
                 (s.th.cls[e] == Pss && s.th.state[e] == OnRunq ==> Welcome(MoveReady(s, e, q, now, later), e, false)))
  {
    hide Welcome, MoveIdle, MoveReady, Restore, Inv, Near, SetClock, SetQueue, Withdraw;
    if s.th.state[e] == Inhibited {
      MoveIdleKeeps(s, e, q);
    } else {
      MoveAwake(s, e, q, now, later);
      MoveUnfolds(s, e, q, now, later);
    }
  }

  lemma MoveUnfolds(s: State, e: nat, q: nat, now: int, later: int)
    requires Sane(s) && IsEnt(s, e) && IsQueue(s, q) && IsThread(s.t, e) && s.th.state[e] != Inhibited
    ensures Move(s, e, q, now, later) == Restore(MoveReady(s, e, q, now, later), e, s.th.state[e], later)
  {
    hide Restore, SetClock, SetQueue, Withdraw;
  }

  lemma MoveReadyKeeps(s: State, e: nat, q: nat, now: int, later: int)
    requires Sane(s) && Inv(s) && IsLive(s, e) && IsQueue(s, q) && s.th.state[e] != Inhibited
    ensures var r := MoveReady(s, e, q, now, later);
            && Withdrawn(r, e, s.th.state[e]) && r.th.cls == s.th.cls && r.t.sfq[e] == q
            && (Near(s) ==> NearReady(r, e, s.th.state[e]))
    ensures s.th.cls[e] == Pss ==> MoveReady(s, e, q, now, later).tm.vruntime[e] == LagNow(SetClock(s, now), e)
  {
    hide Inv, Welcome, Withdraw, SetClock, SetQueue, Linked, Roles, WfTopo, Bounded, LagNow, NoCurr, Near;
    WithdrawnKeeps(s, e, now);
    var s1, cur := Withdraw(SetClock(s, now), e), if s.th.state[e] == Running then NIL else s.th.current;
    MovedReady(s1, e, q, s.th.state[e]);
    var s2 := SetQueue(s1, e, q);
    MovedTo(s1, e, q);
    SetClockLinked(s2, later);
    var s3 := SetClock(s2, later);
    NearClock(s2, later);
    if Near(s) {
      PaidIsWelcome(s3, e);
    }
    assert Asleep(s3, e).th == Asleep(s2, e).th;
  }

  lemma NearClock(s: State, now: int)
    requires Sane(s) && Linked(s)
    ensures Near(s) ==> Near(SetClock(s, now))
  {
    hide Linked, Bounded;
    SetClockLinked(s, now);
  }

  lemma MovedReady(s: State, e: nat, q: nat, was: TdState)
    requires Sane(s) && IsEnt(s, e) && IsQueue(s, q) && IsThread(s.t, e) && Withdrawn(s, e, was)
    ensures var r := SetQueue(s, e, q); Withdrawn(r, e, was) && (Near(s) ==> Near(r))
  {
    hide SetQueue, Linked, Roles, WfTopo, Near;
    var cur := if was == Running then NIL else s.th.current;
    GoneFromChain(s, Asleep(s, e).th, e, cur);
    LinkedCurrs(s);
    SetQueueLinked(s, e, q);
    SetQueueRoles(s, Asleep(s, e).th, e, q, cur);
    MovedTo(s, e, q);
    assert Asleep(SetQueue(s, e, q), e).th == Asleep(s, e).th;
  }

  lemma MoveAwake(s: State, e: nat, q: nat, now: int, later: int)
    requires Sane(s) && Inv(s) && IsLive(s, e) && IsQueue(s, q) && s.th.state[e] != Inhibited
    ensures var r := Restore(MoveReady(s, e, q, now, later), e, s.th.state[e], later);
            && Inv(r)
            && (Near(s) ==>
                  (Near(r) <==>
                     (s.th.cls[e] == Pss && s.th.state[e] == OnRunq ==> Welcome(MoveReady(s, e, q, now, later), e, false))))
  {
    hide Welcome, Restore, MoveReady, Linked, Roles, WfTopo, Steady, Bounded, Withdrawn;
    MoveReadyKeeps(s, e, q, now, later);
    RestoreKeeps(MoveReady(s, e, q, now, later), e, s.th.state[e], later);
  }

  /** Moving a thread to another group keeps its lag.  One that sleeps has exactly as much of it
      against its new queue as it had against the old.  One that is queued or running takes with it
      what it had when its old queue was last charged, and has that against the new queue as it finds it. */
  lemma MoveKeepsLag(s: State, e: nat, q: nat, now: int, later: int)
    requires Sane(s) && Inv(s) && IsLive(s, e) && IsQueue(s, q) && s.th.cls[e] == Pss && !s.th.initial[e]
    ensures var r := Move(s, e, q, now, later);
            && r.t.sfq[e] == q
            && (s.th.state[e] == Inhibited ==> r.tm.vruntime[e] - r.tm.vtime[q] == LagAt(s, e))
            && (s.th.state[e] != Inhibited ==>
                  r.tm.vruntime[e] - MoveReady(s, e, q, now, later).tm.vtime[q] == LagNow(SetClock(s, now), e))
  {
    hide Restore, MoveReady, Withdrawn, LagNow, Inv, SetClock;
    if s.th.state[e] != Inhibited {
      MoveReadyKeeps(s, e, q, now, later);
      MoveUnfolds(s, e, q, now, later);
      RestoreLag(MoveReady(s, e, q, now, later), e, s.th.state[e], later);
    }
  }

  lemma GoneFromChain(s: State, th: Threads, e: nat, cur: int)
    requires Sane(s) && IsEnt(s, e) && IsThread(s.t, e) && SizedTh(th, |s.t.parent|) && NIL <= cur < |s.t.parent|
    requires Roles(s.t, s.m, th, cur) && cur != e
    ensures s.m.curr[s.t.sfq[e]] != e
  {
    assert Role(s.t, s.m, th, cur, e);
  }

  lemma MovedTo(s: State, e: nat, q: nat)
    requires Sane(s) && IsEnt(s, e) && IsQueue(s, q) && IsThread(s.t, e)
    ensures var r := SetQueue(s, e, q);
            r.t.sfq[e] == q && r.t.myq == s.t.myq && |r.t.sfq| == |s.t.sfq|
            && (Normal(s.t, s.th, e) ==> Normal(r.t, r.th, e)) && IsThread(r.t, e)
  {
  }

  // ---------- ticks, shares and priorities ----------

  /** sched_tick. */
  lemma TickKeeps(s: State, now: int, slices: seq<nat>)
    requires Sane(s) && Inv(s) && |slices| == |s.t.parent|
    ensures Inv(Tick(s, now, slices)) && (Near(s) ==> Near(Tick(s, now, slices)))
  {
    hide TickWalk, SetClock, Linked, Roles, Core, Bounded, Steady, Quiet, WfTopo;
    var s1 := SetClock(s, now);
    SetClockLinked(s, now);
    var r := Tick(s, now, slices);
    if r != s1 {
      LinkedCore(s1);
      TickWalkQuiet(s1, s.th.current, slices);
      QuietLinked(s1, r);
      RolesAbsolute(s1, s.th, s.th.current, NIL);
      NearSteady(s1, r, NIL);
    }
  }

  lemma LinkedCore(s: State)
    requires Sane(s) && Linked(s)
    ensures Core(s)
  {
  }

  lemma NewSharesCore(s: State, q: nat, n: nat)
    requires Sane(s) && IsQueue(s, q) && n > 0 && Structure(s, NIL)
    ensures Structure(s.(a := s.a.(shares := s.a.shares[q := n])), NIL)
  {
    hide Timelines, Currs, Joins, Candidates;
    var r := s.(a := s.a.(shares := s.a.shares[q := n]));
    forall p | 0 <= p < |r.a.load| ensures QueueBooks(r.t, r.m.joined, r.a, p) {
      assert QueueBooks(s.t, s.m.joined, s.a, p);
    }
    PlacedOnly(s, r);
    GroupsOnly(s, r, NIL);
  }

  /** pss_sched_group_set_shares, with a positive number of shares. */
  lemma SetSharesKeeps(s: State, g: nat, shares: nat)
    requires Sane(s) && Inv(s) && IsEnt(s, g) && !IsThread(s.t, g) && shares > 0
    ensures Inv(SetShares(s, g, shares)) && (Near(s) ==> Near(SetShares(s, g, shares)))
    ensures SetShares(s, g, shares).a.shares[s.t.myq[g]] ==
              if shares < MIN_SHARES then MIN_SHARES else if shares > MAX_SHARES then MAX_SHARES else shares
  {
    hide SharesWalk, Structure, Timed, Roles, Chain, Bounded, Later, ThreadsUnmoved, Normal;
    var q := s.t.myq[g];
    var n := if shares < MIN_SHARES then MIN_SHARES else if shares > MAX_SHARES then MAX_SHARES else shares;
    if n != s.a.shares[q] {
      NewSharesCore(s, q, n);
      var s1 := s.(a := s.a.(shares := s.a.shares[q := n]));
      BoundedIsLag(s);
      BoundedIsLag(s1);
      SharesKeep(s1, g);
      SharesNear(s, SharesWalk(s1, g));
    }
  }

  lemma SharesNear(s: State, r: State)
    requires Sane(s) && Sane(r) && r == s.(a := r.a, tm := r.tm) && Inv(s) && (Bounded(s) ==> Bounded(r))
    requires ThreadsUnmoved(s.t, s.m, s.tm, r.tm, NIL)
    ensures Near(s) ==> Near(r)
  {
    hide Linked, Roles, Bounded;
    RolesAbsolute(s, s.th, s.th.current, NIL);
  }

  /** pss_change_priority and rt_change_priority. */
  lemma SetPriorityKeeps(s: State, e: nat, prio: int)
    requires Sane(s) && Inv(s) && IsLive(s, e)
    ensures Inv(SetPriority(s, e, prio)) && (Near(s) ==> Near(SetPriority(s, e, prio)))
  {
    hide Linked, Roles, Bounded, WfTopo, SetPriority;
    ParentGroup(s, e);
    var cur, r := s.th.current, SetPriority(s, e, prio);
    RolesMean(s.t, s.m, s.th, cur, e);
    SetPriorityShape(s, e, prio);
    FrameLinked(s, r);
    RolesStep(s.t, s.m, s.th, cur, r.m, r.th, cur, e);
  }

  lemma SetPriorityShape(s: State, e: nat, prio: int)
    requires Sane(s) && IsEnt(s, e) && (e in s.th.runq <==> s.th.onRunq[e])
    requires s.th.cls[e] == Realtime && s.th.state[e] == OnRunq ==> s.th.onRunq[e]
    ensures var r := SetPriority(s, e, prio);
            && r.th == s.th.(prio := s.th.prio[e := prio], onRunq := s.th.onRunq[e := r.th.onRunq[e]], runq := r.th.runq)
            && r.th.runq == (if r.th.onRunq[e] then s.th.runq + {e} else s.th.runq - {e})
            && r.ok == s.ok
            && (r.th.onRunq[e] ==> s.th.state[e] == OnRunq || s.th.onRunq[e])
            && (s.th.cls[e] == Realtime ==> r.th.onRunq[e] == s.th.onRunq[e])
  {
    assert s.th.onRunq[e := s.th.onRunq[e]] == s.th.onRunq;
    assert s.th.onRunq[e] ==> s.th.runq + {e} == s.th.runq;
    assert s.th.runq - {e} + {e} == s.th.runq + {e};
    assert !s.th.onRunq[e] ==> s.th.runq - {e} == s.th.runq;
  }

  // ---------- forks ----------

  /** The vruntime of an entity that is on no timeline may only grow. */
  lemma RaiseLinked(s: State, r: State, e: nat)
    requires Sane(s) && Sane(r) && IsEnt(s, e) && Linked(s) && !s.m.onSfq[e] && s.th.absolute[e]
    requires r == s.(tm := s.tm.(vruntime := r.tm.vruntime))
    requires r.tm.vruntime == s.tm.vruntime[e := r.tm.vruntime[e]] && r.tm.vruntime[e] >= s.tm.vruntime[e]
    ensures Linked(r) && (Bounded(s) ==> Bounded(r)) && (Near(s) ==> Near(r))
  {
    hide Kept, Timelines, Currs, Groups, Candidates, Timed, Chain, CurrJoined, Joins;
    KeptOnly(s, r);
    PlacedOnly(s, r);
    VruntimeOnly(s, r, e);
  }

  /** What pss_fork_thread does to the two vruntimes: the parent's never shrinks, and the child's
      is relative, not below the parent's lag. */
  lemma ForkShape(s: State, e: nat, child: nat, debit: nat)
    requires Sane(s) && IsEnt(s, e) && IsEnt(s, child) && e != child && s.t.sfq[child] == s.t.sfq[e] && !s.th.absolute[child]
    ensures var s1, r := UpdateCurr(s, s.t.sfq[e]), ForkPss(s, e, child, debit);
            && r == s1.(tm := s1.tm.(vruntime := s1.tm.vruntime[e := r.tm.vruntime[e]][child := r.tm.vruntime[child]]))
            && r.tm.vruntime[e] >= s1.tm.vruntime[e]
            && (r.tm.vruntime[child] >= 0
                || r.tm.vruntime[child] == s1.tm.vruntime[e] - s1.tm.vtime[s.t.sfq[e]])
  {
    hide UpdateCurr, Sane, Max;
    Fields(s, e);
    Fields(s, child);
    var q := s.t.sfq[e];
    var s1 := UpdateCurr(s, q);
    Fields(s1, e);
    var v, base := s1.tm.vruntime[e], s1.tm.vtime[q];
    var w := Max(v, if s.p.startDebit then base + debit else base);
    MaxMeans(v, if s.p.startDebit then base + debit else base);
    Exchange(s1.tm.vruntime, e, child, v, w, v - base);
    Exchange(s1.tm.vruntime, e, child, v, w, w - base);
    assert s.th.absolute[child := true][child := false] == s.th.absolute;
  }

  lemma Fields(s: State, e: nat)
    requires Sane(s) && IsEnt(s, e)
    ensures |s.t.sfq| == |s.t.parent| == |s.tm.vruntime| == |s.th.absolute| && s.t.sfq[e] < |s.t.owner| == |s.tm.vtime|
  {
  }

  lemma MaxMeans(a: int, b: int)
    ensures Max(a, b) >= a && Max(a, b) >= b && (Max(a, b) == a || Max(a, b) == b)
  {
  }

  /** Successive writes to two places. */
  lemma Exchange(vr: seq<int>, e: nat, child: nat, v: int, w: int, x: int)
    requires e < |vr| && child < |vr| && e != child && vr[e] == v
    ensures vr[child := v][child := w][e := w][child := v][child := x] == vr[e := w][child := x]
    ensures vr[child := v][child := w][child := x] == vr[e := v][child := x]
  {
  }

  lemma ForkPssKeeps(s: State, e: nat, child: nat, debit: nat)
    requires Sane(s) && Inv(s) && s.th.current == e && IsEnt(s, e) && s.th.cls[e] == Pss
    requires IsEnt(s, child) && IsThread(s.t, child) && child != e && s.t.sfq[child] == s.t.sfq[e]
    requires s.th.initial[child]
    ensures Inv(ForkPss(s, e, child, debit)) && (Near(s) ==> Near(ForkPss(s, e, child, debit)))
  {
    hide UpdateCurr, ForkPss, Linked, Roles, Bounded, Steady, Core, Quiet, WfTopo;
    ParentGroup(s, e);
    RolesMean(s.t, s.m, s.th, e, e);
    RolesMean(s.t, s.m, s.th, e, child);
    var q := s.t.sfq[e];
    LinkedCore(s);
    QuietUpdate(s, q);
    var s1 := UpdateCurr(s, q);
    QuietLinked(s, s1);
    RolesAbsolute(s, s.th, e, NIL);
    NearSteady(s, s1, NIL);
    ForkShape(s, e, child, debit);
    var r := ForkPss(s, e, child, debit);
    var s2 := s1.(tm := s1.tm.(vruntime := s1.tm.vruntime[e := r.tm.vruntime[e]]));
    LinkedCurrs(s);
    CurrOffTimeline(s, e);
    RaiseLinked(s1, s2, e);
    assert s.th.absolute[child := s.th.absolute[child]] == s.th.absolute;
    NearLag(s1, e);
    VruntimeLinked(s2, r, child);
  }

  lemma CurrOffTimeline(s: State, e: nat)
    requires Sane(s) && IsEnt(s, e) && Currs(s.t, s.m) && s.m.curr[s.t.sfq[e]] == e
    ensures !s.m.onSfq[e]
  {
  }

  lemma NearLag(s: State, e: nat)
    requires Sane(s) && IsEnt(s, e) && s.m.joined[e]
    ensures Near(s) ==> s.tm.vruntime[e] >= s.tm.vtime[s.t.sfq[e]] - s.p.thresh
  {
  }

  /** sched_fork_thread: the new thread gets its parent's class, weight and queue, and waits to be started. */
  lemma ForkKeeps(s: State, child: nat, prio: int, debit: nat, now: int)
    requires Sane(s) && Inv(s) && s.th.current != NIL && IsEnt(s, child) && IsThread(s.t, child) && !s.th.live[child]
    ensures var r := Fork(s, child, prio, debit, now);
            Inv(r) && IsLive(r, child) && r.th.initial[child] && (Near(s) ==> Near(r))
  {
    hide ForkPss, SetQueue, SetWeight, SetClock, Linked, Roles, Bounded, WfTopo;
    var e := s.th.current;
    ParentGroup(s, e);
    RolesThread(s, e);
    RolesMean(s.t, s.m, s.th, e, child);
    WeightPositive(s, e);
    LinkedCurrs(s);
    var sw := SetWeight(s, child, s.a.weight[e]);
    SetWeightLinked(s, child, s.a.weight[e]);
    SetQueueLinked(sw, child, s.t.sfq[e]);
    var sq := SetQueue(sw, child, s.t.sfq[e]);
    MovedTo(sw, child, s.t.sfq[e]);
    SetQueueRoles(sw, s.th, child, s.t.sfq[e], e);
    var th := s.th.(cls := s.th.cls[child := s.th.cls[e]], pri := s.th.pri[child := s.th.pri[e]],
                    initial := s.th.initial[child := true], live := s.th.live[child := true],
                    prio := s.th.prio[child := prio]);
    var s1 := sq.(th := th);
    FrameLinked(sq, s1);
    NewbornRoles(sq.t, sq.m, s.th, th, e, child);
    SetQueueFrame(sw, child, s.t.sfq[e], e);
    assert Normal(s1.t, s1.th, NIL);
    if s.th.cls[e] == Pss {
      SetClockLinked(s1, now);
      ForkPssKeeps(SetClock(s1, now), e, child, debit);
      ForkSame(SetClock(s1, now), e, child, debit);
    }
  }

  lemma ForkSame(s: State, e: nat, child: nat, debit: nat)
    requires Sane(s) && IsEnt(s, e) && IsEnt(s, child)
    ensures var r := ForkPss(s, e, child, debit); r.th.live == s.th.live && r.th.initial == s.th.initial && r.t == s.t
  {
    hide UpdateCurr;
  }

  lemma SetQueueFrame(s: State, e: nat, q: nat, x: nat)
    requires Sane(s) && IsEnt(s, e) && IsQueue(s, q) && IsThread(s.t, e) && IsEnt(s, x)
    ensures var r := SetQueue(s, e, q);
            |r.t.sfq| == |r.t.myq| == |r.t.parent| == |s.t.sfq| && (x != e ==> r.t.sfq[x] == s.t.sfq[x])
  {
  }

  lemma WeightPositive(s: State, e: nat)
    requires Sane(s) && Linked(s) && IsEnt(s, e) && IsThread(s.t, e)
    ensures s.a.weight[e] > 0
  {
  }

  lemma NewbornRoles(t: Topo, m: Members, th: Threads, th': Threads, cur: int, e: nat)
    requires WfTopo(t) && SizedM(m, |t.parent|, |t.owner|) && SizedTh(th, |t.parent|) && SizedTh(th', |t.parent|)
    requires NIL <= cur < |t.parent| && e < |t.parent| && cur != e && t.myq[e] == NIL && Roles(t, m, th, cur)
    requires th.state[e] == Inhibited
    requires |th'.pri| == |t.parent| && th'.cls[e] == ClassOf(th'.pri[e])
    requires th' == th.(cls := th.cls[e := th'.cls[e]], pri := th.pri[e := th'.pri[e]], initial := th.initial[e := true],
                        live := th.live[e := true], prio := th'.prio)
    ensures Roles(t, m, th', cur)
  {
    forall x | 0 <= x < |t.parent| ensures Role(t, m, th', cur, x) {
      assert Role(t, m, th, cur, x);
    }
  }
}
