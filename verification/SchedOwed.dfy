/** While time is owed the lag bound can break: the first enqueue of a thread adds vtime before
    update_curr moves it (pss.c:1109-1111). */
module SchedOwed {
  import opened SchedState
  import opened SchedOps
  import opened SchedSteps
  import opened SchedMembers
  import opened SchedTimes
  import opened SchedClass
  import opened SchedRoles
  import opened SchedWalks
  import opened SchedChange
  import opened SchedEntry
  import opened SchedRun
  import FixedPoint

  // ---------- the bound, in fields that can be read before the call ----------

  /** What vtime of queue q is after its current entity has been charged up to `clock`. */
  function VtimeAt(s: State, q: nat, clock: int): int
    requires Sane(s) && IsQueue(s, q)
  {
    hide FixedPoint.ScaleDelta;
    var u, tl := s.m.curr[q], s.m.timeline[q];
    if u == NIL || clock <= s.tm.start[u] then s.tm.vtime[q]
    else
      var paid := s.tm.vruntime[u] + FixedPoint.ScaleDelta(clock - s.tm.start[u], s.a.weight[u]);
      Max(s.tm.vtime[q], if tl == [] then paid else Min(paid, s.tm.vruntime[tl[0]]))
  }

  lemma WelcomeAt(s: State, e: nat, now: int)
    requires Sane(s) && IsEnt(s, e)
    ensures var q := s.t.sfq[e];
            Welcome(SetClock(s, now), e, false) <==>
              s.tm.vruntime[e] + s.p.thresh >= VtimeAt(s, q, Max(s.tm.clock, now)) - s.tm.vtime[q]
  {
    hide FixedPoint.ScaleDelta;
  }

  /** The first start of a pss thread keeps the lag bound exactly when its vruntime and the threshold
      cover how far charging the running entity takes vtime. */
  lemma StartBound(s: State, e: nat, now: int, resched: bool)
    requires Sane(s) && IsLive(s, e) && s.th.state[e] == Inhibited && s.th.cls[e] == Pss && s.th.initial[e]
    requires Near(s) && Inv(s)
    ensures Near(Do(s, Starts(e, now, resched))) <==>
              s.tm.vruntime[e] + s.p.thresh >= VtimeAt(s, s.t.sfq[e], Max(s.tm.clock, now)) - s.tm.vtime[s.t.sfq[e]]
  {
    hide Inv, Near, Add, Welcome, VtimeAt, SetClock;
    StepKeeps(s, Starts(e, now, resched));
    WelcomeAt(s, e, now);
  }

  /** Time that is not owed stays so. */
  ghost predicate Settles(s: State, r: State)
    requires Sane(s) && Sane(r)
  {
    && r.t == s.t && r.m.curr == s.m.curr && r.tm.clock == s.tm.clock
    && (forall q :: 0 <= q < |s.m.curr| && Owed(s.m, s.tm, q) == 0 ==> Owed(r.m, r.tm, q) == 0)
  }

  lemma SettlesThrough(s: State, s': State, r: State)
    requires Sane(s) && Sane(s') && Sane(r) && Settles(s, s') && Settles(s', r)
    ensures Settles(s, r)
  {
  }

  lemma SettlesFrame(s: State, r: State)
    requires Sane(s) && Sane(r) && r.t == s.t && r.m.curr == s.m.curr && r.tm.clock == s.tm.clock && r.tm.start == s.tm.start
    ensures Settles(s, r)
  {
  }

  /** update_curr settles what it charges. */
  lemma UpdateCurrSettles(s: State, q: nat)
    requires Sane(s) && IsQueue(s, q)
    ensures Settles(s, UpdateCurr(s, q))
    ensures s.m.curr[q] != NIL && s.tm.start[s.m.curr[q]] <= s.tm.clock ==> Owed(s.m, UpdateCurr(s, q).tm, q) == 0
    ensures s.m.curr[q] == NIL ==> Owed(s.m, UpdateCurr(s, q).tm, q) == 0
  {
    hide FixedPoint.ScaleDelta;
  }

  lemma UpdateSharesSettles(s: State, q: nat)
    requires Sane(s) && IsQueue(s, q)
    ensures Settles(s, UpdateShares(s, q))
  {
    hide UpdateCurr;
    var p, r := s.t.owner[q], UpdateShares(s, q);
    SettlesFrame(s, s);
    if p != NIL {
      var s1 := UpdateCurr(s, s.t.sfq[p]);
      UpdateCurrSettles(s, s.t.sfq[p]);
      assert r.tm == s.tm || r.tm == s1.tm;
    }
  }

  lemma {:induction false} SharesWalkSettles(s: State, e: int)
    requires Sane(s) && (e == NIL || IsEnt(s, e))
    ensures Settles(s, SharesWalk(s, e))
    decreases Rank(s.t, e)
  {
    hide UpdateShares, Settles, WfTopo;
    if e == NIL {
      SettlesFrame(s, s);
    } else {
      ParentGroup(s, e);
      UpdateSharesSettles(s, s.t.sfq[e]);
      var s1 := UpdateShares(s, s.t.sfq[e]);
      SharesWalkSettles(s1, s.t.parent[e]);
      SettlesThrough(s, s1, SharesWalk(s, e));
    }
  }

  lemma DequeueEntitySettles(s: State, e: nat, sleep: bool)
    requires Sane(s) && IsEnt(s, e)
    ensures var r, q := DequeueEntity(s, e, sleep), s.t.sfq[e];
            && Settles(s, r)
            && (s.m.joined[e] && (s.m.curr[q] == NIL || s.tm.start[s.m.curr[q]] <= s.tm.clock) ==> Owed(r.m, r.tm, q) == 0)
  {
    hide UpdateCurr, Leave, UpdateVtime, UpdateShares, Settles, Owed;
    var r, q := DequeueEntity(s, e, sleep), s.t.sfq[e];
    if s.m.joined[e] {
      LeaveSettles(s, e);
      var s1 := Leave(s, e);
      var s2 := if sleep then s1 else SubVtime(s1, e);
      SettlesFrame(s1, s2);
      var s3 := UpdateVtime(s2, q);
      VtimeFrame(s2, q);
      SettlesFrame(s2, s3);
      UpdateSharesSettles(s3, q);
      SettlesThrough(s1, s2, s3);
      SettlesThrough(s1, s3, r);
      SettlesThrough(s, s1, r);
      SettledAt(s1, r, q);
    } else {
      SettlesFrame(s, r);
    }
  }

  lemma VtimeFrame(s: State, q: nat)
    requires Sane(s) && IsQueue(s, q)
    ensures var r := UpdateVtime(s, q); r.m == s.m && r.tm.clock == s.tm.clock && r.tm.start == s.tm.start
  {
  }

  lemma SettledAt(s: State, r: State, q: nat)
    requires Sane(s) && Sane(r) && IsQueue(s, q) && Settles(s, r)
    ensures Owed(s.m, s.tm, q) == 0 ==> Owed(r.m, r.tm, q) == 0
  {
  }

  lemma LeaveSettles(s: State, e: nat)
    requires Sane(s) && IsEnt(s, e)
    ensures var r, q := Leave(s, e), s.t.sfq[e];
            && Settles(s, r)
            && (s.m.curr[q] == NIL || s.tm.start[s.m.curr[q]] <= s.tm.clock ==> Owed(r.m, r.tm, q) == 0)
  {
    hide UpdateCurr, TreeDequeue, ClearCandidates, RunqDequeue;
    UpdateCurrSettles(s, s.t.sfq[e]);
  }

  lemma {:induction false} DequeueWalkSettles(s: State, e: int, sleep: bool, isSleep: bool)
    requires Sane(s) && (e == NIL || IsEnt(s, e))
    ensures Settles(s, DequeueWalk(s, e, sleep, isSleep).0)
    ensures var r := DequeueWalk(s, e, sleep, isSleep).0;
            e != NIL && s.m.joined[e] && (s.m.curr[s.t.sfq[e]] == NIL || s.tm.start[s.m.curr[s.t.sfq[e]]] <= s.tm.clock) ==>
              Owed(r.m, r.tm, s.t.sfq[e]) == 0
    decreases Rank(s.t, e)
  {
    hide DequeueEntity, Settles, SetNext, Owed;
    if e == NIL {
      SettlesFrame(s, s);
    } else {
      var s1, p := DequeueEntity(s, e, sleep), s.t.parent[e];
      var r := DequeueWalk(s, e, sleep, isSleep).0;
      DequeueEntitySettles(s, e, sleep);
      if s1.a.load[s.t.sfq[e]] != 0 {
        SettlesFrame(s1, r);
      } else {
        ParentGroup(s, e);
        DequeueWalkSettles(s1, p, true, isSleep);
      }
      SettlesThrough(s, s1, r);
      SettledAt(s1, r, s.t.sfq[e]);
    }
  }

  /** A queued pss thread that is taken off its queue leaves nothing owed there. */
  lemma WithdrawSettles(s: State, e: nat)
    requires Sane(s) && IsEnt(s, e) && s.th.cls[e] == Pss && s.th.state[e] == OnRunq && s.m.joined[e]
    requires s.m.curr[s.t.sfq[e]] == NIL || s.tm.start[s.m.curr[s.t.sfq[e]]] <= s.tm.clock
    ensures var r := Withdraw(s, e); PaidAt(r, s.t.sfq[e]) && r.tm.clock == s.tm.clock && r.t == s.t
  {
    hide DequeueWalk, SharesWalk, Settles, Owed;
    var s0 := NotRealtime(s, e);
    var (s1, e1) := DequeueWalk(s0, e, false, false);
    DequeueWalkSettles(s0, e, false, false);
    SharesWalkSettles(s1, e1);
    SettlesThrough(s0, s1, SharesWalk(s1, e1));
    SettledAt(s1, SharesWalk(s1, e1), s.t.sfq[e]);
    SettlesMean(s0, SharesWalk(s1, e1));
    OwedSame(SharesWalk(s1, e1), Withdraw(s, e), s.t.sfq[e]);
  }

  lemma SettlesMean(s: State, r: State)
    requires Sane(s) && Sane(r) && Settles(s, r)
    ensures r.t == s.t && r.tm.clock == s.tm.clock && r.m.curr == s.m.curr
  {
  }

  lemma OwedSame(s: State, r: State, q: nat)
    requires Sane(s) && Sane(r) && r.t == s.t && r.m == s.m && r.tm == s.tm && IsQueue(s, q)
    ensures Owed(r.m, r.tm, q) == Owed(s.m, s.tm, q)
  {
  }

  /** sched_nice keeps the lag bound whenever the second clock reading is no later than the first:
      the queue has just been charged. */
  lemma NiceAtOnce(s: State, e: nat, weight: nat, now: int, later: int)
    requires Sane(s) && IsLive(s, e) && weight > 0 && later <= Max(s.tm.clock, now)
    requires Near(s) && Inv(s)
    ensures Near(Do(s, Renices(e, weight, now, later)))
  {
    hide Inv, Near, Nice, Welcome, Withdraw, SetClock;
    StepKeeps(s, Renices(e, weight, now, later));
    if s.th.cls[e] == Pss && s.th.state[e] == OnRunq {
      QueuedFacts(s, e, now);
      WithdrawSettles(SetClock(s, now), e);
      NiceReadyKeeps(s, e, weight, now, later);
      SettledReady(s, e, weight, now, later);
      NearMeans(NiceReady(s, e, weight, now, later), e);
      PaidIsWelcome(NiceReady(s, e, weight, now, later), e);
    }
  }

  /** A change of class within the pss class never breaks the bound, and one within the realtime class neither. */
  lemma ReclassAtOnce(s: State, e: nat, pri: PriClass, now: int, resched: bool)
    requires Sane(s) && IsLive(s, e) && !s.th.initial[e] && ClassOf(pri) == s.th.cls[e]
    requires Near(s) && Inv(s)
    ensures Near(Do(s, Reclasses(e, pri, now, resched)))
  {
    hide Inv, Near, SetClass, Welcome, Withdraw;
    StepKeeps(s, Reclasses(e, pri, now, resched));
    if s.th.cls[e] == Pss && s.th.state[e] == OnRunq && s.th.pri[e] != pri {
      QueuedFacts(s, e, s.tm.clock);
      assert SetClock(s, s.tm.clock) == s;
      WithdrawSettles(s, e);
      ClassReadyKeeps(s, e, pri);
      OwedSame(Withdraw(s, e), ClassReady(s, e, pri), s.t.sfq[e]);
      NearMeans(ClassReady(s, e, pri), e);
      PaidIsWelcome(ClassReady(s, e, pri), e);
    }
  }

  /** A queued thread that enters the pss class keeps the bound exactly when what it brings along
      covers how far charging the running entity takes vtime. */
  lemma EnterBound(s: State, e: nat, pri: PriClass, now: int, resched: bool)
    requires Sane(s) && IsLive(s, e) && !s.th.initial[e] && s.th.cls[e] == Realtime && ClassOf(pri) == Pss
    requires s.th.state[e] == OnRunq && s.th.pri[e] != pri
    requires Near(s) && Inv(s)
    ensures Near(Do(s, Reclasses(e, pri, now, resched))) <==>
              s.tm.vruntime[e] + s.p.thresh >= VtimeAt(s, s.t.sfq[e], s.tm.clock) - s.tm.vtime[s.t.sfq[e]]
  {
    hide Inv, Near, SetClass, Welcome, VtimeAt, RtDequeue;
    StepKeeps(s, Reclasses(e, pri, now, resched));
    assert SetClock(s, s.tm.clock) == s;
    WelcomeAt(s, e, s.tm.clock);
    WelcomeSame(s, ClassReady(s, e, pri).(ok := s.ok), e);
    WelcomeOk(ClassReady(s, e, pri), s.ok, e);
  }

  lemma WelcomeOk(s: State, ok: bool, e: nat)
    requires Sane(s) && IsEnt(s, e)
    ensures Welcome(s.(ok := ok), e, false) <==> Welcome(s, e, false)
  {
  }

  /** The lag of e as of now, with the threshold, covers how far charging the running entity takes the
      vtime of queue q once e is off its old queue. */
  predicate LagCovers(s: State, e: nat, q: nat, now: int, later: int)
    requires Sane(s) && IsEnt(s, e) && IsQueue(s, q) && IsThread(s.t, e)
  {
    var m := MoveReady(s, e, q, now, later);
    LagNow(SetClock(s, now), e) + s.p.thresh >= VtimeAt(m, q, m.tm.clock) - m.tm.vtime[q]
  }

  /** A queued thread that is moved keeps the bound exactly when its lag covers that. */
  lemma MoveBound(s: State, e: nat, q: nat, now: int, later: int)
    requires Sane(s) && IsLive(s, e) && IsQueue(s, q) && s.th.cls[e] == Pss && s.th.state[e] == OnRunq
    requires Near(s) && Inv(s)
    ensures Near(Do(s, Moves(e, q, now, later))) <==> LagCovers(s, e, q, now, later)
  {
    hide Inv, Near, Move, Welcome, VtimeAt, MoveReady, Withdrawn, LagNow, SetClock;
    StepKeeps(s, Moves(e, q, now, later));
    MoveReadyKeeps(s, e, q, now, later);
    var m := MoveReady(s, e, q, now, later);
    ReadyParams(s, e, q, now, later);
    assert SetClock(m, m.tm.clock) == m by {
      ClockIdle(m);
    }
    WelcomeAt(m, e, m.tm.clock);
  }

  lemma ReadyParams(s: State, e: nat, q: nat, now: int, later: int)
    requires Sane(s) && IsEnt(s, e) && IsQueue(s, q) && IsThread(s.t, e)
    ensures MoveReady(s, e, q, now, later).p == s.p && IsEnt(MoveReady(s, e, q, now, later), e)
  {
    hide Withdraw;
  }

  lemma ClockIdle(s: State)
    requires Sane(s)
    ensures SetClock(s, s.tm.clock) == s
  {
  }

  lemma NearMeans(s: State, e: nat)
    requires Sane(s) && IsEnt(s, e) && IsThread(s.t, e) && !s.th.absolute[e] && Near(s)
    ensures s.tm.vruntime[e] + s.p.thresh >= 0
  {
    hide Bounded;
  }

  lemma QueuedFacts(s: State, e: nat, now: int)
    requires Sane(s) && IsLive(s, e) && s.th.cls[e] == Pss && s.th.state[e] == OnRunq && Inv(s)
    ensures var r := SetClock(s, now);
            r.m.joined[e] && (r.m.curr[r.t.sfq[e]] == NIL || r.tm.start[r.m.curr[r.t.sfq[e]]] <= r.tm.clock)
  {
    hide Structure, Chain, Normal;
    PssJoined(s, s.th, s.th.current, e);
    assert Started(s.t, s.m, s.tm);
  }

  lemma SettledReady(s: State, e: nat, weight: nat, now: int, later: int)
    requires Sane(s) && IsEnt(s, e) && later <= Max(s.tm.clock, now)
    requires PaidAt(Withdraw(SetClock(s, now), e), s.t.sfq[e]) && Withdraw(SetClock(s, now), e).tm.clock == SetClock(s, now).tm.clock
    ensures PaidAt(NiceReady(s, e, weight, now, later), s.t.sfq[e])
  {
    hide Withdraw;
  }

  /** A thread of default weight and normal priority in the root queue. */
  ghost predicate Plain(s: State, e: nat)
    requires Sane(s)
  {
    && IsLive(s, e) && s.t.sfq[e] == 0 && s.t.parent[e] == NIL && s.th.cls[e] == Pss
    && s.th.prio[e] >= s.p.normalPri && s.a.weight[e] == FixedPoint.NICE_0_WEIGHT
  }

  /** Nobody is in the root queue, and e is not queued. */
  ghost predicate Alone(s: State, e: nat)
    requires Sane(s)
  {
    && Plain(s, e) && s.m.curr[0] == NIL && s.m.timeline[0] == []
    && !s.m.joined[e] && !s.m.onSfq[e] && !s.th.rtJoined[e] && !s.th.onRunq[e]
  }

  lemma EnqueueAlone(s: State, e: nat)
    requires Sane(s) && Alone(s, e)
    ensures var r := EnqueueEntity(s, e, false);
            && r.m == s.m.(joined := s.m.joined[e := true], onSfq := s.m.onSfq[e := true], timeline := s.m.timeline[0 := [e]])
            && r.a.nr == s.a.nr[0 := s.a.nr[0] + 1] && r.a.weight == s.a.weight && r.p == s.p && r.t == s.t && r.c == s.c
            && r.tm == s.tm.(vruntime := s.tm.vruntime[e := s.tm.vruntime[e] + s.tm.vtime[0]])
            && r.th == s.th.(absolute := s.th.absolute[e := true], state := s.th.state[e := OnRunq])
  {
    hide Charge;
    var s0 := s.(ok := s.ok && !s.m.joined[e]);
    var s1 := Arrive(s0, e, false);
    assert s1 == AddVtime(s0, e);
    var s2 := MakeRunnable(s1, e);
    assert s2 == SetState(s1, e, OnRunq);
    assert InsertId([], s2.tm.vruntime, e) == [e];
    var s3 := Account(TreeEnqueue(s2, e), e, 1);
    assert UpdateShares(s3, 0) == s3;
  }

  lemma PssEnqueueAlone(s: State, e: nat)
    requires Sane(s) && Alone(s, e)
    ensures PssEnqueue(s, e, false) == RunAdd(EnqueueEntity(s, e, false))
  {
    hide EnqueueEntity;
    assert NotRealtime(s, e) == s;
    var s1 := EnqueueEntity(s, e, false);
    assert EnqueueWalk(s, e, false) == EnqueueWalk(s1, NIL, true) == (s1, NIL);
  }

  /** The first thread to be started waits alone. */
  lemma StartAlone(s: State, e: nat)
    requires Sane(s) && Alone(s, e) && s.th.current == NIL && s.th.initial[e]
    ensures var r := Add(s, e, s.tm.clock, false);
            && r.p == s.p && r.t == s.t && r.c == s.c && r.m.curr == s.m.curr && r.m.timeline[0] == [e]
            && r.tm == s.tm.(vruntime := s.tm.vruntime[e := s.tm.vruntime[e] + s.tm.vtime[0]])
            && r.a.nr == s.a.nr[0 := s.a.nr[0] + 1] && r.a.weight == s.a.weight
            && r.m.onSfq == s.m.onSfq[e := true] && r.m.joined == s.m.joined[e := true]
            && r.th == s.th.(initial := s.th.initial[e := false], state := s.th.state[e := OnRunq],
                             absolute := s.th.absolute[e := true], nrRunning := s.th.nrRunning + 1)
  {
    hide PssEnqueue, EnqueueEntity;
    var s1 := SetClock(s.(th := s.th.(initial := s.th.initial[e := false])), s.tm.clock);
    assert s1.tm == s.tm;
    assert Alone(s1, e);
    PssEnqueueAlone(s1, e);
    EnqueueAlone(s1, e);
  }

  /** The only thread that waits is chosen, and starts to owe time. */
  lemma ChooseAlone(s: State, e: nat, now: int)
    requires Sane(s) && Plain(s, e) && s.th.runq == {} && s.a.nr[0] == 1 && s.m.timeline[0] == [e] && s.m.curr[0] == NIL
    requires s.c.skip[0] == s.c.next[0] == s.c.last[0] == NIL && !s.th.onRunq[e] && !s.th.rtJoined[e] && s.m.joined[e]
    requires s.m.onSfq[e]
    ensures var r := ChooseThread(s, e, now);
            && r.p == s.p && r.t == s.t && r.a == s.a && r.m.timeline[0] == [] && r.m.curr[0] == e
            && r.m.joined == s.m.joined
            && r.tm.vruntime == s.tm.vruntime && r.tm.vtime == s.tm.vtime && r.tm.clock == s.tm.clock && r.tm.start[e] == s.tm.clock
            && r.th.state == s.th.state[e := Running] && r.th.initial == s.th.initial && r.th.cls == s.th.cls
            && r.th.live == s.th.live && r.th.absolute == s.th.absolute && r.th.prio == s.th.prio
  {
    hide WakeupPreempt, FixedPoint.ScaleDelta;
    assert Choose(s, 0) == e;
    assert ClearCandidates(s, e) == s;
    assert PickWalk(s, 0, s.t.depth + 1) == (s, e);
    var s1 := ActivateEntity(s, e);
    assert NotRealtime(s, e) == s;
    assert ActivateWalk(s, e) == ActivateWalk(s1, NIL) == s1;
  }

  // ---------- a run that breaks the bound ----------

  /** Thread a is started and chosen at clock c; nothing more happens to it. */
  lemma Chosen(s: State, a: nat, b: nat)
    requires Sane(s) && Boot(s) && Plain(s, a) && Plain(s, b) && a != b
    ensures var s1 := Add(s, a, s.tm.clock, false);
            var r := ChooseThread(s1, a, s.tm.clock);
            && s1.th.current == NIL && s1.th.runq == {}
            && r.p == s.p && r.t == s.t && Plain(r, b) && r.th.initial[b] && r.th.state[b] == Inhibited
            && r.m.curr[0] == a && r.m.timeline[0] == [] && r.a.weight[a] == FixedPoint.NICE_0_WEIGHT
            && r.tm.clock == r.tm.start[a] == s.tm.clock && r.tm.vruntime[a] == r.tm.vruntime[b] == r.tm.vtime[0] == 0
  {
    hide Add, ChooseThread, Boot;
    BootedAt(s, a);
    BootedAt(s, b);
    StartAlone(s, a);
    ChooseAlone(Add(s, a, s.tm.clock, false), a, s.tm.clock);
  }

  lemma BootedAt(s: State, e: nat)
    requires Sane(s) && Boot(s) && Plain(s, e)
    ensures Alone(s, e) && s.th.initial[e] && s.th.state[e] == Inhibited && s.th.current == NIL && s.th.runq == {}
    ensures s.a.nr[0] == 0 && s.c.skip[0] == s.c.next[0] == s.c.last[0] == NIL
    ensures s.tm.vruntime[e] == 0 && s.tm.vtime[0] == 0 && Welcome(SetClock(s, s.tm.clock), e, false)
  {
    assert BootEntity(s, e) && BootQueue(s, 0);
  }

  /** A thread that is started d units after the only running one was last charged: vtime goes on
      by d, the new thread does not. */
  lemma LateStart(s: State, a: nat, b: nat, d: nat)
    requires Sane(s) && IsEnt(s, a) && Plain(s, b) && s.m.curr[0] == a && s.m.timeline[0] == []
    requires s.a.weight[a] == FixedPoint.NICE_0_WEIGHT && s.tm.clock == s.tm.start[a] && d > s.p.thresh
    requires s.tm.vruntime[a] == s.tm.vruntime[b] == s.tm.vtime[0] == 0
    ensures !Welcome(SetClock(s, s.tm.clock + d), b, false)
  {
  }

  /** The run stays within the bound, and the step that follows it leaves it. */
  ghost predicate Breaks(s: State, evs: seq<Event>, ev: Event)
    requires Sane(s)
  {
    && Runs(s, evs) && Near(After(s, evs))
    && Allowed(After(s, evs), ev) && !Near(Do(After(s, evs), ev))
  }

  lemma TwoSteps(s: State, e1: Event, e2: Event)
    requires Sane(s) && Allowed(s, e1) && Allowed(Do(s, e1), e2)
    ensures Runs(s, [e1, e2]) && After(s, [e1, e2]) == Do(Do(s, e1), e2)
  {
    hide Do, Allowed, Sane;
    assert [e1, e2][1..] == [e2] && [e2][1..] == [];
    assert Runs(Do(s, e1), [e2]);
    assert After(Do(s, e1), [e2]) == Do(Do(s, e1), e2);
  }

  /** The first two steps of the run. */
  lemma StartedAndChosen(s: State, a: nat)
    requires Sane(s) && Plain(s, a) && Boot(s)
    ensures var c := s.tm.clock;
            var e1, e2 := Starts(a, c, false), Yields(false, c, a);
            && Allowed(s, e1) && Allowed(Do(s, e1), e2)
            && Do(Do(s, e1), e2) == ChooseThread(Add(s, a, c, false), a, c)
            && Inv(Do(Do(s, e1), e2)) && Near(Do(Do(s, e1), e2))
  {
    hide Boot, Inv, Near, Add, ChooseThread, Plain, Alone, Welcome, WfTopo, SizedM, SizedA, SizedTm, SizedC;
    var c := s.tm.clock;
    var e1, e2 := Starts(a, c, false), Yields(false, c, a);
    BootKeeps(s);
    PlainLive(s, a);
    BootedAt(s, a);
    StartedAt(s, a);
    StepKeeps(s, e1);
    StepKeeps(Do(s, e1), e2);
  }

  lemma StartedAt(s: State, a: nat)
    requires Sane(s) && Boot(s) && Plain(s, a)
    ensures Add(s, a, s.tm.clock, false).th.current == NIL && Add(s, a, s.tm.clock, false).th.runq == {}
  {
    hide Add, Boot;
    BootedAt(s, a);
    StartAlone(s, a);
  }

  /** From every first state with two plain threads: start one, choose it, and start the other more
      than the threshold later.  The second start takes the new thread out of the bound. */
  lemma OwedTimeBreaksLag(s: State, a: nat, b: nat, d: nat)
    requires Sane(s) && Plain(s, a) && Plain(s, b) && a != b && d > s.p.thresh && Boot(s)
    ensures Breaks(s, [Starts(a, s.tm.clock, false), Yields(false, s.tm.clock, a)], Starts(b, s.tm.clock + d, false))
  {
    hide Boot, Inv, Near, Add, ChooseThread, Plain, Alone, Welcome, Runs, After, WfTopo, SizedM, SizedA, SizedTm, SizedC;
    var c := s.tm.clock;
    var e1, e2, e3 := Starts(a, c, false), Yields(false, c, a), Starts(b, c + d, false);
    StartedAndChosen(s, a);
    Chosen(s, a, b);
    var s2 := Do(Do(s, e1), e2);
    PlainLive(s, a);
    PlainLive(s2, b);
    LateStart(s2, a, b, d);
    StepKeeps(s2, e3);
    TwoSteps(s, e1, e2);
  }

  lemma PlainLive(s: State, e: nat)
    requires Sane(s) && Plain(s, e)
    ensures IsLive(s, e) && IsEnt(s, e) && s.th.cls[e] == Pss && s.t.sfq[e] == 0
  {
  }

  /** There is such a first state. */
  function TwoThreads(thresh: nat): State {
    State(Params(thresh, 0, false, false, false, 0, 0),
          Topo([NIL, NIL], [0, 0], [NIL, NIL], [0, 0], [NIL], 0),
          Members([false, false], [false, false], [[]], [NIL]),
          Acct([1024, 1024], [0], [0], [2], 0),
          Times(0, [0, 0], [0, 0], [0, 0], [0, 0], [0], [0]),
          Cands([NIL], [NIL], [NIL]),
          Threads([Pss, Pss], [Inhibited, Inhibited], [0, 0], [Timeshare, Timeshare], [true, true], [false, false],
                  [true, true], [false, false], [false, false], {}, NIL, 0, NIL),
          true)
  }

  lemma TwoThreadsBoot(thresh: nat)
    ensures var s := TwoThreads(thresh); Sane(s) && Boot(s) && Plain(s, 0) && Plain(s, 1)
  {
    var s := TwoThreads(thresh);
    assert Sane(s);
    forall e | 0 <= e < 2 ensures BootEntity(s, e) {
    }
    assert BootQueue(s, 0);
  }
}
