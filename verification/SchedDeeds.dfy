/** What the entry points do for the thread they are called for and to the one that runs
    (pss.c:822-884, 1268-1413, sched.c:474-1004, 1165-1189). */
module SchedDeeds {
  import opened SchedState
  import opened SchedOps
  import opened SchedSteps
  import opened SchedBooks
  import opened SchedMembers
  import opened SchedWalks
  import opened SchedTimes
  import opened SchedClass
  import opened SchedPick
  import opened SchedPaths
  import opened SchedRoles
  import opened SchedEntry
  import opened SchedChange
  import opened SchedRun
  import opened SchedEffects
  import opened SchedCandidates
  import SchedOwed
  import FixedPoint

  // ---------- who runs next ----------

  /** A thread of the kernel's run queue if there is one; else, if the root queue has members, the pss
      thread that is the choice at every level, all of it near the leftmost; else nobody. */
  ghost predicate RightOne(s: State, next: int)
    requires Sane(s)
  {
    if s.th.runq != {} then next in s.th.runq
    else if s.a.nr[0] > 0 then IsEnt(s, next) && IsThread(s.t, next) && NearAllTheWay(s, next, 0) && ChosenAllTheWay(s, next, 0)
    else next == NIL
  }

  lemma ChooseRight(s: State, pick: nat, now: int)
    requires Sane(s) && Linked(s) && NoCurr(s.m) && PickFits(s, pick)
    ensures RightOne(s, ChooseThread(s, pick, now).th.current)
  {
    hide Activate, PssPick, Core, Chain, CurrJoined, NearAllTheWay, ChosenAllTheWay, WfTopo;
    if pick !in s.th.runq {
      LinkedCore(s);
      PssPickKeeps(s);
      PssPickChooses(s);
    }
  }

  /** The state between the two halves of a switch. */
  ghost function Halfway(s: State, ev: Event): (r: State)
    requires Sane(s) && Allowed(s, ev)
    ensures Sane(r)
  {
    match ev
    case Yields(relinquish, now, _) => Yield(s, relinquish, now)
    case Sleeps(now, _) => Vacate(s, true, now)
    case Exits(now, _) => Leaves(s, now)
    case _ => s
  }

  ghost predicate Switches(ev: Event) {
    ev.Yields? || ev.Sleeps? || ev.Exits?
  }

  lemma HalfwayKeeps(s: State, ev: Event)
    requires Sane(s) && Allowed(s, ev) && Switches(ev) && Inv(s)
    ensures var h := Halfway(s, ev);
            Linked(h) && NoCurr(h.m) && Roles(h.t, h.m, h.th, NIL) && PickFits(h, ev.pick) && Do(s, ev) == ChooseThread(h, ev.pick, ev.now)
  {
    hide Inv, Yield, Vacate, Leaves, ChooseThread, Linked, Roles;
    match ev
    case Yields(relinquish, now, pick) => YieldKeeps(s, relinquish, now);
    case Sleeps(now, pick) => SleepsNormal(s, now);
    case Exits(now, pick) => LeavesKeeps(s, now);
  }

  /** Every switch gives the processor to a realtime or boosted thread if one waits, and otherwise to the
      pss thread whose turn it is. */
  lemma SwitchRight(s: State, ev: Event)
    requires Sane(s) && Allowed(s, ev) && Switches(ev) && Inv(s)
    ensures RightOne(Halfway(s, ev), Do(s, ev).th.current)
  {
    hide Inv, Halfway, ChooseThread, Linked, Roles, RightOne, Do;
    HalfwayKeeps(s, ev);
    ChooseRight(Halfway(s, ev), ev.pick, ev.now);
  }

  // ---------- its slice begins ----------

  /** Entities on the path of e begin a slice now; the others' times stand. */
  ghost predicate Begins(s: State, r: State, e: int)
    requires Sane(s) && Sane(r) && (e == NIL || IsEnt(s, e))
  {
    && r.tm == s.tm.(start := r.tm.start, prevSum := r.tm.prevSum)
    && |s.tm.sum| == |s.tm.start| == |s.tm.prevSum| == |r.tm.start| == |r.tm.prevSum| == |s.t.parent|
    && (forall x {:trigger r.tm.start[x]} {:trigger r.tm.prevSum[x]} :: 0 <= x < |s.t.parent| ==>
          if AtOrAbove(s.t, e, x) then r.tm.start[x] == s.tm.clock && r.tm.prevSum[x] == s.tm.sum[x]
          else r.tm.start[x] == s.tm.start[x] && r.tm.prevSum[x] == s.tm.prevSum[x])
  }

  lemma ActivateEntityBegins(s: State, e: nat)
    requires Sane(s) && IsEnt(s, e)
    ensures var r := ActivateEntity(s, e);
            r.tm == s.tm.(start := s.tm.start[e := s.tm.clock], prevSum := s.tm.prevSum[e := s.tm.sum[e]])
  {
    hide TreeDequeue, RunqDequeue;
  }

  lemma {:induction false} ActivateWalkBegins(s: State, e: int)
    requires Sane(s) && (e == NIL || IsEnt(s, e))
    ensures Begins(s, ActivateWalk(s, e), e)
    decreases Rank(s.t, e)
  {
    hide ActivateEntity, WfTopo;
    TimeLengths(s);
    if e != NIL {
      ParentGroup(s, e);
      ActivateEntityBegins(s, e);
      var s1 := ActivateEntity(s, e);
      ActivateWalkBegins(s1, s.t.parent[e]);
      OnPathOnce(s, e);
    }
  }

  lemma TimeLengths(s: State)
    requires Sane(s)
    ensures |s.tm.sum| == |s.tm.start| == |s.tm.prevSum| == |s.tm.vruntime| == |s.t.parent| == |s.t.sfq|
  {
  }

  /** The thread that takes the processor begins its slice with all groups above it, and moves no
      virtual time. */
  lemma ActivateBegins(s: State, e: nat, now: int)
    requires Sane(s) && IsEnt(s, e)
    ensures var r := Activate(s, e, now);
            if s.th.cls[e] == Pss then Begins(s, r, e)
            else r.tm == s.tm.(start := s.tm.start[e := now], prevSum := s.tm.prevSum[e := s.tm.sum[e]])
  {
    hide ActivateWalk, AtOrAbove;
    var s0 := NotRealtime(s, e);
    ActivateWalkBegins(s0, e);
  }

  /** The second half of a switch: the slice of the thread that is chosen begins; if the pss class has
      chosen it, it and its groups are nobody's candidate any more. */
  ghost predicate TakesOver(h: State, r: State, now: int)
    requires Sane(h) && Sane(r) && r.t == h.t
  {
    var e := r.th.current;
    && (e == NIL || IsEnt(h, e))
    && (if e == NIL then r.tm == h.tm
        else if h.th.cls[e] == Pss then Begins(h, r, e)
        else r.tm == h.tm.(start := h.tm.start[e := now], prevSum := h.tm.prevSum[e := h.tm.sum[e]]))
    && (if h.th.runq != {} || e == NIL then r.c == h.c else ForgetsAll(h.t, h.c, r.c, e, 0))
  }

  lemma ChooseTakesOver(s: State, pick: nat, now: int)
    requires Sane(s) && Linked(s) && NoCurr(s.m) && PickFits(s, pick)
    ensures TakesOver(s, ChooseThread(s, pick, now), now)
  {
    hide Activate, PssPick, Core, Chain, CurrJoined, Begins, ForgetsAll, ChosenAllTheWay, WfTopo;
    if pick in s.th.runq {
      ActivateBegins(s, pick, now);
      ActivateCands(s, pick, now);
      BeginsFrom(s, s, Activate(s, pick, now), ChooseThread(s, pick, now), pick);
    } else {
      LinkedCore(s);
      PssPickChooses(s);
      var (s1, e) := PssPick(s);
      if e != NIL {
        ActivateBegins(s1, e, now);
        ActivateCands(s1, e, now);
        BeginsFrom(s, s1, Activate(s1, e, now), ChooseThread(s, pick, now), e);
      }
    }
  }

  lemma BeginsFrom(s: State, s': State, r': State, r: State, e: nat)
    requires Sane(s) && Sane(s') && Sane(r) && Sane(r') && s'.t == s.t && s'.tm == s.tm && r.tm == r'.tm && IsEnt(s, e)
    ensures Begins(s', r', e) <==> Begins(s, r, e)
  {
    hide Sane, WfTopo;
  }

  lemma ActivateCands(s: State, e: nat, now: int)
    requires Sane(s) && IsEnt(s, e)
    ensures Activate(s, e, now).c == s.c
  {
    hide ActivateWalk;
    ActivateWalkCands(NotRealtime(s, e), e);
  }

  lemma {:induction false} ActivateWalkCands(s: State, e: int)
    requires Sane(s) && (e == NIL || IsEnt(s, e))
    ensures ActivateWalk(s, e).c == s.c
    decreases Rank(s.t, e)
  {
    hide TreeDequeue, RunqDequeue, WfTopo;
    if e != NIL {
      ParentGroup(s, e);
      ActivateWalkCands(ActivateEntity(s, e), s.t.parent[e]);
    }
  }

  lemma SwitchTakesOver(s: State, ev: Event)
    requires Sane(s) && Allowed(s, ev) && Switches(ev) && Inv(s)
    ensures var h, r := Halfway(s, ev), Do(s, ev); r.t == h.t && TakesOver(h, r, ev.now)
  {
    hide Inv, Halfway, ChooseThread, Linked, Roles, TakesOver, Do;
    HalfwayKeeps(s, ev);
    ChooseTakesOver(Halfway(s, ev), ev.pick, ev.now);
  }

  // ---------- where a woken thread lands ----------

  /** Entity x is nowhere current. */
  ghost predicate Parked(s: State, x: nat)
    requires Sane(s)
  {
    forall q :: 0 <= q < |s.m.curr| ==> s.m.curr[q] != x
  }

  /** Entity x has not moved. */
  ghost predicate Still(s: State, r: State, x: nat)
    requires Sane(s) && Sane(r) && IsEnt(s, x)
  {
    r.t == s.t && r.m.curr == s.m.curr && r.tm.vruntime[x] == s.tm.vruntime[x]
  }

  lemma UpdateCurrStill(s: State, q: nat, x: nat)
    requires Sane(s) && IsQueue(s, q) && IsEnt(s, x) && Parked(s, x)
    ensures Still(s, UpdateCurr(s, q), x)
  {
    hide FixedPoint.ScaleDelta, NewVtime;
  }

  lemma UpdateSharesStill(s: State, q: nat, x: nat)
    requires Sane(s) && IsQueue(s, q) && IsEnt(s, x) && Parked(s, x)
    ensures Still(s, UpdateShares(s, q), x)
  {
    hide UpdateCurr;
    var p, r := s.t.owner[q], UpdateShares(s, q);
    if p != NIL {
      OwnerOf(s, q);
      UpdateCurrStill(s, s.t.sfq[p], x);
      assert r.tm == s.tm || r.tm == UpdateCurr(s, s.t.sfq[p]).tm;
    }
  }

  lemma {:induction false} SharesWalkStill(s: State, e: int, x: nat)
    requires Sane(s) && (e == NIL || IsEnt(s, e)) && IsEnt(s, x) && Parked(s, x)
    ensures Still(s, SharesWalk(s, e), x)
    decreases Rank(s.t, e)
  {
    hide UpdateShares, WfTopo;
    if e != NIL {
      ParentGroup(s, e);
      UpdateSharesStill(s, s.t.sfq[e], x);
      SharesWalkStill(UpdateShares(s, s.t.sfq[e]), s.t.parent[e], x);
    }
  }

  lemma EnqueueEntityStill(s: State, e: nat, wakeup: bool, x: nat)
    requires Sane(s) && IsEnt(s, e) && IsEnt(s, x) && x != e && Parked(s, x)
    ensures Still(s, EnqueueEntity(s, e, wakeup), x)
  {
    hide UpdateCurr, TreeEnqueue, UpdateShares, MakeRunnable, Account, WfTopo;
    SfqInRange(s, e);
    var q := s.t.sfq[e];
    var s0 := s.(ok := s.ok && !s.m.joined[e]);
    UpdateCurrStill(s0, q, x);
    UpdateCurrStill(AddVtime(s0, e), q, x);
    var s2 := Account(TreeEnqueue(MakeRunnable(Arrive(s0, e, wakeup), e), e), e, 1);
    UpdateSharesStill(s2, q, x);
  }

  lemma {:induction false} EnqueueWalkStill(s: State, e: int, wakeup: bool, x: nat)
    requires Sane(s) && (e == NIL || (IsEnt(s, e) && !IsThread(s.t, e))) && IsEnt(s, x) && IsThread(s.t, x) && Parked(s, x)
    ensures Still(s, EnqueueWalk(s, e, wakeup).0, x)
    decreases Rank(s.t, e)
  {
    hide EnqueueEntity, WfTopo;
    if e != NIL && !s.m.joined[e] {
      ParentGroup(s, e);
      EnqueueEntityStill(s, e, wakeup, x);
      EnqueueWalkStill(EnqueueEntity(s, e, wakeup), s.t.parent[e], true, x);
    }
  }

  /** pss_enqueue_thread of a waking thread: the groups it brings along, and the shares, leave it where
      enqueue_entity has put it. */
  lemma PssEnqueueLands(s: State, e: nat)
    requires Sane(s) && IsEnt(s, e) && IsThread(s.t, e) && Linked(s) && !s.m.joined[e]
    ensures s.t.sfq[e] < |s.t.owner|
    ensures var q := s.t.sfq[e];
            Lands(s.tm.vruntime[e], PssEnqueue(s, e, true).tm.vruntime[e], UpdateCurr(s, q).tm.vtime[q] - s.p.thresh)
  {
    hide EnqueueEntity, EnqueueWalk, SharesWalk, UpdateCurr, Lands, Core, WfTopo;
    ParentGroup(s, e);
    var s0 := NotRealtime(s, e);
    NotJoinedParked(s, e);
    EnqueueLandsHere(s0, e);
    UpdateCurrOk(s, s0.ok, s.t.sfq[e]);
    var s1 := EnqueueEntity(s0, e, true);
    EnqueueEntityCurr(s0, e);
    EnqueueWalkStill(s1, s.t.parent[e], true, e);
    EnqueueWalkFirst(s0, e);
    var (s2, e2) := EnqueueWalk(s0, e, true);
    SharesWalkStill(s2, e2, e);
  }

  lemma NotJoinedParked(s: State, e: nat)
    requires Sane(s) && IsEnt(s, e) && Linked(s) && !s.m.joined[e]
    ensures Parked(s, e) && !s.m.onSfq[e] && Placed(s) && Joins(s.t, s.m) && Timed(s.t, s.m, s.tm)
  {
    hide Kept, Timelines, Currs, Groups, Candidates, Timed, Chain;
  }

  lemma EnqueueLandsHere(s: State, e: nat)
    requires Sane(s) && IsEnt(s, e) && Parked(s, e) && !s.m.joined[e] && !s.m.onSfq[e]
    requires Placed(s) && Joins(s.t, s.m) && Timed(s.t, s.m, s.tm)
    ensures s.t.sfq[e] < |s.t.owner|
    ensures var q, r := s.t.sfq[e], EnqueueEntity(s, e, true);
            Lands(s.tm.vruntime[e], r.tm.vruntime[e], UpdateCurr(s, q).tm.vtime[q] - s.p.thresh)
  {
    hide EnqueueEntity, UpdateCurr, Lands, Timed, Timelines, Currs, Joins;
    EnqueueEntityLands(s, e);
  }

  lemma EnqueueEntityCurr(s: State, e: nat)
    requires Sane(s) && IsEnt(s, e)
    ensures EnqueueEntity(s, e, true).m.curr == s.m.curr
  {
    hide Arrive, MakeRunnable, UpdateShares, Account;
    ArriveMembers(s.(ok := s.ok && !s.m.joined[e]), e, true);
  }

  lemma EnqueueWalkFirst(s: State, e: nat)
    requires Sane(s) && IsEnt(s, e) && !s.m.joined[e]
    ensures EnqueueWalk(s, e, true) == EnqueueWalk(EnqueueEntity(s, e, true), s.t.parent[e], true)
  {
    hide EnqueueEntity;
  }

  /** vtime of e's queue once its current entity has been charged up to now. */
  ghost function VtimeNow(s: State, e: nat, now: int): int
    requires Sane(s) && IsEnt(s, e)
  {
    UpdateCurr(SetClock(s, now), s.t.sfq[e]).tm.vtime[s.t.sfq[e]]
  }

  /** Where thread e, asleep in s, has been put: a realtime thread has not moved; a pss thread that wakes up
      lands at most the threshold behind its queue's vtime as of now; one that is started for the first
      time is as far from vtime as its fork has left it. */
  ghost predicate StartsAt(s: State, e: nat, now: int, r: State)
    requires Sane(s) && Sane(r) && IsEnt(s, e) && IsEnt(r, e)
  {
    if s.th.cls[e] != Pss then r.tm.vruntime[e] == s.tm.vruntime[e]
    else if s.th.initial[e] then r.tm.vruntime[e] == s.tm.vruntime[e] + s.tm.vtime[s.t.sfq[e]]
    else Lands(s.tm.vruntime[e], r.tm.vruntime[e], VtimeNow(s, e, now) - s.p.thresh)
  }

  lemma StartLands(s: State, e: nat, now: int, resched: bool)
    requires Sane(s) && IsLive(s, e) && s.th.state[e] == Inhibited && Inv(s)
    ensures var r := Do(s, Starts(e, now, resched)); r.t == s.t && StartsAt(s, e, now, r)
  {
    hide Enqueue, PssEnqueue, CheckClassPreempt, UpdateCurr, Lands, Linked, Roles, Steady, Bounded, WfTopo, SizedM, SizedC, SizedTm;
    ParentGroup(s, e);
    RolesMean(s.t, s.m, s.th, s.th.current, e);
    AbsoluteIs(s, e);
    var s0 := s.(th := s.th.(initial := s.th.initial[e := false]));
    FrameLinked(s, s0);
    var s1 := SetClock(s0, now);
    SetClockLinked(s0, now);
    EnqueueLinked(s1, e, !s.th.initial[e]);
    var s2 := Enqueue(s1, e, !s.th.initial[e]);
    SteadyClass(s1, s2, e);
    CheckRealtime(s2, e, resched);
    if s.th.cls[e] == Pss {
      CheckStill(s2, e, resched);
      if !s.th.initial[e] {
        PssEnqueueLands(s1, e);
        EnqueuePss(s1, e);
        UpdateCurrThreads(SetClock(s, now), s1, s.t.sfq[e]);
      }
    }
  }

  lemma CheckRealtime(s: State, e: nat, resched: bool)
    requires Sane(s) && IsEnt(s, e)
    ensures s.th.cls[e] != Pss ==> CheckClassPreempt(s, e, resched) == s
  {
    hide CheckPreempt;
  }

  lemma EnqueuePss(s: State, e: nat)
    requires Sane(s) && IsEnt(s, e) && s.th.cls[e] == Pss
    ensures Enqueue(s, e, true) == PssEnqueue(s, e, true)
  {
    hide PssEnqueue;
  }

  lemma AbsoluteIs(s: State, e: nat)
    requires Sane(s) && IsLive(s, e) && Inv(s)
    ensures s.th.absolute[e] == (s.th.cls[e] == Pss && !s.th.initial[e])
  {
    hide Linked, Roles;
  }

  /** Charging reads no thread fields. */
  lemma UpdateCurrThreads(s: State, r: State, q: nat)
    requires Sane(s) && Sane(r) && IsQueue(s, q) && r == s.(th := r.th)
    ensures UpdateCurr(r, q).tm == UpdateCurr(s, q).tm
  {
    hide FixedPoint.ScaleDelta, NewVtime;
  }

  /** The preemption check does not move a thread that waits. */
  lemma CheckStill(s: State, e: nat, resched: bool)
    requires Sane(s) && IsEnt(s, e) && IsThread(s.t, e) && Linked(s) && s.m.joined[e] && s.m.curr[s.t.sfq[e]] != e
    ensures CheckClassPreempt(s, e, resched).tm.vruntime[e] == s.tm.vruntime[e]
  {
    hide CheckClassPreempt, Linked;
    CheckLate(s, e, resched);
  }

  /** A sleeper that leaves the pss class takes along, relative, what it would have woken up with; one that
      enters it gets what it has added to its queue's vtime.  Nobody else moves. */
  lemma SleeperClassLands(s: State, e: nat, pri: PriClass, now: int, resched: bool)
    requires Sane(s) && IsLive(s, e) && !s.th.initial[e] && s.th.state[e] == Inhibited && s.th.pri[e] != pri
    ensures var r, v := SetClass(s, e, pri, now, resched), s.tm.vtime[s.t.sfq[e]];
            && r.tm == s.tm.(vruntime := s.tm.vruntime[e := r.tm.vruntime[e]])
            && (if s.th.cls[e] == ClassOf(pri) then r.tm.vruntime[e] == s.tm.vruntime[e]
                else if s.th.cls[e] == Pss then Lands(s.tm.vruntime[e], r.tm.vruntime[e] + v, v - s.p.thresh)
                else r.tm.vruntime[e] == s.tm.vruntime[e] + v)
  {
    hide CheckClassPreempt, Dequeue, PutPrev, Enqueue, Activate, Inv, WfTopo, SizedM, SizedC, SizedA;
    SfqInRange(s, e);
    assert s.tm.vruntime[e := s.tm.vruntime[e]] == s.tm.vruntime;
  }

  // ---------- forks ----------

  /** Charging reads the members, the times and the weight of the current entity. */
  lemma UpdateCurrReads(s: State, r: State, q: nat)
    requires Sane(s) && Sane(r) && IsQueue(s, q) && IsQueue(r, q) && r.m == s.m && r.tm == s.tm
    requires s.m.curr[q] != NIL ==> r.a.weight[s.m.curr[q]] == s.a.weight[s.m.curr[q]]
    ensures UpdateCurr(r, q).tm == UpdateCurr(s, q).tm
  {
    hide FixedPoint.ScaleDelta;
  }

  /** A fork charges the parent and places the child where a new thread belongs: beside the parent, but not
      before vtime, nor before vtime and the debit if a new thread starts with one.  If children are to
      run first, parent and child change places when the child would come later.  The child's is then
      made relative. */
  lemma ForkPssLands(s: State, e: nat, child: nat, debit: nat)
    requires Sane(s) && IsEnt(s, e) && IsEnt(s, child) && e != child && s.t.sfq[child] == s.t.sfq[e]
    ensures s.t.sfq[e] < |s.t.owner|
    ensures var q := s.t.sfq[e];
            var paid, r := UpdateCurr(s, q), ForkPss(s, e, child, debit);
            var base := paid.tm.vtime[q];
            var low := if s.p.startDebit then base + debit else base;
            && r.tm == paid.tm.(vruntime := paid.tm.vruntime[e := r.tm.vruntime[e]][child := r.tm.vruntime[child]])
            && (if s.p.childRunsFirst then r.tm.vruntime[child] + base == paid.tm.vruntime[e] && Lands(paid.tm.vruntime[e], r.tm.vruntime[e], low)
                else r.tm.vruntime[e] == paid.tm.vruntime[e] && Lands(paid.tm.vruntime[e], r.tm.vruntime[child] + base, low))
  {
    hide UpdateCurr, Sane, Max;
    Fields(s, e);
    Fields(s, child);
    var q := s.t.sfq[e];
    var s1 := UpdateCurr(s, q);
    Fields(s1, e);
    var v, base := s1.tm.vruntime[e], s1.tm.vtime[q];
    var w := Max(v, if s.p.startDebit then base + debit else base);
    MaxMeans(v, if s.p.startDebit then base + debit else base);
    Exchange(s1.tm.vruntime, e, child, v, w, v - base);
    Exchange(s1.tm.vruntime, e, child, v, w, w - base);
  }

  lemma ForkLands(s: State, child: nat, prio: int, debit: nat, now: int)
    requires Sane(s) && s.th.current != NIL && s.th.cls[s.th.current] == Pss
    requires IsEnt(s, child) && IsThread(s.t, child) && !s.th.live[child] && Inv(s)
    ensures s.t.sfq[s.th.current] < |s.t.owner| && s.th.current < |s.tm.vruntime|
    ensures var e := s.th.current;
            var q, c := s.t.sfq[e], SetClock(s, now);
            var paid, r := UpdateCurr(c, q), Do(s, Forks(child, prio, debit, now));
            var base := paid.tm.vtime[q];
            var low := if s.p.startDebit then base + debit else base;
            && r.tm == paid.tm.(vruntime := paid.tm.vruntime[e := r.tm.vruntime[e]][child := r.tm.vruntime[child]])
            && (if s.p.childRunsFirst then r.tm.vruntime[child] + base == paid.tm.vruntime[e] && Lands(paid.tm.vruntime[e], r.tm.vruntime[e], low)
                else r.tm.vruntime[e] == paid.tm.vruntime[e] && Lands(paid.tm.vruntime[e], r.tm.vruntime[child] + base, low))
  {
    hide UpdateCurr, ForkPss, SetQueue, Lands, Inv, WfTopo, SizedM, SizedC, SizedTm;
    var e := s.th.current;
    NewbornApart(s, child);
    var q := s.t.sfq[e];
    var sw := SetWeight(s, child, s.a.weight[e]);
    var th := s.th.(cls := s.th.cls[child := s.th.cls[e]], pri := s.th.pri[child := s.th.pri[e]],
                    initial := s.th.initial[child := true], live := s.th.live[child := true],
                    prio := s.th.prio[child := prio]);
    var s1 := SetClock(SetQueue(sw, child, q).(th := th), now);
    SetQueueFrame(sw, child, q, e);
    MovedTo(sw, child, q);
    ForkPssLands(s1, e, child, debit);
    UpdateCurrReads(SetClock(s, now), s1, q);
  }

  lemma NewbornApart(s: State, child: nat)
    requires Sane(s) && s.th.current != NIL && IsEnt(s, child) && IsThread(s.t, child) && !s.th.live[child] && Inv(s)
    ensures var e := s.th.current;
            && child != e && e < |s.t.sfq| == |s.tm.vruntime| && s.t.sfq[e] < |s.t.owner| == |s.m.curr| && s.m.curr[s.t.sfq[e]] != child
            && NIL <= s.m.curr[s.t.sfq[e]] < |s.a.weight|
  {
    hide Linked, Roles;
    RolesThread(s, s.th.current);
    RolesMean(s.t, s.m, s.th, s.th.current, child);
    LinkedCurrs(s);
    CurrElsewhere(s, child);
  }
}
