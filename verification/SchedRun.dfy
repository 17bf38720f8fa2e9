/** Whole runs of one CPU's scheduler: every step a system may take, and what all runs keep. */
module SchedRun {
  import opened SchedState
  import opened SchedOps
  import opened SchedSteps
  import opened SchedBooks
  import opened SchedMembers
  import opened SchedWalks
  import opened SchedTimes
  import opened SchedClass
  import opened SchedPick
  import opened SchedPaths
  import opened SchedRoles
  import opened SchedEntry
  import opened SchedChange
  import opened SchedHistory
  import FixedPoint

  // ---------- steps ----------

  /** `now` and `later` are clock readings, `pick` the thread that runq_choose would find. */
  datatype Event =
    | Forks(child: nat, prio: int, debit: nat, now: int)
    | Starts(e: nat, now: int, resched: bool)
    | Yields(relinquish: bool, now: int, pick: nat)
    | Sleeps(now: int, pick: nat)
    | Exits(now: int, pick: nat)
    | Renices(e: nat, weight: nat, now: int, later: int)
    | Reclasses(e: nat, pri: PriClass, now: int, resched: bool)
    | Moves(e: nat, q: nat, now: int, later: int)
    | Ticks(now: int, slices: seq<nat>)
    | Reshares(g: nat, shares: nat)
    | Reprioritizes(e: nat, prio: int)

  /** sched_throw, up to the choice of the next thread: the current thread is gone for good. */
  function Leaves(s: State, now: int): (r: State)
    requires Sane(s) && s.th.current != NIL
    ensures Same(s, r)
  {
    var s1 := Vacate(s, false, now);
    s1.(th := s1.th.(live := s1.th.live[s.th.current := false]))
  }

  ghost predicate PickFits(s: State, pick: nat) {
    s.th.runq == {} || pick in s.th.runq
  }

  /** What the rest of the kernel promises about a call. */
  ghost predicate Allowed(s: State, ev: Event)
    requires Sane(s)
  {
    match ev
    case Forks(child, _, _, _) => s.th.current != NIL && IsEnt(s, child) && IsThread(s.t, child) && !s.th.live[child]
    case Starts(e, _, _) => IsLive(s, e) && s.th.state[e] == Inhibited
    case Yields(relinquish, now, pick) => PickFits(Yield(s, relinquish, now), pick)
    case Sleeps(now, pick) => s.th.current != NIL && PickFits(Vacate(s, true, now), pick)
    case Exits(now, pick) => s.th.current != NIL && PickFits(Leaves(s, now), pick)
    case Renices(e, weight, _, _) => IsLive(s, e) && weight > 0
    case Reclasses(e, _, _, _) => IsLive(s, e) && !s.th.initial[e]
    case Moves(e, q, _, _) => IsLive(s, e) && IsQueue(s, q)
    case Ticks(_, slices) => |slices| == |s.t.parent|
    case Reshares(g, shares) => IsEnt(s, g) && !IsThread(s.t, g) && shares > 0
    case Reprioritizes(e, _) => IsLive(s, e)
  }

  ghost function Do(s: State, ev: Event): (r: State)
    requires Sane(s) && Allowed(s, ev)
    ensures Sane(r)
  {
    match ev
    case Forks(child, prio, debit, now) => Fork(s, child, prio, debit, now)
    case Starts(e, now, resched) => Add(s, e, now, resched)
    case Yields(relinquish, now, pick) => ChooseThread(Yield(s, relinquish, now), pick, now)
    case Sleeps(now, pick) => ChooseThread(Vacate(s, true, now), pick, now)
    case Exits(now, pick) => ChooseThread(Leaves(s, now), pick, now)
    case Renices(e, weight, now, later) => Nice(s, e, weight, now, later)
    case Reclasses(e, pri, now, resched) => SetClass(s, e, pri, now, resched)
    case Moves(e, q, now, later) => Move(s, e, q, now, later)
    case Ticks(now, slices) => Tick(s, now, slices)
    case Reshares(g, shares) => SetShares(s, g, shares)
    case Reprioritizes(e, prio) => SetPriority(s, e, prio)
  }

  /** Where the step enqueues a thread whose vruntime is relative, charging the current entity of the
      queue does not move vtime by more than the thread has in hand. */
  ghost predicate Timely(s: State, ev: Event)
    requires Sane(s) && Allowed(s, ev)
  {
    match ev
    case Starts(e, now, _) => s.th.cls[e] == Pss && s.th.initial[e] ==> Welcome(SetClock(s, now), e, false)
    case Renices(e, weight, now, later) =>
      s.th.cls[e] == Pss && s.th.state[e] == OnRunq ==> Welcome(NiceReady(s, e, weight, now, later), e, false)
    case Reclasses(e, pri, _, _) =>
      s.th.pri[e] != pri && ClassOf(pri) == Pss && s.th.state[e] == OnRunq ==> Welcome(ClassReady(s, e, pri), e, false)
    case Moves(e, q, now, later) =>
      s.th.cls[e] == Pss && s.th.state[e] == OnRunq ==> Welcome(MoveReady(s, e, q, now, later), e, false)
    case _ => true
  }

  // ---------- one step ----------

  lemma SwitchKeeps(s: State, pick: nat, now: int)
    requires Sane(s) && Linked(s) && NoCurr(s.m) && Roles(s.t, s.m, s.th, NIL) && Normal(s.t, s.th, NIL)
    requires PickFits(s, pick)
    ensures var r := ChooseThread(s, pick, now);
            Inv(r) && (Near(s) ==> Near(r)) && (r.th.current == NIL <==> s.th.nrRunning == 0)
  {
    hide ChooseThread, Linked, Roles, Bounded;
    ChooseKeeps(s, pick, now);
    RolesAbsolute(s, s.th, NIL, NIL);
    var r := ChooseThread(s, pick, now);
    var r' := r.(th := r.th.(current := s.th.current));
    FrameLinked(r, r');
    NearSteady(s, r', NIL);
  }

  lemma LeavesKeeps(s: State, now: int)
    requires Sane(s) && Inv(s) && s.th.current != NIL
    ensures var r := Leaves(s, now);
            && Linked(r) && NoCurr(r.m) && Roles(r.t, r.m, r.th, NIL) && Normal(r.t, r.th, NIL)
            && (Near(s) ==> Near(r))
  {
    hide Vacate, Linked, Bounded;
    VacateKeeps(s, false, now);
    var s1, r := Vacate(s, false, now), Leaves(s, now);
    FrameLinked(s1, r);
    forall x | 0 <= x < |r.t.parent| ensures Role(r.t, r.m, r.th, NIL, x) {
      assert Role(s1.t, s1.m, s1.th, NIL, x);
    }
  }

  /** Falling asleep leaves a started pss thread absolute. */
  lemma SleepsNormal(s: State, now: int)
    requires Sane(s) && Inv(s) && s.th.current != NIL
    ensures var r := Vacate(s, true, now);
            && Linked(r) && NoCurr(r.m) && Roles(r.t, r.m, r.th, NIL) && Normal(r.t, r.th, NIL)
            && (Near(s) ==> Near(r))
  {
    hide Vacate, Linked, Bounded, Roles;
    VacateKeeps(s, true, now);
    RolesThread(s, s.th.current);
  }

  /** Every step keeps the invariant, and with it `ok`: no assertion of the source fails and no
      vtime is added or subtracted twice.  It keeps the lag bound exactly when it is timely. */
  lemma StepKeeps(s: State, ev: Event)
    requires Sane(s) && Inv(s) && Allowed(s, ev)
    ensures Inv(Do(s, ev)) && (Near(s) ==> (Near(Do(s, ev)) <==> Timely(s, ev)))
  {
    hide Inv, Near, Fork, Add, Yield, Vacate, Leaves, ChooseThread, Nice, SetClass, Move, Tick, SetShares, SetPriority;
    hide Linked, Roles, Normal, Welcome, WfTopo;
    match ev
    case Forks(child, prio, debit, now) => ForkKeeps(s, child, prio, debit, now);
    case Starts(e, now, resched) => AddKeeps(s, e, now, resched);
    case Yields(relinquish, now, pick) =>
      YieldKeeps(s, relinquish, now);
      SwitchKeeps(Yield(s, relinquish, now), pick, now);
    case Sleeps(now, pick) =>
      SleepsNormal(s, now);
      SwitchKeeps(Vacate(s, true, now), pick, now);
    case Exits(now, pick) =>
      LeavesKeeps(s, now);
      SwitchKeeps(Leaves(s, now), pick, now);
    case Renices(e, weight, now, later) => NiceKeeps(s, e, weight, now, later);
    case Reclasses(e, pri, now, resched) => SetClassKeeps(s, e, pri, now, resched);
    case Moves(e, q, now, later) => MoveKeeps(s, e, q, now, later);
    case Ticks(now, slices) => TickKeeps(s, now, slices);
    case Reshares(g, shares) => SetSharesKeeps(s, g, shares);
    case Reprioritizes(e, prio) => SetPriorityKeeps(s, e, prio);
  }

  // ---------- runs ----------

  ghost predicate Runs(s: State, evs: seq<Event>)
    requires Sane(s)
    decreases |evs|
  {
    evs == [] || (Allowed(s, evs[0]) && Runs(Do(s, evs[0]), evs[1..]))
  }

  ghost function After(s: State, evs: seq<Event>): (r: State)
    requires Sane(s) && Runs(s, evs)
    ensures Sane(r)
    decreases |evs|
  {
    if evs == [] then s else After(Do(s, evs[0]), evs[1..])
  }

  ghost predicate AllTimely(s: State, evs: seq<Event>)
    requires Sane(s) && Runs(s, evs)
    decreases |evs|
  {
    evs == [] || (Timely(s, evs[0]) && AllTimely(Do(s, evs[0]), evs[1..]))
  }

  /** The invariant, and with timely arrivals the lag bound, hold after every run. */
  lemma {:induction false} RunKeeps(s: State, evs: seq<Event>)
    requires Sane(s) && Inv(s) && Runs(s, evs)
    ensures Inv(After(s, evs)) && (Near(s) && AllTimely(s, evs) ==> Near(After(s, evs)))
    decreases |evs|
  {
    hide Inv, Near, Do, Allowed, Timely;
    if evs != [] {
      StepKeeps(s, evs[0]);
      RunKeeps(Do(s, evs[0]), evs[1..]);
    }
  }

  /** The lag bound holds at every point of the run. */
  ghost predicate NearThrough(s: State, evs: seq<Event>)
    requires Sane(s) && Runs(s, evs)
    decreases |evs|
  {
    Near(s) && (evs == [] || NearThrough(Do(s, evs[0]), evs[1..]))
  }

  /** From a state within the bound a run stays within it exactly as long as all arrivals are timely. */
  lemma {:induction false} RunNear(s: State, evs: seq<Event>)
    requires Sane(s) && Inv(s) && Near(s) && Runs(s, evs)
    ensures NearThrough(s, evs) <==> AllTimely(s, evs)
    decreases |evs|
  {
    hide Inv, Near, Do, Allowed, Timely;
    if evs != [] {
      StepKeeps(s, evs[0]);
      if Timely(s, evs[0]) {
        RunNear(Do(s, evs[0]), evs[1..]);
      } else {
        FarAtOnce(Do(s, evs[0]), evs[1..]);
      }
    }
  }

  lemma FarAtOnce(s: State, evs: seq<Event>)
    requires Sane(s) && Runs(s, evs) && !Near(s)
    ensures !NearThrough(s, evs)
  {
    hide Near;
  }

  // ---------- the first state ----------

  ghost predicate BootEntity(s: State, e: nat)
    requires Sane(s) && IsEnt(s, e)
  {
    && !s.m.joined[e] && !s.m.onSfq[e] && !s.th.rtJoined[e] && !s.th.onRunq[e] && s.th.state[e] == Inhibited
    && s.tm.vruntime[e] == 0 && s.tm.sum[e] == 0 && s.th.absolute[e] == !IsThread(s.t, e)
    && (s.th.live[e] ==> s.th.initial[e] && s.th.cls[e] == ClassOf(s.th.pri[e])) && (IsThread(s.t, e) ==> s.a.weight[e] > 0)
  }

  ghost predicate BootQueue(s: State, q: nat)
    requires Sane(s) && IsQueue(s, q)
  {
    && s.m.timeline[q] == [] && s.m.curr[q] == NIL && s.a.load[q] == 0 && s.a.nr[q] == 0 && s.a.shares[q] > 0
    && s.tm.vtime[q] == 0 && s.tm.charged[q] == 0
    && s.c.skip[q] == NIL && s.c.next[q] == NIL && s.c.last[q] == NIL
  }

  /** Threads have been created, none has been started. */
  ghost predicate Boot(s: State)
    requires Sane(s)
  {
    && s.ok && s.a.rqLoad == 0
    && s.th.runq == {} && s.th.rtCurr == NIL && s.th.current == NIL && s.th.nrRunning == 0
    && (forall e :: 0 <= e < |s.t.parent| ==> BootEntity(s, e))
    && (forall q :: 0 <= q < |s.t.owner| ==> BootQueue(s, q))
  }

  lemma BootEntities(s: State)
    requires Sane(s) && Boot(s)
    ensures forall e :: 0 <= e < |s.t.parent| ==> !s.m.joined[e]
    ensures forall e :: 0 <= e < |s.t.parent| ==> !s.m.onSfq[e]
    ensures forall e :: 0 <= e < |s.t.parent| ==> !s.th.rtJoined[e]
    ensures forall e :: 0 <= e < |s.t.parent| ==> s.tm.vruntime[e] == 0
    ensures forall e :: 0 <= e < |s.t.parent| ==> s.tm.sum[e] == 0
    ensures forall e :: 0 <= e < |s.t.parent| ==> s.th.absolute[e] == !IsThread(s.t, e)
    ensures forall e :: 0 <= e < |s.t.parent| && IsThread(s.t, e) ==> s.a.weight[e] > 0
    ensures forall e :: 0 <= e < |s.t.parent| && s.th.live[e] ==> s.th.initial[e]
  {
    forall e | 0 <= e < |s.t.parent|
      ensures !s.m.joined[e] && !s.m.onSfq[e] && !s.th.rtJoined[e] && s.tm.vruntime[e] == 0 && s.tm.sum[e] == 0
      ensures s.th.absolute[e] == !IsThread(s.t, e) && (IsThread(s.t, e) ==> s.a.weight[e] > 0)
      ensures s.th.live[e] ==> s.th.initial[e]
    {
      assert BootEntity(s, e);
    }
  }

  lemma BootQueues(s: State)
    requires Sane(s) && Boot(s)
    ensures forall q :: 0 <= q < |s.t.owner| ==> s.m.timeline[q] == []
    ensures forall q :: 0 <= q < |s.t.owner| ==> s.m.curr[q] == NIL
    ensures forall q :: 0 <= q < |s.t.owner| ==> s.a.load[q] == 0
    ensures forall q :: 0 <= q < |s.t.owner| ==> s.a.nr[q] == 0
    ensures forall q :: 0 <= q < |s.t.owner| ==> s.a.shares[q] > 0
    ensures forall q :: 0 <= q < |s.t.owner| ==> s.tm.charged[q] == 0
    ensures forall q :: 0 <= q < |s.t.owner| ==> s.tm.vtime[q] == 0
    ensures forall q :: 0 <= q < |s.t.owner| ==> s.c.skip[q] == NIL
    ensures forall q :: 0 <= q < |s.t.owner| ==> s.c.next[q] == NIL
    ensures forall q :: 0 <= q < |s.t.owner| ==> s.c.last[q] == NIL
  {
    forall q | 0 <= q < |s.t.owner|
      ensures s.m.timeline[q] == [] && s.m.curr[q] == NIL && s.a.load[q] == 0 && s.a.nr[q] == 0 && s.a.shares[q] > 0
      ensures s.tm.charged[q] == 0 && s.tm.vtime[q] == 0
      ensures s.c.skip[q] == NIL && s.c.next[q] == NIL && s.c.last[q] == NIL
    {
      assert BootQueue(s, q);
    }
  }

  lemma BootStructure(s: State)
    requires Sane(s) && Boot(s)
    ensures Structure(s, NIL) && NoCurr(s.m)
  {
    BootEntities(s);
    BootQueues(s);
    forall q | 0 <= q < |s.a.load| ensures QueueBooks(s.t, s.m.joined, s.a, q) {
      LoadSumPart(s.t.sfq, s.m.joined, s.a.weight, q, |s.t.sfq|);
    }
  }

  lemma BootTimed(s: State)
    requires Sane(s) && Boot(s)
    ensures Timed(s.t, s.m, s.tm) && Near(s) && GroupsAbsolute(s.t, s.th.absolute)
  {
    hide BootEntity, BootQueue;
    BootEntities(s);
    BootQueues(s);
  }

  lemma BootRoles(s: State)
    requires Sane(s) && Boot(s)
    ensures Roles(s.t, s.m, s.th, NIL) && Normal(s.t, s.th, NIL)
  {
    BootEntities(s);
    BootQueues(s);
    forall e | 0 <= e < |s.t.parent| ensures Role(s.t, s.m, s.th, NIL, e) && !s.th.onRunq[e] {
      assert BootEntity(s, e);
    }
    RunnableNone(s.t, s.m.joined, s.th.rtJoined, |s.t.parent|);
  }

  lemma BootKeeps(s: State)
    requires Sane(s) && Boot(s)
    ensures Inv(s) && Near(s)
  {
    hide Structure, Timed, Roles, Normal, Near, Chain, CurrJoined, BootEntity, BootQueue;
    BootStructure(s);
    BootTimed(s);
    BootRoles(s);
    NoCurrents(s);
  }

  lemma NoCurrents(s: State)
    requires Sane(s) && NoCurr(s.m)
    ensures Chain(s.t, s.m, NIL) && CurrJoined(s.m)
  {
  }

  // ---------- what the invariant says ----------

  /** Hierarchy: loads and counts are those of the joined members; groups are joined exactly when
      their queues are not empty; joined entities are on a timeline or current, never both. */
  lemma HierarchyHolds(s: State)
    requires Sane(s) && Inv(s)
    ensures forall q :: 0 <= q < |s.t.owner| ==>
              s.a.load[q] == LoadSum(s.t.sfq, s.m.joined, s.a.weight, q, |s.t.sfq|)
              && s.a.nr[q] == Count(s.t.sfq, s.m.joined, q, |s.t.sfq|)
    ensures s.a.rqLoad == LoadSum(s.t.sfq, s.m.joined, s.a.weight, 0, |s.t.sfq|)
    ensures forall g :: 0 <= g < |s.t.myq| && s.t.myq[g] != NIL ==> (s.m.joined[g] <==> s.a.nr[s.t.myq[g]] > 0)
    ensures forall e :: 0 <= e < |s.t.sfq| ==>
              && (s.m.joined[e] <==> (e in s.m.timeline[s.t.sfq[e]]) || s.m.curr[s.t.sfq[e]] == e)
              && !(e in s.m.timeline[s.t.sfq[e]] && s.m.curr[s.t.sfq[e]] == e)
  {
    hide Timed, Roles, Chain, Candidates;
    forall q | 0 <= q < |s.t.owner|
      ensures s.a.load[q] == LoadSum(s.t.sfq, s.m.joined, s.a.weight, q, |s.t.sfq|)
           && s.a.nr[q] == Count(s.t.sfq, s.m.joined, q, |s.t.sfq|)
    {
      assert QueueBooks(s.t, s.m.joined, s.a, q);
    }
    assert QueueBooks(s.t, s.m.joined, s.a, 0);
    forall e | 0 <= e < |s.t.sfq|
      ensures && (s.m.joined[e] <==> (e in s.m.timeline[s.t.sfq[e]]) || s.m.curr[s.t.sfq[e]] == e)
              && !(e in s.m.timeline[s.t.sfq[e]] && s.m.curr[s.t.sfq[e]] == e)
    {
      if e in s.m.timeline[s.t.sfq[e]] {
        var i :| 0 <= i < |s.m.timeline[s.t.sfq[e]]| && s.m.timeline[s.t.sfq[e]][i] == e;
        assert s.m.onSfq[e];
      }
    }
  }

  /** Every current entity lies on the way from the running thread to the root. */
  lemma {:induction false} CurrentAbove(s: State, q: nat)
    requires Sane(s) && IsQueue(s, q) && Inv(s) && s.m.curr[q] != NIL
    ensures s.th.current != NIL && AtOrAbove(s.t, s.th.current, s.m.curr[q])
    decreases s.t.depth - s.t.level[s.m.curr[q]]
  {
    hide Kept, Timelines, Joins, Candidates, Timed, Groups;
    var g := s.m.curr[q];
    assert s.t.sfq[g] == q;
    if IsThread(s.t, g) {
      assert Role(s.t, s.m, s.th, s.th.current, g);
    } else {
      var p := s.t.myq[g];
      assert s.m.curr[p] != NIL;
      var f := s.m.curr[p];
      assert s.t.sfq[f] == p && s.t.parent[f] == s.t.owner[p] == g;
      CurrentAbove(s, p);
      AboveParent(s, f);
      AboveTrans(s, s.th.current, f, g);
    }
  }

  /** And everything on that way is current, when the running thread is of the pss class. */
  lemma {:induction false} AboveCurrent(s: State, e: nat, a: nat)
    requires Sane(s) && IsEnt(s, e) && IsEnt(s, a) && Chain(s.t, s.m, NIL)
    requires AtOrAbove(s.t, e, a) && s.m.curr[s.t.sfq[e]] == e
    ensures s.m.curr[s.t.sfq[a]] == a
    decreases s.t.level[e]
  {
    if a != e {
      ParentGroup(s, e);
      AboveCurrent(s, s.t.parent[e], a);
    }
  }

  /** The curr pointers form one chain from the root to the running pss thread. */
  lemma OneChain(s: State)
    requires Sane(s) && Inv(s)
    ensures forall a :: 0 <= a < |s.t.sfq| ==>
              (s.m.curr[s.t.sfq[a]] == a <==>
                 s.th.current != NIL && s.th.cls[s.th.current] == Pss && AtOrAbove(s.t, s.th.current, a))
  {
    hide Core;
    var c := s.th.current;
    forall a | 0 <= a < |s.t.sfq|
      ensures s.m.curr[s.t.sfq[a]] == a <==> c != NIL && s.th.cls[c] == Pss && AtOrAbove(s.t, c, a)
    {
      if s.m.curr[s.t.sfq[a]] == a {
        CurrentAbove(s, s.t.sfq[a]);
        if s.th.cls[c] == Realtime {
          RunningChain(s, c);
        }
      } else if c != NIL && s.th.cls[c] == Pss && AtOrAbove(s.t, c, a) {
        assert Role(s.t, s.m, s.th, c, c);
        AboveCurrent(s, c, a);
      }
    }
  }

  /** Realtime and pss threads side by side. */
  lemma ClassesHold(s: State)
    requires Sane(s) && Inv(s)
    ensures forall e :: 0 <= e < |s.t.sfq| && IsThread(s.t, e) && s.th.cls[e] == Realtime ==>
              !s.m.onSfq[e] && (s.th.rtJoined[e] <==> e in s.th.runq || s.th.rtCurr == e)
    ensures forall e :: 0 <= e < |s.t.sfq| && IsThread(s.t, e) && s.th.cls[e] == Pss && e in s.th.runq ==> s.m.onSfq[e]
    ensures forall e :: 0 <= e < |s.t.sfq| && IsThread(s.t, e) && s.th.live[e] ==> s.th.cls[e] == ClassOf(s.th.pri[e])
    ensures s.th.rtCurr == NIL || s.m.curr[0] == NIL
    ensures s.th.nrRunning == Runnable(s.t, s.m.joined, s.th.rtJoined, |s.t.parent|)
  {
    hide Kept, Groups, Candidates, Timed, Chain, Timelines;
    forall e | 0 <= e < |s.t.sfq| && IsThread(s.t, e)
      ensures s.th.cls[e] == Realtime ==> !s.m.onSfq[e] && (s.th.rtJoined[e] <==> e in s.th.runq || s.th.rtCurr == e)
      ensures s.th.cls[e] == Pss && e in s.th.runq ==> s.m.onSfq[e]
      ensures s.th.live[e] ==> s.th.cls[e] == ClassOf(s.th.pri[e])
    {
      assert Role(s.t, s.m, s.th, s.th.current, e);
    }
  }

  /** Vruntimes are absolute exactly for started threads of the pss class and for groups. */
  lemma NormalHolds(s: State)
    requires Sane(s) && Inv(s)
    ensures s.ok
    ensures forall e :: 0 <= e < |s.t.sfq| ==>
              (s.th.absolute[e] <==> !IsThread(s.t, e) || (s.th.live[e] && s.th.cls[e] == Pss && !s.th.initial[e]))
  {
    hide Structure, Timed, Roles, Chain;
  }
}
