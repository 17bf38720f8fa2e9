/** The scheduler as a table of its threads: what every call may change of the fields that the rest of
    the kernel sees (sched.c:474-984, 1165-1461, pss.c:1218-1413, 1502-1549).

    The table has no timelines, no virtual times and no hierarchy of currents.  Every step does to it
    exactly what Told says, whichever thread is chosen next. */
module SchedTable {
  import opened SchedState
  import opened SchedOps
  import opened SchedSteps
  import opened SchedBooks
  import opened SchedMembers
  import opened SchedWalks
  import opened SchedTimes
  import opened SchedClass
  import opened SchedRoles
  import opened SchedEntry
  import opened SchedChange
  import opened SchedRun
  import FixedPoint

  // ---------- the table ----------

  /** td_oncpu and clock of the CPU; the fields of every thread; the shares of every group. */
  datatype Table = Table(p: Params, t: Topo, shares: seq<nat>, clock: int, current: int,
                         live: seq<bool>, initial: seq<bool>, cls: seq<Class>, pri: seq<PriClass>, prio: seq<int>,
                         state: seq<TdState>, onRunq: seq<bool>)

  function TableOf(s: State): Table {
    Table(s.p, s.t, s.a.shares, s.tm.clock, s.th.current, s.th.live, s.th.initial, s.th.cls, s.th.pri, s.th.prio,
          s.th.state, s.th.onRunq)
  }

  predicate Fits(f: Table) {
    var n := |f.t.parent|;
    && |f.live| == |f.initial| == |f.cls| == |f.pri| == |f.prio| == |f.state| == |f.onRunq| == n
    && |f.t.sfq| == |f.t.myq| == |f.t.level| == n && NIL <= f.current < n
    && |f.shares| == |f.t.owner| && (forall q :: 0 <= q < |f.t.owner| ==> NIL <= f.t.owner[q] < n)
    && (forall e :: 0 <= e < n ==> f.t.sfq[e] < |f.t.owner|)
  }

  /** Thread e waits for the processor: on the kernel's run queue if it is a realtime thread or has
      been boosted. */
  function Waiting(f: Table, e: nat): Table
    requires e < |f.state| && e < |f.onRunq| && e < |f.cls| && e < |f.prio|
  {
    f.(state := f.state[e := OnRunq], onRunq := f.onRunq[e := f.cls[e] == Realtime || f.prio[e] < f.p.normalPri])
  }

  function Busy(f: Table, e: nat): Table
    requires e < |f.state| && e < |f.onRunq|
  {
    f.(state := f.state[e := Running], onRunq := f.onRunq[e := false])
  }

  function Off(f: Table, e: nat): Table
    requires e < |f.onRunq|
  {
    f.(onRunq := f.onRunq[e := false])
  }

  function Clocked(f: Table, now: int): Table {
    f.(clock := Max(f.clock, now))
  }

  /** The thread weights of r are those of s. */
  ghost predicate SameWeights(s: State, r: State)
    requires Sane(s) && Sane(r)
  {
    |r.t.myq| == |s.t.myq| && forall x {:trigger r.a.weight[x]} :: 0 <= x < |s.t.myq| && s.t.myq[x] == NIL ==> r.a.weight[x] == s.a.weight[x]
  }

  /** To the table r is s, and no thread's weight has changed. */
  ghost predicate Alike(s: State, r: State)
    requires Sane(s) && Sane(r)
  {
    TableOf(r) == TableOf(s) && SameWeights(s, r)
  }

  ghost predicate Becomes(s: State, r: State, f: Table)
    requires Sane(s) && Sane(r)
  {
    TableOf(r) == f && SameWeights(s, r)
  }

  lemma FitsOf(s: State)
    requires Sane(s)
    ensures Fits(TableOf(s))
  {
  }

  lemma AlikeThrough(s: State, s': State, r: State)
    requires Sane(s) && Sane(s') && Sane(r) && SameWeights(s, s') && SameWeights(s', r) && s'.t == s.t
    ensures SameWeights(s, r)
  {
  }

  // ---------- entities ----------

  lemma UpdateCurrAlike(s: State, q: nat)
    requires Sane(s) && IsQueue(s, q)
    ensures Alike(s, UpdateCurr(s, q))
  {
    hide FixedPoint.ScaleDelta, NewVtime;
  }

  lemma UpdateSharesAlike(s: State, q: nat)
    requires Sane(s) && IsQueue(s, q)
    ensures Alike(s, UpdateShares(s, q))
  {
    hide UpdateCurr;
    var p := s.t.owner[q];
    if p != NIL {
      OwnerOf(s, q);
      UpdateCurrAlike(s, s.t.sfq[p]);
    }
  }

  lemma EnqueueEntityAlike(s: State, e: nat, wakeup: bool)
    requires Sane(s) && IsEnt(s, e)
    ensures Fits(TableOf(s))
    ensures !IsThread(s.t, e) ==> Alike(s, EnqueueEntity(s, e, wakeup))
    ensures IsThread(s.t, e) && s.th.cls[e] == Pss && !s.th.onRunq[e] ==>
              Becomes(s, EnqueueEntity(s, e, wakeup), Waiting(TableOf(s), e))
  {
    hide UpdateCurr, TreeEnqueue, UpdateShares, WfTopo;
    FitsOf(s);
    SfqInRange(s, e);
    var q := s.t.sfq[e];
    var s0 := s.(ok := s.ok && !s.m.joined[e]);
    UpdateCurrAlike(s0, q);
    UpdateCurrAlike(AddVtime(s0, e), q);
    var s1 := MakeRunnable(Arrive(s0, e, wakeup), e);
    var s2 := Account(TreeEnqueue(s1, e), e, 1);
    UpdateSharesAlike(s2, q);
    assert s.th.onRunq[e := s.th.onRunq[e]] == s.th.onRunq;
  }

  lemma DequeueEntityAlike(s: State, e: nat, sleep: bool)
    requires Sane(s) && IsEnt(s, e) && s.m.joined[e]
    ensures Fits(TableOf(s))
    ensures Becomes(s, DequeueEntity(s, e, sleep), if IsThread(s.t, e) then Off(TableOf(s), e) else TableOf(s))
  {
    hide UpdateCurr, TreeDequeue, UpdateShares, ClearCandidates, NewVtime, WfTopo;
    FitsOf(s);
    SfqInRange(s, e);
    var q := s.t.sfq[e];
    UpdateCurrAlike(s, q);
    LeaveAlike(s, e);
    var s1 := Leave(s, e);
    var s2 := UpdateVtime(if sleep then s1 else SubVtime(s1, e), q);
    UpdateSharesAlike(s2, q);
  }

  lemma LeaveAlike(s: State, e: nat)
    requires Sane(s) && IsEnt(s, e)
    ensures Fits(TableOf(s))
    ensures Becomes(s, Leave(s, e), if IsThread(s.t, e) then Off(TableOf(s), e) else TableOf(s))
  {
    hide UpdateCurr, TreeDequeue, ClearCandidates, WfTopo;
    FitsOf(s);
    SfqInRange(s, e);
    UpdateCurrAlike(s, s.t.sfq[e]);
    assert !s.th.onRunq[e] ==> s.th.onRunq[e := false] == s.th.onRunq;
  }

  lemma PutPrevEntityAlike(s: State, e: nat, relinquish: bool)
    requires Sane(s) && IsEnt(s, e)
    ensures Fits(TableOf(s))
    ensures !IsThread(s.t, e) || !s.m.joined[e] ==> Alike(s, PutPrevEntity(s, e, relinquish))
    ensures IsThread(s.t, e) && s.m.joined[e] && s.th.cls[e] == Pss && !s.th.onRunq[e] ==>
              Becomes(s, PutPrevEntity(s, e, relinquish), Waiting(TableOf(s), e))
  {
    hide UpdateCurr, TreeEnqueue, SetSkip, WfTopo;
    FitsOf(s);
    SfqInRange(s, e);
    var s0 := if IsThread(s.t, e) && relinquish then SetSkip(s, e) else s;
    UpdateCurrAlike(s0, s.t.sfq[e]);
    assert s.th.onRunq[e := s.th.onRunq[e]] == s.th.onRunq;
  }

  lemma ActivateEntityAlike(s: State, e: nat)
    requires Sane(s) && IsEnt(s, e)
    ensures Fits(TableOf(s))
    ensures Becomes(s, ActivateEntity(s, e), if IsThread(s.t, e) then Off(TableOf(s), e) else TableOf(s))
  {
    hide TreeDequeue, WfTopo;
    FitsOf(s);
    SfqInRange(s, e);
    assert !s.th.onRunq[e] ==> s.th.onRunq[e := false] == s.th.onRunq;
  }

  // ---------- walks ----------

  lemma {:induction false} SharesWalkAlike(s: State, e: int)
    requires Sane(s) && (e == NIL || IsEnt(s, e))
    ensures Alike(s, SharesWalk(s, e))
    decreases Rank(s.t, e)
  {
    hide UpdateShares, WfTopo;
    if e != NIL {
      ParentGroup(s, e);
      UpdateSharesAlike(s, s.t.sfq[e]);
      SharesWalkAlike(UpdateShares(s, s.t.sfq[e]), s.t.parent[e]);
    }
  }

  lemma {:induction false} EnqueueWalkAlike(s: State, e: int, wakeup: bool)
    requires Sane(s) && (e == NIL || IsEnt(s, e))
    ensures Fits(TableOf(s))
    ensures var r := EnqueueWalk(s, e, wakeup).0;
            && (e == NIL || s.m.joined[e] || !IsThread(s.t, e) ==> Alike(s, r))
            && (e != NIL && !s.m.joined[e] && IsThread(s.t, e) && s.th.cls[e] == Pss && !s.th.onRunq[e] ==>
                  Becomes(s, r, Waiting(TableOf(s), e)))
    decreases Rank(s.t, e)
  {
    hide EnqueueEntity, Waiting, WfTopo;
    FitsOf(s);
    if e != NIL && !s.m.joined[e] {
      ParentGroup(s, e);
      EnqueueEntityAlike(s, e, wakeup);
      EnqueueWalkAlike(EnqueueEntity(s, e, wakeup), s.t.parent[e], true);
    }
  }

  lemma {:induction false} DequeueWalkAlike(s: State, e: int, sleep: bool, isSleep: bool)
    requires Sane(s) && (e == NIL || IsEnt(s, e))
    ensures Fits(TableOf(s))
    ensures var r := DequeueWalk(s, e, sleep, isSleep).0;
            && (e == NIL || !IsThread(s.t, e) ==> Alike(s, r))
            && (e != NIL && s.m.joined[e] && IsThread(s.t, e) ==> Becomes(s, r, Off(TableOf(s), e)))
    decreases Rank(s.t, e)
  {
    hide DequeueEntity, SetNext, Off, WfTopo;
    FitsOf(s);
    if e != NIL {
      ParentGroup(s, e);
      if s.m.joined[e] {
        DequeueEntityAlike(s, e, sleep);
      } else {
        DequeueNothing(s, e, sleep);
      }
      var s1, p := DequeueEntity(s, e, sleep), s.t.parent[e];
      if s1.a.load[s.t.sfq[e]] == 0 {
        DequeueWalkAlike(s1, p, true, isSleep);
      }
    }
  }

  lemma DequeueNothing(s: State, e: nat, sleep: bool)
    requires Sane(s) && IsEnt(s, e) && !s.m.joined[e]
    ensures Alike(s, DequeueEntity(s, e, sleep))
  {
  }

  lemma {:induction false} PutPrevWalkAlike(s: State, e: int, relinquish: bool)
    requires Sane(s) && (e == NIL || IsEnt(s, e))
    ensures Fits(TableOf(s))
    ensures var r := PutPrevWalk(s, e, relinquish);
            && (e == NIL || !s.m.joined[e] || !IsThread(s.t, e) ==> Alike(s, r))
            && (e != NIL && s.m.joined[e] && IsThread(s.t, e) && s.th.cls[e] == Pss && !s.th.onRunq[e] ==>
                  Becomes(s, r, Waiting(TableOf(s), e)))
    decreases Rank(s.t, e)
  {
    hide PutPrevEntity, Waiting, WfTopo;
    FitsOf(s);
    if e != NIL {
      ParentGroup(s, e);
      PutPrevEntityAlike(s, e, relinquish);
      PutPrevWalkAlike(PutPrevEntity(s, e, relinquish), s.t.parent[e], relinquish);
    }
  }

  lemma {:induction false} ActivateWalkAlike(s: State, e: int)
    requires Sane(s) && (e == NIL || IsEnt(s, e))
    ensures Fits(TableOf(s))
    ensures Becomes(s, ActivateWalk(s, e), if e != NIL && IsThread(s.t, e) then Off(TableOf(s), e) else TableOf(s))
    decreases Rank(s.t, e)
  {
    hide ActivateEntity, Off, WfTopo;
    FitsOf(s);
    if e != NIL {
      ParentGroup(s, e);
      ActivateEntityAlike(s, e);
      ActivateWalkAlike(ActivateEntity(s, e), s.t.parent[e]);
    }
  }

  // ---------- the class operations ----------

  /** Queueing a thread of either class. */
  lemma EnqueueTable(s: State, e: nat, wakeup: bool)
    requires Sane(s) && IsEnt(s, e) && IsThread(s.t, e) && !s.m.joined[e] && !s.th.onRunq[e]
    ensures Fits(TableOf(s)) && Becomes(s, Enqueue(s, e, wakeup), Waiting(TableOf(s), e))
  {
    hide EnqueueWalk, SharesWalk, WfTopo, SizedM, SizedTm, SizedC, SizedA;
    FitsOf(s);
    if s.th.cls[e] == Pss {
      var s0 := NotRealtime(s, e);
      EnqueueWalkAlike(s0, e, wakeup);
      var (s1, e1) := EnqueueWalk(s0, e, wakeup);
      SharesWalkAlike(s1, e1);
      AlikeThrough(s0, s1, SharesWalk(s1, e1));
    }
  }

  lemma DequeueTable(s: State, e: nat, sleep: bool)
    requires Sane(s) && IsEnt(s, e) && IsThread(s.t, e)
    requires if s.th.cls[e] == Pss then s.m.joined[e] else s.th.rtJoined[e]
    ensures Fits(TableOf(s)) && Becomes(s, Dequeue(s, e, sleep), Off(TableOf(s), e))
  {
    hide DequeueWalk, SharesWalk, WfTopo, SizedM, SizedTm, SizedC, SizedA;
    FitsOf(s);
    if s.th.cls[e] == Pss {
      var s0 := NotRealtime(s, e);
      DequeueWalkAlike(s0, e, sleep, sleep);
      var (s1, e1) := DequeueWalk(s0, e, sleep, sleep);
      SharesWalkAlike(s1, e1);
      AlikeThrough(s0, s1, SharesWalk(s1, e1));
    } else {
      assert !s.th.onRunq[e] ==> s.th.onRunq[e := false] == s.th.onRunq;
    }
  }

  /** Whether thread e is joined, as its class has it. */
  predicate IsJoined(s: State, e: nat)
    requires Sane(s) && IsEnt(s, e)
  {
    if s.th.cls[e] == Pss then s.m.joined[e] else s.th.rtJoined[e]
  }

  lemma PutPrevTable(s: State, e: nat, relinquish: bool)
    requires Sane(s) && IsEnt(s, e) && IsThread(s.t, e) && !s.th.onRunq[e]
    ensures Fits(TableOf(s))
    ensures Becomes(s, PutPrev(s, e, relinquish), if IsJoined(s, e) then Waiting(TableOf(s), e) else TableOf(s))
  {
    hide PutPrevWalk, WfTopo, SizedM, SizedTm, SizedC, SizedA;
    FitsOf(s);
    if s.th.cls[e] == Pss {
      PutPrevWalkAlike(NotRealtime(s, e), e, relinquish);
    }
  }

  lemma ActivateTable(s: State, e: nat, now: int)
    requires Sane(s) && IsEnt(s, e) && IsThread(s.t, e)
    ensures Fits(TableOf(s)) && Becomes(s, Activate(s, e, now), Busy(TableOf(s), e))
  {
    hide ActivateWalk, WfTopo, SizedM, SizedTm, SizedC, SizedA;
    FitsOf(s);
    if s.th.cls[e] == Pss {
      ActivateWalkAlike(NotRealtime(s, e), e);
    } else {
      assert !s.th.onRunq[e] ==> s.th.onRunq[e := false] == s.th.onRunq;
    }
  }

  // ---------- what a step does to the table ----------

  /** The numbers in the event are in range. */
  predicate Named(f: Table, ev: Event)
    requires Fits(f)
  {
    var n := |f.t.parent|;
    match ev
    case Forks(child, _, _, _) => f.current != NIL && child < n
    case Starts(e, _, _) => e < n
    case Yields(_, _, _) => true
    case Sleeps(_, _) => f.current != NIL
    case Exits(_, _) => f.current != NIL
    case Renices(e, _, _, _) => e < n
    case Reclasses(e, _, _, _) => e < n
    case Moves(e, q, _, _) => e < n && q < |f.t.owner|
    case Ticks(_, _) => true
    case Reshares(g, _) => g < n && 0 <= f.t.myq[g] < |f.shares|
    case Reprioritizes(e, _) => e < n
  }

  function Switched(f: Table, next: int): Table
    requires Fits(f) && NIL <= next < |f.t.parent|
  {
    (if next == NIL then f else Busy(f, next)).(current := next)
  }

  /** A queued thread is queued again. */
  function Requeued(f: Table, e: nat): Table
    requires Fits(f) && e < |f.t.parent|
  {
    if f.state[e] == OnRunq then Waiting(f, e) else f
  }

  function Rehomed(f: Table, e: nat, q: nat, level: nat): Table
    requires Fits(f) && e < |f.t.parent| && q < |f.t.owner|
  {
    f.(t := f.t.(sfq := f.t.sfq[e := q], parent := f.t.parent[e := f.t.owner[q]], level := f.t.level[e := level]))
  }

  /** A new thread is of its parent's class, priority class and group. */
  function Born(f: Table, child: nat, prio: int): Table
    requires Fits(f) && f.current != NIL && child < |f.t.parent|
  {
    var e := f.current;
    Rehomed(f, child, f.t.sfq[e], f.t.level[e])
      .(live := f.live[child := true], initial := f.initial[child := true], cls := f.cls[child := f.cls[e]],
        pri := f.pri[child := f.pri[e]], prio := f.prio[child := prio])
  }

  predicate AtRest(f: Table, e: nat)
    requires Fits(f) && e < |f.t.parent|
  {
    f.state[e] == Inhibited
  }

  function Told(f: Table, ev: Event, next: int): Table
    requires Fits(f) && Named(f, ev) && NIL <= next < |f.t.parent|
  {
    match ev
    case Forks(child, prio, _, now) =>
      if f.cls[f.current] == Pss then Clocked(Born(f, child, prio), now)
      else Born(f, child, prio)
    case Starts(e, now, _) => Waiting(Clocked(f.(initial := f.initial[e := false]), now), e)
    case Yields(_, now, _) => Switched(if f.current == NIL then f else Waiting(Clocked(f, now), f.current), next)
    case Sleeps(now, _) => Switched(Clocked(f.(state := f.state[f.current := Inhibited]), now), next)
    case Exits(now, _) =>
      Switched(Clocked(f.(state := f.state[f.current := Inhibited], live := f.live[f.current := false]), now), next)
    case Renices(e, _, now, later) =>
      if f.cls[e] == Realtime || AtRest(f, e) then f else Requeued(Clocked(Clocked(f, now), later), e)
    case Reclasses(e, pri, _, _) =>
      if f.pri[e] == pri then f else Requeued(f.(cls := f.cls[e := ClassOf(pri)], pri := f.pri[e := pri]), e)
    case Moves(e, q, now, later) =>
      var g := Rehomed(f, e, q, if f.t.owner[q] == NIL then 0 else f.t.level[f.t.owner[q]] + 1);
      if AtRest(f, e) then g else Requeued(Clocked(Clocked(g, now), later), e)
    case Ticks(now, _) => Clocked(f, now)
    case Reshares(g, n) =>
      f.(shares := f.shares[f.t.myq[g] := if n < MIN_SHARES then MIN_SHARES else if n > MAX_SHARES then MAX_SHARES else n])
    case Reprioritizes(e, prio) =>
      var g := f.(prio := f.prio[e := prio]);
      if prio < f.prio[e] then Requeued(g, e) else g
  }

  /** The weight of thread x afterwards. */
  function ToldWeight(f: Table, weight: seq<nat>, ev: Event, x: nat): nat
    requires Fits(f) && Named(f, ev) && x < |weight| == |f.t.parent|
  {
    match ev
    case Forks(child, _, _, _) => if x == child then weight[f.current] else weight[x]
    case Renices(e, w, _, _) => if x == e then w else weight[x]
    case _ => weight[x]
  }

  // ---------- switching ----------

  lemma ClockTable(s: State, now: int)
    requires Sane(s)
    ensures Becomes(s, SetClock(s, now), Clocked(TableOf(s), now))
  {
  }

  lemma CheckAlike(s: State, e: nat, resched: bool)
    requires Sane(s) && IsEnt(s, e)
    ensures Alike(s, CheckClassPreempt(s, e, resched))
  {
    hide UpdateCurr, WakeupPreempt, SetNext, SetLast, CommonAncestor;
    var c := s.th.current;
    if c != NIL {
      UpdateCurrAlike(s, s.t.sfq[CommonAncestor(s.t, c, e).0]);
    }
  }

  lemma ChooseTable(s: State, pick: nat, now: int)
    requires Sane(s) && Linked(s) && NoCurr(s.m) && Roles(s.t, s.m, s.th, NIL)
    ensures Fits(TableOf(s))
    ensures var r := ChooseThread(s, pick, now); Becomes(s, r, Switched(TableOf(s), r.th.current))
  {
    hide Activate, PssPick, Linked, Roles, WfTopo, Busy;
    FitsOf(s);
    if pick in s.th.runq {
      PickedThread(s, pick);
      ActivateTable(s, pick, now);
    } else {
      LinkedCore(s);
      SchedPick.PssPickKeeps(s);
      var (s1, e) := PssPick(s);
      if e != NIL {
        ActivateTable(s1, e, now);
      }
    }
  }

  lemma PickedThread(s: State, pick: nat)
    requires Sane(s) && Roles(s.t, s.m, s.th, NIL) && pick in s.th.runq
    ensures IsEnt(s, pick) && IsThread(s.t, pick)
  {
    hide Roles;
    RolesMean(s.t, s.m, s.th, NIL, pick);
  }

  lemma YieldTable(s: State, relinquish: bool, now: int)
    requires Sane(s) && Inv(s)
    ensures Fits(TableOf(s))
    ensures Becomes(s, Yield(s, relinquish, now),
                    if s.th.current == NIL then TableOf(s) else Waiting(Clocked(TableOf(s), now), s.th.current))
  {
    hide PutPrev, Linked, Roles, Waiting, WfTopo;
    FitsOf(s);
    var e := s.th.current;
    if e != NIL {
      RunsJoined(s, e);
      ClockTable(s, now);
      PutPrevTable(SetClock(s, now), e, relinquish);
    }
  }

  /** The running thread is joined and not on the kernel's run queue. */
  lemma RunsJoined(s: State, e: nat)
    requires Sane(s) && s.th.current == e && IsEnt(s, e) && Inv(s)
    ensures IsThread(s.t, e) && IsJoined(s, e) && !s.th.onRunq[e] && s.th.state[e] == Running && s.th.nrRunning != 0
    ensures if s.th.cls[e] == Pss then !s.th.rtJoined[e] && s.th.absolute[e] else !s.m.joined[e]
  {
    hide Linked, Roles;
    RolesMean(s.t, s.m, s.th, e, e);
    RolesThread(s, e);
  }

  lemma VacateTable(s: State, sleep: bool, now: int)
    requires Sane(s) && Inv(s) && s.th.current != NIL
    ensures Fits(TableOf(s))
    ensures var f := TableOf(s);
            Becomes(s, Vacate(s, sleep, now), Clocked(f.(state := f.state[f.current := Inhibited]), now))
  {
    hide PutPrev, Dequeue, Linked, Roles, WfTopo, SizedM, SizedC, SizedTm;
    FitsOf(s);
    var e := s.th.current;
    RunsJoined(s, e);
    var s0 := SetState(s, e, Inhibited);
    FrameLinked(s, s0);
    SetClockLinked(s0, now);
    var s1 := SetClock(s0, now);
    DequeueTable(s1, e, sleep);
    DequeueGone(s1, e, sleep);
    var s2 := Dequeue(s1, e, sleep);
    PutPrevTable(s2, e, false);
    AlikeThrough(s1, s2, PutPrev(s2, e, false));
    assert s.th.onRunq[e := false] == s.th.onRunq;
  }

  lemma DequeueGone(s: State, e: nat, sleep: bool)
    requires Sane(s) && IsEnt(s, e) && IsThread(s.t, e) && Linked(s) && IsJoined(s, e) && s.th.nrRunning != 0
    requires if s.th.cls[e] == Pss then !s.th.rtJoined[e] && s.th.absolute[e] else !s.m.joined[e]
    ensures var r := Dequeue(s, e, sleep); !IsJoined(r, e) && !r.th.onRunq[e] && r.th.cls == s.th.cls
  {
    hide Dequeue, Core, Chain, Later, WfTopo;
    DequeueLinked(s, e, sleep);
  }

  // ---------- off the queues and back ----------

  lemma WithdrawTable(s: State, e: nat)
    requires Sane(s) && IsLive(s, e) && s.th.state[e] != Inhibited && Inv(s)
    ensures Fits(TableOf(s))
    ensures Becomes(s, Withdraw(s, e), Off(TableOf(s), e))
  {
    hide PutPrev, Dequeue, Linked, Roles, WfTopo, SizedM, SizedC, SizedTm;
    FitsOf(s);
    QueuedJoined(s, e);
    DequeueTable(s, e, false);
    if s.th.state[e] == Running {
      DequeueGone(s, e, false);
      var s1 := Dequeue(s, e, false);
      PutPrevTable(s1, e, false);
      AlikeThrough(s, s1, PutPrev(s1, e, false));
    }
  }

  lemma QueuedJoined(s: State, e: nat)
    requires Sane(s) && IsLive(s, e) && s.th.state[e] != Inhibited && Inv(s)
    ensures IsJoined(s, e) && s.th.nrRunning != 0
    ensures if s.th.cls[e] == Pss then !s.th.rtJoined[e] && s.th.absolute[e] else !s.m.joined[e]
  {
    hide Linked, Roles;
    RolesMean(s.t, s.m, s.th, s.th.current, e);
  }

  lemma RestoreTable(s: State, e: nat, was: TdState, now: int)
    requires Sane(s) && IsEnt(s, e) && IsThread(s.t, e) && !s.m.joined[e] && !s.th.onRunq[e] && was != Inhibited
    ensures Fits(TableOf(s))
    ensures Becomes(s, Restore(s, e, was, now), if was == Running then Busy(TableOf(s), e) else Waiting(TableOf(s), e))
  {
    hide Activate, Enqueue, WfTopo, SizedM, SizedC, SizedTm;
    FitsOf(s);
    EnqueueTable(s, e, false);
    if was == Running {
      var s1 := Enqueue(s, e, false);
      ActivateTable(s1, e, now);
      AlikeThrough(s, s1, Activate(s1, e, now));
      assert s.th.state[e := OnRunq][e := Running] == s.th.state[e := Running];
    }
  }

  /** A thread that was taken off the table's queues and put back is where it was. */
  lemma BackAgain(f: Table, g: Table, h: Table, e: nat)
    requires Fits(f) && Fits(g) && e < |f.t.parent| && f.state[e] != Inhibited && (f.state[e] == Running ==> !f.onRunq[e])
    requires g == h.(onRunq := f.onRunq[e := false]) && h.state == f.state && h.onRunq == f.onRunq && |f.t.parent| == |g.t.parent| == |h.t.parent|
    ensures Fits(h) && (if f.state[e] == Running then Busy(g, e) else Waiting(g, e)) == Requeued(h, e)
  {
    assert f.state[e] == Running ==> f.state[e := Running] == f.state && f.onRunq[e := false] == f.onRunq;
    assert f.onRunq[e := false][e := true] == f.onRunq[e := true];
    assert f.onRunq[e := false][e := false] == f.onRunq[e := false];
  }

  // ---------- steps ----------

  /** What Told says, weights included. */
  ghost predicate Tells(s: State, ev: Event, r: State)
    requires Sane(s) && Sane(r)
  {
    var f := TableOf(s);
    && Fits(f) && Named(f, ev) && |s.a.weight| == |s.t.parent| == |r.a.weight| == |s.t.myq| && r.th.current < |s.t.parent|
    && TableOf(r) == Told(f, ev, r.th.current)
    && (forall x {:trigger r.a.weight[x]} :: 0 <= x < |s.t.parent| && s.t.myq[x] == NIL ==>
          r.a.weight[x] == ToldWeight(f, s.a.weight, ev, x))
  }

  lemma TellsSame(s: State, ev: Event, r: State)
    requires Sane(s) && Sane(r) && Fits(TableOf(s)) && Named(TableOf(s), ev) && r.th.current < |s.t.parent|
    requires Becomes(s, r, Told(TableOf(s), ev, r.th.current)) && !ev.Forks? && !ev.Renices?
    ensures Tells(s, ev, r)
  {
    hide Told, WfTopo;
    Widths(s);
    Widths(r);
  }

  lemma Widths(s: State)
    requires Sane(s)
    ensures |s.a.weight| == |s.t.parent| == |s.t.myq| && NIL <= s.th.current < |s.t.parent|
  {
  }

  lemma StartTells(s: State, e: nat, now: int, resched: bool)
    requires Sane(s) && IsLive(s, e) && s.th.state[e] == Inhibited && Inv(s)
    ensures Tells(s, Starts(e, now, resched), Add(s, e, now, resched))
  {
    hide Linked, Roles, Enqueue, CheckClassPreempt, Waiting, WfTopo, SizedM, SizedC, SizedTm;
    FitsOf(s);
    RestsIdle(s, e);
    var s1 := SetClock(s.(th := s.th.(initial := s.th.initial[e := false])), now);
    EnqueueTable(s1, e, !s.th.initial[e]);
    var s2 := Enqueue(s1, e, !s.th.initial[e]);
    CheckAlike(s2, e, resched);
    AlikeThrough(s1, s2, CheckClassPreempt(s2, e, resched));
    TellsSame(s, Starts(e, now, resched), Add(s, e, now, resched));
  }

  lemma RestsIdle(s: State, e: nat)
    requires Sane(s) && IsLive(s, e) && s.th.state[e] == Inhibited && Inv(s)
    ensures !s.m.joined[e] && !s.th.onRunq[e]
  {
    hide Linked, Roles;
    RolesMean(s.t, s.m, s.th, s.th.current, e);
  }

  lemma YieldTells(s: State, relinquish: bool, now: int, pick: nat)
    requires Sane(s) && Inv(s)
    ensures Tells(s, Yields(relinquish, now, pick), ChooseThread(Yield(s, relinquish, now), pick, now))
  {
    hide Linked, Roles, Yield, ChooseThread, Waiting, Switched, WfTopo, Inv;
    FitsOf(s);
    var s1 := Yield(s, relinquish, now);
    YieldTable(s, relinquish, now);
    YieldKeeps(s, relinquish, now);
    ChooseTable(s1, pick, now);
    AlikeThrough(s, s1, ChooseThread(s1, pick, now));
    Widths(ChooseThread(s1, pick, now));
    TellsSame(s, Yields(relinquish, now, pick), ChooseThread(s1, pick, now));
  }

  lemma SleepTells(s: State, now: int, pick: nat)
    requires Sane(s) && Inv(s) && s.th.current != NIL
    ensures Tells(s, Sleeps(now, pick), ChooseThread(Vacate(s, true, now), pick, now))
  {
    hide Linked, Roles, Vacate, ChooseThread, Switched, WfTopo, Inv;
    FitsOf(s);
    var s1 := Vacate(s, true, now);
    VacateTable(s, true, now);
    SleepsNormal(s, now);
    ChooseTable(s1, pick, now);
    AlikeThrough(s, s1, ChooseThread(s1, pick, now));
    Widths(ChooseThread(s1, pick, now));
    TellsSame(s, Sleeps(now, pick), ChooseThread(s1, pick, now));
  }

  lemma ExitTells(s: State, now: int, pick: nat)
    requires Sane(s) && Inv(s) && s.th.current != NIL
    ensures Tells(s, Exits(now, pick), ChooseThread(Leaves(s, now), pick, now))
  {
    hide Linked, Roles, Vacate, ChooseThread, Switched, WfTopo, Inv;
    FitsOf(s);
    var s1 := Leaves(s, now);
    VacateTable(s, false, now);
    AlikeThrough(s, Vacate(s, false, now), s1);
    LeavesKeeps(s, now);
    ChooseTable(s1, pick, now);
    AlikeThrough(s, s1, ChooseThread(s1, pick, now));
    Widths(ChooseThread(s1, pick, now));
    TellsSame(s, Exits(now, pick), ChooseThread(s1, pick, now));
  }

  lemma TickTells(s: State, now: int, slices: seq<nat>)
    requires Sane(s) && |slices| == |s.t.parent|
    ensures Tells(s, Ticks(now, slices), Tick(s, now, slices))
  {
    hide TickWalk, WfTopo;
    FitsOf(s);
    var s1 := SetClock(s, now);
    ClockTable(s, now);
    if s.th.current != NIL {
      TickWalkAlike(s1, s.th.current, slices);
      AlikeThrough(s, s1, TickWalk(s1, s.th.current, slices));
    }
    TellsSame(s, Ticks(now, slices), Tick(s, now, slices));
  }

  lemma {:induction false} TickWalkAlike(s: State, e: int, slices: seq<nat>)
    requires Sane(s) && (e == NIL || IsEnt(s, e)) && |slices| == |s.t.parent|
    ensures Alike(s, TickWalk(s, e, slices))
    decreases Rank(s.t, e)
  {
    hide UpdateCurr, ClearCandidates, WfTopo;
    if e != NIL {
      ParentGroup(s, e);
      var q := s.t.sfq[e];
      UpdateCurrAlike(s, q);
      var s1 := UpdateCurr(s, q);
      var s2 := if s1.a.nr[q] > 1 && s1.tm.sum[e] - s1.tm.prevSum[e] > slices[e] then ClearCandidates(s1, e) else s1;
      TickWalkAlike(s2, s.t.parent[e], slices);
    }
  }

  lemma ShareTells(s: State, g: nat, shares: nat)
    requires Sane(s) && IsEnt(s, g) && !IsThread(s.t, g)
    ensures Tells(s, Reshares(g, shares), SetShares(s, g, shares))
  {
    hide SharesWalk, WfTopo, SizedM, SizedC, SizedTm;
    FitsOf(s);
    GroupQueues(s, g);
    var q := s.t.myq[g];
    var n := if shares < MIN_SHARES then MIN_SHARES else if shares > MAX_SHARES then MAX_SHARES else shares;
    var s1 := s.(a := s.a.(shares := s.a.shares[q := n]));
    SharesWalkAlike(s1, g);
    assert s.a.shares[q] == n ==> s.a.shares[q := n] == s.a.shares;
    TellsSame(s, Reshares(g, shares), SetShares(s, g, shares));
  }

  lemma PriorityTells(s: State, e: nat, prio: int)
    requires Sane(s) && IsLive(s, e) && Inv(s)
    ensures Tells(s, Reprioritizes(e, prio), SetPriority(s, e, prio))
  {
    hide Linked, Roles, WfTopo, SizedM, SizedC, SizedTm;
    FitsOf(s);
    RolesMean(s.t, s.m, s.th, s.th.current, e);
    assert s.th.state[e := s.th.state[e]] == s.th.state;
    assert s.th.onRunq[e := s.th.onRunq[e]] == s.th.onRunq;
    TellsSame(s, Reprioritizes(e, prio), SetPriority(s, e, prio));
  }

  // ---------- nice, class and group ----------

  lemma NiceTells(s: State, e: nat, weight: nat, now: int, later: int)
    requires Sane(s) && IsLive(s, e) && weight > 0 && Inv(s)
    ensures Tells(s, Renices(e, weight, now, later), Nice(s, e, weight, now, later))
  {
    hide Linked, Roles, Withdraw, Restore, WfTopo, SizedM, SizedC, SizedTm, Waiting, Busy, Off, Inv;
    FitsOf(s);
    if s.th.cls[e] == Pss && s.th.state[e] != Inhibited {
      AwakeNiceTells(s, e, weight, now, later);
    } else {
      assert forall x :: 0 <= x < |s.a.weight| ==> SetWeight(s, e, weight).a.weight[x] == if x == e then weight else s.a.weight[x];
    }
  }

  lemma AwakeNiceTells(s: State, e: nat, weight: nat, now: int, later: int)
    requires Sane(s) && IsLive(s, e) && weight > 0 && s.th.cls[e] == Pss && s.th.state[e] != Inhibited && Inv(s)
    ensures Tells(s, Renices(e, weight, now, later), Nice(s, e, weight, now, later))
  {
    hide Withdraw, Restore, Waiting, Busy, Inv, Requeued, WfTopo, SizedM, SizedC, SizedTm;
    var was, r := s.th.state[e], Nice(s, e, weight, now, later);
    var s0 := SetClock(s, now);
    ClockInv(s, now);
    WithdrawTable(s0, e);
    NiceReadyOff(s, e, weight, now, later);
    var s1 := NiceReady(s, e, weight, now, later);
    RestoreTable(s1, e, was, later);
    ReniceWeights(s, Withdraw(s0, e), s1, r, e, weight);
    RunningOff(s, e);
    FitsOf(s);
    var f := TableOf(s);
    BackAgain(f, TableOf(s1), Clocked(Clocked(f, now), later), e);
    Widths(s);
  }

  lemma NiceReadyOff(s: State, e: nat, weight: nat, now: int, later: int)
    requires Sane(s) && IsLive(s, e) && weight > 0 && s.th.cls[e] == Pss && s.th.state[e] != Inhibited && Inv(s)
    ensures var r := NiceReady(s, e, weight, now, later); !r.m.joined[e] && !r.th.onRunq[e]
  {
    hide NiceReady, Linked, Roles, Inv;
    NiceReadyKeeps(s, e, weight, now, later);
  }

  lemma RunningOff(s: State, e: nat)
    requires Sane(s) && IsLive(s, e) && Inv(s)
    ensures s.th.state[e] == Running ==> !s.th.onRunq[e]
  {
    hide Linked, Roles;
    RolesMean(s.t, s.m, s.th, s.th.current, e);
  }

  lemma ClockInv(s: State, now: int)
    requires Sane(s) && Inv(s)
    ensures Inv(SetClock(s, now))
  {
    hide Linked, Roles;
    SetClockLinked(s, now);
  }

  lemma ReniceWeights(s: State, s1: State, s2: State, r: State, e: nat, w: nat)
    requires Sane(s) && Sane(s1) && Sane(s2) && Sane(r) && IsEnt(s, e)
    requires s1.t == s.t && s2.t == s.t && SameWeights(s, s1) && s2.a.weight == s1.a.weight[e := w] && SameWeights(s2, r)
    ensures forall x {:trigger r.a.weight[x]} :: 0 <= x < |s.t.parent| && s.t.myq[x] == NIL ==>
              r.a.weight[x] == if x == e then w else s.a.weight[x]
  {
  }

  lemma ClassTells(s: State, e: nat, pri: PriClass, now: int, resched: bool)
    requires Sane(s) && IsLive(s, e) && !s.th.initial[e] && Inv(s)
    ensures Tells(s, Reclasses(e, pri, now, resched), SetClass(s, e, pri, now, resched))
  {
    hide Restore, ClassReady, Inv, SetClass, Requeued, WfTopo, SizedM, SizedC, SizedTm;
    var ev, r := Reclasses(e, pri, now, resched), SetClass(s, e, pri, now, resched);
    FitsOf(s);
    if s.th.pri[e] == pri {
      ClassSame(s, e, pri, now, resched);
    } else {
      var s3 := Restore(ClassReady(s, e, pri), e, s.th.state[e], now);
      ClassTable(s, e, pri, now);
      ClassAlike(s, e, pri, now, resched);
      AlikeThrough(s, s3, r);
    }
    TellsSame(s, ev, r);
  }

  /** Apart from switched_from and switched_to, which do not show in the table. */
  lemma ClassAlike(s: State, e: nat, pri: PriClass, now: int, resched: bool)
    requires Sane(s) && IsEnt(s, e) && s.th.pri[e] != pri
    ensures Alike(Restore(ClassReady(s, e, pri), e, s.th.state[e], now), SetClass(s, e, pri, now, resched))
  {
    hide Withdraw, Restore, CheckClassPreempt;
    var s3 := Restore(ClassReady(s, e, pri), e, s.th.state[e], now);
    CheckAlike(s3, e, resched);
  }

  lemma ClassTable(s: State, e: nat, pri: PriClass, now: int)
    requires Sane(s) && IsLive(s, e) && !s.th.initial[e] && Inv(s)
    ensures Fits(TableOf(s))
    ensures var f := TableOf(s);
            Becomes(s, Restore(ClassReady(s, e, pri), e, s.th.state[e], now),
                    Requeued(f.(cls := f.cls[e := ClassOf(pri)], pri := f.pri[e := pri]), e))
  {
    hide Withdraw, Enqueue, Activate, Inv, Waiting, Busy, WfTopo, SizedM, SizedC, SizedTm;
    FitsOf(s);
    var f, was, s2 := TableOf(s), s.th.state[e], ClassReady(s, e, pri);
    if was != Inhibited {
      WithdrawTable(s, e);
      ClassReadyOff(s, e, pri);
      hide Restore, Requeued;
      RestoreTable(s2, e, was, now);
      AlikeThrough(s, s2, Restore(s2, e, was, now));
      RunningOff(s, e);
      BackAgain(f, TableOf(s2), f.(cls := f.cls[e := ClassOf(pri)], pri := f.pri[e := pri]), e);
    } else {
      RestingWithdraw(s, e);
    }
  }

  lemma RestingWithdraw(s: State, e: nat)
    requires Sane(s) && IsEnt(s, e) && s.th.state[e] == Inhibited
    ensures Withdraw(s, e) == s
  {
  }

  lemma ClassReadyOff(s: State, e: nat, pri: PriClass)
    requires Sane(s) && IsLive(s, e) && !s.th.initial[e] && s.th.state[e] != Inhibited && Inv(s)
    ensures var r := ClassReady(s, e, pri); !r.m.joined[e] && !r.th.onRunq[e]
  {
    hide ClassReady, Linked, Roles, Inv;
    ClassReadyKeeps(s, e, pri);
  }

  lemma MoveTells(s: State, e: nat, q: nat, now: int, later: int)
    requires Sane(s) && IsLive(s, e) && IsQueue(s, q) && Inv(s)
    ensures Tells(s, Moves(e, q, now, later), Move(s, e, q, now, later))
  {
    hide Restore, MoveReady, Inv, Requeued, Withdraw, WfTopo, SizedM, SizedC, SizedTm;
    var ev, r := Moves(e, q, now, later), Move(s, e, q, now, later);
    FitsOf(s);
    if s.th.state[e] == Inhibited {
      MovedIdle(s, e, q);
    } else {
      MoveUnfolds(s, e, q, now, later);
      MovedAwake(s, e, q, now, later);
    }
    TellsSame(s, ev, r);
  }

  lemma SetQueueTable(s: State, e: nat, q: nat)
    requires Sane(s) && IsEnt(s, e) && IsQueue(s, q) && IsThread(s.t, e)
    ensures Fits(TableOf(s))
    ensures var f := TableOf(s);
            Becomes(s, SetQueue(s, e, q), Rehomed(f, e, q, if f.t.owner[q] == NIL then 0 else f.t.level[f.t.owner[q]] + 1))
  {
    hide Sane, WfTopo;
    FitsOf(s);
    Widths(s);
  }

  lemma MovedIdle(s: State, e: nat, q: nat)
    requires Sane(s) && IsEnt(s, e) && IsQueue(s, q) && IsThread(s.t, e)
    ensures Fits(TableOf(s))
    ensures var f := TableOf(s);
            Becomes(s, MoveIdle(s, e, q), Rehomed(f, e, q, if f.t.owner[q] == NIL then 0 else f.t.level[f.t.owner[q]] + 1))
  {
    hide SetQueue, WfTopo, SizedM, SizedC, SizedTm;
    SetQueueTable(s, e, q);
    SetQueueTable(SubVtime(s, e), e, q);
  }

  lemma MovedAwake(s: State, e: nat, q: nat, now: int, later: int)
    requires Sane(s) && IsLive(s, e) && IsQueue(s, q) && s.th.state[e] != Inhibited && Inv(s)
    ensures Fits(TableOf(s)) && Named(TableOf(s), Moves(e, q, now, later))
    ensures var f := TableOf(s);
            Becomes(s, Restore(MoveReady(s, e, q, now, later), e, s.th.state[e], later), Told(f, Moves(e, q, now, later), s.th.current))
  {
    hide Withdraw, Inv, Waiting, Busy, SetQueue, Requeued, Restore, WfTopo, SizedM, SizedC, SizedTm;
    FitsOf(s);
    var f, was, s2 := TableOf(s), s.th.state[e], MoveReady(s, e, q, now, later);
    var s0 := SetClock(s, now);
    ClockInv(s, now);
    WithdrawTable(s0, e);
    var s1 := Withdraw(s0, e);
    SetQueueTable(s1, e, q);
    MoveReadyOff(s, e, q, now, later);
    RestoreTable(s2, e, was, later);
    RunningOff(s, e);
    MovedWeights(s, s1, s2, Restore(s2, e, was, later));
    var g := Rehomed(f, e, q, if f.t.owner[q] == NIL then 0 else f.t.level[f.t.owner[q]] + 1);
    BackAgain(f, TableOf(s2), Clocked(Clocked(g, now), later), e);
  }

  lemma MovedWeights(s: State, s1: State, s2: State, r: State)
    requires Sane(s) && Sane(s1) && Sane(s2) && Sane(r) && SameWeights(s, s1) && SameWeights(s1, s2) && SameWeights(s2, r)
    requires s1.t == s.t && s2.t.myq == s.t.myq
    ensures SameWeights(s, r)
  {
  }

  lemma MoveReadyOff(s: State, e: nat, q: nat, now: int, later: int)
    requires Sane(s) && IsLive(s, e) && IsQueue(s, q) && s.th.state[e] != Inhibited && Inv(s)
    ensures var r := MoveReady(s, e, q, now, later); IsLive(r, e) && !r.m.joined[e] && !r.th.onRunq[e]
  {
    hide MoveReady, Linked, Roles, Inv;
    MoveReadyKeeps(s, e, q, now, later);
  }

  // ---------- forks ----------

  lemma ForkTells(s: State, child: nat, prio: int, debit: nat, now: int)
    requires Sane(s) && s.th.current != NIL && IsEnt(s, child) && IsThread(s.t, child) && !s.th.live[child] && Inv(s)
    ensures Tells(s, Forks(child, prio, debit, now), Fork(s, child, prio, debit, now))
  {
    hide ForkPss, Inv, Born, WfTopo, SizedM, SizedC, SizedTm;
    FitsOf(s);
    Widths(s);
    var e, r, s1 := s.th.current, Fork(s, child, prio, debit, now), Begotten(s, child, prio);
    BegottenTable(s, child, prio);
    if s.th.cls[e] == Pss {
      var s2 := SetClock(s1, now);
      ForkPssAlike(s2, e, child, debit);
      AlikeThrough(s1, s2, r);
    }
  }

  /** The new thread, before its class has seen it. */
  function Begotten(s: State, child: nat, prio: int): (r: State)
    requires Sane(s) && s.th.current != NIL && IsEnt(s, child) && IsThread(s.t, child)
    ensures Sane(r)
  {
    var e := s.th.current;
    SetQueue(SetWeight(s, child, s.a.weight[e]), child, s.t.sfq[e])
      .(th := s.th.(cls := s.th.cls[child := s.th.cls[e]], pri := s.th.pri[child := s.th.pri[e]],
                    initial := s.th.initial[child := true], live := s.th.live[child := true],
                    prio := s.th.prio[child := prio]))
  }

  lemma BegottenTable(s: State, child: nat, prio: int)
    requires Sane(s) && s.th.current != NIL && IsEnt(s, child) && IsThread(s.t, child)
    ensures Fits(TableOf(s))
    ensures var r := Begotten(s, child, prio);
            && TableOf(r) == Born(TableOf(s), child, prio) && r.t.myq == s.t.myq
            && r.a.weight == s.a.weight[child := s.a.weight[s.th.current]]
  {
    FitsOf(s);
    hide SetQueue, Sane, WfTopo;
    var e := s.th.current;
    Widths(s);
    LevelOf(s, e);
    SetQueueTable(SetWeight(s, child, s.a.weight[e]), child, s.t.sfq[e]);
  }

  lemma LevelOf(s: State, e: nat)
    requires Sane(s) && IsEnt(s, e)
    ensures var p := s.t.owner[s.t.sfq[e]];
            s.t.parent[e] == p && NIL <= p < |s.t.level| && s.t.level[e] == if p == NIL then 0 else s.t.level[p] + 1
  {
    assert s.t.parent[e] == s.t.owner[s.t.sfq[e]];
  }

  lemma ForkPssAlike(s: State, e: nat, child: nat, debit: nat)
    requires Sane(s) && IsEnt(s, e) && IsEnt(s, child)
    ensures Alike(s, ForkPss(s, e, child, debit))
  {
    hide UpdateCurr, WfTopo, SizedM, SizedC;
    SfqInRange(s, e);
    UpdateCurrAlike(s, s.t.sfq[e]);
  }

  // ---------- every step ----------

  /** Every step does to the table, and to the weights of the threads, exactly what is said above; only
      whom the processor goes to is left open. */
  lemma StepTells(s: State, ev: Event)
    requires Sane(s) && Allowed(s, ev) && Inv(s)
    ensures Tells(s, ev, Do(s, ev))
  {
    hide Inv, Tells, Fork, Add, Yield, Vacate, Leaves, ChooseThread, Nice, SetClass, Move, Tick, SetShares, SetPriority, WfTopo;
    match ev
    case Forks(child, prio, debit, now) => ForkTells(s, child, prio, debit, now);
    case Starts(e, now, resched) => StartTells(s, e, now, resched);
    case Yields(relinquish, now, pick) => YieldTells(s, relinquish, now, pick);
    case Sleeps(now, pick) => SleepTells(s, now, pick);
    case Exits(now, pick) => ExitTells(s, now, pick);
    case Renices(e, weight, now, later) => NiceTells(s, e, weight, now, later);
    case Reclasses(e, pri, now, resched) => ClassTells(s, e, pri, now, resched);
    case Moves(e, q, now, later) => MoveTells(s, e, q, now, later);
    case Ticks(now, slices) => TickTells(s, now, slices);
    case Reshares(g, shares) => ShareTells(s, g, shares);
    case Reprioritizes(e, prio) => PriorityTells(s, e, prio);
  }
}
