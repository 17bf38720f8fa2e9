/** The operations of the pss class keep the hierarchy, the accounts and the times
    (pss.c:1011-1216, 1307-1354). */
module SchedClass {
  import opened SchedState
  import opened SchedOps
  import opened SchedSteps
  import opened SchedBooks
  import opened SchedMembers
  import opened SchedWalks
  import opened SchedTimes
  import FixedPoint

  /** What holds between any two operations, whichever entities are current. */
  ghost predicate Core(s: State)
    requires Sane(s)
  {
    Structure(s, NIL) && GroupsAbsolute(s.t, s.th.absolute) && Timed(s.t, s.m, s.tm) && s.ok
  }

  /** Of the threads only e and a joined and current one have moved. */
  ghost predicate ThreadsUnmoved(t: Topo, m: Members, tm: Times, tm': Times, e: int)
    requires Shape(t, m, tm) && Shape(t, m, tm')
  {
    forall x :: 0 <= x < |tm.vruntime| && t.myq[x] == NIL && x != e && (m.curr[t.sfq[x]] != x || !m.joined[x]) ==>
      tm'.vruntime[x] == tm.vruntime[x]
  }

  /** The clock stands still, vtimes advance, the lag bound survives and bystanders are left alone. */
  ghost predicate Fair(s: State, r: State, e: int)
    requires Sane(s) && Sane(r) && r.t == s.t
  {
    Later(s.tm, r.tm) && ThreadsUnmoved(s.t, s.m, s.tm, r.tm, e)
  }

  /** Whether an arrival in e's queue keeps the lag bound: charging the current entity must not move
      vtime by more than e has in hand. */
  predicate Welcome(s: State, e: nat, wakeup: bool)
    requires Sane(s) && IsEnt(s, e)
  {
    wakeup || s.tm.vruntime[e] + s.p.thresh >= VtimeGain(s, s.t.sfq[e])
  }

  /** The lag of an entity with an absolute vruntime. */
  function LagAt(s: State, e: nat): int
    requires Sane(s) && IsEnt(s, e)
  {
    s.tm.vruntime[e] - s.tm.vtime[s.t.sfq[e]]
  }

  /** Further behind than the threshold. */
  predicate Late(s: State, e: nat)
    requires Sane(s) && IsEnt(s, e)
  {
    LagAt(s, e) + s.p.thresh < 0
  }

  /** The lag once the current entity of its queue has been charged up to now. */
  function LagNow(s: State, e: nat): int
    requires Sane(s) && IsEnt(s, e)
  {
    LagAt(UpdateCurr(s, s.t.sfq[e]), e)
  }

  ghost predicate Bounded(s: State)
    requires Sane(s)
  {
    Lag(s.p, s.t, s.m, s.tm)
  }

  lemma {:induction false} SharesWalkTimed(s: State, e: int)
    requires Sane(s) && (e == NIL || IsEnt(s, e)) && Placed(s) && Housed(s.t, s.m) && Timed(s.t, s.m, s.tm)
    ensures var r := SharesWalk(s, e);
            Timed(r.t, r.m, r.tm) && Fair(s, r, NIL) && (Bounded(s) ==> Bounded(r))
    decreases Rank(s.t, e)
  {
    hide UpdateShares, Placed, Housed, Timed, Bounded, WfTopo;
    if e != NIL {
      ParentGroup(s, e);
      UpdateSharesTimed(s, s.t.sfq[e]);
      var s1 := UpdateShares(s, s.t.sfq[e]);
      BoundedIsLag(s);
      BoundedIsLag(s1);
      PlacedOnly(s, s1);
      SharesWalkTimed(s1, s.t.parent[e]);
    }
  }

  lemma BoundedIsLag(s: State)
    requires Sane(s)
    ensures Bounded(s) <==> Lag(s.p, s.t, s.m, s.tm)
  {
  }

  lemma PlacedOnly(s: State, r: State)
    requires Sane(s) && Sane(r) && r.t == s.t && r.m == s.m
    ensures Placed(s) <==> Placed(r)
  {
  }

  lemma {:induction false} EnqueueWalkTimed(s: State, e: int, wakeup: bool)
    requires Sane(s) && (e == NIL || IsEnt(s, e)) && s.ok
    requires Structure(s, e) && CurrJoined(s.m) && GroupsAbsolute(s.t, s.th.absolute) && Timed(s.t, s.m, s.tm)
    requires e != NIL && !IsThread(s.t, e) ==> s.a.nr[s.t.myq[e]] > 0
    requires e != NIL && !s.m.joined[e] ==> MayArrive(s, e, wakeup)
    ensures var r := EnqueueWalk(s, e, wakeup).0;
            && Timed(r.t, r.m, r.tm) && Fair(s, r, e)
            && (Bounded(s) && (e != NIL && !s.m.joined[e] ==> Welcome(s, e, wakeup)) ==> Bounded(r))
            && (e != NIL && !s.m.joined[e] && IsThread(s.t, e) ==>
                  && (!wakeup ==> r.tm.vruntime[e] == s.tm.vruntime[e] + s.tm.vtime[s.t.sfq[e]])
                  && (!Welcome(s, e, wakeup) ==> Late(r, e)))
    decreases Rank(s.t, e)
  {
    hide EnqueueEntity, Kept, Groups, Candidates, Timelines, Currs, Timed, Lag, WfTopo, VtimeGain;
    if e != NIL && !s.m.joined[e] {
      ParentGroup(s, e);
      EnqueueStep(s, e, wakeup);
      EnqueueEntityTimed(s, e, wakeup);
      EnqueueWalkTimed(EnqueueEntity(s, e, wakeup), s.t.parent[e], true);
    }
  }

  lemma {:induction false} DequeueWalkTimed(s: State, e: int, sleep: bool, isSleep: bool)
    requires Sane(s) && (e == NIL || IsEnt(s, e)) && s.ok
    requires Structure(s, e) && GroupsAbsolute(s.t, s.th.absolute) && Timed(s.t, s.m, s.tm)
    requires e != NIL ==> s.m.joined[e] && (!IsThread(s.t, e) ==> s.a.nr[s.t.myq[e]] == 0)
    requires e != NIL && !sleep ==> s.th.absolute[e] && IsThread(s.t, e)
    ensures var r := DequeueWalk(s, e, sleep, isSleep).0;
            && Timed(r.t, r.m, r.tm) && Fair(s, r, e)
            && (Bounded(s) ==> Bounded(r))
            && (Bounded(s) && e != NIL && !sleep ==> r.tm.vruntime[e] + s.p.thresh >= 0)
            && (e != NIL && !sleep ==> r.tm.vruntime[e] == LagNow(s, e))
    decreases Rank(s.t, e)
  {
    hide DequeueEntity, UpdateCurr, Kept, Groups, Candidates, Timelines, Currs, Timed, Lag, WfTopo, SetNextUp, SetNext;
    if e != NIL {
      ParentGroup(s, e);
      DequeueStep(s, e, sleep);
      DequeueEntityTimed(s, e, sleep);
      var s1, p := DequeueEntity(s, e, sleep), s.t.parent[e];
      if s1.a.load[s.t.sfq[e]] == 0 {
        DequeueWalkTimed(s1, p, true, isSleep);
      }
    }
  }

  lemma {:induction false} PutPrevWalkTimed(s: State, e: int, relinquish: bool)
    requires Sane(s) && (e == NIL || IsEnt(s, e)) && s.ok
    requires Structure(s, NIL) && Chain(s.t, s.m, e) && Timed(s.t, s.m, s.tm)
    requires e != NIL ==> s.m.curr[s.t.sfq[e]] == e && (!IsThread(s.t, e) ==> s.m.curr[s.t.myq[e]] == NIL)
    requires e != NIL && IsThread(s.t, e) ==> !s.th.onRunq[e]
    ensures var r := PutPrevWalk(s, e, relinquish);
            Timed(r.t, r.m, r.tm) && Later(s.tm, r.tm) && (Bounded(s) ==> Bounded(r))
            && (forall x :: 0 <= x < |s.tm.vruntime| && (s.m.curr[s.t.sfq[x]] != x || !s.m.joined[x]) ==>
                  r.tm.vruntime[x] == s.tm.vruntime[x])
    decreases Rank(s.t, e)
  {
    hide PutPrevEntity, Kept, Groups, Candidates, Timelines, Timed, Lag, WfTopo;
    if e != NIL {
      ParentGroup(s, e);
      PutPrevStep(s, e, relinquish);
      PutPrevEntityTimed(s, e, relinquish);
      PutPrevWalkTimed(PutPrevEntity(s, e, relinquish), s.t.parent[e], relinquish);
    }
  }

  lemma {:induction false} ActivateWalkTimed(s: State, e: int)
    requires Sane(s) && (e == NIL || IsEnt(s, e)) && s.ok
    requires Structure(s, NIL) && Chain(s.t, s.m, e) && ClearAbove(s.t, s.m, Rank(s.t, e)) && Timed(s.t, s.m, s.tm)
    requires e != NIL ==> s.m.joined[e] && (!IsThread(s.t, e) ==> s.m.curr[s.t.myq[e]] != NIL)
    ensures var r := ActivateWalk(s, e);
            Timed(r.t, r.m, r.tm) && Later(s.tm, r.tm) && r.tm.vruntime == s.tm.vruntime && (Bounded(s) ==> Bounded(r))
    decreases Rank(s.t, e)
  {
    hide ActivateEntity, Kept, Groups, Candidates, Timelines, Timed, Lag, WfTopo;
    if e != NIL {
      ParentGroup(s, e);
      ActivateStep(s, e);
      ActivateEntityTimed(s, e);
      ActivateWalkTimed(ActivateEntity(s, e), s.t.parent[e]);
    }
  }

  // ---------- the fields of threads ----------

  /** What enqueue_entity leaves in the fields of threads. */
  ghost function Queued(s: State, e: nat, wakeup: bool): (th: Threads)
    requires Sane(s) && IsEnt(s, e)
    ensures th.nrRunning == s.th.nrRunning
  {
    MakeRunnable(s, e).th.(absolute := s.th.absolute[e := s.th.absolute[e] || !wakeup])
  }

  lemma {:induction false} EnqueueWalkThreads(s: State, e: int, wakeup: bool)
    requires Sane(s) && (e == NIL || IsEnt(s, e)) && GroupsAbsolute(s.t, s.th.absolute)
    requires e != NIL && !IsThread(s.t, e) ==> wakeup
    ensures EnqueueWalk(s, e, wakeup).0.th ==
              if e == NIL || s.m.joined[e] || !IsThread(s.t, e) then s.th else Queued(s, e, wakeup)
    decreases Rank(s.t, e)
  {
    hide EnqueueEntity;
    if e != NIL && !s.m.joined[e] {
      ParentGroup(s, e);
      EnqueueEntityThreads(s, e, wakeup);
      EnqueueWalkThreads(EnqueueEntity(s, e, wakeup), s.t.parent[e], true);
      assert !IsThread(s.t, e) ==> s.th.absolute[e := true] == s.th.absolute;
    }
  }

  /** What dequeue_entity leaves in the fields of threads. */
  ghost function Dequeued(s: State, e: nat, sleep: bool): (th: Threads)
    requires Sane(s) && IsEnt(s, e)
    ensures th.nrRunning == s.th.nrRunning
  {
    RunqDequeue(s, e).th.(absolute := s.th.absolute[e := s.th.absolute[e] && sleep])
  }

  lemma {:induction false} DequeueWalkThreads(s: State, e: int, sleep: bool, isSleep: bool)
    requires Sane(s) && (e == NIL || IsEnt(s, e)) && s.ok
    requires Structure(s, e) && GroupsAbsolute(s.t, s.th.absolute)
    requires e != NIL ==> s.m.joined[e] && (!IsThread(s.t, e) ==> s.a.nr[s.t.myq[e]] == 0)
    requires e != NIL && !sleep ==> s.th.absolute[e] && IsThread(s.t, e)
    ensures DequeueWalk(s, e, sleep, isSleep).0.th ==
              if e == NIL || !IsThread(s.t, e) then s.th else Dequeued(s, e, sleep)
    decreases Rank(s.t, e)
  {
    hide DequeueEntity, Kept, Groups, Candidates, Timelines, Currs, WfTopo, SetNextUp;
    if e != NIL {
      ParentGroup(s, e);
      DequeueStep(s, e, sleep);
      DequeueEntityRest(s, e, sleep);
      var s1, p := DequeueEntity(s, e, sleep), s.t.parent[e];
      if s1.a.load[s.t.sfq[e]] == 0 {
        DequeueWalkThreads(s1, p, true, isSleep);
      }
      assert !IsThread(s.t, e) && s.th.absolute[e] ==> s.th.absolute[e := true] == s.th.absolute;
    }
  }

  lemma {:induction false} PutPrevWalkThreads(s: State, e: int, relinquish: bool)
    requires Sane(s) && (e == NIL || IsEnt(s, e))
    ensures PutPrevWalk(s, e, relinquish).th ==
              if e == NIL || !s.m.joined[e] || !IsThread(s.t, e) then s.th else MakeRunnable(s, e).th
    decreases Rank(s.t, e)
  {
    hide UpdateCurr, TreeEnqueue, SetSkip;
    if e != NIL {
      ParentGroup(s, e);
      PutPrevWalkThreads(PutPrevEntity(s, e, relinquish), s.t.parent[e], relinquish);
    }
  }

  lemma {:induction false} ActivateWalkThreads(s: State, e: int)
    requires Sane(s) && (e == NIL || IsEnt(s, e))
    ensures ActivateWalk(s, e).th == if e == NIL || !IsThread(s.t, e) then s.th else RunqDequeue(s, e).th
    decreases Rank(s.t, e)
  {
    hide TreeDequeue;
    if e != NIL {
      ParentGroup(s, e);
      ActivateWalkThreads(ActivateEntity(s, e), s.t.parent[e]);
    }
  }

  // ---------- the class operations ----------

  /** Threads other than e are joined as before. */
  ghost predicate JoinedBut(t: Topo, j: seq<bool>, j': seq<bool>, e: int)
    requires |t.myq| == |j| == |j'|
  {
    forall x :: 0 <= x < |j| && t.myq[x] == NIL && x != e ==> j'[x] == j[x]
  }

  lemma GroupsSame(s: State, r: State)
    requires Sane(s) && Sane(r) && r.t == s.t && r.m == s.m && r.a == s.a && r.c == s.c && r.tm == s.tm
    ensures forall x :: Structure(s, x) <==> Structure(r, x)
    ensures Timed(s.t, s.m, s.tm) <==> Timed(r.t, r.m, r.tm)
    ensures r.p == s.p ==> (Bounded(s) <==> Bounded(r))
  {
  }

  /** A thread that is not joined joins, with every group above it that was empty. */
  lemma PssEnqueueKeeps(s: State, e: nat, wakeup: bool)
    requires Sane(s) && IsEnt(s, e) && Core(s) && CurrJoined(s.m)
    requires IsThread(s.t, e) && !s.m.joined[e] && !s.th.rtJoined[e] && !s.th.onRunq[e] && s.th.absolute[e] == wakeup
    ensures var r := PssEnqueue(s, e, wakeup);
            && Core(r) && r.m.curr == s.m.curr && CurrJoined(r.m) && r.a.shares == s.a.shares
            && r.m.joined[e] && JoinedBut(s.t, s.m.joined, r.m.joined, e)
            && r.th == Queued(s, e, wakeup).(nrRunning := s.th.nrRunning + 1)
            && Fair(s, r, e) && (Bounded(s) && Welcome(s, e, wakeup) ==> Bounded(r))
            && (!wakeup ==> r.tm.vruntime[e] == s.tm.vruntime[e] + s.tm.vtime[s.t.sfq[e]])
            && (!Welcome(s, e, wakeup) ==> Late(r, e))
  {
    hide EnqueueWalk, SharesWalk, Structure, Timed, Bounded, Welcome, Queued, MakeRunnable, Later, ThreadsUnmoved, WfTopo;
    hide LagAt;
    assert NotRealtime(s, e) == s;
    ParentGroup(s, e);
    CurrNot(s, e);
    WideStructure(s, e);
    EnqueueWalkKeeps(s, e, wakeup);
    EnqueueWalkTimed(s, e, wakeup);
    EnqueueWalkThreads(s, e, wakeup);
    var (s1, e1) := EnqueueWalk(s, e, wakeup);
    SharesKeep(s1, e1);
    var s2 := SharesWalk(s1, e1);
    FairThrough(s, s1, s2, e);
    GroupsSame(s2, RunAdd(s2));
    LagSameAt(s2, RunAdd(s2), e);
    StillJoined(s, RunAdd(s2));
  }

  lemma LagSameAt(s: State, r: State, e: nat)
    requires Sane(s) && Sane(r) && IsEnt(s, e) && r.t == s.t && r.tm == s.tm
    ensures LagAt(r, e) == LagAt(s, e)
  {
  }

  lemma CurrNot(s: State, e: nat)
    requires Sane(s) && IsEnt(s, e) && CurrJoined(s.m) && !s.m.joined[e]
    ensures s.m.curr[s.t.sfq[e]] != e
  {
  }

  lemma FairThrough(s: State, s': State, r: State, e: nat)
    requires Sane(s) && Sane(s') && Sane(r) && s'.t == s.t && r.t == s.t && IsEnt(s, e) && IsThread(s.t, e)
    requires Fair(s, s', e) && Fair(s', r, NIL)
    requires s'.m.curr == s.m.curr && JoinedBut(s.t, s.m.joined, s'.m.joined, e)
    ensures Fair(s, r, e)
    ensures !s'.m.joined[e] || s'.m.curr[s.t.sfq[e]] != e ==>
              r.tm.vruntime[e] == s'.tm.vruntime[e] && LagAt(r, e) <= LagAt(s', e)
  {
  }

  lemma StillJoined(s: State, r: State)
    requires Sane(s) && Sane(r) && r.t == s.t && r.m.curr == s.m.curr && CurrJoined(s.m)
    requires forall x :: 0 <= x < |s.m.joined| && s.m.joined[x] ==> r.m.joined[x]
    ensures CurrJoined(r.m)
  {
  }

  lemma WideStructure(s: State, e: nat)
    requires Sane(s) && IsEnt(s, e) && IsThread(s.t, e)
    ensures Structure(s, NIL) <==> Structure(s, e)
    ensures Chain(s.t, s.m, NIL) <==> Chain(s.t, s.m, e)
  {
  }

  lemma SharesKeep(s: State, e: int)
    requires Sane(s) && (e == NIL || IsEnt(s, e)) && Structure(s, NIL) && Timed(s.t, s.m, s.tm)
    ensures var r := SharesWalk(s, e);
            && Structure(r, NIL) && Timed(r.t, r.m, r.tm) && r.a.shares == s.a.shares
            && Fair(s, r, NIL) && (Bounded(s) ==> Bounded(r))
  {
    hide Timed, Timelines, Currs, Candidates, Bounded, Fair;
    SharesWalkStructure(s, e);
    SharesWalkKeeps(s, e);
    SharesWalkTimed(s, e);
  }

  /** A joined thread leaves, with every group above it that becomes empty. */
  lemma PssDequeueKeeps(s: State, e: nat, sleep: bool)
    requires Sane(s) && IsEnt(s, e) && Core(s)
    requires IsThread(s.t, e) && s.m.joined[e] && !s.th.rtJoined[e] && s.th.nrRunning != 0
    requires !sleep ==> s.th.absolute[e]
    ensures var r := PssDequeue(s, e, sleep);
            && Core(r) && r.m.curr == s.m.curr && r.a.shares == s.a.shares
            && !r.m.joined[e] && JoinedBut(s.t, s.m.joined, r.m.joined, e)
            && r.th == Dequeued(s, e, sleep).(nrRunning := s.th.nrRunning - 1)
            && Fair(s, r, e) && (Bounded(s) ==> Bounded(r))
            && (Bounded(s) && !sleep ==> r.tm.vruntime[e] + s.p.thresh >= 0)
            && (!sleep ==> r.tm.vruntime[e] == LagNow(s, e))
  {
    hide DequeueWalk, SharesWalk, Structure, Timed, Bounded, Dequeued, RunqDequeue, Later, ThreadsUnmoved, WfTopo;
    hide LagNow, LagAt;
    assert NotRealtime(s, e) == s;
    ParentGroup(s, e);
    WideStructure(s, e);
    DequeueWalkKeeps(s, e, sleep, sleep);
    DequeueWalkTimed(s, e, sleep, sleep);
    DequeueWalkThreads(s, e, sleep, sleep);
    var (s1, e1) := DequeueWalk(s, e, sleep, sleep);
    SharesKeep(s1, e1);
    var s2 := SharesWalk(s1, e1);
    FairThrough(s, s1, s2, e);
    GroupsSame(s2, RunRemove(s2));
  }

  /** The running thread and the groups above it go back to their timelines, if they are joined. */
  lemma PssPutPrevKeeps(s: State, e: nat, relinquish: bool)
    requires Sane(s) && IsEnt(s, e) && Core(s) && Chain(s.t, s.m, NIL)
    requires IsThread(s.t, e) && s.m.curr[s.t.sfq[e]] == e && !s.th.rtJoined[e] && !s.th.onRunq[e]
    ensures var r := PssPutPrev(s, e, relinquish);
            && Core(r) && NoCurr(r.m) && r.m.joined == s.m.joined && r.a == s.a
            && r.th == (if s.m.joined[e] then MakeRunnable(s, e).th else s.th)
            && Later(s.tm, r.tm) && (Bounded(s) ==> Bounded(r))
            && (forall x :: 0 <= x < |s.tm.vruntime| && (s.m.curr[s.t.sfq[x]] != x || !s.m.joined[x]) ==>
                  r.tm.vruntime[x] == s.tm.vruntime[x])
  {
    hide PutPrevWalk, Structure, Timed, Bounded, Chain;
    assert NotRealtime(s, e) == s;
    WideStructure(s, e);
    PutPrevWalkKeeps(s, e, relinquish);
    PutPrevWalkTimed(s, e, relinquish);
    PutPrevWalkThreads(s, e, relinquish);
  }

  /** Only e and groups become current. */
  lemma {:induction false} ActivateWalkCurr(s: State, e: int)
    requires Sane(s) && (e == NIL || IsEnt(s, e))
    ensures var r := ActivateWalk(s, e);
            && (forall q :: 0 <= q < |s.m.curr| ==>
                  r.m.curr[q] == s.m.curr[q] || r.m.curr[q] == e || (r.m.curr[q] != NIL && !IsThread(s.t, r.m.curr[q])))
            && (e != NIL ==> r.m.curr[0] != NIL)
            && r.m.joined == s.m.joined
            && (CurrJoined(s.m) && (e != NIL ==> s.m.joined[e]) && Kept(s) && Groups(s.t, s.m, s.a, NIL) ==> CurrJoined(r.m))
    decreases Rank(s.t, e)
  {
    hide ActivateEntity, Kept, Groups, WfTopo;
    if e != NIL {
      var s1, p := ActivateEntity(s, e), s.t.parent[e];
      ParentGroup(s, e);
      ActivateEntityCurr(s, e);
      if Kept(s) && Groups(s.t, s.m, s.a, NIL) && s.m.joined[e] {
        ParentJoined(s, e);
      }
      KeptOnly(s, s1);
      GroupsOnly(s, s1, NIL);
      RootParent(s, e);
      ActivateWalkCurr(s1, p);
    }
  }

  lemma ActivateEntityCurr(s: State, e: nat)
    requires Sane(s) && IsEnt(s, e)
    ensures var r := ActivateEntity(s, e);
            r.m.curr == s.m.curr[s.t.sfq[e] := e] && r.m.joined == s.m.joined && r.a == s.a
  {
    hide TreeDequeue, RunqDequeue;
  }

  /** From no current entity at all to the chain that ends in e. */
  lemma PssActivateKeeps(s: State, e: nat)
    requires Sane(s) && IsEnt(s, e) && Core(s) && NoCurr(s.m)
    requires IsThread(s.t, e) && s.m.joined[e] && !s.th.rtJoined[e]
    ensures var r := PssActivate(s, e);
            && Core(r) && Chain(r.t, r.m, NIL) && CurrJoined(r.m) && r.m.joined == s.m.joined && r.a == s.a && r.c == s.c
            && r.m.curr[s.t.sfq[e]] == e && r.m.curr[0] != NIL
            && (forall x :: 0 <= x < |s.t.sfq| && IsThread(s.t, x) && x != e ==> r.m.curr[s.t.sfq[x]] != x)
            && r.th == SetState(RunqDequeue(s, e), e, Running).th
            && Later(s.tm, r.tm) && r.tm.vruntime == s.tm.vruntime && (Bounded(s) ==> Bounded(r))
  {
    hide ActivateWalk, Timed, Bounded, Kept, Groups, Placed, Joins, Candidates, Chain;
    assert NotRealtime(s, e) == s;
    ParentGroup(s, e);
    NoChain(s, e);
    ActivateWalkKeeps(s, e);
    ActivateWalkTimed(s, e);
    ActivateWalkThreads(s, e);
    ActivateWalkCurr(s, e);
    GroupsSame(ActivateWalk(s, e), PssActivate(s, e));
  }

  lemma NoChain(s: State, e: nat)
    requires Sane(s) && IsEnt(s, e) && NoCurr(s.m)
    ensures Chain(s.t, s.m, NIL) && Chain(s.t, s.m, e) && ClearAbove(s.t, s.m, Rank(s.t, e)) && CurrJoined(s.m)
  {
  }
}
