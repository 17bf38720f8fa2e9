/** Execution time is neither lost nor invented: a step credits the running pss thread, and every group
    above it, with the time that passes, and nobody else (pss.c:852-884, 983-1099; sched.c:474-1004). */
module SchedEarned {
  import opened SchedState
  import opened SchedOps
  import opened SchedSteps
  import opened SchedBooks
  import opened SchedMembers
  import opened SchedWalks
  import opened SchedTimes
  import opened SchedClass
  import opened SchedPick
  import opened SchedPaths
  import opened SchedRoles
  import opened SchedEntry
  import opened SchedChange
  import opened SchedRun
  import SchedTable
  import FixedPoint

  // ---------- what an entity has earned ----------

  ghost predicate IsCurrent(s: State, x: int)
    requires Sane(s) && IsEnt(s, x)
  {
    s.m.curr[s.t.sfq[x]] == x
  }

  /** The execution time of entity x: charged so far, and owed if it is current. */
  ghost function EarnedBy(s: State, x: int): int
    requires Sane(s) && IsEnt(s, x)
  {
    Earned(s.t, s.m, s.tm, x)
  }

  /** Current entities are in their own queues, have started, and owe nothing once they have left. */
  ghost predicate Punctual(s: State)
    requires Sane(s)
  {
    forall q {:trigger s.m.curr[q]} :: 0 <= q < |s.m.curr| && s.m.curr[q] != NIL ==>
      && s.t.sfq[s.m.curr[q]] == q && s.tm.start[s.m.curr[q]] <= s.tm.clock
      && (!s.m.joined[s.m.curr[q]] ==> s.tm.start[s.m.curr[q]] == s.tm.clock)
  }

  /** The clock stands, and everybody has earned what it had. */
  ghost predicate Carries(s: State, r: State)
    requires Sane(s) && Sane(r)
  {
    && r.t == s.t && r.tm.clock == s.tm.clock && Punctual(r)
    && forall x {:trigger EarnedBy(r, x)} :: IsEnt(s, x) ==> EarnedBy(r, x) == EarnedBy(s, x)
  }

  lemma CarriesThrough(s: State, s': State, r: State)
    requires Sane(s) && Sane(s') && Sane(r) && Carries(s, s') && Carries(s', r)
    ensures Carries(s, r)
  {
    hide EarnedBy, Sane, Punctual;
    forall x | IsEnt(s, x) ensures EarnedBy(r, x) == EarnedBy(s, x) {
      assert EarnedBy(s', x) == EarnedBy(s, x);
    }
  }

  /** Nothing that matters here has changed. */
  lemma CarriesFrame(s: State, r: State)
    requires Sane(s) && Sane(r) && r.t == s.t && r.m.curr == s.m.curr && Punctual(s)
    requires r.tm.clock == s.tm.clock && r.tm.sum == s.tm.sum && r.tm.start == s.tm.start
    requires forall q :: 0 <= q < |s.m.curr| && s.m.curr[q] != NIL && s.m.joined[s.m.curr[q]] && !r.m.joined[s.m.curr[q]] ==>
               s.tm.start[s.m.curr[q]] == s.tm.clock
    ensures Carries(s, r)
  {
    hide WfTopo;
  }

  lemma UpdateCurrCarries(s: State, q: nat)
    requires Sane(s) && IsQueue(s, q) && Punctual(s)
    ensures var r := UpdateCurr(s, q);
            Carries(s, r) && (s.m.curr[q] != NIL ==> r.tm.start[s.m.curr[q]] == s.tm.clock)
  {
    hide FixedPoint.ScaleDelta, NewVtime, WfTopo;
    SfqAll(s);
  }

  lemma SfqAll(s: State)
    requires Sane(s)
    ensures |s.t.sfq| == |s.t.parent| && forall x :: 0 <= x < |s.t.sfq| ==> s.t.sfq[x] < |s.t.owner|
  {
  }

  lemma UpdateSharesCarries(s: State, q: nat)
    requires Sane(s) && IsQueue(s, q) && Punctual(s)
    ensures Carries(s, UpdateShares(s, q)) && UpdateShares(s, q).m == s.m
  {
    hide UpdateCurr, Carries, Punctual;
    CarriesFrame(s, s);
    UpdateSharesTm(s, q);
    var p, r := s.t.owner[q], UpdateShares(s, q);
    if p != NIL {
      OwnerOf(s, q);
      UpdateCurrCarries(s, s.t.sfq[p]);
      CarriesTm(s, UpdateCurr(s, s.t.sfq[p]), r);
    }
    CarriesTm(s, s, r);
  }

  lemma CarriesTm(s: State, r: State, r': State)
    requires Sane(s) && Sane(r) && Sane(r') && Carries(s, r) && r'.t == r.t && r'.m == r.m
    ensures r'.tm == r.tm ==> Carries(s, r')
  {
    hide WfTopo;
    forall x | IsEnt(s, x) ensures r'.tm == r.tm ==> EarnedBy(r', x) == EarnedBy(r, x) {
    }
  }

  // ---------- entities ----------

  lemma EnqueueEntityCarries(s: State, e: nat, wakeup: bool)
    requires Sane(s) && IsEnt(s, e) && Punctual(s)
    ensures Carries(s, EnqueueEntity(s, e, wakeup))
  {
    hide UpdateCurr, TreeEnqueue, UpdateShares, MakeRunnable, Account, Carries, Punctual, WfTopo;
    SfqInRange(s, e);
    var q := s.t.sfq[e];
    var s0 := s.(ok := s.ok && !s.m.joined[e]);
    CarriesFrame(s, s0);
    CarriesMeans(s, s0);
    ArriveCarries(s0, e, wakeup);
    var s1 := Arrive(s0, e, wakeup);
    var s2 := Account(TreeEnqueue(MakeRunnable(s1, e), e), e, 1);
    CarriesMeans(s0, s1);
    CarriesFrame(s1, s2);
    CarriesMeans(s1, s2);
    UpdateSharesCarries(s2, q);
    var s3 := UpdateShares(s2, q);
    CarriesMeans(s2, s3);
    CarriesFrame(s3, SetJoined(s3, e, true));
    CarriesThrough(s, s0, s1);
    CarriesThrough(s, s1, s2);
    CarriesThrough(s, s2, s3);
    CarriesThrough(s, s3, EnqueueEntity(s, e, wakeup));
  }

  lemma CarriesMeans(s: State, r: State)
    requires Sane(s) && Sane(r) && Carries(s, r)
    ensures Punctual(r) && r.t == s.t && r.tm.clock == s.tm.clock
  {
  }

  lemma ArriveCarries(s: State, e: nat, wakeup: bool)
    requires Sane(s) && IsEnt(s, e) && Punctual(s)
    ensures Carries(s, Arrive(s, e, wakeup))
  {
    hide UpdateCurr, Carries, Punctual, WfTopo;
    SfqInRange(s, e);
    var q, r := s.t.sfq[e], Arrive(s, e, wakeup);
    if wakeup {
      var s1 := UpdateCurr(s, q);
      UpdateCurrCarries(s, q);
      CarriesMeans(s, s1);
      CarriesFrame(s1, r);
      CarriesThrough(s, s1, r);
    } else {
      var s1 := AddVtime(s, e);
      CarriesFrame(s, s1);
      CarriesMeans(s, s1);
      UpdateCurrCarries(s1, q);
      CarriesThrough(s, s1, r);
    }
  }

  lemma DequeueEntityCarries(s: State, e: nat, sleep: bool)
    requires Sane(s) && IsEnt(s, e) && Punctual(s)
    ensures Carries(s, DequeueEntity(s, e, sleep))
  {
    hide Leave, UpdateCurr, UpdateShares, NewVtime, Carries, Punctual, WfTopo;
    SfqInRange(s, e);
    var q, r := s.t.sfq[e], DequeueEntity(s, e, sleep);
    if s.m.joined[e] {
      LeaveCarries(s, e);
      var s1 := Leave(s, e);
      CarriesMeans(s, s1);
      var s2 := UpdateVtime(if sleep then s1 else SubVtime(s1, e), q);
      CarriesFrame(s1, s2);
      CarriesMeans(s1, s2);
      UpdateSharesCarries(s2, q);
      CarriesThrough(s, s1, s2);
      CarriesThrough(s, s2, r);
    } else {
      CarriesFrame(s, r);
    }
  }

  lemma LeaveCarries(s: State, e: nat)
    requires Sane(s) && IsEnt(s, e) && Punctual(s)
    ensures Carries(s, Leave(s, e))
  {
    hide UpdateCurr, Carries, TreeDequeue, ClearCandidates, WfTopo;
    SfqInRange(s, e);
    var q, r := s.t.sfq[e], Leave(s, e);
    var s1 := UpdateCurr(s, q);
    UpdateCurrCarries(s, q);
    CarriesMeans(s, s1);
    CarriesFrame(s1, r);
    CarriesThrough(s, s1, r);
  }

  /** An entity stops being the current one of its queue. */
  lemma PutPrevEntityCarries(s: State, e: nat, relinquish: bool)
    requires Sane(s) && IsEnt(s, e) && IsCurrent(s, e) && Punctual(s)
    ensures var r := PutPrevEntity(s, e, relinquish); Carries(s, r) && r.m.curr == s.m.curr[s.t.sfq[e] := NIL]
  {
    hide UpdateCurr, TreeEnqueue, MakeRunnable, SetSkip, Carries, WfTopo;
    SfqInRange(s, e);
    var q, r := s.t.sfq[e], PutPrevEntity(s, e, relinquish);
    if s.m.joined[e] {
      var s0 := if IsThread(s.t, e) && relinquish then SetSkip(s, e) else s;
      CarriesFrame(s, s0);
      UpdateCurrCarries(s0, q);
      var s1 := UpdateCurr(s0, q);
      CarriesMeans(s0, s1);
      StopCarries(s1, r, q);
      CarriesThrough(s, s0, s1);
      CarriesThrough(s, s1, r);
    } else {
      StopCarries(s, r, q);
    }
  }

  lemma StopCarries(s: State, r: State, q: nat)
    requires Sane(s) && Sane(r) && IsQueue(s, q) && Punctual(s) && r.t == s.t
    requires s.m.curr[q] != NIL ==> s.tm.start[s.m.curr[q]] == s.tm.clock
    requires r.tm == s.tm && r.m.joined == s.m.joined && r.m.curr == s.m.curr[q := NIL]
    ensures Carries(s, r)
  {
    hide WfTopo;
    SfqAll(s);
  }

  /** And one becomes current. */
  lemma ActivateEntityCarries(s: State, e: nat)
    requires Sane(s) && IsEnt(s, e) && s.m.curr[s.t.sfq[e]] == NIL && Punctual(s)
    ensures var r := ActivateEntity(s, e); Carries(s, r) && r.m.curr == s.m.curr[s.t.sfq[e] := e]
  {
    hide TreeDequeue, RunqDequeue, WfTopo;
    SfqAll(s);
    var r := ActivateEntity(s, e);
    forall x | IsEnt(s, x) ensures EarnedBy(r, x) == EarnedBy(s, x) {
      assert s.t.sfq[x] < |s.m.curr|;
    }
  }

  // ---------- walks ----------

  lemma {:induction false} SharesWalkCarries(s: State, e: int)
    requires Sane(s) && (e == NIL || IsEnt(s, e)) && Punctual(s)
    ensures Carries(s, SharesWalk(s, e))
    decreases Rank(s.t, e)
  {
    hide UpdateShares, Carries, Punctual, WfTopo;
    if e == NIL {
      CarriesFrame(s, s);
    } else {
      ParentGroup(s, e);
      UpdateSharesCarries(s, s.t.sfq[e]);
      var s1 := UpdateShares(s, s.t.sfq[e]);
      CarriesMeans(s, s1);
      SharesWalkCarries(s1, s.t.parent[e]);
      CarriesThrough(s, s1, SharesWalk(s, e));
    }
  }

  lemma {:induction false} EnqueueWalkCarries(s: State, e: int, wakeup: bool)
    requires Sane(s) && (e == NIL || IsEnt(s, e)) && Punctual(s)
    ensures Carries(s, EnqueueWalk(s, e, wakeup).0)
    decreases Rank(s.t, e)
  {
    hide EnqueueEntity, Carries, Punctual, WfTopo;
    if e == NIL || s.m.joined[e] {
      CarriesFrame(s, s);
    } else {
      ParentGroup(s, e);
      EnqueueEntityCarries(s, e, wakeup);
      var s1 := EnqueueEntity(s, e, wakeup);
      CarriesMeans(s, s1);
      EnqueueWalkCarries(s1, s.t.parent[e], true);
      CarriesThrough(s, s1, EnqueueWalk(s, e, wakeup).0);
    }
  }

  lemma {:induction false} DequeueWalkCarries(s: State, e: int, sleep: bool, isSleep: bool)
    requires Sane(s) && (e == NIL || IsEnt(s, e)) && Punctual(s)
    ensures Carries(s, DequeueWalk(s, e, sleep, isSleep).0)
    decreases Rank(s.t, e)
  {
    hide DequeueEntity, SetNext, Carries, Punctual, WfTopo;
    if e == NIL {
      CarriesFrame(s, s);
    } else {
      ParentGroup(s, e);
      DequeueEntityCarries(s, e, sleep);
      var s1, p, r := DequeueEntity(s, e, sleep), s.t.parent[e], DequeueWalk(s, e, sleep, isSleep).0;
      CarriesMeans(s, s1);
      if s1.a.load[s.t.sfq[e]] != 0 {
        CarriesFrame(s1, r);
      } else {
        DequeueWalkCarries(s1, p, true, isSleep);
      }
      CarriesThrough(s, s1, r);
    }
  }

  /** e and all groups above it are current. */
  ghost predicate PathCurrent(s: State, e: int)
    requires Sane(s) && (e == NIL || IsEnt(s, e))
  {
    forall a {:trigger AtOrAbove(s.t, e, a)} :: IsEnt(s, a) && AtOrAbove(s.t, e, a) ==> IsCurrent(s, a)
  }

  /** No queue on the path of e has a current entity. */
  ghost predicate PathIdle(s: State, e: int)
    requires Sane(s) && (e == NIL || IsEnt(s, e))
  {
    forall a {:trigger AtOrAbove(s.t, e, a)} :: IsEnt(s, a) && AtOrAbove(s.t, e, a) ==> s.m.curr[s.t.sfq[a]] == NIL
  }

  /** The queue of e is no queue of a group above it. */
  lemma PathLeft(s: State, r: State, e: nat, v: int)
    requires Sane(s) && Sane(r) && IsEnt(s, e) && r.t == s.t && s.t.sfq[e] < |s.m.curr| && r.m.curr == s.m.curr[s.t.sfq[e] := v]
    requires s.t.parent[e] == NIL || IsEnt(s, s.t.parent[e])
    ensures PathCurrent(s, e) ==> PathCurrent(r, s.t.parent[e])
    ensures PathIdle(s, e) ==> PathIdle(r, s.t.parent[e])
  {
    hide WfTopo;
    OnPathOnce(s, e);
    SfqAll(s);
    forall a | IsEnt(s, a) && AtOrAbove(s.t, s.t.parent[e], a) ensures AtOrAbove(s.t, e, a) && r.m.curr[s.t.sfq[a]] == s.m.curr[s.t.sfq[a]] {
      AboveOnPath(s, s.t.parent[e], a);
    }
  }

  lemma {:induction false} PutPrevWalkCarries(s: State, e: int, relinquish: bool)
    requires Sane(s) && (e == NIL || IsEnt(s, e)) && PathCurrent(s, e) && Punctual(s)
    ensures Carries(s, PutPrevWalk(s, e, relinquish))
    decreases Rank(s.t, e)
  {
    hide PutPrevEntity, Carries, Punctual, PathIdle, WfTopo;
    if e == NIL {
      CarriesFrame(s, s);
    } else {
      ParentGroup(s, e);
      AboveParent(s, e);
      SfqAll(s);
      PutPrevEntityCarries(s, e, relinquish);
      var s1 := PutPrevEntity(s, e, relinquish);
      CarriesMeans(s, s1);
      PathLeft(s, s1, e, NIL);
      PutPrevWalkCarries(s1, s.t.parent[e], relinquish);
      CarriesThrough(s, s1, PutPrevWalk(s, e, relinquish));
    }
  }

  lemma {:induction false} ActivateWalkCarries(s: State, e: int)
    requires Sane(s) && (e == NIL || IsEnt(s, e)) && PathIdle(s, e) && Punctual(s)
    ensures Carries(s, ActivateWalk(s, e))
    decreases Rank(s.t, e)
  {
    hide ActivateEntity, Carries, Punctual, PathCurrent, WfTopo;
    if e == NIL {
      CarriesFrame(s, s);
    } else {
      ParentGroup(s, e);
      AboveParent(s, e);
      SfqAll(s);
      ActivateEntityCarries(s, e);
      var s1 := ActivateEntity(s, e);
      CarriesMeans(s, s1);
      PathLeft(s, s1, e, e);
      ActivateWalkCarries(s1, s.t.parent[e]);
      CarriesThrough(s, s1, ActivateWalk(s, e));
    }
  }

  // ---------- the class operations ----------

  lemma EnqueueCarries(s: State, e: nat, wakeup: bool)
    requires Sane(s) && IsEnt(s, e) && Punctual(s)
    ensures Carries(s, Enqueue(s, e, wakeup))
  {
    hide EnqueueWalk, SharesWalk, Carries, Punctual, WfTopo;
    var r := Enqueue(s, e, wakeup);
    if s.th.cls[e] == Pss {
      var s0 := NotRealtime(s, e);
      CarriesFrame(s, s0);
      CarriesMeans(s, s0);
      EnqueueWalkCarries(s0, e, wakeup);
      var (s1, e1) := EnqueueWalk(s0, e, wakeup);
      CarriesMeans(s0, s1);
      SharesWalkCarries(s1, e1);
      var s2 := SharesWalk(s1, e1);
      CarriesMeans(s1, s2);
      CarriesFrame(s2, r);
      CarriesThrough(s, s0, s1);
      CarriesThrough(s, s1, s2);
      CarriesThrough(s, s2, r);
    } else {
      CarriesFrame(s, r);
    }
  }

  lemma DequeueCarries(s: State, e: nat, sleep: bool)
    requires Sane(s) && IsEnt(s, e) && Punctual(s)
    ensures Carries(s, Dequeue(s, e, sleep))
  {
    hide DequeueWalk, SharesWalk, Carries, Punctual, WfTopo;
    var r := Dequeue(s, e, sleep);
    if s.th.cls[e] == Pss {
      var s0 := NotRealtime(s, e);
      CarriesFrame(s, s0);
      CarriesMeans(s, s0);
      DequeueWalkCarries(s0, e, sleep, sleep);
      var (s1, e1) := DequeueWalk(s0, e, sleep, sleep);
      CarriesMeans(s0, s1);
      SharesWalkCarries(s1, e1);
      var s2 := SharesWalk(s1, e1);
      CarriesMeans(s1, s2);
      CarriesFrame(s2, r);
      CarriesThrough(s, s0, s1);
      CarriesThrough(s, s1, s2);
      CarriesThrough(s, s2, r);
    } else {
      CarriesFrame(s, r);
    }
  }

  lemma PutPrevCarries(s: State, e: nat, relinquish: bool)
    requires Sane(s) && IsEnt(s, e) && (s.th.cls[e] == Pss ==> PathCurrent(s, e)) && Punctual(s)
    ensures Carries(s, PutPrev(s, e, relinquish))
  {
    hide PutPrevWalk, Carries, Punctual, WfTopo;
    var r := PutPrev(s, e, relinquish);
    if s.th.cls[e] == Pss {
      var s0 := NotRealtime(s, e);
      CarriesFrame(s, s0);
      CarriesMeans(s, s0);
      PutPrevWalkCarries(s0, e, relinquish);
      CarriesThrough(s, s0, r);
    } else {
      CarriesFrame(s, r);
    }
  }

  lemma ActivateCarries(s: State, e: nat, now: int)
    requires Sane(s) && IsEnt(s, e) && NoCurr(s.m) && Punctual(s)
    ensures Carries(s, Activate(s, e, now))
  {
    hide ActivateWalk, Carries, Punctual, WfTopo;
    var r := Activate(s, e, now);
    if s.th.cls[e] == Pss {
      var s0 := NotRealtime(s, e);
      CarriesFrame(s, s0);
      CarriesMeans(s, s0);
      SfqAll(s);
      ActivateWalkCarries(s0, e);
      var s1 := ActivateWalk(s0, e);
      CarriesMeans(s0, s1);
      CarriesFrame(s1, r);
      CarriesThrough(s, s0, s1);
      CarriesThrough(s, s1, r);
    } else {
      NobodyCarries(s, r);
    }
  }

  /** With nobody current start times do not matter. */
  lemma NobodyCarries(s: State, r: State)
    requires Sane(s) && Sane(r) && r.t == s.t && NoCurr(s.m) && NoCurr(r.m) && r.tm.clock == s.tm.clock && r.tm.sum == s.tm.sum
    ensures Carries(s, r)
  {
    hide WfTopo;
    SfqAll(s);
  }

  lemma CheckCarries(s: State, e: nat, resched: bool)
    requires Sane(s) && IsEnt(s, e) && Punctual(s)
    ensures Carries(s, CheckClassPreempt(s, e, resched))
  {
    hide UpdateCurr, WakeupPreempt, SetNext, SetLast, CommonAncestor, Carries, Punctual, WfTopo;
    var c, r := s.th.current, CheckClassPreempt(s, e, resched);
    CarriesFrame(s, s);
    if c != NIL {
      var (ca, ce) := CommonAncestor(s.t, c, e);
      SfqInRange(s, ca);
      var s1 := UpdateCurr(s, s.t.sfq[ca]);
      UpdateCurrCarries(s, s.t.sfq[ca]);
      CarriesTm(s, s1, r);
      CarriesTm(s, s, r);
    } else {
      CarriesTm(s, s, r);
    }
  }

  lemma {:induction false} TickWalkCarries(s: State, e: int, slices: seq<nat>)
    requires Sane(s) && (e == NIL || IsEnt(s, e)) && |slices| == |s.t.parent| && Punctual(s)
    ensures Carries(s, TickWalk(s, e, slices))
    decreases Rank(s.t, e)
  {
    hide UpdateCurr, ClearCandidates, Carries, Punctual, WfTopo;
    if e == NIL {
      CarriesFrame(s, s);
    } else {
      ParentGroup(s, e);
      var q := s.t.sfq[e];
      var s1 := UpdateCurr(s, q);
      UpdateCurrCarries(s, q);
      CarriesMeans(s, s1);
      var s2 := if s1.a.nr[q] > 1 && s1.tm.sum[e] - s1.tm.prevSum[e] > slices[e] then ClearCandidates(s1, e) else s1;
      CarriesFrame(s1, s2);
      CarriesMeans(s1, s2);
      TickWalkCarries(s2, s.t.parent[e], slices);
      CarriesThrough(s, s1, s2);
      CarriesThrough(s, s2, TickWalk(s, e, slices));
    }
  }

  // ---------- steps ----------

  lemma InvPunctual(s: State)
    requires Sane(s) && Linked(s)
    ensures Punctual(s)
  {
    hide Kept, Timelines, Joins, Groups, Candidates, Chain, Conserved, Sorted;
    assert Started(s.t, s.m, s.tm);
  }

  lemma RunningPath(s: State, e: nat)
    requires Sane(s) && s.th.current == e && IsEnt(s, e) && s.th.cls[e] == Pss && Inv(s)
    ensures PathCurrent(s, e)
  {
    hide Inv, WfTopo;
    OneChain(s);
    SfqAll(s);
  }

  lemma PathStays(s: State, r: State, e: nat)
    requires Sane(s) && Sane(r) && IsEnt(s, e) && r.t == s.t && r.m.curr == s.m.curr && PathCurrent(s, e)
    ensures PathCurrent(r, e)
  {
    hide WfTopo;
    SfqAll(s);
  }

  /** The current entities of s have earned d more in r, everybody else nothing. */
  ghost predicate Gains(s: State, r: State, d: int)
    requires Sane(s) && Sane(r)
  {
    && |r.t.parent| == |s.t.parent|
    && forall x {:trigger EarnedBy(r, x)} :: IsEnt(s, x) ==> EarnedBy(r, x) == EarnedBy(s, x) + if IsCurrent(s, x) then d else 0
  }

  lemma ClockGains(s: State, now: int)
    requires Sane(s) && CurrJoined(s.m) && Punctual(s)
    ensures var r := SetClock(s, now); Gains(s, r, r.tm.clock - s.tm.clock) && Punctual(r)
  {
    hide WfTopo;
    SfqAll(s);
  }

  lemma GainsThen(s: State, s': State, r: State, d: int)
    requires Sane(s) && Sane(s') && Sane(r) && Gains(s, s', d) && Carries(s', r)
    ensures Gains(s, r, d)
  {
    hide EarnedBy, IsCurrent, WfTopo;
    forall x | IsEnt(s, x) ensures EarnedBy(r, x) == EarnedBy(s, x) + if IsCurrent(s, x) then d else 0 {
      assert EarnedBy(s', x) == EarnedBy(s, x) + if IsCurrent(s, x) then d else 0;
      assert IsEnt(s', x);
    }
  }

  lemma NoGain(s: State, r: State)
    requires Sane(s) && Sane(r) && Carries(s, r)
    ensures Gains(s, r, 0)
  {
    hide EarnedBy, IsCurrent, WfTopo;
    forall x | IsEnt(s, x) ensures EarnedBy(r, x) == EarnedBy(s, x) {
    }
  }

  lemma StartGains(s: State, e: nat, now: int, resched: bool)
    requires Sane(s) && IsEnt(s, e) && Inv(s)
    ensures var r := Add(s, e, now, resched); Gains(s, r, r.tm.clock - s.tm.clock)
  {
    hide Enqueue, CheckClassPreempt, Carries, Punctual, Gains, Linked, Roles, WfTopo;
    InvPunctual(s);
    LinkedJoined(s);
    var s0 := s.(th := s.th.(initial := s.th.initial[e := false]));
    CarriesFrame(s, s0);
    CarriesMeans(s, s0);
    ClockGains(s0, now);
    var s1 := SetClock(s0, now);
    var d := s1.tm.clock - s.tm.clock;
    GainsFrom(s, s0, s1, d);
    EnqueueCarries(s1, e, !s.th.initial[e]);
    var s2 := Enqueue(s1, e, !s.th.initial[e]);
    CarriesMeans(s1, s2);
    CheckCarries(s2, e, resched);
    CarriesMeans(s2, CheckClassPreempt(s2, e, resched));
    GainsThen(s, s1, s2, d);
    GainsThen(s, s2, Add(s, e, now, resched), d);
  }

  lemma LinkedJoined(s: State)
    requires Sane(s) && Linked(s)
    ensures CurrJoined(s.m)
  {
  }

  /** The start may differ in what does not matter here. */
  lemma GainsFrom(s: State, s': State, r: State, d: int)
    requires Sane(s) && Sane(s') && Sane(r) && s'.t == s.t && s'.m.curr == s.m.curr && s'.tm == s.tm && Gains(s', r, d)
    ensures Gains(s, r, d)
  {
    hide WfTopo;
    SfqAll(s);
    forall x | IsEnt(s, x) ensures EarnedBy(r, x) == EarnedBy(s, x) + if IsCurrent(s, x) then d else 0 {
      assert EarnedBy(s', x) == EarnedBy(s, x);
    }
  }

  // ---------- switching ----------

  lemma ChooseCarries(s: State, pick: nat, now: int)
    requires Sane(s) && Linked(s) && NoCurr(s.m) && Roles(s.t, s.m, s.th, NIL)
    ensures Carries(s, ChooseThread(s, pick, now))
  {
    hide Activate, PssPick, Carries, Punctual, Linked, Roles, WfTopo;
    InvPunctual(s);
    var r := ChooseThread(s, pick, now);
    var (s1, e) := if pick in s.th.runq then (s, pick) else PssPick(s);
    CarriesFrame(s, s1);
    CarriesMeans(s, s1);
    if e == NIL {
      CarriesFrame(s1, r);
      CarriesThrough(s, s1, r);
    } else {
      ActivateCarries(s1, e, now);
      var s2 := Activate(s1, e, now);
      CarriesMeans(s1, s2);
      CarriesFrame(s2, r);
      CarriesThrough(s, s1, s2);
      CarriesThrough(s, s2, r);
    }
  }

  lemma YieldGains(s: State, relinquish: bool, now: int)
    requires Sane(s) && Inv(s)
    ensures var r := Yield(s, relinquish, now); Gains(s, r, r.tm.clock - s.tm.clock)
  {
    hide PutPrev, Carries, Punctual, Gains, Linked, Roles, PathCurrent, WfTopo;
    InvPunctual(s);
    LinkedJoined(s);
    var e := s.th.current;
    if e == NIL {
      CarriesFrame(s, s);
      NoGain(s, s);
    } else {
      ClockGains(s, now);
      var s1 := SetClock(s, now);
      if s.th.cls[e] == Pss {
        RunningPath(s, e);
        PathStays(s, s1, e);
      }
      PutPrevCarries(s1, e, relinquish);
      CarriesMeans(s1, PutPrev(s1, e, relinquish));
      GainsThen(s, s1, PutPrev(s1, e, relinquish), s1.tm.clock - s.tm.clock);
    }
  }

  lemma VacateGains(s: State, sleep: bool, now: int)
    requires Sane(s) && s.th.current != NIL && Inv(s)
    ensures var r := Vacate(s, sleep, now); Gains(s, r, r.tm.clock - s.tm.clock)
  {
    hide PutPrev, Dequeue, Carries, Punctual, Gains, Linked, Roles, PathCurrent, WfTopo, SizedM, SizedC, SizedTm;
    InvPunctual(s);
    LinkedJoined(s);
    var e := s.th.current;
    var s0 := SetState(s, e, Inhibited);
    CarriesFrame(s, s0);
    CarriesMeans(s, s0);
    FrameLinked(s, s0);
    ClockGains(s0, now);
    SetClockLinked(s0, now);
    var s1 := SetClock(s0, now);
    var d := s1.tm.clock - s.tm.clock;
    GainsFrom(s, s0, s1, d);
    DequeueCarries(s1, e, sleep);
    var s2 := Dequeue(s1, e, sleep);
    CarriesMeans(s1, s2);
    VacatedPath(s, s1, e, sleep);
    PutPrevCarries(s2, e, false);
    CarriesMeans(s2, PutPrev(s2, e, false));
    GainsThen(s, s1, s2, d);
    GainsThen(s, s2, PutPrev(s2, e, false), d);
  }

  /** The running thread's path stays current while it is dequeued. */
  lemma VacatedPath(s: State, s1: State, e: nat, sleep: bool)
    requires Sane(s) && s.th.current == e && IsEnt(s, e) && Inv(s)
    requires Sane(s1) && s1.t == s.t && s1.m == s.m && Linked(s1)
    requires s1.th.cls == s.th.cls && s1.th.rtJoined == s.th.rtJoined && s1.th.absolute == s.th.absolute && s1.th.nrRunning == s.th.nrRunning
    ensures var r := Dequeue(s1, e, sleep);
            && r.th.cls == s.th.cls && r.m.curr == s.m.curr
            && (s.th.cls[e] == Pss ==> PathCurrent(r, e))
  {
    hide Dequeue, PathCurrent, Core, Chain, Later, WfTopo, SizedM, SizedC, SizedTm;
    RunningFacts(s, e);
    DequeueLinked(s1, e, sleep);
    if s.th.cls[e] == Pss {
      RunningPath(s, e);
      PathStays(s, Dequeue(s1, e, sleep), e);
    }
  }

  lemma RunningFacts(s: State, e: nat)
    requires Sane(s) && s.th.current == e && IsEnt(s, e) && Inv(s)
    ensures IsThread(s.t, e) && s.th.nrRunning != 0
    ensures if s.th.cls[e] == Pss then s.m.joined[e] && !s.th.rtJoined[e] && s.th.absolute[e] else s.th.rtJoined[e] && !s.m.joined[e]
  {
    hide Linked, Roles;
    RolesMean(s.t, s.m, s.th, e, e);
    RolesThread(s, e);
  }

  // ---------- off the queues and back ----------

  /** A thread that is taken off its queues; if it was running nobody is current any more. */
  lemma WithdrawCarries(s: State, e: nat)
    requires Sane(s) && IsLive(s, e) && s.th.state[e] != Inhibited && Inv(s)
    ensures var r := Withdraw(s, e);
            Carries(s, r) && Linked(r) && (if s.th.state[e] == Running then NoCurr(r.m) else r.m.curr == s.m.curr)
  {
    hide PutPrev, Dequeue, Carries, Punctual, Linked, Roles, PathCurrent, Steady, Bounded, WfTopo, SizedM, SizedC, SizedTm;
    InvPunctual(s);
    WithdrawKeeps(s, e);
    DequeueCarries(s, e, false);
    var s1 := Dequeue(s, e, false);
    CarriesMeans(s, s1);
    if s.th.state[e] == Running {
      RunningIs(s, e);
      VacatedPath(s, s, e, false);
      PutPrevCarries(s1, e, false);
      CarriesThrough(s, s1, PutPrev(s1, e, false));
    } else {
      QueuedCurr(s, e);
    }
  }

  lemma RunningIs(s: State, e: nat)
    requires Sane(s) && IsLive(s, e) && s.th.state[e] == Running && Inv(s)
    ensures s.th.current == e
  {
    hide Linked, Roles;
    RolesMean(s.t, s.m, s.th, s.th.current, e);
  }

  lemma QueuedCurr(s: State, e: nat)
    requires Sane(s) && IsLive(s, e) && s.th.state[e] == OnRunq && Inv(s)
    ensures Dequeue(s, e, false).m.curr == s.m.curr
  {
    hide Dequeue, Core, Chain, Roles, Later, WfTopo, SizedM, SizedC, SizedTm;
    RolesMean(s.t, s.m, s.th, s.th.current, e);
    NormalAt(s, e);
    DequeueLinked(s, e, false);
  }

  lemma NormalAt(s: State, e: nat)
    requires Sane(s) && IsLive(s, e) && s.th.state[e] == OnRunq && Inv(s)
    ensures s.th.cls[e] == Pss ==> s.th.absolute[e]
  {
    hide Linked, Roles;
    RolesMean(s.t, s.m, s.th, s.th.current, e);
  }

  lemma RestoreCarries(s: State, e: nat, was: TdState, now: int)
    requires Sane(s) && IsEnt(s, e) && Withdrawn(s, e, was) && (was == Running ==> NoCurr(s.m))
    ensures Carries(s, Restore(s, e, was, now))
  {
    hide Enqueue, Activate, Carries, Punctual, Linked, Roles, Steady, Bounded, WfTopo, SizedM, SizedC, SizedTm;
    InvPunctual(s);
    EnqueueCarries(s, e, false);
    var s1 := Enqueue(s, e, false);
    CarriesMeans(s, s1);
    if was == Running {
      EnqueueLinked(s, e, false);
      ActivateCarries(s1, e, now);
      CarriesThrough(s, s1, Activate(s1, e, now));
    }
  }

  /** As Carries, but entities may have changed queues. */
  ghost predicate Earns(s: State, r: State)
    requires Sane(s) && Sane(r)
  {
    && |r.t.parent| == |s.t.parent| && r.tm.clock == s.tm.clock
    && forall x {:trigger EarnedBy(r, x)} :: IsEnt(s, x) ==> EarnedBy(r, x) == EarnedBy(s, x)
  }

  lemma CarriesEarns(s: State, r: State)
    requires Sane(s) && Sane(r) && Carries(s, r)
    ensures Earns(s, r)
  {
    hide EarnedBy, WfTopo;
  }

  /** Two clock readings, at the second of which the same entities are current, or nobody. */
  lemma TwiceClocked(s: State, s0: State, s1: State, now: int)
    requires Sane(s) && Sane(s0) && Sane(s1) && Gains(s, s0, s0.tm.clock - s.tm.clock) && Earns(s0, s1)
    requires CurrJoined(s1.m) && Punctual(s1)
    ensures Punctual(SetClock(s1, now)) && |s1.t.parent| == |s.t.parent|
    ensures (forall x :: IsEnt(s, x) ==> (IsCurrent(s1, x) <==> IsCurrent(s, x))) ==>
              var r := SetClock(s1, now); Gains(s, r, r.tm.clock - s.tm.clock)
    ensures (forall x :: IsEnt(s, x) ==> !IsCurrent(s1, x)) ==> Gains(s, SetClock(s1, now), s0.tm.clock - s.tm.clock)
  {
    hide EarnedBy, IsCurrent, WfTopo;
    ClockGains(s1, now);
    var r := SetClock(s1, now);
    forall x | IsEnt(s, x)
      ensures EarnedBy(r, x) == EarnedBy(s, x) + (if IsCurrent(s, x) then s0.tm.clock - s.tm.clock else 0)
                                               + (if IsCurrent(s1, x) then r.tm.clock - s0.tm.clock else 0)
    {
      assert IsEnt(s0, x) && IsEnt(s1, x);
      assert EarnedBy(s1, x) == EarnedBy(s0, x);
      assert EarnedBy(s0, x) == EarnedBy(s, x) + if IsCurrent(s, x) then s0.tm.clock - s.tm.clock else 0;
    }
  }

  lemma SameCurrents(s: State, r: State)
    requires Sane(s) && Sane(r) && r.t == s.t
    ensures r.m.curr == s.m.curr ==> forall x :: IsEnt(s, x) ==> (IsCurrent(r, x) <==> IsCurrent(s, x))
    ensures NoCurr(r.m) ==> forall x :: IsEnt(s, x) ==> !IsCurrent(r, x)
  {
    hide WfTopo;
    SfqAll(s);
    SfqAll(r);
  }

  lemma NiceGains(s: State, e: nat, weight: nat, now: int, later: int)
    requires Sane(s) && IsLive(s, e) && weight > 0 && Inv(s)
    ensures var r := Nice(s, e, weight, now, later);
            Gains(s, r, if s.th.cls[e] == Pss && s.th.state[e] == Running then Max(s.tm.clock, now) - s.tm.clock else r.tm.clock - s.tm.clock)
  {
    hide Withdraw, Restore, Carries, Punctual, Gains, Linked, Roles, Withdrawn, NearReady, LagNow, WfTopo, SizedM, SizedC, SizedTm;
    InvPunctual(s);
    LinkedJoined(s);
    var r := Nice(s, e, weight, now, later);
    if s.th.cls[e] != Pss || s.th.state[e] == Inhibited {
      CarriesFrame(s, r);
      NoGain(s, r);
    } else {
      var s0 := SetClock(s, now);
      ClockGains(s, now);
      ClockedInv(s, now);
      WithdrawCarries(s0, e);
      var s1 := Withdraw(s0, e);
      LinkedJoined(s1);
      CarriesEarns(s0, s1);
      CarriesMeans(s0, s1);
      SameCurrents(s, s1);
      TwiceClocked(s, s0, s1, later);
      var s2 := NiceReady(s, e, weight, now, later);
      NiceReadyKeeps(s, e, weight, now, later);
      SetClockLinked(s1, later);
      InvPunctual(SetClock(s1, later));
      CarriesFrame(SetClock(s1, later), s2);
      RestoreCarries(s2, e, s.th.state[e], later);
      CarriesThrough(SetClock(s1, later), s2, r);
      CarriesMeans(s2, r);
      if s.th.state[e] == Running {
        GainsThen(s, SetClock(s1, later), r, s0.tm.clock - s.tm.clock);
      } else {
        GainsThen(s, SetClock(s1, later), r, s2.tm.clock - s.tm.clock);
      }
    }
  }

  lemma ClockedInv(s: State, now: int)
    requires Sane(s) && Inv(s)
    ensures Inv(SetClock(s, now))
  {
    hide Linked, Roles;
    SetClockLinked(s, now);
  }

  lemma ClassGains(s: State, e: nat, pri: PriClass, now: int, resched: bool)
    requires Sane(s) && IsLive(s, e) && !s.th.initial[e] && Inv(s)
    ensures var r := SetClass(s, e, pri, now, resched); Gains(s, r, 0) && r.tm.clock == s.tm.clock
  {
    hide Withdraw, Restore, SetClass, Carries, Punctual, Gains, Linked, Roles, Withdrawn, LagNow, WfTopo, SizedM, SizedC, SizedTm;
    InvPunctual(s);
    var r := SetClass(s, e, pri, now, resched);
    if s.th.pri[e] == pri {
      ClassSame(s, e, pri, now, resched);
      CarriesFrame(s, s);
    } else {
      var s3 := Restore(ClassReady(s, e, pri), e, s.th.state[e], now);
      ClassRestored(s, e, pri, now);
      CarriesMeans(s, s3);
      ClassLast(s, e, pri, now, resched);
      CarriesThrough(s, s3, r);
      CarriesMeans(s, r);
    }
    NoGain(s, r);
    CarriesMeans(s, r);
  }

  lemma ClassRestored(s: State, e: nat, pri: PriClass, now: int)
    requires Sane(s) && IsLive(s, e) && !s.th.initial[e] && Inv(s)
    ensures Carries(s, Restore(ClassReady(s, e, pri), e, s.th.state[e], now))
  {
    hide Withdraw, Enqueue, Activate, Carries, Punctual, Linked, Roles, Withdrawn, LagNow, NearReady, WfTopo, SizedM, SizedC, SizedTm;
    InvPunctual(s);
    var s2 := ClassReady(s, e, pri);
    if s.th.state[e] == Inhibited {
      SchedTable.RestingWithdraw(s, e);
      CarriesFrame(s, s2);
    } else {
      WithdrawCarries(s, e);
      var s1 := Withdraw(s, e);
      CarriesMeans(s, s1);
      CarriesFrame(s1, s2);
      CarriesThrough(s, s1, s2);
      ClassReadyKeeps(s, e, pri);
      hide Restore;
      RestoreCarries(s2, e, s.th.state[e], now);
      CarriesThrough(s, s2, Restore(s2, e, s.th.state[e], now));
    }
  }

  /** switched_from and switched_to, where they are called. */
  lemma ClassLast(s: State, e: nat, pri: PriClass, now: int, resched: bool)
    requires Sane(s) && IsEnt(s, e) && s.th.pri[e] != pri
    requires Punctual(Restore(ClassReady(s, e, pri), e, s.th.state[e], now))
    ensures Carries(Restore(ClassReady(s, e, pri), e, s.th.state[e], now), SetClass(s, e, pri, now, resched))
  {
    hide Withdraw, Restore, CheckClassPreempt, Carries, Punctual;
    var s3 := Restore(ClassReady(s, e, pri), e, s.th.state[e], now);
    CheckCarries(s3, e, resched);
    CarriesFrame(s3, s3);
    CarriesFrame(s3, SwitchedFrom(s3, e));
    if !s3.th.initial[e] && s3.th.state[e] == Inhibited {
      CarriesFrame(s3, AddVtime(s3, e));
    }
  }

  // ---------- another queue ----------

  /** Whatever queues they belong to: the same entities are current, and all have earned the same. */
  ghost predicate Alike(s: State, r: State)
    requires Sane(s) && Sane(r)
  {
    && |r.t.parent| == |s.t.parent|
    && forall x {:trigger EarnedBy(r, x)} {:trigger IsCurrent(r, x)} :: IsEnt(s, x) ==>
         EarnedBy(r, x) == EarnedBy(s, x) && (IsCurrent(r, x) <==> IsCurrent(s, x))
  }

  /** An entity that is not current may belong to any queue. */
  lemma SetQueueEarns(s: State, e: nat, q: nat)
    requires Sane(s) && IsEnt(s, e) && IsQueue(s, q) && IsThread(s.t, e) && Punctual(s)
    requires forall p :: 0 <= p < |s.m.curr| ==> s.m.curr[p] != e
    ensures var r := SetQueue(s, e, q);
            Punctual(r) && Alike(s, r)
  {
    hide WfTopo;
    SfqAll(s);
    SfqAll(SetQueue(s, e, q));
  }

  lemma MoveGains(s: State, e: nat, q: nat, now: int, later: int)
    requires Sane(s) && IsLive(s, e) && IsQueue(s, q) && Inv(s)
    ensures var r := Move(s, e, q, now, later);
            Gains(s, r, if s.th.cls[e] == Pss && s.th.state[e] == Running then Max(s.tm.clock, now) - s.tm.clock else r.tm.clock - s.tm.clock)
  {
    hide Inv, MoveIdle, MoveReady, Restore, Gains, Withdrawn, SetQueue, Withdraw, SetClock, WfTopo;
    var r := Move(s, e, q, now, later);
    if s.th.state[e] == Inhibited {
      IdleMoveGains(s, e, q);
    } else {
      MoveUnfolds(s, e, q, now, later);
      AwakeMoveGains(s, e, q, now, later);
    }
  }

  lemma IdleMoveGains(s: State, e: nat, q: nat)
    requires Sane(s) && IsLive(s, e) && IsQueue(s, q) && s.th.state[e] == Inhibited && Inv(s)
    ensures var r := MoveIdle(s, e, q); Gains(s, r, 0) && r.tm.clock == s.tm.clock
  {
    hide Linked, Roles, SetQueue, Punctual, EarnedBy, WfTopo, SizedM, SizedC;
    InvPunctual(s);
    RolesMean(s.t, s.m, s.th, s.th.current, e);
    LinkedCurrs(s);
    CurrElsewhere(s, e);
    SetQueueEarns(s, e, q);
    MovedSums(s, e, q);
  }

  /** Making the vruntime relative and absolute again earns nobody anything. */
  lemma MovedSums(s: State, e: nat, q: nat)
    requires Sane(s) && IsEnt(s, e) && IsQueue(s, q) && IsThread(s.t, e)
    ensures var r, r' := MoveIdle(s, e, q), SetQueue(s, e, q);
            && r.t == r'.t && r.tm.clock == s.tm.clock
            && forall x {:trigger EarnedBy(r, x)} :: IsEnt(r, x) ==> EarnedBy(r, x) == EarnedBy(r', x)
  {
    hide WfTopo;
    SfqAll(SetQueue(s, e, q));
    SfqAll(MoveIdle(s, e, q));
  }

  lemma AwakeMoveGains(s: State, e: nat, q: nat, now: int, later: int)
    requires Sane(s) && IsLive(s, e) && IsQueue(s, q) && s.th.state[e] != Inhibited && Inv(s)
    ensures var r := Restore(MoveReady(s, e, q, now, later), e, s.th.state[e], later);
            Gains(s, r, if s.th.cls[e] == Pss && s.th.state[e] == Running then Max(s.tm.clock, now) - s.tm.clock else r.tm.clock - s.tm.clock)
  {
    hide Withdraw, Restore, Carries, Punctual, Gains, Earns, EarnedBy, IsCurrent, Alike, Linked, Roles, Withdrawn, NearReady, LagNow, SetQueue, WfTopo;
    hide SizedM, SizedC, SizedTm;
    InvPunctual(s);
    LinkedJoined(s);
    var s0, was := SetClock(s, now), s.th.state[e];
    ClockGains(s, now);
    ClockedInv(s, now);
    WithdrawCarries(s0, e);
    var s1 := Withdraw(s0, e);
    CarriesMeans(s0, s1);
    CarriesEarns(s0, s1);
    WithdrawnKeeps(s, e, now);
    WithdrawnIdle(s1, e, was);
    SameCurrents(s, s1);
    SetQueueEarns(s1, e, q);
    var sq := SetQueue(s1, e, q);
    LinkedJoined(s1);
    MovedEarns(s, s0, s1, sq, e, q);
    TwiceClocked(s, s0, sq, later);
    var m := SetClock(sq, later);
    MoveReadyKeeps(s, e, q, now, later);
    var r := Restore(m, e, was, later);
    MoveRestored(s, e, q, now, later);
    CarriesMeans(m, r);
    RanAtAll(s, e);
    if was == Running {
      GainsThen(s, m, r, s0.tm.clock - s.tm.clock);
      if s.th.cls[e] != Pss {
        NobodyRan(s, r, s0.tm.clock - s.tm.clock, r.tm.clock - s.tm.clock);
      }
    } else {
      GainsThen(s, m, r, m.tm.clock - s.tm.clock);
    }
  }

  lemma WithdrawnIdle(s: State, e: nat, was: TdState)
    requires Sane(s) && IsEnt(s, e) && IsThread(s.t, e) && Withdrawn(s, e, was)
    ensures forall p :: 0 <= p < |s.m.curr| ==> s.m.curr[p] != e
  {
    hide Linked, Roles;
    GoneFromChain(s, Asleep(s, e).th, e, if was == Running then NIL else s.th.current);
    LinkedCurrs(s);
    CurrElsewhere(s, e);
  }

  lemma MovedEarns(s: State, s0: State, s1: State, sq: State, e: nat, q: nat)
    requires Sane(s) && Sane(s0) && Sane(s1) && Sane(sq) && s0.t == s.t && s1.t == s.t && Earns(s0, s1) && IsEnt(s1, e) && IsQueue(s1, q) && IsThread(s1.t, e)
    requires sq == SetQueue(s1, e, q) && Alike(s1, sq)
    ensures Earns(s0, sq)
    ensures (forall x :: IsEnt(s, x) ==> (IsCurrent(s1, x) <==> IsCurrent(s, x))) ==> forall x :: IsEnt(s, x) ==> (IsCurrent(sq, x) <==> IsCurrent(s, x))
    ensures (forall x :: IsEnt(s, x) ==> !IsCurrent(s1, x)) ==> forall x :: IsEnt(s, x) ==> !IsCurrent(sq, x)
  {
    hide EarnedBy, IsCurrent, SetQueue, WfTopo;
    forall x | IsEnt(s, x)
      ensures EarnedBy(sq, x) == EarnedBy(s0, x) && (IsCurrent(sq, x) <==> IsCurrent(s1, x))
    {
      assert EarnedBy(s1, x) == EarnedBy(s0, x);
      assert EarnedBy(sq, x) == EarnedBy(s1, x);
    }
  }

  lemma MoveRestored(s: State, e: nat, q: nat, now: int, later: int)
    requires Sane(s) && IsLive(s, e) && IsQueue(s, q) && s.th.state[e] != Inhibited && Inv(s)
    ensures var m := MoveReady(s, e, q, now, later); IsEnt(m, e) && Carries(m, Restore(m, e, s.th.state[e], later))
  {
    hide MoveReady, Restore, Carries, Withdrawn, Inv, NearReady, LagNow;
    MoveReadyKeeps(s, e, q, now, later);
    if s.th.state[e] == Running {
      MoveReadyCurr(s, e, q, now, later);
    }
    RestoreCarries(MoveReady(s, e, q, now, later), e, s.th.state[e], later);
  }

  lemma MoveReadyCurr(s: State, e: nat, q: nat, now: int, later: int)
    requires Sane(s) && IsLive(s, e) && IsQueue(s, q) && s.th.state[e] == Running && Inv(s)
    ensures NoCurr(MoveReady(s, e, q, now, later).m)
  {
    hide Withdraw, SetQueue, Carries, Linked, Roles, Withdrawn;
    ClockedInv(s, now);
    WithdrawCarries(SetClock(s, now), e);
  }

  /** While no pss thread runs nobody is current. */
  lemma RanAtAll(s: State, e: nat)
    requires Sane(s) && IsLive(s, e) && Inv(s)
    ensures s.th.state[e] == Running && s.th.cls[e] == Realtime ==> forall x :: IsEnt(s, x) ==> !IsCurrent(s, x)
  {
    hide Inv, WfTopo;
    if s.th.state[e] == Running && s.th.cls[e] == Realtime {
      RunningIs(s, e);
      OneChain(s);
      SfqAll(s);
    }
  }

  lemma NobodyRan(s: State, r: State, d: int, d': int)
    requires Sane(s) && Sane(r) && Gains(s, r, d) && forall x :: IsEnt(s, x) ==> !IsCurrent(s, x)
    ensures Gains(s, r, d')
  {
    hide EarnedBy, IsCurrent, WfTopo;
    forall x | IsEnt(s, x) ensures EarnedBy(r, x) == EarnedBy(s, x) {
    }
  }

  // ---------- forks, ticks, shares ----------

  lemma ForkGains(s: State, child: nat, prio: int, debit: nat, now: int)
    requires Sane(s) && s.th.current != NIL && IsEnt(s, child) && IsThread(s.t, child) && !s.th.live[child] && Inv(s)
    ensures var r := Fork(s, child, prio, debit, now); Gains(s, r, r.tm.clock - s.tm.clock)
  {
    hide ForkPss, SetQueue, Linked, Roles, Punctual, Carries, Gains, Alike, EarnedBy, IsCurrent, WfTopo, SizedM, SizedC, SizedTm;
    InvPunctual(s);
    LinkedJoined(s);
    ParentGroup(s, s.th.current);
    var e, q, r := s.th.current, s.t.sfq[s.th.current], Fork(s, child, prio, debit, now);
    NewbornOut(s, child);
    var sw := SetWeight(s, child, s.a.weight[e]);
    CarriesFrame(s, sw);
    CarriesMeans(s, sw);
    SetQueueEarns(sw, child, q);
    var th := s.th.(cls := s.th.cls[child := s.th.cls[e]], pri := s.th.pri[child := s.th.pri[e]],
                    initial := s.th.initial[child := true], live := s.th.live[child := true],
                    prio := s.th.prio[child := prio]);
    var sq := SetQueue(sw, child, q);
    var s1 := sq.(th := th);
    CarriesFrame(sq, s1);
    CarriesMeans(sq, s1);
    AlikeThrough(s, sw, sq, s1);
    if s.th.cls[e] != Pss {
      AlikeNoGain(s, s1);
    } else {
      ClockGains(s1, now);
      var s2 := SetClock(s1, now);
      AlikeGains(s, s1, s2, s2.tm.clock - s.tm.clock);
      ForkPssCarries(s2, e, child, debit);
      CarriesMeans(s2, r);
      GainsThen(s, s2, r, s2.tm.clock - s.tm.clock);
    }
  }

  lemma NewbornOut(s: State, child: nat)
    requires Sane(s) && IsEnt(s, child) && IsThread(s.t, child) && !s.th.live[child] && Inv(s)
    ensures forall p :: 0 <= p < |s.m.curr| ==> s.m.curr[p] != child
  {
    hide Linked, Roles;
    RolesMean(s.t, s.m, s.th, s.th.current, child);
    LinkedCurrs(s);
    CurrElsewhere(s, child);
  }

  lemma AlikeThrough(s: State, s0: State, s1: State, r: State)
    requires Sane(s) && Sane(s0) && Sane(s1) && Sane(r) && Carries(s, s0) && s0.m.curr == s.m.curr && Alike(s0, s1)
    requires Carries(s1, r) && r.m.curr == s1.m.curr
    ensures Alike(s, r)
  {
    hide EarnedBy, WfTopo;
    SfqAll(s);
    SfqAll(r);
    SfqAll(s1);
    forall x | IsEnt(s, x) ensures EarnedBy(r, x) == EarnedBy(s, x) && (IsCurrent(r, x) <==> IsCurrent(s, x)) {
      assert EarnedBy(s0, x) == EarnedBy(s, x) && IsEnt(s0, x);
      assert EarnedBy(s1, x) == EarnedBy(s0, x) && IsEnt(s1, x);
      assert IsCurrent(s1, x) <==> IsCurrent(s0, x);
    }
  }

  lemma AlikeNoGain(s: State, r: State)
    requires Sane(s) && Sane(r) && Alike(s, r)
    ensures Gains(s, r, 0)
  {
    hide EarnedBy, IsCurrent, WfTopo;
    forall x | IsEnt(s, x) ensures EarnedBy(r, x) == EarnedBy(s, x) {
    }
  }

  lemma AlikeGains(s: State, s1: State, r: State, d: int)
    requires Sane(s) && Sane(s1) && Sane(r) && Alike(s, s1) && Gains(s1, r, d)
    ensures Gains(s, r, d)
  {
    hide EarnedBy, IsCurrent, WfTopo;
    forall x | IsEnt(s, x) ensures EarnedBy(r, x) == EarnedBy(s, x) + if IsCurrent(s, x) then d else 0 {
      assert IsEnt(s1, x) && EarnedBy(s1, x) == EarnedBy(s, x) && (IsCurrent(s1, x) <==> IsCurrent(s, x));
    }
  }

  lemma ForkPssCarries(s: State, e: nat, child: nat, debit: nat)
    requires Sane(s) && IsEnt(s, e) && IsEnt(s, child) && Punctual(s)
    ensures Carries(s, ForkPss(s, e, child, debit))
  {
    hide UpdateCurr, Carries, Punctual, WfTopo;
    SfqInRange(s, e);
    var s1, r := UpdateCurr(s, s.t.sfq[e]), ForkPss(s, e, child, debit);
    UpdateCurrCarries(s, s.t.sfq[e]);
    CarriesMeans(s, s1);
    CarriesFrame(s1, r);
    CarriesThrough(s, s1, r);
  }

  lemma TickGains(s: State, now: int, slices: seq<nat>)
    requires Sane(s) && |slices| == |s.t.parent| && Inv(s)
    ensures var r := Tick(s, now, slices); Gains(s, r, r.tm.clock - s.tm.clock)
  {
    hide TickWalk, Carries, Punctual, Gains, Linked, Roles, WfTopo;
    InvPunctual(s);
    LinkedJoined(s);
    ClockGains(s, now);
    var s1, r := SetClock(s, now), Tick(s, now, slices);
    CarriesFrame(s1, s1);
    if r != s1 {
      TickWalkCarries(s1, s.th.current, slices);
    }
    CarriesMeans(s1, r);
    GainsThen(s, s1, r, s1.tm.clock - s.tm.clock);
  }

  lemma ShareGains(s: State, g: nat, shares: nat)
    requires Sane(s) && IsEnt(s, g) && !IsThread(s.t, g) && Inv(s)
    ensures var r := SetShares(s, g, shares); Gains(s, r, 0) && r.tm.clock == s.tm.clock
  {
    hide SharesWalk, Carries, Punctual, Gains, Linked, Roles;
    InvPunctual(s);
    var q, r := s.t.myq[g], SetShares(s, g, shares);
    var n := if shares < MIN_SHARES then MIN_SHARES else if shares > MAX_SHARES then MAX_SHARES else shares;
    CarriesFrame(s, s);
    if n != s.a.shares[q] {
      var s1 := s.(a := s.a.(shares := s.a.shares[q := n]));
      CarriesFrame(s, s1);
      CarriesMeans(s, s1);
      SharesWalkCarries(s1, g);
      CarriesThrough(s, s1, r);
    }
    CarriesMeans(s, r);
    NoGain(s, r);
  }

  // ---------- every step and every run ----------

  /** How long the running thread runs in a step: until the clock is read last, except that the time
      between the two readings of nice and of a move passes while it is off its queues. */
  ghost function Ran(s: State, ev: Event): int
    requires Sane(s) && Allowed(s, ev)
  {
    match ev
    case Renices(e, _, now, _) =>
      if s.th.cls[e] == Pss && s.th.state[e] == Running then Max(s.tm.clock, now) - s.tm.clock else Do(s, ev).tm.clock - s.tm.clock
    case Moves(e, _, now, _) =>
      if s.th.cls[e] == Pss && s.th.state[e] == Running then Max(s.tm.clock, now) - s.tm.clock else Do(s, ev).tm.clock - s.tm.clock
    case _ => Do(s, ev).tm.clock - s.tm.clock
  }

  lemma SwitchGains(s: State, h: State, pick: nat, now: int)
    requires Sane(s) && Sane(h) && Gains(s, h, h.tm.clock - s.tm.clock) && Linked(h) && NoCurr(h.m) && Roles(h.t, h.m, h.th, NIL)
    ensures var r := ChooseThread(h, pick, now); Gains(s, r, r.tm.clock - s.tm.clock)
  {
    hide ChooseThread, Carries, Gains, Linked, Roles;
    ChooseCarries(h, pick, now);
    CarriesMeans(h, ChooseThread(h, pick, now));
    GainsThen(s, h, ChooseThread(h, pick, now), h.tm.clock - s.tm.clock);
  }

  lemma LeavesGains(s: State, now: int)
    requires Sane(s) && s.th.current != NIL && Inv(s)
    ensures var r := Leaves(s, now); Gains(s, r, r.tm.clock - s.tm.clock)
  {
    hide Vacate, Carries, Punctual, Gains, Inv;
    VacateGains(s, false, now);
    VacateLinked(s, now);
    CarriesFrame(Vacate(s, false, now), Leaves(s, now));
    GainsThen(s, Vacate(s, false, now), Leaves(s, now), Leaves(s, now).tm.clock - s.tm.clock);
  }

  lemma VacateLinked(s: State, now: int)
    requires Sane(s) && s.th.current != NIL && Inv(s)
    ensures Punctual(Vacate(s, false, now))
  {
    hide Vacate, Linked, Roles;
    VacateKeeps(s, false, now);
    InvPunctual(Vacate(s, false, now));
  }

  /** In every step the current entities, the running pss thread and all groups above it, earn exactly
      the time that passes, and nobody else earns anything. */
  lemma StepEarns(s: State, ev: Event)
    requires Sane(s) && Allowed(s, ev) && Inv(s)
    ensures Gains(s, Do(s, ev), Ran(s, ev))
  {
    hide Inv, Linked, Roles, Gains, Fork, Add, Yield, Vacate, Leaves, ChooseThread, Nice, SetClass, Move, Tick, SetShares, SetPriority, WfTopo;
    match ev
    case Forks(child, prio, debit, now) => ForkGains(s, child, prio, debit, now);
    case Starts(e, now, resched) => StartGains(s, e, now, resched);
    case Yields(relinquish, now, pick) =>
      YieldGains(s, relinquish, now);
      YieldKeeps(s, relinquish, now);
      SwitchGains(s, Yield(s, relinquish, now), pick, now);
    case Sleeps(now, pick) =>
      VacateGains(s, true, now);
      SleepsNormal(s, now);
      SwitchGains(s, Vacate(s, true, now), pick, now);
    case Exits(now, pick) =>
      LeavesGains(s, now);
      LeavesKeeps(s, now);
      SwitchGains(s, Leaves(s, now), pick, now);
    case Renices(e, weight, now, later) => NiceGains(s, e, weight, now, later);
    case Reclasses(e, pri, now, resched) => ClassGains(s, e, pri, now, resched);
    case Moves(e, q, now, later) => MoveGains(s, e, q, now, later);
    case Ticks(now, slices) => TickGains(s, now, slices);
    case Reshares(g, shares) => ShareGains(s, g, shares);
    case Reprioritizes(e, prio) => PriorityGains(s, e, prio);
  }

  lemma PriorityGains(s: State, e: nat, prio: int)
    requires Sane(s) && IsEnt(s, e) && Inv(s)
    ensures var r := SetPriority(s, e, prio); Gains(s, r, 0) && r.tm.clock == s.tm.clock
  {
    hide Carries, Gains, Linked, Roles;
    InvPunctual(s);
    CarriesFrame(s, SetPriority(s, e, prio));
    NoGain(s, SetPriority(s, e, prio));
  }

  /** The time for which entity x, or a thread below it, runs in the steps of a run. */
  ghost function TimeOf(s: State, evs: seq<Event>, x: nat): int
    requires Sane(s) && Runs(s, evs)
    decreases |evs|
  {
    if evs == [] then 0
    else (if IsEnt(s, x) && IsCurrent(s, x) then Ran(s, evs[0]) else 0) + TimeOf(Do(s, evs[0]), evs[1..], x)
  }

  /** Over every run an entity earns exactly the time for which it, or a thread below it, has run. */
  lemma {:induction false} RunEarns(s: State, evs: seq<Event>, x: nat)
    requires Sane(s) && Runs(s, evs) && IsEnt(s, x) && Inv(s)
    ensures IsEnt(After(s, evs), x) && EarnedBy(After(s, evs), x) - EarnedBy(s, x) == TimeOf(s, evs, x)
    decreases |evs|
  {
    hide Inv, Do, Allowed, EarnedBy, IsCurrent, Ran, WfTopo;
    if evs != [] {
      StepKeeps(s, evs[0]);
      StepEarns(s, evs[0]);
      var r := Do(s, evs[0]);
      assert IsEnt(r, x) && EarnedBy(r, x) == EarnedBy(s, x) + if IsCurrent(s, x) then Ran(s, evs[0]) else 0;
      RunEarns(r, evs[1..], x);
    }
  }
}
