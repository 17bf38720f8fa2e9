/** What runs do to clocks, virtual times and execution times (pss.c:750-777, 852-884). */
module SchedHistory {
  import opened SchedState
  import opened SchedOps
  import opened SchedSteps
  import opened SchedWalks
  import FixedPoint

  /** Execution time of the entities of queue q among the first n. */
  ghost function MembersSum(sfq: seq<nat>, sum: seq<int>, q: nat, n: nat): int
    requires n <= |sfq| == |sum|
  {
    if n == 0 then 0 else MembersSum(sfq, sum, q, n - 1) + if sfq[n - 1] == q then sum[n - 1] else 0
  }

  /** Neither the clock nor any vtime goes back. */
  ghost predicate Onward(tm: Times, tm': Times) {
    && tm'.clock >= tm.clock && |tm'.vtime| == |tm.vtime|
    && (forall q :: 0 <= q < |tm.vtime| ==> tm'.vtime[q] >= tm.vtime[q])
  }

  /** The members of every queue have gained what the queue has charged. */
  ghost predicate Tallied(t: Topo, tm: Times, tm': Times)
    requires |t.sfq| == |tm.sum| == |tm'.sum| && |t.owner| == |tm.charged| == |tm'.charged|
  {
    forall q :: 0 <= q < |t.owner| ==>
      MembersSum(t.sfq, tm'.sum, q, |t.sfq|) - MembersSum(t.sfq, tm.sum, q, |t.sfq|) == tm'.charged[q] - tm.charged[q]
  }

  /** Current entities are members of their queues. */
  ghost predicate Home(s: State)
    requires Sane(s)
  {
    forall q :: 0 <= q < |s.m.curr| && s.m.curr[q] != NIL ==> s.t.sfq[s.m.curr[q]] == q
  }

  ghost predicate Ahead(s: State, r: State)
    requires Sane(s) && Sane(r)
  {
    r.t == s.t && Home(r) && Onward(s.tm, r.tm) && Tallied(s.t, s.tm, r.tm)
  }

  lemma AheadThrough(s: State, s': State, r: State)
    requires Sane(s) && Sane(s') && Sane(r) && Ahead(s, s') && Ahead(s', r)
    ensures Ahead(s, r)
  {
  }

  /** Nothing is charged. */
  lemma AheadFrame(s: State, r: State)
    requires Sane(s) && Sane(r) && r.t == s.t && Home(r)
    requires r.tm.sum == s.tm.sum && r.tm.charged == s.tm.charged && Onward(s.tm, r.tm)
    ensures Ahead(s, r)
  {
  }

  lemma {:induction false} MembersSumAt(sfq: seq<nat>, sum: seq<int>, q: nat, n: nat, e: nat, v: int)
    requires n <= |sfq| == |sum| && e < |sum|
    ensures MembersSum(sfq, sum[e := v], q, n) ==
              MembersSum(sfq, sum, q, n) + if e < n && sfq[e] == q then v - sum[e] else 0
  {
    if n > 0 {
      MembersSumAt(sfq, sum, q, n - 1, e, v);
    }
  }

  lemma UpdateCurrAhead(s: State, q: nat)
    requires Sane(s) && IsQueue(s, q) && Home(s)
    ensures Ahead(s, UpdateCurr(s, q))
  {
    hide FixedPoint.ScaleDelta;
    var r, e := UpdateCurr(s, q), s.m.curr[q];
    if r != s {
      forall p | 0 <= p < |s.t.owner|
        ensures MembersSum(s.t.sfq, r.tm.sum, p, |s.t.sfq|) - MembersSum(s.t.sfq, s.tm.sum, p, |s.t.sfq|) ==
                  r.tm.charged[p] - s.tm.charged[p]
      {
        MembersSumAt(s.t.sfq, s.tm.sum, p, |s.t.sfq|, e, r.tm.sum[e]);
      }
    }
  }

  lemma UpdateVtimeAhead(s: State, q: nat)
    requires Sane(s) && IsQueue(s, q) && Home(s)
    ensures Ahead(s, UpdateVtime(s, q))
  {
    AheadFrame(s, UpdateVtime(s, q));
  }

  lemma UpdateSharesAhead(s: State, q: nat)
    requires Sane(s) && IsQueue(s, q) && Home(s)
    ensures Ahead(s, UpdateShares(s, q))
  {
    hide UpdateCurr;
    var p, r := s.t.owner[q], UpdateShares(s, q);
    AheadFrame(s, s);
    if p != NIL {
      var s1 := UpdateCurr(s, s.t.sfq[p]);
      UpdateCurrAhead(s, s.t.sfq[p]);
      assert r.tm == s.tm || r.tm == s1.tm;
    }
  }

  lemma EnqueueEntityAhead(s: State, e: nat, wakeup: bool)
    requires Sane(s) && IsEnt(s, e) && Home(s)
    ensures Ahead(s, EnqueueEntity(s, e, wakeup))
  {
    hide UpdateCurr, TreeEnqueue, UpdateShares, MakeRunnable, Account, Ahead;
    var q := s.t.sfq[e];
    var s0 := s.(ok := s.ok && !s.m.joined[e]);
    var s1 := Arrive(s0, e, wakeup);
    ArriveAhead(s0, e, wakeup);
    var s2 := Account(TreeEnqueue(MakeRunnable(s1, e), e), e, 1);
    AheadFrame(s, s0);
    AheadFrame(s1, s2);
    UpdateSharesAhead(s2, q);
    AheadThrough(s, s0, s1);
    AheadThrough(s, s1, s2);
    AheadThrough(s, s2, UpdateShares(s2, q));
    AheadFrame(UpdateShares(s2, q), EnqueueEntity(s, e, wakeup));
    AheadThrough(s, UpdateShares(s2, q), EnqueueEntity(s, e, wakeup));
  }

  lemma ArriveAhead(s: State, e: nat, wakeup: bool)
    requires Sane(s) && IsEnt(s, e) && Home(s)
    ensures Ahead(s, Arrive(s, e, wakeup)) && Home(Arrive(s, e, wakeup))
  {
    hide UpdateCurr;
    var q := s.t.sfq[e];
    if wakeup {
      UpdateCurrAhead(s, q);
      var s1 := UpdateCurr(s, q);
      AheadFrame(s1, Place(s1, e, false, 0));
      AheadThrough(s, s1, Place(s1, e, false, 0));
    } else {
      var s1 := AddVtime(s, e);
      AheadFrame(s, s1);
      UpdateCurrAhead(s1, q);
      AheadThrough(s, s1, UpdateCurr(s1, q));
    }
  }

  lemma DetachAhead(s: State, e: nat)
    requires Sane(s) && IsEnt(s, e) && Home(s)
    ensures Ahead(s, Leave(s, e))
  {
    hide UpdateCurr, TreeDequeue, ClearCandidates, RunqDequeue;
    var s1 := UpdateCurr(s, s.t.sfq[e]);
    UpdateCurrAhead(s, s.t.sfq[e]);
    AheadFrame(s1, Leave(s, e));
    AheadThrough(s, s1, Leave(s, e));
  }

  lemma DequeueEntityAhead(s: State, e: nat, sleep: bool)
    requires Sane(s) && IsEnt(s, e) && Home(s)
    ensures Ahead(s, DequeueEntity(s, e, sleep))
  {
    hide Leave, UpdateVtime, UpdateShares, Ahead;
    var r, q := DequeueEntity(s, e, sleep), s.t.sfq[e];
    if s.m.joined[e] {
      DetachAhead(s, e);
      var s1 := Leave(s, e);
      AheadHome(s, s1);
      var s2 := if sleep then s1 else SubVtime(s1, e);
      AheadFrame(s1, s2);
      var s3 := UpdateVtime(s2, q);
      UpdateVtimeAhead(s2, q);
      AheadHome(s2, s3);
      UpdateSharesAhead(s3, q);
      AheadThrough(s, s1, s2);
      AheadThrough(s, s2, s3);
      AheadThrough(s, s3, r);
    } else {
      AheadFrame(s, r);
    }
  }

  lemma AheadHome(s: State, r: State)
    requires Sane(s) && Sane(r) && Ahead(s, r)
    ensures Home(r) && r.t == s.t
  {
  }

  lemma PutPrevEntityAhead(s: State, e: nat, relinquish: bool)
    requires Sane(s) && IsEnt(s, e) && Home(s)
    ensures Ahead(s, PutPrevEntity(s, e, relinquish))
  {
    hide UpdateCurr, TreeEnqueue, SetSkip, MakeRunnable;
    var r, q := PutPrevEntity(s, e, relinquish), s.t.sfq[e];
    if s.m.joined[e] {
      var s0 := if IsThread(s.t, e) && relinquish then SetSkip(s, e) else s;
      AheadFrame(s, s0);
      var s1 := UpdateCurr(s0, q);
      UpdateCurrAhead(s0, q);
      AheadFrame(s1, r);
      AheadThrough(s, s0, s1);
      AheadThrough(s, s1, r);
    } else {
      AheadFrame(s, r);
    }
  }

  lemma ActivateEntityAhead(s: State, e: nat)
    requires Sane(s) && IsEnt(s, e) && Home(s)
    ensures Ahead(s, ActivateEntity(s, e))
  {
    hide TreeDequeue, RunqDequeue;
    AheadFrame(s, ActivateEntity(s, e));
  }

  // ---------- walks ----------

  lemma {:induction false} SharesWalkAhead(s: State, e: int)
    requires Sane(s) && (e == NIL || IsEnt(s, e)) && Home(s)
    ensures Ahead(s, SharesWalk(s, e))
    decreases Rank(s.t, e)
  {
    hide UpdateShares, Ahead, WfTopo;
    if e == NIL {
      AheadFrame(s, s);
    } else {
      ParentGroup(s, e);
      var s1 := UpdateShares(s, s.t.sfq[e]);
      UpdateSharesAhead(s, s.t.sfq[e]);
      AheadHome(s, s1);
      SharesWalkAhead(s1, s.t.parent[e]);
      AheadThrough(s, s1, SharesWalk(s, e));
    }
  }

  lemma {:induction false} EnqueueWalkAhead(s: State, e: int, wakeup: bool)
    requires Sane(s) && (e == NIL || IsEnt(s, e)) && Home(s)
    ensures Ahead(s, EnqueueWalk(s, e, wakeup).0)
    decreases Rank(s.t, e)
  {
    hide EnqueueEntity, Ahead, WfTopo;
    if e == NIL || s.m.joined[e] {
      AheadFrame(s, s);
    } else {
      ParentGroup(s, e);
      var s1 := EnqueueEntity(s, e, wakeup);
      EnqueueEntityAhead(s, e, wakeup);
      AheadHome(s, s1);
      EnqueueWalkAhead(s1, s.t.parent[e], true);
      AheadThrough(s, s1, EnqueueWalk(s, e, wakeup).0);
    }
  }

  lemma {:induction false} DequeueWalkAhead(s: State, e: int, sleep: bool, isSleep: bool)
    requires Sane(s) && (e == NIL || IsEnt(s, e)) && Home(s)
    ensures Ahead(s, DequeueWalk(s, e, sleep, isSleep).0)
    decreases Rank(s.t, e)
  {
    hide DequeueEntity, Ahead, SetNext;
    if e == NIL {
      AheadFrame(s, s);
    } else {
      var s1, p := DequeueEntity(s, e, sleep), s.t.parent[e];
      var r := DequeueWalk(s, e, sleep, isSleep).0;
      DequeueEntityAhead(s, e, sleep);
      AheadHome(s, s1);
      if s1.a.load[s.t.sfq[e]] != 0 {
        AheadFrame(s1, r);
      } else {
        ParentGroup(s, e);
        DequeueWalkAhead(s1, p, true, isSleep);
      }
      AheadThrough(s, s1, r);
    }
  }

  lemma {:induction false} PutPrevWalkAhead(s: State, e: int, relinquish: bool)
    requires Sane(s) && (e == NIL || IsEnt(s, e)) && Home(s)
    ensures Ahead(s, PutPrevWalk(s, e, relinquish))
    decreases Rank(s.t, e)
  {
    hide PutPrevEntity, Ahead, WfTopo;
    if e == NIL {
      AheadFrame(s, s);
    } else {
      ParentGroup(s, e);
      var s1 := PutPrevEntity(s, e, relinquish);
      PutPrevEntityAhead(s, e, relinquish);
      AheadHome(s, s1);
      PutPrevWalkAhead(s1, s.t.parent[e], relinquish);
      AheadThrough(s, s1, PutPrevWalk(s, e, relinquish));
    }
  }

  lemma {:induction false} ActivateWalkAhead(s: State, e: int)
    requires Sane(s) && (e == NIL || IsEnt(s, e)) && Home(s)
    ensures Ahead(s, ActivateWalk(s, e))
    decreases Rank(s.t, e)
  {
    hide ActivateEntity, Ahead, WfTopo;
    if e == NIL {
      AheadFrame(s, s);
    } else {
      ParentGroup(s, e);
      var s1 := ActivateEntity(s, e);
      ActivateEntityAhead(s, e);
      AheadHome(s, s1);
      ActivateWalkAhead(s1, s.t.parent[e]);
      AheadThrough(s, s1, ActivateWalk(s, e));
    }
  }

  lemma {:induction false} TickWalkAhead(s: State, e: int, slices: seq<nat>)
    requires Sane(s) && (e == NIL || IsEnt(s, e)) && |slices| == |s.t.parent| && Home(s)
    ensures Ahead(s, TickWalk(s, e, slices))
    decreases Rank(s.t, e)
  {
    hide UpdateCurr, Ahead, ClearCandidates;
    if e == NIL {
      AheadFrame(s, s);
    } else {
      ParentGroup(s, e);
      var q := s.t.sfq[e];
      var s1 := UpdateCurr(s, q);
      UpdateCurrAhead(s, q);
      AheadHome(s, s1);
      var s2 := if s1.a.nr[q] > 1 && s1.tm.sum[e] - s1.tm.prevSum[e] > slices[e] then ClearCandidates(s1, e) else s1;
      AheadFrame(s1, s2);
      AheadThrough(s, s1, s2);
      TickWalkAhead(s2, s.t.parent[e], slices);
      AheadThrough(s, s2, TickWalk(s, e, slices));
    }
  }

  // ---------- class operations ----------

  lemma EnqueueAhead(s: State, e: nat, wakeup: bool)
    requires Sane(s) && IsEnt(s, e) && Home(s)
    ensures Ahead(s, Enqueue(s, e, wakeup))
  {
    hide EnqueueWalk, SharesWalk, RtEnqueue, Ahead;
    var r := Enqueue(s, e, wakeup);
    if s.th.cls[e] == Pss {
      var s0 := NotRealtime(s, e);
      AheadFrame(s, s0);
      var (s1, e1) := EnqueueWalk(s0, e, wakeup);
      EnqueueWalkAhead(s0, e, wakeup);
      AheadHome(s0, s1);
      var s2 := SharesWalk(s1, e1);
      SharesWalkAhead(s1, e1);
      AheadHome(s1, s2);
      AheadFrame(s2, r);
      AheadThrough(s, s0, s1);
      AheadThrough(s, s1, s2);
      AheadThrough(s, s2, r);
    } else {
      AheadFrame(s, r);
    }
  }

  lemma DequeueAhead(s: State, e: nat, sleep: bool)
    requires Sane(s) && IsEnt(s, e) && Home(s)
    ensures Ahead(s, Dequeue(s, e, sleep))
  {
    hide DequeueWalk, SharesWalk, RtDequeue, Ahead;
    var r := Dequeue(s, e, sleep);
    if s.th.cls[e] == Pss {
      var s0 := NotRealtime(s, e);
      AheadFrame(s, s0);
      var (s1, e1) := DequeueWalk(s0, e, sleep, sleep);
      DequeueWalkAhead(s0, e, sleep, sleep);
      AheadHome(s0, s1);
      var s2 := SharesWalk(s1, e1);
      SharesWalkAhead(s1, e1);
      AheadHome(s1, s2);
      AheadFrame(s2, r);
      AheadThrough(s, s0, s1);
      AheadThrough(s, s1, s2);
      AheadThrough(s, s2, r);
    } else {
      AheadFrame(s, r);
    }
  }

  lemma PutPrevAhead(s: State, e: nat, relinquish: bool)
    requires Sane(s) && IsEnt(s, e) && Home(s)
    ensures Ahead(s, PutPrev(s, e, relinquish))
  {
    hide PutPrevWalk, RtPutPrev, Ahead;
    if s.th.cls[e] == Pss {
      var s0 := NotRealtime(s, e);
      AheadFrame(s, s0);
      PutPrevWalkAhead(s0, e, relinquish);
      AheadThrough(s, s0, PutPrev(s, e, relinquish));
    } else {
      AheadFrame(s, PutPrev(s, e, relinquish));
    }
  }

  lemma ActivateAhead(s: State, e: nat, now: int)
    requires Sane(s) && IsEnt(s, e) && Home(s)
    ensures Ahead(s, Activate(s, e, now))
  {
    hide ActivateWalk, RtActivate, Ahead;
    var r := Activate(s, e, now);
    if s.th.cls[e] == Pss {
      var s0 := NotRealtime(s, e);
      AheadFrame(s, s0);
      var s1 := ActivateWalk(s0, e);
      ActivateWalkAhead(s0, e);
      AheadHome(s0, s1);
      AheadFrame(s1, r);
      AheadThrough(s, s0, s1);
      AheadThrough(s, s1, r);
    } else {
      AheadFrame(s, r);
    }
  }

  lemma CheckAhead(s: State, e: nat, resched: bool)
    requires Sane(s) && IsEnt(s, e) && Home(s)
    ensures Ahead(s, CheckClassPreempt(s, e, resched))
  {
    hide UpdateCurr, Ahead, WakeupPreempt, CommonAncestor, SetNext, SetLast;
    var c, r := s.th.current, CheckClassPreempt(s, e, resched);
    if r.tm == s.tm {
      AheadFrame(s, r);
    } else {
      var ca := CommonAncestor(s.t, c, e).0;
      var s1 := UpdateCurr(s, s.t.sfq[ca]);
      UpdateCurrAhead(s, s.t.sfq[ca]);
      AheadHome(s, s1);
      AheadFrame(s1, r);
      AheadThrough(s, s1, r);
    }
  }
}
