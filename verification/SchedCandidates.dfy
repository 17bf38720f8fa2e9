/** Who is a candidate for the processor, and what that does to the choice
    (pss.c:886-981, 1011-1066, 1179-1216, 1268-1354). */
module SchedCandidates {
  import opened SchedState
  import opened SchedOps
  import opened SchedSteps
  import opened SchedBooks
  import opened SchedMembers
  import opened SchedWalks
  import opened SchedTimes
  import opened SchedClass
  import opened SchedPick
  import opened SchedPaths
  import opened SchedRoles
  import opened SchedEffects
  import FixedPoint

  // ---------- setting ----------

  /** Where the path of e meets a queue, the pointer is the path's. */
  ghost predicate PointsUp(t: Topo, old_: seq<int>, new_: seq<int>, e: int)
    requires WfTopo(t) && NIL <= e < |t.parent|
  {
    && |old_| == |new_| == |t.owner|
    && forall q :: 0 <= q < |new_| ==> new_[q] == if OnPath(t, e, q) != NIL then OnPath(t, e, q) else old_[q]
  }

  lemma PointsStep(s: State, s1: State, old_: seq<int>, new_: seq<int>, e: nat)
    requires Sane(s) && Sane(s1) && s1.t == s.t && IsEnt(s, e) && |old_| == |s.t.owner| && s.t.sfq[e] < |s.t.owner|
    requires s.t.parent[e] == NIL || IsEnt(s, s.t.parent[e])
    requires PointsUp(s1.t, old_[s.t.sfq[e] := e], new_, s.t.parent[e])
    ensures PointsUp(s.t, old_, new_, e)
  {
    OnPathOnce(s, e);
    forall q | 0 <= q < |new_| ensures new_[q] == if OnPath(s.t, e, q) != NIL then OnPath(s.t, e, q) else old_[q] {
    }
  }

  lemma {:induction false} SetNextPoints(s: State, e: int)
    requires Sane(s) && (e == NIL || IsEnt(s, e))
    ensures var r := SetNextUp(s, e);
            PointsUp(s.t, s.c.next, r.c.next, e) && r.c.skip == s.c.skip && r.c.last == s.c.last
    decreases Rank(s.t, e)
  {
    Lengths(s);
    if e != NIL {
      hide PointsUp, WfTopo;
      ParentGroup(s, e);
      var s1 := s.(c := s.c.(next := s.c.next[s.t.sfq[e] := e]));
      SetNextPoints(s1, s.t.parent[e]);
      PointsStep(s, s1, s.c.next, SetNextUp(s, e).c.next, e);
    }
  }

  lemma {:induction false} SetLastPoints(s: State, e: int)
    requires Sane(s) && (e == NIL || IsEnt(s, e))
    ensures var r := SetLastUp(s, e);
            PointsUp(s.t, s.c.last, r.c.last, e) && r.c.skip == s.c.skip && r.c.next == s.c.next
    decreases Rank(s.t, e)
  {
    Lengths(s);
    if e != NIL {
      hide PointsUp, WfTopo;
      ParentGroup(s, e);
      var s1 := s.(c := s.c.(last := s.c.last[s.t.sfq[e] := e]));
      SetLastPoints(s1, s.t.parent[e]);
      PointsStep(s, s1, s.c.last, SetLastUp(s, e).c.last, e);
    }
  }

  /** The path of e meets queue q before, or where, a queue with more than one member is met. */
  ghost predicate SkipReaches(s: State, e: int, q: nat)
    requires Sane(s) && (e == NIL || IsEnt(s, e))
    decreases Rank(s.t, e)
  {
    e != NIL && (s.t.sfq[e] == q || (s.a.nr[s.t.sfq[e]] <= 1 && SkipReaches(s, s.t.parent[e], q)))
  }

  /** skip is set on the way up to the first queue where there is somebody else to run. */
  ghost predicate Skips(s: State, old_: seq<int>, new_: seq<int>, e: int)
    requires Sane(s) && (e == NIL || IsEnt(s, e))
  {
    && |old_| == |new_| == |s.t.owner|
    && forall q :: 0 <= q < |new_| ==> new_[q] == if SkipReaches(s, e, q) then OnPath(s.t, e, q) else old_[q]
  }

  lemma {:induction false} SetSkipSkips(s: State, e: int)
    requires Sane(s) && (e == NIL || IsEnt(s, e))
    ensures var r := SetSkip(s, e);
            Skips(s, s.c.skip, r.c.skip, e) && r.c.next == s.c.next && r.c.last == s.c.last
    decreases Rank(s.t, e)
  {
    Lengths(s);
    if e != NIL {
      ParentGroup(s, e);
      OnPathOnce(s, e);
      var s1 := s.(c := s.c.(skip := s.c.skip[s.t.sfq[e] := e]));
      if s.a.nr[s.t.sfq[e]] <= 1 {
        SetSkipSkips(s1, s.t.parent[e]);
        SkipStep(s, s1, SetSkip(s, e).c.skip, e);
      }
    }
  }

  lemma SkipStep(s: State, s1: State, new_: seq<int>, e: nat)
    requires Sane(s) && IsEnt(s, e) && s.t.sfq[e] < |s.c.skip| && s1 == s.(c := s.c.(skip := s.c.skip[s.t.sfq[e] := e])) && Sane(s1)
    requires s.a.nr[s.t.sfq[e]] <= 1 && (s.t.parent[e] == NIL || IsEnt(s, s.t.parent[e]))
    requires Skips(s1, s1.c.skip, new_, s.t.parent[e])
    ensures Skips(s, s.c.skip, new_, e)
  {
    OnPathOnce(s, e);
    ReachesPath(s, s.t.parent[e], s.t.sfq[e]);
    forall q | 0 <= q < |new_| ensures new_[q] == if SkipReaches(s, e, q) then OnPath(s.t, e, q) else s.c.skip[q] {
      ReachesSame(s, s1, s.t.parent[e], q);
    }
  }

  lemma {:induction false} ReachesPath(s: State, e: int, q: nat)
    requires Sane(s) && (e == NIL || IsEnt(s, e))
    ensures SkipReaches(s, e, q) ==> OnPath(s.t, e, q) != NIL
    decreases Rank(s.t, e)
  {
    if e != NIL {
      ReachesPath(s, s.t.parent[e], q);
    }
  }

  lemma {:induction false} ReachesSame(s: State, r: State, e: int, q: nat)
    requires Sane(s) && Sane(r) && r.t == s.t && r.a == s.a && (e == NIL || IsEnt(s, e))
    ensures SkipReaches(r, e, q) <==> SkipReaches(s, e, q)
    decreases Rank(s.t, e)
  {
    if e != NIL {
      ReachesSame(s, r, s.t.parent[e], q);
    }
  }

  // ---------- clearing ----------

  /** From e up to queue q every queue points along the path. */
  ghost predicate Led(t: Topo, old_: seq<int>, e: int, q: nat)
    requires WfTopo(t) && NIL <= e < |t.parent| && |old_| == |t.owner|
    decreases Rank(t, e)
  {
    e != NIL && old_[t.sfq[e]] == e && (t.sfq[e] == q || Led(t, old_, t.parent[e], q))
  }

  /** The pointers that lead up the path are unset, as far as they do; the others stay. */
  ghost predicate Clears(t: Topo, old_: seq<int>, new_: seq<int>, e: int)
    requires WfTopo(t) && NIL <= e < |t.parent|
  {
    && |old_| == |new_| == |t.owner|
    && forall q :: 0 <= q < |new_| ==> new_[q] == if Led(t, old_, e, q) then NIL else old_[q]
  }

  lemma {:induction false} LedSame(s: State, old_: seq<int>, new_: seq<int>, e0: nat, e: int, q: nat)
    requires Sane(s) && IsEnt(s, e0) && (e == NIL || IsEnt(s, e)) && Rank(s.t, e) < Rank(s.t, e0)
    requires |old_| == |new_| == |s.t.owner| && (forall p :: 0 <= p < |old_| && p != s.t.sfq[e0] ==> new_[p] == old_[p])
    ensures Led(s.t, new_, e, q) <==> Led(s.t, old_, e, q)
    decreases Rank(s.t, e)
  {
    if e != NIL {
      ParentGroup(s, e);
      OwnerLevel(s, s.t.sfq[e0]);
      LedSame(s, old_, new_, e0, s.t.parent[e], q);
    }
  }

  lemma {:induction false} LedOnPath(s: State, old_: seq<int>, e: int, q: nat)
    requires Sane(s) && (e == NIL || IsEnt(s, e)) && |old_| == |s.t.owner| && q < |old_|
    ensures Led(s.t, old_, e, q) ==> OnPath(s.t, e, q) != NIL && old_[q] == OnPath(s.t, e, q)
    decreases Rank(s.t, e)
  {
    if e != NIL && s.t.sfq[e] != q {
      LedOnPath(s, old_, s.t.parent[e], q);
    }
  }

  lemma ClearStep(s: State, s1: State, old_: seq<int>, new_: seq<int>, e: nat)
    requires Sane(s) && Sane(s1) && s1.t == s.t && IsEnt(s, e) && |old_| == |s.t.owner| && s.t.sfq[e] < |s.t.owner|
    requires old_[s.t.sfq[e]] == e && (s.t.parent[e] == NIL || IsEnt(s, s.t.parent[e]))
    requires Clears(s1.t, old_[s.t.sfq[e] := NIL], new_, s.t.parent[e])
    ensures Clears(s.t, old_, new_, e)
  {
    ParentGroup(s, e);
    OnPathOnce(s, e);
    LedOnPath(s, old_[s.t.sfq[e] := NIL], s.t.parent[e], s.t.sfq[e]);
    forall q | 0 <= q < |new_| ensures new_[q] == if Led(s.t, old_, e, q) then NIL else old_[q] {
      LedSame(s, old_, old_[s.t.sfq[e] := NIL], e, s.t.parent[e], q);
    }
  }

  lemma {:induction false} ClearSkipClears(s: State, e: int)
    requires Sane(s) && (e == NIL || IsEnt(s, e))
    ensures var r := ClearSkip(s, e);
            Clears(s.t, s.c.skip, r.c.skip, e) && r.c.next == s.c.next && r.c.last == s.c.last
    decreases Rank(s.t, e)
  {
    Lengths(s);
    if e != NIL && s.c.skip[s.t.sfq[e]] == e {
      ParentGroup(s, e);
      var s1 := s.(c := s.c.(skip := s.c.skip[s.t.sfq[e] := NIL]));
      ClearSkipClears(s1, s.t.parent[e]);
      ClearStep(s, s1, s.c.skip, ClearSkip(s, e).c.skip, e);
    }
  }

  lemma {:induction false} ClearNextClears(s: State, e: int)
    requires Sane(s) && (e == NIL || IsEnt(s, e))
    ensures var r := ClearNext(s, e);
            Clears(s.t, s.c.next, r.c.next, e) && r.c.skip == s.c.skip && r.c.last == s.c.last
    decreases Rank(s.t, e)
  {
    Lengths(s);
    if e != NIL && s.c.next[s.t.sfq[e]] == e {
      ParentGroup(s, e);
      var s1 := s.(c := s.c.(next := s.c.next[s.t.sfq[e] := NIL]));
      ClearNextClears(s1, s.t.parent[e]);
      ClearStep(s, s1, s.c.next, ClearNext(s, e).c.next, e);
    }
  }

  lemma {:induction false} ClearLastClears(s: State, e: int)
    requires Sane(s) && (e == NIL || IsEnt(s, e))
    ensures var r := ClearLast(s, e);
            Clears(s.t, s.c.last, r.c.last, e) && r.c.skip == s.c.skip && r.c.next == s.c.next
    decreases Rank(s.t, e)
  {
    Lengths(s);
    if e != NIL && s.c.last[s.t.sfq[e]] == e {
      ParentGroup(s, e);
      var s1 := s.(c := s.c.(last := s.c.last[s.t.sfq[e] := NIL]));
      ClearLastClears(s1, s.t.parent[e]);
      ClearStep(s, s1, s.c.last, ClearLast(s, e).c.last, e);
    }
  }

  /** clear_candidates, for each of the three pointers. */
  lemma ClearCandidatesClears(s: State, e: nat)
    requires Sane(s) && IsEnt(s, e)
    ensures var c := ClearCandidates(s, e).c;
            Clears(s.t, s.c.skip, c.skip, e) && Clears(s.t, s.c.next, c.next, e) && Clears(s.t, s.c.last, c.last, e)
  {
    hide ClearSkip, ClearNext, ClearLast, Clears, WfTopo;
    var s1 := ClearSkip(s, e);
    var s2 := ClearNext(s1, e);
    ClearSkipClears(s, e);
    ClearNextClears(s1, e);
    ClearLastClears(s2, e);
  }

  // ---------- the choice ----------

  /** Not more than its wakeup granularity behind the leftmost. */
  predicate Close(s: State, q: nat, e: int)
    requires Sane(s) && IsQueue(s, q) && IsEnt(s, e) && s.m.timeline[q] != []
  {
    hide FixedPoint.ScaleDelta;
    var first := s.m.timeline[q][0];
    s.tm.vruntime[e] <= s.tm.vruntime[first] + FixedPoint.ScaleDelta(s.p.wakeupGranularity, s.a.weight[first])
  }

  /** The next candidate if it is close, else the last one if that is, else the leftmost, unless it is
      to be skipped and the second is close. */
  ghost predicate IsChoice(s: State, q: nat, e: int)
    requires Sane(s) && IsQueue(s, q) && s.m.timeline[q] != []
  {
    hide Close;
    var tl := s.m.timeline[q];
    if s.c.next[q] != NIL && Close(s, q, s.c.next[q]) then e == s.c.next[q]
    else if s.c.last[q] != NIL && Close(s, q, s.c.last[q]) then e == s.c.last[q]
    else if s.c.skip[q] == tl[0] && |tl| > 1 && Close(s, q, tl[1]) then e == tl[1]
    else e == tl[0]
  }

  lemma WakeupClose(s: State, q: nat, e: int)
    requires Sane(s) && IsQueue(s, q) && IsEnt(s, e) && s.m.timeline[q] != []
    ensures WakeupPreempt(s, e, s.m.timeline[q][0]) < 1 <==> Close(s, q, e)
  {
    hide FixedPoint.ScaleDelta;
  }

  lemma ChooseIs(s: State, q: nat)
    requires Sane(s) && IsQueue(s, q) && s.m.timeline[q] != []
    ensures IsChoice(s, q, Choose(s, q))
  {
    hide WakeupPreempt, Close, WfTopo;
    var tl := s.m.timeline[q];
    if s.c.next[q] != NIL {
      WakeupClose(s, q, s.c.next[q]);
    }
    if s.c.last[q] != NIL {
      WakeupClose(s, q, s.c.last[q]);
    }
    if |tl| > 1 {
      WakeupClose(s, q, tl[1]);
    }
  }

  // ---------- picking ----------

  /** Entity e is the choice in its queue, and so is every group above it as far as queue q. */
  ghost predicate ChosenAllTheWay(s: State, e: nat, q: nat)
    requires Sane(s) && IsEnt(s, e)
    decreases s.t.level[e]
  {
    && s.m.timeline[s.t.sfq[e]] != [] && IsChoice(s, s.t.sfq[e], e)
    && (s.t.sfq[e] == q || (s.t.parent[e] != NIL && ChosenAllTheWay(s, s.t.parent[e], q)))
  }

  /** The candidates of queue q and of all queues as deep or deeper are the same. */
  ghost predicate SameBelow(s: State, r: State, rank: nat)
    requires Sane(s) && Sane(r)
  {
    && r == s.(c := r.c)
    && |s.c.next| == |s.c.last| == |s.c.skip| == |r.c.next| == |r.c.last| == |r.c.skip| == |s.t.owner|
    && (forall q {:trigger r.c.next[q]} {:trigger r.c.last[q]} {:trigger r.c.skip[q]} ::
          0 <= q < |s.t.owner| && NIL <= s.t.owner[q] < |s.t.level| && Rank(s.t, s.t.owner[q]) >= rank ==>
            r.c.next[q] == s.c.next[q] && r.c.last[q] == s.c.last[q] && r.c.skip[q] == s.c.skip[q])
  }

  lemma {:induction false} ChosenSame(s: State, r: State, e: nat, q: nat)
    requires Sane(s) && Sane(r) && IsEnt(s, e) && IsQueue(s, q) && NIL <= s.t.owner[q] < |s.t.level|
    requires SameBelow(s, r, Rank(s.t, s.t.owner[q]))
    requires ChosenAllTheWay(r, e, q)
    ensures ChosenAllTheWay(s, e, q) && Rank(s.t, e) > Rank(s.t, s.t.owner[q])
    decreases s.t.level[e]
  {
    hide Close, WfTopo;
    ParentGroup(s, e);
    Lengths(s);
    if s.t.sfq[e] != q {
      ChosenSame(s, r, s.t.parent[e], q);
    }
    CloseSame(s, r, s.t.sfq[e]);
  }

  lemma CloseSame(s: State, r: State, q: nat)
    requires Sane(s) && Sane(r) && r == s.(c := r.c) && IsQueue(s, q) && s.m.timeline[q] != []
    ensures forall e {:trigger Close(s, q, e)} {:trigger Close(r, q, e)} :: IsEnt(s, e) ==> (Close(r, q, e) <==> Close(s, q, e))
  {
    hide FixedPoint.ScaleDelta;
  }

  lemma {:induction false} ChosenExtends(s: State, e: nat, g: nat)
    requires Sane(s) && IsEnt(s, e) && IsEnt(s, g) && !IsThread(s.t, g)
    requires s.t.sfq[g] < |s.m.timeline| && s.m.timeline[s.t.sfq[g]] != [] && IsChoice(s, s.t.sfq[g], g)
    requires ChosenAllTheWay(s, e, s.t.myq[g])
    ensures ChosenAllTheWay(s, e, s.t.sfq[g])
    decreases s.t.level[e]
  {
    hide IsChoice;
    ParentGroup(s, e);
    if s.t.sfq[e] == s.t.myq[g] {
      assert s.t.parent[e] == g;
    } else if s.t.sfq[e] != s.t.sfq[g] {
      ChosenExtends(s, s.t.parent[e], g);
    }
  }

  /** Pointers to e and the groups above it are unset, certainly in queues of this rank and deeper;
      all others stay. */
  ghost predicate Forgets(t: Topo, old_: seq<int>, new_: seq<int>, e: int, rank: nat)
    requires WfTopo(t) && NIL <= e < |t.parent|
  {
    && |old_| == |new_| == |t.owner| && |t.level| == |t.parent|
    && (forall q :: 0 <= q < |new_| ==> new_[q] == old_[q] || (new_[q] == NIL && old_[q] == OnPath(t, e, q)))
    && (forall q :: 0 <= q < |new_| && NIL <= t.owner[q] < |t.level| && Rank(t, t.owner[q]) >= rank && OnPath(t, e, q) != NIL ==>
          new_[q] != OnPath(t, e, q))
  }

  lemma ForgetsFirst(s: State, old_: seq<int>, new_: seq<int>, e: nat)
    requires Sane(s) && IsEnt(s, e) && Clears(s.t, old_, new_, e)
    ensures |s.t.level| == |s.t.parent| && NIL <= s.t.owner[s.t.sfq[e]] < |s.t.level|
    ensures Forgets(s.t, old_, new_, e, Rank(s.t, s.t.owner[s.t.sfq[e]]))
  {
    ParentGroup(s, e);
    forall q | 0 <= q < |new_|
      ensures new_[q] == old_[q] || (new_[q] == NIL && old_[q] == OnPath(s.t, e, q))
      ensures Rank(s.t, s.t.owner[q]) >= Rank(s.t, s.t.owner[s.t.sfq[e]]) && OnPath(s.t, e, q) != NIL ==> new_[q] != OnPath(s.t, e, q)
    {
      LedOnPath(s, old_, e, q);
      OwnerLevel(s, q);
      var a := OnPath(s.t, e, q);
      OnPathMeans(s, e, q);
      if a != NIL && Rank(s.t, s.t.owner[q]) >= Rank(s.t, s.t.owner[s.t.sfq[e]]) {
        assert Rank(s.t, a) >= Rank(s.t, e);
        AboveSame(s, e, e, a);
      }
    }
  }

  lemma ForgetsStep(s: State, s1: State, old_: seq<int>, mid: seq<int>, new_: seq<int>, e: nat, f: nat)
    requires Sane(s) && Sane(s1) && s1.t == s.t && IsEnt(s, e) && IsEnt(s, f) && AtOrAbove(s.t, f, e)
    requires NIL <= s.t.owner[s.t.sfq[e]] < |s.t.level| && |s.t.level| == |s.t.parent|
    requires Forgets(s.t, old_, mid, e, Rank(s.t, s.t.owner[s.t.sfq[e]])) && Forgets(s1.t, mid, new_, f, Rank(s.t, e))
    ensures Forgets(s.t, old_, new_, f, Rank(s.t, s.t.owner[s.t.sfq[e]]))
  {
    ParentGroup(s, e);
    forall q | 0 <= q < |new_|
      ensures new_[q] == old_[q] || (new_[q] == NIL && old_[q] == OnPath(s.t, f, q))
      ensures Rank(s.t, s.t.owner[q]) >= Rank(s.t, s.t.owner[s.t.sfq[e]]) && OnPath(s.t, f, q) != NIL ==> new_[q] != OnPath(s.t, f, q)
    {
      OwnerLevel(s, q);
      var a, b := OnPath(s.t, e, q), OnPath(s.t, f, q);
      OnPathMeans(s, e, q);
      OnPathMeans(s, f, q);
      if a != NIL {
        AboveTrans(s, f, e, a);
        AboveOnPath(s, f, a);
      }
      if b != NIL && Rank(s.t, b) == Rank(s.t, e) {
        AboveSame(s, f, e, b);
      }
    }
  }

  /** Nothing at or below the level of e's own queue's members changes when e is cleared, but e's queue. */
  lemma ClearSameBelow(s: State, e: nat)
    requires Sane(s) && IsEnt(s, e)
    ensures SameBelow(s, ClearCandidates(s, e), Rank(s.t, e))
  {
    hide ClearCandidates;
    Lengths(s);
    var r := ClearCandidates(s, e);
    ClearCandidatesClears(s, e);
    forall q | 0 <= q < |s.t.owner| && NIL <= s.t.owner[q] < |s.t.level| && Rank(s.t, s.t.owner[q]) >= Rank(s.t, e)
      ensures r.c.next[q] == s.c.next[q] && r.c.last[q] == s.c.last[q] && r.c.skip[q] == s.c.skip[q]
    {
      LedOnPath(s, s.c.next, e, q);
      LedOnPath(s, s.c.last, e, q);
      LedOnPath(s, s.c.skip, e, q);
      OnPathMeans(s, e, q);
      OwnerLevel(s, q);
    }
  }

  /** All three pointers. */
  ghost predicate ForgetsAll(t: Topo, c: Cands, c': Cands, e: int, rank: nat)
    requires WfTopo(t) && NIL <= e < |t.parent|
  {
    Forgets(t, c.skip, c'.skip, e, rank) && Forgets(t, c.next, c'.next, e, rank) && Forgets(t, c.last, c'.last, e, rank)
  }

  /** What the descent picks is the choice at every level, by the candidates as they were; afterwards it
      and its groups are nobody's candidate, and all other candidates are as they were. */
  lemma {:induction false} PickWalkChooses(s: State, q: nat, fuel: nat)
    requires Sane(s) && IsQueue(s, q) && Core(s) && NoCurr(s.m) && s.a.nr[q] > 0
    requires fuel + Rank(s.t, s.t.owner[q]) >= s.t.depth + 1
    ensures NIL <= s.t.owner[q] < |s.t.level|
    ensures var (r, e) := PickWalk(s, q, fuel);
            && e != NIL && ChosenAllTheWay(s, e, q) && ForgetsAll(s.t, s.c, r.c, e, Rank(s.t, s.t.owner[q]))
            && (s.t.owner[q] != NIL ==> AtOrAbove(s.t, e, s.t.owner[q]))
    decreases fuel
  {
    hide Choose, ClearCandidates, IsChoice, Forgets, Core, Kept, Membership, Candidates, Timed, NearLeftmost, Clears, SameBelow, WfTopo;
    OwnerLevel(s, q);
    Chooses(s, q);
    var e := Choose(s, q);
    ChooseClears(s, e);
    var s1 := ClearCandidates(s, e);
    ParentGroup(s, e);
    AboveParent(s, e);
    if !IsThread(s.t, e) {
      GroupLevel(s, e);
      OwnerLevel(s, s.t.myq[e]);
      PickWalkChooses(s1, s.t.myq[e], fuel - 1);
      var (r, f) := PickWalk(s1, s.t.myq[e], fuel - 1);
      ChosenSame(s, s1, f, s.t.myq[e]);
      ChosenExtends(s, f, e);
      AboveParent(s, e);
      if s.t.owner[q] != NIL {
        AboveTrans(s, f, e, s.t.owner[q]);
      }
      ForgetsStep(s, s1, s.c.skip, s1.c.skip, r.c.skip, e, f);
      ForgetsStep(s, s1, s.c.next, s1.c.next, r.c.next, e, f);
      ForgetsStep(s, s1, s.c.last, s1.c.last, r.c.last, e, f);
    }
  }

  lemma GroupLevel(s: State, e: nat)
    requires Sane(s) && IsEnt(s, e) && !IsThread(s.t, e)
    ensures IsQueue(s, s.t.myq[e]) && s.t.owner[s.t.myq[e]] == e
  {
  }

  /** The choice of a queue with members is one of them, and a group that is chosen has members. */
  lemma Chooses(s: State, q: nat)
    requires Sane(s) && IsQueue(s, q) && Core(s) && NoCurr(s.m) && s.a.nr[q] > 0
    ensures s.m.timeline[q] != [] && IsChoice(s, q, Choose(s, q))
    ensures var e := Choose(s, q); s.t.sfq[e] == q && (IsThread(s.t, e) || s.a.nr[s.t.myq[e]] > 0)
  {
    hide Choose, IsChoice, Kept, Membership, Candidates, Timed, NearLeftmost;
    ChooseNear(s, q);
    ChooseIs(s, q);
  }

  lemma ChooseClears(s: State, e: nat)
    requires Sane(s) && IsEnt(s, e) && Core(s)
    ensures var r := ClearCandidates(s, e);
            && Core(r) && SameBelow(s, r, Rank(s.t, e)) && |s.t.level| == |s.t.parent| && NIL <= s.t.owner[s.t.sfq[e]] < |s.t.level|
            && ForgetsAll(s.t, s.c, r.c, e, Rank(s.t, s.t.owner[s.t.sfq[e]]))
  {
    hide ClearCandidates, Kept, Membership, Candidates, Timed, Forgets, Clears, SameBelow;
    ClearCandidatesKeeps(s, e);
    CandsOnly(s, ClearCandidates(s, e));
    ClearSameBelow(s, e);
    ClearCandidatesClears(s, e);
    var r := ClearCandidates(s, e);
    ForgetsFirst(s, s.c.skip, r.c.skip, e);
    ForgetsFirst(s, s.c.next, r.c.next, e);
    ForgetsFirst(s, s.c.last, r.c.last, e);
  }

  /** The same from the root. */
  lemma PssPickChooses(s: State)
    requires Sane(s) && Core(s) && NoCurr(s.m)
    ensures var (r, e) := PssPick(s);
            if e == NIL then r == s else ChosenAllTheWay(s, e, 0) && ForgetsAll(s.t, s.c, r.c, e, 0)
  {
    hide PickWalk, ChosenAllTheWay, ForgetsAll, Structure, GroupsAbsolute, Timed, WfTopo, SizedC, SizedM, SizedTm, SizedTh;
    RootQueue(s);
    assert Structure(s, NIL);
    RootNr(s);
    PssPickKeeps(s);
    if s.a.nr[0] > 0 {
      PickWalkChooses(s, 0, s.t.depth + 1);
    }
  }

  // ---------- giving up the processor ----------

  lemma {:induction false} PutPrevWalkCands(s: State, e: int, relinquish: bool)
    requires Sane(s) && (e == NIL || IsEnt(s, e))
    requires e == NIL || !IsThread(s.t, e)
    ensures PutPrevWalk(s, e, relinquish).c == s.c
    decreases Rank(s.t, e)
  {
    hide UpdateCurr, TreeEnqueue, MakeRunnable, WfTopo;
    if e != NIL {
      ParentGroup(s, e);
      PutPrevWalkCands(PutPrevEntity(s, e, relinquish), s.t.parent[e], relinquish);
    }
  }

  /** Only a runnable thread that gives up the processor of its own accord is to be skipped. */
  lemma PssPutPrevSkips(s: State, e: nat, relinquish: bool)
    requires Sane(s) && IsEnt(s, e) && IsThread(s.t, e)
    ensures var r := PssPutPrev(s, e, relinquish);
            if s.m.joined[e] && relinquish then Skips(s, s.c.skip, r.c.skip, e) && r.c.next == s.c.next && r.c.last == s.c.last
            else r.c == s.c
  {
    hide UpdateCurr, TreeEnqueue, MakeRunnable, SetSkip, PutPrevWalk, Skips, WfTopo;
    ParentGroup(s, e);
    var s0 := NotRealtime(s, e);
    PutPrevFirst(s0, e, relinquish);
    PutPrevWalkCands(PutPrevEntity(s0, e, relinquish), s.t.parent[e], relinquish);
    SetSkipSkips(s0, e);
    if s.m.joined[e] && relinquish {
      SkipsStill(s, s0, s.c.skip, SetSkip(s0, e).c.skip, e);
    }
  }

  lemma PutPrevFirst(s: State, e: nat, relinquish: bool)
    requires Sane(s) && IsEnt(s, e)
    ensures PutPrevWalk(s, e, relinquish) == PutPrevWalk(PutPrevEntity(s, e, relinquish), s.t.parent[e], relinquish)
  {
    hide PutPrevEntity;
  }

  lemma SkipsStill(s: State, r: State, old_: seq<int>, new_: seq<int>, e: nat)
    requires Sane(s) && Sane(r) && r.t == s.t && r.a == s.a && IsEnt(s, e) && Skips(r, old_, new_, e)
    ensures Skips(s, old_, new_, e)
  {
    forall q | 0 <= q < |new_| ensures new_[q] == if SkipReaches(s, e, q) then OnPath(s.t, e, q) else old_[q] {
      ReachesSame(s, r, e, q);
    }
  }

  // ---------- going to sleep ----------

  /** The lowest of e and the groups above it that is joined. */
  ghost function Stays(s: State, e: int): int
    requires Sane(s) && (e == NIL || IsEnt(s, e))
    decreases Rank(s.t, e)
  {
    if e == NIL || s.m.joined[e] then e else Stays(s, s.t.parent[e])
  }

  /** No pointer is set that was not set before. */
  ghost predicate Unset(old_: seq<int>, new_: seq<int>) {
    |new_| == |old_| && forall q :: 0 <= q < |new_| ==> new_[q] == old_[q] || new_[q] == NIL
  }

  lemma DetachUnsets(s: State, e: nat)
    requires Sane(s) && IsEnt(s, e)
    ensures Unset(s.c.next, ClearCandidates(s, e).c.next)
  {
    hide ClearCandidates;
    ClearCandidatesClears(s, e);
  }

  lemma DequeueEntityUnsets(s: State, e: nat, sleep: bool)
    requires Sane(s) && IsEnt(s, e) && Placed(s)
    ensures Unset(s.c.next, DequeueEntity(s, e, sleep).c.next)
  {
    hide Detach, UpdateShares, Account, NewVtime, ClearCandidates;
    if s.m.joined[e] {
      DetachMembers(s, e);
      DetachUnsets(if IsThread(s.t, e) then RunqDequeue(s, e) else s, e);
    }
  }

  /** Where the walk stopped is what stays joined; if the thread goes to sleep, that group and those
      above it are the next to run.  Otherwise nobody is put forward. */
  lemma {:induction false} DequeueWalkNext(s: State, e: int, sleep: bool, isSleep: bool)
    requires Sane(s) && (e == NIL || IsEnt(s, e))
    requires Structure(s, e) && GroupsAbsolute(s.t, s.th.absolute) && s.ok
    requires e != NIL ==> s.m.joined[e] && (!IsThread(s.t, e) ==> s.a.nr[s.t.myq[e]] == 0)
    requires e != NIL && !sleep ==> s.th.absolute[e] && IsThread(s.t, e)
    ensures var r := DequeueWalk(s, e, sleep, isSleep).0;
            && |r.c.next| == |s.c.next| == |s.t.owner|
            && var p := Stays(r, e);
               && (p == NIL || IsEnt(s, p))
               && (if isSleep then forall q :: 0 <= q < |r.c.next| ==> if OnPath(s.t, p, q) != NIL then r.c.next[q] == OnPath(s.t, p, q)
                                                                        else r.c.next[q] == s.c.next[q] || r.c.next[q] == NIL
                   else Unset(s.c.next, r.c.next))
    decreases Rank(s.t, e)
  {
    hide DequeueEntity, SetNextUp, Structure, GroupsAbsolute, PointsUp, WfTopo;
    Lengths(s);
    if e != NIL {
      ParentGroup(s, e);
      var s1, p := DequeueEntity(s, e, sleep), s.t.parent[e];
      DequeueStep(s, e, sleep);
      StructurePlaced(s, e);
      DequeueEntityUnsets(s, e, sleep);
      var r := DequeueWalk(s, e, sleep, isSleep).0;
      if s1.a.load[s.t.sfq[e]] != 0 {
        assert Stays(r, e) == p by { StaysParent(r, e); }
        if isSleep && p != NIL {
          SetNextPoints(s1, p);
          NextPoints(s, s1, r, p);
        }
      } else {
        DequeueWalkNext(s1, p, true, isSleep);
        DequeueWalkKeeps(s, e, sleep, isSleep);
        StaysAbove(r, e);
        var g := Stays(r, e);
        if isSleep {
          forall q | 0 <= q < |r.c.next| ensures OnPath(s.t, g, q) == OnPath(s.t, g, q) {
          }
        }
      }
    }
  }

  lemma StructurePlaced(s: State, x: int)
    requires Sane(s) && Structure(s, x)
    ensures Placed(s)
  {
  }

  lemma StaysParent(s: State, e: nat)
    requires Sane(s) && IsEnt(s, e) && !s.m.joined[e] && (s.t.parent[e] == NIL || (IsEnt(s, s.t.parent[e]) && s.m.joined[s.t.parent[e]]))
    ensures Stays(s, e) == s.t.parent[e]
  {
    ParentGroup(s, e);
  }

  lemma StaysAbove(s: State, e: nat)
    requires Sane(s) && IsEnt(s, e) && !s.m.joined[e]
    ensures s.t.parent[e] == NIL || IsEnt(s, s.t.parent[e])
    ensures Stays(s, e) == Stays(s, s.t.parent[e])
  {
    ParentGroup(s, e);
  }

  lemma NextPoints(s: State, s1: State, r: State, p: nat)
    requires Sane(s) && Sane(s1) && Sane(r) && s1.t == s.t && IsEnt(s, p) && !IsThread(s.t, p) && r == SetNext(s1, p)
    requires Unset(s.c.next, s1.c.next) && PointsUp(s1.t, s1.c.next, SetNextUp(s1, p).c.next, p)
    ensures |r.c.next| == |s.c.next|
    ensures forall q :: 0 <= q < |r.c.next| ==> if OnPath(s.t, p, q) != NIL then r.c.next[q] == OnPath(s.t, p, q)
                                                else r.c.next[q] == s.c.next[q] || r.c.next[q] == NIL
  {
    hide SetNextUp;
    forall q | 0 <= q < |r.c.next| ensures OnPath(s.t, p, q) == OnPath(s.t, p, q) {
    }
  }
}
