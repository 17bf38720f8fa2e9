/** Picking the next thread, ticks and wakeup preemption (pss.c:1027-1066, 1241-1354). */
module SchedPick {
  import opened SchedState
  import opened SchedOps
  import opened SchedSteps
  import opened SchedBooks
  import opened SchedMembers
  import opened SchedWalks
  import opened SchedTimes
  import opened SchedClass
  import FixedPoint

  // ---------- picking ----------

  /** Entity e waits on its timeline, at most the leftmost entity's wakeup granularity behind the leftmost. */
  ghost predicate NearLeftmost(s: State, e: nat)
    requires Sane(s) && IsEnt(s, e)
  {
    var tl := s.m.timeline[s.t.sfq[e]];
    && s.m.joined[e] && e in tl
    && s.tm.vruntime[e] <= s.tm.vruntime[tl[0]] + FixedPoint.ScaleDelta(s.p.wakeupGranularity, s.a.weight[tl[0]])
  }

  /** Entity e and all groups above it, as far as queue q, were near the leftmost of their timelines. */
  ghost predicate NearAllTheWay(s: State, e: nat, q: nat)
    requires Sane(s) && IsEnt(s, e)
    decreases s.t.level[e]
  {
    && NearLeftmost(s, e)
    && (s.t.sfq[e] == q || (s.t.parent[e] != NIL && NearAllTheWay(s, s.t.parent[e], q)))
  }

  lemma NotEmpty(s: State, q: nat)
    requires Sane(s) && IsQueue(s, q) && Structure(s, NIL) && NoCurr(s.m) && s.a.nr[q] > 0
    ensures s.m.timeline[q] != []
  {
    hide Candidates, Currs;
    LoadIsCount(s, q);
    var e :| 0 <= e < |s.m.joined| && s.m.joined[e] && s.t.sfq[e] == q;
    assert s.m.onSfq[e];
  }

  lemma WakeupBound(s: State, e: nat, first: nat)
    requires Sane(s) && IsEnt(s, e) && IsEnt(s, first) && WakeupPreempt(s, e, first) < 1
    ensures s.tm.vruntime[e] <= s.tm.vruntime[first] + FixedPoint.ScaleDelta(s.p.wakeupGranularity, s.a.weight[first])
  {
    hide FixedPoint.ScaleDelta;
  }

  /** A queue with members yields one of them, waiting and not far from the leftmost; if it is a
      group, that group's queue has members. */
  lemma ChooseNear(s: State, q: nat)
    requires Sane(s) && IsQueue(s, q) && Structure(s, NIL) && NoCurr(s.m) && s.a.nr[q] > 0
    ensures s.m.timeline[q] != []
    ensures var e := Choose(s, q); s.t.sfq[e] == q && NearLeftmost(s, e) && (IsThread(s.t, e) || s.a.nr[s.t.myq[e]] > 0)
  {
    hide WakeupPreempt, FixedPoint.ScaleDelta, Kept, Currs;
    NotEmpty(s, q);
    var tl, e := s.m.timeline[q], Choose(s, q);
    assert CandOf(s.t, s.m.joined, s.c.next[q], q) && CandOf(s.t, s.m.joined, s.c.last[q], q);
    if e != tl[0] {
      WakeupBound(s, e, tl[0]);
    }
    assert e == tl[0] || (|tl| > 1 && e == tl[1]) || e == s.c.next[q] || e == s.c.last[q];
    assert s.m.onSfq[e] && s.t.sfq[e] == q;
  }

  lemma NearSame(s: State, r: State, e: nat, q: nat)
    requires Sane(s) && Sane(r) && IsEnt(s, e) && r.p == s.p && r.t == s.t && r.m == s.m && r.a == s.a && r.tm == s.tm
    requires NearAllTheWay(r, e, q)
    ensures NearAllTheWay(s, e, q)
    decreases s.t.level[e]
  {
    hide FixedPoint.ScaleDelta;
    if s.t.sfq[e] != q {
      NearSame(s, r, s.t.parent[e], q);
    }
  }

  lemma {:induction false} NearExtends(s: State, e: nat, g: nat)
    requires Sane(s) && IsEnt(s, e) && IsEnt(s, g) && !IsThread(s.t, g)
    requires NearAllTheWay(s, e, s.t.myq[g]) && NearLeftmost(s, g)
    ensures NearAllTheWay(s, e, s.t.sfq[g])
    decreases s.t.level[e]
  {
    hide NearLeftmost;
    ParentGroup(s, e);
    if s.t.sfq[e] == s.t.myq[g] {
      assert s.t.parent[e] == g;
    } else if s.t.sfq[e] != s.t.sfq[g] {
      NearExtends(s, s.t.parent[e], g);
    }
  }

  /** The descent always reaches a thread: no null pointer is followed, it ends after at most the
      depth of the hierarchy, and what it picks was near the leftmost at every level. */
  lemma {:induction false} PickWalkKeeps(s: State, q: nat, fuel: nat)
    requires Sane(s) && IsQueue(s, q) && Core(s) && NoCurr(s.m) && s.a.nr[q] > 0
    requires fuel + Rank(s.t, s.t.owner[q]) >= s.t.depth + 1
    ensures var (r, e) := PickWalk(s, q, fuel);
            && Core(r) && e != NIL && IsThread(s.t, e) && s.m.joined[e] && NearAllTheWay(s, e, q)
    decreases fuel
  {
    hide NearLeftmost, Choose, ClearCandidates, Kept, Membership, Candidates, Timed;
    OwnerLevel(s, q);
    ChooseNear(s, q);
    var e := Choose(s, q);
    ClearCandidatesKeeps(s, e);
    var s1 := ClearCandidates(s, e);
    CandsOnly(s, s1);
    assert s.m.joined[e] by { NearMeans(s, e); }
    if !IsThread(s.t, e) {
      OwnerLevel(s, s.t.myq[e]);
      PickWalkKeeps(s1, s.t.myq[e], fuel - 1);
      var f := PickWalk(s1, s.t.myq[e], fuel - 1).1;
      NearSame(s, s1, f, s.t.myq[e]);
      NearExtends(s, f, e);
    }
  }

  lemma NearMeans(s: State, e: nat)
    requires Sane(s) && IsEnt(s, e) && NearLeftmost(s, e)
    ensures s.m.joined[e]
  {
  }

  lemma OwnerLevel(s: State, q: nat)
    requires Sane(s) && IsQueue(s, q)
    ensures s.t.owner[q] == NIL || (IsEnt(s, s.t.owner[q]) && s.t.myq[s.t.owner[q]] == q)
    ensures Rank(s.t, s.t.owner[q]) <= s.t.depth
    ensures forall e :: 0 <= e < |s.t.parent| && s.t.sfq[e] == q ==> Rank(s.t, e) == Rank(s.t, s.t.owner[q]) + 1
    ensures forall e :: 0 <= e < |s.t.parent| && s.t.myq[e] == q ==> e == s.t.owner[q]
  {
    if q > 0 {
      assert s.t.level[s.t.owner[q]] < s.t.depth;
    }
    forall e | 0 <= e < |s.t.parent| && s.t.sfq[e] == q ensures Rank(s.t, e) == Rank(s.t, s.t.owner[q]) + 1 {
      assert s.t.parent[e] == s.t.owner[q];
    }
    forall e | 0 <= e < |s.t.parent| && s.t.myq[e] == q ensures e == s.t.owner[q] {
      assert s.t.myq[e] != NIL;
    }
  }

  lemma RootNr(s: State)
    requires Sane(s) && Structure(s, NIL)
    ensures s.a.nr[0] >= 0
  {
    NrFromBooks(s, 0);
  }

  lemma RootQueue(s: State)
    requires Sane(s)
    ensures IsQueue(s, 0) && s.t.owner[0] == NIL && |s.t.level| == |s.t.parent|
  {
  }

  /** Only candidates have changed. */
  lemma CandsOnly(s: State, r: State)
    requires Sane(s) && Sane(r) && r == s.(c := r.c) && Candidates(s.t, s.m.joined, r.c)
    ensures Structure(s, NIL) ==> Structure(r, NIL)
    ensures Core(s) ==> Core(r)
  {
    hide Kept, Timelines, Groups, Joins, Currs, Timed, Candidates, GroupsAbsolute;
    KeptOnly(s, r);
    PlacedOnly(s, r);
  }

  /** Picking is work-conserving: with a member in the root queue a thread is found. */
  lemma PssPickKeeps(s: State)
    requires Sane(s) && Core(s) && NoCurr(s.m)
    ensures var (r, e) := PssPick(s);
            && Core(r) && (e != NIL <==> s.a.nr[0] > 0)
            && (e != NIL ==> IsThread(s.t, e) && s.m.joined[e] && NearAllTheWay(s, e, 0))
  {
    hide PickWalk, NearAllTheWay, Structure, GroupsAbsolute, Timed, WfTopo, SizedC, SizedM, SizedTm, SizedTh;
    RootQueue(s);
    assert Structure(s, NIL);
    RootNr(s);
    if s.a.nr[0] > 0 {
      PickWalkKeeps(s, 0, s.t.depth + 1);
    }
  }

  // ---------- ticks and preemption ----------

  /** Only times and candidates change, within the invariant. */
  ghost predicate Quiet(s: State, r: State)
    requires Sane(s) && Sane(r)
  {
    r == s.(tm := r.tm, c := r.c) && Core(r) && Fair(s, r, NIL) && (Bounded(s) ==> Bounded(r))
  }

  lemma QuietThrough(s: State, s': State, r: State)
    requires Sane(s) && Sane(s') && Sane(r) && Quiet(s, s') && Quiet(s', r)
    ensures Quiet(s, r)
  {
    hide Core, Bounded;
  }

  lemma QuietUpdate(s: State, q: nat)
    requires Sane(s) && IsQueue(s, q) && Core(s)
    ensures Quiet(s, UpdateCurr(s, q))
  {
    hide UpdateCurr, Kept, Timelines, Currs, Groups, Candidates, Timed, Lag;
    UpdateCurrTimed(s, q);
    var r := UpdateCurr(s, q);
    KeptOnly(s, r);
    PlacedOnly(s, r);
  }

  lemma QuietCands(s: State, r: State)
    requires Sane(s) && Sane(r) && r == s.(c := r.c) && Candidates(s.t, s.m.joined, r.c) && Core(s)
    ensures Quiet(s, r)
  {
    hide Core, Candidates;
    CandsOnly(s, r);
    assert r.tm == s.tm;
  }

  /** A tick charges the running thread and its groups. */
  lemma {:induction false} TickWalkQuiet(s: State, e: int, slices: seq<nat>)
    requires Sane(s) && (e == NIL || IsEnt(s, e)) && |slices| == |s.t.parent| && Core(s)
    ensures Quiet(s, TickWalk(s, e, slices))
    decreases Rank(s.t, e)
  {
    hide UpdateCurr, ClearCandidates, Kept, Membership, Candidates, Timed, Later, ThreadsUnmoved, WfTopo;
    if e == NIL {
      CandsSame(s);
    } else {
      ParentGroup(s, e);
      var q := s.t.sfq[e];
      var s1 := UpdateCurr(s, q);
      QuietUpdate(s, q);
      var s2 := if s1.a.nr[q] > 1 && s1.tm.sum[e] - s1.tm.prevSum[e] > slices[e] then ClearCandidates(s1, e) else s1;
      if s2 != s1 {
        ClearCandidatesKeeps(s1, e);
        QuietCands(s1, s2);
        QuietThrough(s, s1, s2);
      }
      TickWalkQuiet(s2, s.t.parent[e], slices);
      QuietThrough(s, s2, TickWalk(s, e, slices));
    }
  }

  lemma CandsSame(s: State)
    requires Sane(s) && Core(s)
    ensures Quiet(s, s)
  {
    QuietCands(s, s);
  }

  /** Ancestors of joined entities are joined. */
  lemma {:induction false} CommonAncestorJoined(s: State, a: nat, b: nat)
    requires Sane(s) && IsEnt(s, a) && IsEnt(s, b) && Kept(s) && Groups(s.t, s.m, s.a, NIL) && s.m.joined[b]
    ensures s.m.joined[CommonAncestor(s.t, a, b).1]
    decreases s.t.level[a] + s.t.level[b]
  {
    hide Kept, Groups;
    ParentJoined(s, b);
    if s.t.sfq[a] != s.t.sfq[b] {
      if s.t.level[a] > s.t.level[b] {
        CommonAncestorJoined(s, s.t.parent[a], b);
      } else if s.t.level[b] > s.t.level[a] {
        CommonAncestorJoined(s, a, s.t.parent[b]);
      } else {
        CommonAncestorJoined(s, s.t.parent[a], s.t.parent[b]);
      }
    }
  }

  lemma SetNextQuiet(s: State, e: nat)
    requires Sane(s) && IsEnt(s, e) && s.m.joined[e] && Core(s)
    ensures Quiet(s, SetNext(s, e))
  {
    hide Kept, Groups, Candidates, Timed, Placed, Joins, SetNextUp, Fair, Bounded;
    SetNextKeeps(s, e);
    QuietCands(s, SetNext(s, e));
  }

  lemma SetLastQuiet(s: State, e: nat)
    requires Sane(s) && IsEnt(s, e) && s.m.joined[e] && Core(s)
    ensures Quiet(s, SetLast(s, e))
  {
    hide Kept, Groups, Candidates, Timed, Placed, Joins, SetLastUp, Fair, Bounded;
    SetLastKeeps(s, e);
    QuietCands(s, SetLast(s, e));
  }

  /** Checking a joined thread against the running one. */
  lemma CheckPreemptQuiet(s: State, c: nat, e: nat, resched: bool)
    requires Sane(s) && IsEnt(s, c) && IsEnt(s, e) && s.m.joined[e] && Core(s)
    ensures Quiet(s, CheckPreempt(s, c, e, resched))
  {
    hide WakeupPreempt, CommonAncestor, UpdateCurr, SetNext, SetLast, Quiet, Kept, Membership, Candidates, Timed;
    CandsSame(s);
    SetLastQuiet(s, e);
    var (ca, ce) := CommonAncestor(s.t, c, e);
    assert Kept(s) && Membership(s, NIL);
    AncestorJoined(s, c, e);
    var s1 := UpdateCurr(s, s.t.sfq[ca]);
    QuietUpdate(s, s.t.sfq[ca]);
    QuietMeans(s, s1);
    SetNextQuiet(s1, ce);
    var s2 := SetNext(s1, ce);
    QuietMeans(s1, s2);
    SetLastQuiet(s2, ce);
    QuietThrough(s, s1, s2);
    QuietThrough(s, s2, SetLast(s2, ce));
  }

  lemma AncestorJoined(s: State, a: nat, b: nat)
    requires Sane(s) && IsEnt(s, a) && IsEnt(s, b) && Kept(s) && Membership(s, NIL) && s.m.joined[b]
    ensures s.m.joined[CommonAncestor(s.t, a, b).1]
  {
    hide Kept, Placed, Joins;
    CommonAncestorJoined(s, a, b);
  }

  lemma QuietMeans(s: State, r: State)
    requires Sane(s) && Sane(r) && Quiet(s, r)
    ensures Core(r) && r == s.(tm := r.tm, c := r.c)
  {
  }
}
