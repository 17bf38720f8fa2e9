/** What ticks, wakeups and switches do to the accounts of the running thread and its groups, and to the
    candidates (pss.c:852-884, 983-1023, 1179-1216, 1268-1354). */
module SchedTurns {
  import opened SchedState
  import opened SchedOps
  import opened SchedSteps
  import opened SchedBooks
  import opened SchedMembers
  import opened SchedWalks
  import opened SchedTimes
  import opened SchedClass
  import opened SchedPick
  import opened SchedPaths
  import opened SchedRoles
  import opened SchedEntry
  import opened SchedChange
  import opened SchedRun
  import opened SchedEffects
  import opened SchedCandidates
  import opened SchedDeeds
  import FixedPoint

  // ---------- charging along a path ----------

  /** Entity x is credited with all the time since it was last charged, at its weight. */
  ghost predicate Credited(s: State, r: State, x: nat)
    requires Sane(s) && Sane(r) && x < |s.tm.sum| == |r.tm.sum| == |s.tm.start| == |r.tm.start| == |s.tm.vruntime| == |r.tm.vruntime| == |s.a.weight|
  {
    && s.tm.start[x] <= s.tm.clock
    && r.tm.sum[x] == s.tm.sum[x] + (s.tm.clock - s.tm.start[x]) && r.tm.start[x] == s.tm.clock
    && FixedPoint.Worth(s.tm.clock - s.tm.start[x], s.a.weight[x], r.tm.vruntime[x] - s.tm.vruntime[x])
  }

  ghost predicate Untouched(s: State, r: State, x: nat)
    requires Sane(s) && Sane(r) && x < |s.tm.sum| == |r.tm.sum| == |s.tm.start| == |r.tm.start| == |s.tm.vruntime| == |r.tm.vruntime| == |s.a.weight|
  {
    r.tm.sum[x] == s.tm.sum[x] && r.tm.start[x] == s.tm.start[x] && r.tm.vruntime[x] == s.tm.vruntime[x]
  }

  /** The current entities of the queues on the path of e are credited, all others untouched. */
  ghost predicate CreditsPath(s: State, r: State, e: int)
    requires Sane(s) && Sane(r) && r.t == s.t && (e == NIL || IsEnt(s, e))
  {
    && r.tm.clock == s.tm.clock && r.tm.prevSum == s.tm.prevSum
    && |s.tm.sum| == |r.tm.sum| == |s.tm.start| == |r.tm.start| == |s.tm.vruntime| == |r.tm.vruntime| == |s.a.weight| == |s.t.sfq|
    && |s.m.curr| == |s.t.owner|
    && forall x {:trigger r.tm.sum[x]} {:trigger r.tm.vruntime[x]} {:trigger r.tm.start[x]} :: 0 <= x < |s.t.sfq| && s.t.sfq[x] < |s.m.curr| ==>
         if OnPath(s.t, e, s.t.sfq[x]) != NIL && s.m.curr[s.t.sfq[x]] == x && s.tm.start[x] < s.tm.clock then Credited(s, r, x)
         else Untouched(s, r, x)
  }

  lemma Widths(s: State)
    requires Sane(s)
    ensures |s.tm.sum| == |s.tm.start| == |s.tm.prevSum| == |s.tm.vruntime| == |s.a.weight| == |s.t.sfq| == |s.t.parent|
    ensures |s.m.curr| == |s.t.owner| == |s.a.nr| && (forall x :: 0 <= x < |s.t.sfq| ==> s.t.sfq[x] < |s.m.curr|)
  {
  }

  /** update_curr credits the current entity of its queue. */
  lemma UpdateCurrCredits(s: State, q: nat)
    requires Sane(s) && IsQueue(s, q) && CurrsHome(s)
    ensures var r := UpdateCurr(s, q);
            && r.tm.clock == s.tm.clock && r.tm.prevSum == s.tm.prevSum
            && |s.tm.sum| == |r.tm.sum| == |s.tm.start| == |r.tm.start| == |s.tm.vruntime| == |r.tm.vruntime| == |s.a.weight| == |s.t.sfq|
            && |s.m.curr| == |s.t.owner|
            && forall x {:trigger r.tm.sum[x]} {:trigger r.tm.vruntime[x]} {:trigger r.tm.start[x]} :: 0 <= x < |s.t.sfq| && s.t.sfq[x] < |s.m.curr| ==>
                 if s.t.sfq[x] == q && s.m.curr[q] == x && s.tm.start[x] < s.tm.clock then Credited(s, r, x) else Untouched(s, r, x)
  {
    hide FixedPoint.ScaleDelta, FixedPoint.Worth, NewVtime, WfTopo;
    Widths(s);
    HomeMeans(s, q);
    var u := s.m.curr[q];
    var r := UpdateCurr(s, q);
    if u != NIL && s.tm.clock > s.tm.start[u] {
      FixedPoint.ScaleDeltaWorth(s.tm.clock - s.tm.start[u], s.a.weight[u]);
      ChargedTimes(s, q);
    }
    forall x | 0 <= x < |s.t.sfq| && s.t.sfq[x] < |s.m.curr|
      ensures if s.t.sfq[x] == q && s.m.curr[q] == x && s.tm.start[x] < s.tm.clock then Credited(s, r, x) else Untouched(s, r, x)
    {
      if x == u {
        assert s.t.sfq[x] == q;
      }
    }
  }

  lemma ChargedTimes(s: State, q: nat)
    requires Sane(s) && IsQueue(s, q) && s.m.curr[q] != NIL && s.tm.clock > s.tm.start[s.m.curr[q]]
    ensures var u, r := s.m.curr[q], UpdateCurr(s, q);
            var d := s.tm.clock - s.tm.start[u];
            && r.tm.sum == s.tm.sum[u := s.tm.sum[u] + d] && r.tm.start == s.tm.start[u := s.tm.clock]
            && r.tm.vruntime == s.tm.vruntime[u := s.tm.vruntime[u] + FixedPoint.ScaleDelta(d, s.a.weight[u])]
            && r.tm.clock == s.tm.clock && r.tm.prevSum == s.tm.prevSum
  {
    hide FixedPoint.ScaleDelta, NewVtime;
  }

  lemma CreditsStep(s: State, s1: State, r: State, e: nat)
    requires Sane(s) && Sane(s1) && Sane(r) && s1.t == s.t && r.t == s.t && s1.m == s.m && s1.a == s.a && IsEnt(s, e)
    requires s.t.sfq[e] < |s.t.owner| && (s.t.parent[e] == NIL || IsEnt(s, s.t.parent[e]))
    requires CurrsHome(s) && s1.tm == UpdateCurr(s, s.t.sfq[e]).tm && CreditsPath(s1, r, s.t.parent[e])
    ensures CreditsPath(s, r, e)
  {
    hide FixedPoint.Worth, UpdateCurr, WfTopo;
    Widths(s);
    var q := s.t.sfq[e];
    UpdateCurrCredits(s, q);
    OnPathOnce(s, e);
    forall x | 0 <= x < |s.t.sfq| && s.t.sfq[x] < |s.m.curr|
      ensures if OnPath(s.t, e, s.t.sfq[x]) != NIL && s.m.curr[s.t.sfq[x]] == x && s.tm.start[x] < s.tm.clock then Credited(s, r, x)
              else Untouched(s, r, x)
    {
      assert r.tm.sum[x] == r.tm.sum[x] && s1.tm.sum[x] == s1.tm.sum[x];
    }
  }

  lemma {:induction false} TickWalkCredits(s: State, e: int, slices: seq<nat>)
    requires Sane(s) && (e == NIL || IsEnt(s, e)) && |slices| == |s.t.parent| && CurrsHome(s)
    ensures CreditsPath(s, TickWalk(s, e, slices), e)
    decreases Rank(s.t, e)
  {
    hide UpdateCurr, ClearCandidates, CreditsPath, WfTopo;
    if e == NIL {
      NoCredits(s);
    } else {
      ParentGroup(s, e);
      var q := s.t.sfq[e];
      var s1 := UpdateCurr(s, q);
      var s2 := if s1.a.nr[q] > 1 && s1.tm.sum[e] - s1.tm.prevSum[e] > slices[e] then ClearCandidates(s1, e) else s1;
      TickWalkCredits(s2, s.t.parent[e], slices);
      CreditsStep(s, s2, TickWalk(s, e, slices), e);
    }
  }

  lemma NoCredits(s: State)
    requires Sane(s)
    ensures CreditsPath(s, s, NIL)
  {
    hide FixedPoint.Worth;
    Widths(s);
    forall x | 0 <= x < |s.t.sfq| && s.t.sfq[x] < |s.m.curr|
      ensures OnPath(s.t, NIL, s.t.sfq[x]) == NIL && Untouched(s, s, x)
    {
    }
  }

  lemma HomeMeans(s: State, q: nat)
    requires Sane(s) && IsQueue(s, q) && CurrsHome(s)
    ensures s.m.curr[q] != NIL ==> 0 <= s.m.curr[q] < |s.t.sfq| && s.t.sfq[s.m.curr[q]] == q
  {
  }

  // ---------- ticks ----------

  /** The slice of e is used up, in a queue where others wait. */
  predicate UsedUp(s: State, r: State, e: nat, slices: seq<nat>)
    requires Sane(s) && Sane(r) && IsEnt(s, e) && r.t == s.t && |slices| == |s.t.parent|
  {
    Widths(s);
    Widths(r);
    s.a.nr[s.t.sfq[e]] > 1 && r.tm.sum[e] - r.tm.prevSum[e] > slices[e]
  }

  /** What a tick on the path of e makes of the candidates, by the times in r. */
  ghost predicate TickClears(s: State, r: State, e: int, slices: seq<nat>)
    requires Sane(s) && Sane(r) && r.t == s.t && (e == NIL || IsEnt(s, e)) && |slices| == |s.t.parent|
  {
    && |s.t.sfq| == |s.t.parent| && (forall x :: 0 <= x < |s.t.sfq| ==> s.t.sfq[x] < |s.t.owner|)
    && |r.c.skip| == |r.c.next| == |r.c.last| == |s.c.skip| == |s.c.next| == |s.c.last| == |s.t.owner|
    && (forall a :: IsEnt(s, a) && AtOrAbove(s.t, e, a) && UsedUp(s, r, a, slices) ==>
          r.c.skip[s.t.sfq[a]] != a && r.c.next[s.t.sfq[a]] != a && r.c.last[s.t.sfq[a]] != a)
    && (forall q {:trigger r.c.skip[q]} {:trigger r.c.next[q]} {:trigger r.c.last[q]} :: 0 <= q < |s.t.owner| ==>
          && (r.c.skip[q] == s.c.skip[q] || (r.c.skip[q] == NIL && s.c.skip[q] == OnPath(s.t, e, q)))
          && (r.c.next[q] == s.c.next[q] || (r.c.next[q] == NIL && s.c.next[q] == OnPath(s.t, e, q)))
          && (r.c.last[q] == s.c.last[q] || (r.c.last[q] == NIL && s.c.last[q] == OnPath(s.t, e, q))))
    && ((forall a :: IsEnt(s, a) && AtOrAbove(s.t, e, a) ==> !UsedUp(s, r, a, slices)) ==> r.c == s.c)
  }

  lemma {:induction false} TickWalkClears(s: State, e: int, slices: seq<nat>)
    requires Sane(s) && (e == NIL || IsEnt(s, e)) && |slices| == |s.t.parent| && CurrsHome(s)
    ensures TickClears(s, TickWalk(s, e, slices), e, slices)
    decreases Rank(s.t, e)
  {
    hide UpdateCurr, ClearCandidates, TickClears, CreditsPath, WfTopo;
    if e == NIL {
      NothingCleared(s, slices);
    } else {
      ParentGroup(s, e);
      Lengths(s);
      Widths(s);
      var q := s.t.sfq[e];
      var s1 := UpdateCurr(s, q);
      var s2 := if s1.a.nr[q] > 1 && s1.tm.sum[e] - s1.tm.prevSum[e] > slices[e] then ClearCandidates(s1, e) else s1;
      TickWalkClears(s2, s.t.parent[e], slices);
      TickWalkCredits(s2, s.t.parent[e], slices);
      var r := TickWalk(s, e, slices);
      SumStands(s2, r, e);
      ClearCandidatesClears(s1, e);
      TickStep(s, s2, r, e, slices);
    }
  }

  lemma NothingCleared(s: State, slices: seq<nat>)
    requires Sane(s) && |slices| == |s.t.parent|
    ensures TickClears(s, s, NIL, slices)
  {
    Lengths(s);
  }

  lemma SumStands(s: State, r: State, e: nat)
    requires Sane(s) && Sane(r) && r.t == s.t && IsEnt(s, e) && (s.t.parent[e] == NIL || IsEnt(s, s.t.parent[e]))
    requires CreditsPath(s, r, s.t.parent[e])
    ensures e < |r.tm.sum| == |s.tm.sum| && r.tm.sum[e] == s.tm.sum[e] && r.tm.prevSum == s.tm.prevSum
  {
    hide Credited, WfTopo;
    Widths(s);
    OnPathOnce(s, e);
  }

  lemma TickStep(s: State, s2: State, r: State, e: nat, slices: seq<nat>)
    requires Sane(s) && Sane(s2) && Sane(r) && s2.t == s.t && r.t == s.t && s2.a == s.a && IsEnt(s, e) && |slices| == |s.t.parent|
    requires s.t.parent[e] == NIL || IsEnt(s, s.t.parent[e])
    requires TickClears(s2, r, s.t.parent[e], slices)
    requires UsedUp(s, r, e, slices) ==>
               Clears(s.t, s.c.skip, s2.c.skip, e) && Clears(s.t, s.c.next, s2.c.next, e) && Clears(s.t, s.c.last, s2.c.last, e)
    requires !UsedUp(s, r, e, slices) ==> s2.c == s.c
    ensures TickClears(s, r, e, slices)
  {
    Lengths(s);
    Widths(s);
    Widths(r);
    OnPathOnce(s, e);
    hide Sane, WfTopo;
    forall q | 0 <= q < |s.t.owner|
      ensures r.c.skip[q] == s.c.skip[q] || (r.c.skip[q] == NIL && s.c.skip[q] == OnPath(s.t, e, q))
      ensures r.c.next[q] == s.c.next[q] || (r.c.next[q] == NIL && s.c.next[q] == OnPath(s.t, e, q))
      ensures r.c.last[q] == s.c.last[q] || (r.c.last[q] == NIL && s.c.last[q] == OnPath(s.t, e, q))
    {
      if UsedUp(s, r, e, slices) {
        LedOnPath(s, s.c.skip, e, q);
        LedOnPath(s, s.c.next, e, q);
        LedOnPath(s, s.c.last, e, q);
      }
    }
    forall a | IsEnt(s, a) && AtOrAbove(s.t, e, a) && UsedUp(s, r, a, slices)
      ensures r.c.skip[s.t.sfq[a]] != a && r.c.next[s.t.sfq[a]] != a && r.c.last[s.t.sfq[a]] != a
    {
      assert a != e ==> UsedUp(s2, r, a, slices);
    }
    if forall a :: IsEnt(s, a) && AtOrAbove(s.t, e, a) ==> !UsedUp(s, r, a, slices) {
      AboveParent(s, e);
      forall a | IsEnt(s, a) && AtOrAbove(s.t, s.t.parent[e], a) ensures !UsedUp(s2, r, a, slices) {
        assert AtOrAbove(s.t, e, a);
      }
    }
  }

  /** A tick while a pss thread runs: that thread and every group above it are credited up to now, nobody
      else is, and nothing is owed any more; whoever has used up its slice while others wait is nobody's
      candidate.  Otherwise only the clock has gone on. */
  ghost predicate Ticked(s: State, now: int, slices: seq<nat>, r: State)
    requires Sane(s) && Sane(r) && |slices| == |s.t.parent|
  {
    var c, e := SetClock(s, now), s.th.current;
    && r.t == s.t
    && if e != NIL && s.th.cls[e] == Pss then
         CreditsPath(c, r, e) && TickClears(c, r, e, slices) && (forall q :: 0 <= q < |r.m.curr| ==> Owed(r.m, r.tm, q) == 0)
       else r == c
  }

  lemma TickDoes(s: State, now: int, slices: seq<nat>)
    requires Sane(s) && |slices| == |s.t.parent| && Inv(s)
    ensures Ticked(s, now, slices, Do(s, Ticks(now, slices)))
  {
    hide Inv, TickWalk, CreditsPath, TickClears, Owed, WfTopo;
    var c, r, e := SetClock(s, now), Do(s, Ticks(now, slices)), s.th.current;
    if e != NIL && s.th.cls[e] == Pss {
      InvCurrs(s);
      TickWalkCredits(c, e, slices);
      TickWalkClears(c, e, slices);
      forall q | 0 <= q < |r.m.curr| ensures Owed(r.m, r.tm, q) == 0 {
        TickSettles(s, now, r, q);
      }
    }
  }

  lemma InvCurrs(s: State)
    requires Sane(s) && Inv(s)
    ensures CurrsHome(s)
  {
    hide Kept, Timelines, Joins, Groups, Candidates, Timed, Roles, Chain;
  }

  lemma TickSettles(s: State, now: int, r: State, q: nat)
    requires Sane(s) && Sane(r) && r.t == s.t && r.m == s.m && s.th.current != NIL && s.th.cls[s.th.current] == Pss && q < |s.m.curr| && Inv(s)
    requires CreditsPath(SetClock(s, now), r, s.th.current)
    ensures Owed(r.m, r.tm, q) == 0
  {
    hide Inv, Credited, Untouched, WfTopo;
    var u := s.m.curr[q];
    if u != NIL {
      CurrentAbove(s, q);
      AboveOnPath(s, s.th.current, u);
      InvCurrs(s);
      HomeMeans(s, q);
      CurrStarted(s, q);
      SettledBy(SetClock(s, now), r, u);
    }
  }

  lemma CurrStarted(s: State, q: nat)
    requires Sane(s) && IsQueue(s, q) && s.m.curr[q] != NIL && Inv(s)
    ensures s.tm.start[s.m.curr[q]] <= s.tm.clock
  {
    hide Structure, Chain, Roles, Normal;
    assert Started(s.t, s.m, s.tm);
  }

  lemma SettledBy(s: State, r: State, x: nat)
    requires Sane(s) && Sane(r) && x < |s.tm.sum| == |r.tm.sum| == |s.tm.start| == |r.tm.start| == |s.tm.vruntime| == |r.tm.vruntime| == |s.a.weight|
    requires s.tm.start[x] <= s.tm.clock
    ensures Credited(s, r, x) || (s.tm.start[x] == s.tm.clock && Untouched(s, r, x)) ==> r.tm.start[x] == s.tm.clock
  {
  }

  // ---------- wakeup preemption ----------

  /** The two ancestors in one queue are the lowest such. */
  lemma {:induction false} CommonAncestorIs(s: State, a: nat, b: nat)
    requires Sane(s) && IsEnt(s, a) && IsEnt(s, b)
    ensures var (x, y) := CommonAncestor(s.t, a, b);
            AtOrAbove(s.t, a, x) && AtOrAbove(s.t, b, y) && s.t.sfq[x] == s.t.sfq[y]
    ensures var (x, y) := CommonAncestor(s.t, a, b);
            forall u, v {:trigger AtOrAbove(s.t, a, u), AtOrAbove(s.t, b, v)} ::
              IsEnt(s, u) && IsEnt(s, v) && AtOrAbove(s.t, a, u) && AtOrAbove(s.t, b, v) && s.t.sfq[u] == s.t.sfq[v] ==>
                AtOrAbove(s.t, x, u) && AtOrAbove(s.t, y, v)
    decreases s.t.level[a] + s.t.level[b]
  {
    hide WfTopo, SizedM, SizedC;
    ParentGroup(s, a);
    ParentGroup(s, b);
    if s.t.sfq[a] == s.t.sfq[b] {
      AboveParent(s, a);
      AboveParent(s, b);
    } else {
      var a', b' := if s.t.level[a] >= s.t.level[b] then s.t.parent[a] else a, if s.t.level[b] >= s.t.level[a] then s.t.parent[b] else b;
      RootsMeet(s, a, b);
      CommonAncestorIs(s, a', b');
      forall u, v | IsEnt(s, u) && IsEnt(s, v) && AtOrAbove(s.t, a, u) && AtOrAbove(s.t, b, v) && s.t.sfq[u] == s.t.sfq[v]
        ensures AtOrAbove(s.t, a', u) && AtOrAbove(s.t, b', v)
      {
        PathsMeetHigher(s, a, b, u, v);
      }
    }
  }

  /** Entities of different queues do not both lie in the root queue. */
  lemma RootsMeet(s: State, a: nat, b: nat)
    requires Sane(s) && IsEnt(s, a) && IsEnt(s, b) && s.t.sfq[a] != s.t.sfq[b]
    ensures s.t.level[a] >= s.t.level[b] ==> s.t.parent[a] != NIL
    ensures s.t.level[b] >= s.t.level[a] ==> s.t.parent[b] != NIL
  {
    RootParent(s, a);
    RootParent(s, b);
  }

  lemma PathsMeetHigher(s: State, a: nat, b: nat, u: nat, v: nat)
    requires Sane(s) && IsEnt(s, a) && IsEnt(s, b) && IsEnt(s, u) && IsEnt(s, v) && s.t.sfq[a] != s.t.sfq[b]
    requires AtOrAbove(s.t, a, u) && AtOrAbove(s.t, b, v) && s.t.sfq[u] == s.t.sfq[v]
    ensures s.t.level[a] >= s.t.level[b] ==> u != a
    ensures s.t.level[b] >= s.t.level[a] ==> v != b
  {
    AboveOnPath(s, a, u);
    AboveOnPath(s, b, v);
    OwnerLevel(s, s.t.sfq[u]);
    AboveParent(s, a);
    AboveParent(s, b);
    AboveSame(s, a, a, u);
    AboveSame(s, b, b, v);
  }

  /** Entity ce is ahead of ca by more than its own wakeup granularity. */
  ghost predicate Wins(s: State, ca: nat, ce: nat)
    requires Sane(s) && IsEnt(s, ca) && IsEnt(s, ce)
  {
    hide FixedPoint.ScaleDelta;
    s.tm.vruntime[ca] > s.tm.vruntime[ce] + FixedPoint.ScaleDelta(s.p.wakeupGranularity, s.a.weight[ce])
  }

  /** What the preemption check for thread e leaves while thread c runs and candidates were old_.  Where it
      compares the two, it does so in the queue where their paths meet, with everything charged; the
      winner's path is the next to run, and the last candidate too, if that is wanted and many run. */
  ghost predicate Answered(old_: Cands, r: State, c: int, e: nat, resched: bool)
    requires Sane(r) && IsEnt(r, e) && (c == NIL || IsEnt(r, c))
  {
    if c == NIL || r.th.cls[c] != Pss || r.th.cls[e] != Pss || resched then r.c == old_
    else
      var crowded := r.p.schedLast && r.a.nr[r.t.sfq[c]] >= r.p.nrLatency;
      if r.th.pri[c].IdlePri? && !r.th.pri[e].IdlePri? then
        && r.c.skip == old_.skip && r.c.next == old_.next
        && (if crowded && IsThread(r.t, e) then PointsUp(r.t, old_.last, r.c.last, e) else r.c.last == old_.last)
      else
        hide CommonAncestor, PointsUp;
        var (ca, ce) := CommonAncestor(r.t, c, e);
        var eager := !(IsThread(r.t, ce) && r.th.pri[ce].IdlePri?);
        && r.c.skip == old_.skip && Owed(r.m, r.tm, r.t.sfq[ca]) == 0
        && (if Wins(r, ca, ce) && eager then PointsUp(r.t, old_.next, r.c.next, ce) else r.c.next == old_.next)
        && (if Wins(r, ca, ce) && eager && crowded && IsThread(r.t, ce) then PointsUp(r.t, old_.last, r.c.last, ce)
            else r.c.last == old_.last)
  }

  lemma WakeupWins(s: State, ca: nat, ce: nat)
    requires Sane(s) && IsEnt(s, ca) && IsEnt(s, ce)
    ensures WakeupPreempt(s, ca, ce) > 0 <==> Wins(s, ca, ce)
  {
    hide FixedPoint.ScaleDelta;
  }

  lemma WinsSame(s: State, r: State, ca: nat, ce: nat)
    requires Sane(s) && Sane(r) && IsEnt(s, ca) && IsEnt(s, ce) && r == s.(c := r.c)
    ensures Wins(r, ca, ce) <==> Wins(s, ca, ce)
  {
    hide FixedPoint.ScaleDelta;
  }

  lemma SetNextIs(s: State, e: nat)
    requires Sane(s) && IsEnt(s, e)
    ensures var r := SetNext(s, e);
            && r == s.(c := s.c.(next := r.c.next))
            && (if IsThread(s.t, e) && s.th.pri[e].IdlePri? then r.c.next == s.c.next else PointsUp(s.t, s.c.next, r.c.next, e))
  {
    hide SetNextUp, PointsUp;
    SetNextPoints(s, e);
  }

  lemma SetLastIs(s: State, e: nat)
    requires Sane(s) && IsEnt(s, e)
    ensures var r := SetLast(s, e);
            && r == s.(c := s.c.(last := r.c.last))
            && (if IsThread(s.t, e) && s.th.pri[e].IdlePri? then r.c.last == s.c.last else PointsUp(s.t, s.c.last, r.c.last, e))
  {
    hide SetLastUp, PointsUp;
    SetLastPoints(s, e);
  }

  lemma CheckAnswered(s: State, e: nat, resched: bool)
    requires Sane(s) && IsEnt(s, e) && Started(s.t, s.m, s.tm)
    ensures Answered(s.c, CheckClassPreempt(s, e, resched), s.th.current, e, resched)
  {
    hide UpdateCurr, WakeupPreempt, Wins, SetNext, SetLast, CommonAncestor, PointsUp, Owed, WfTopo;
    var c, r := s.th.current, CheckClassPreempt(s, e, resched);
    if c != NIL && s.th.cls[c] == Pss && s.th.cls[e] == Pss && !resched {
      if s.th.pri[c].IdlePri? && !s.th.pri[e].IdlePri? {
        SetLastIs(s, e);
      } else {
        var (ca, ce) := CommonAncestor(s.t, c, e);
        SfqInRange(s, ca);
        var q := s.t.sfq[ca];
        var s1 := UpdateCurr(s, q);
        PaidNow(s, q);
        WakeupWins(s1, ca, ce);
        SetNextIs(s1, ce);
        var s2 := SetNext(s1, ce);
        SetLastIs(s2, ce);
        WinsSame(s1, r, ca, ce);
        OwedNow(s1, r, q);
      }
    }
  }

  lemma PaidNow(s: State, q: nat)
    requires Sane(s) && IsQueue(s, q) && Started(s.t, s.m, s.tm)
    ensures var r := UpdateCurr(s, q); Owed(r.m, r.tm, q) == 0
  {
    hide FixedPoint.ScaleDelta, NewVtime;
  }

  lemma OwedNow(s: State, r: State, q: nat)
    requires Sane(s) && Sane(r) && IsQueue(s, q) && r.t == s.t && r.m == s.m && r.tm == s.tm
    ensures Owed(r.m, r.tm, q) == Owed(s.m, s.tm, q)
  {
  }

  /** A thread that is started or woken is checked against the running one. */
  lemma StartAnswered(s: State, e: nat, now: int, resched: bool)
    requires Sane(s) && IsLive(s, e) && s.th.state[e] == Inhibited && Inv(s)
    ensures Answered(s.c, Do(s, Starts(e, now, resched)), s.th.current, e, resched)
  {
    hide Enqueue, CheckClassPreempt, Answered, Linked, Roles, Steady, Bounded, WfTopo, SizedM, SizedC, SizedTm;
    ParentGroup(s, e);
    RolesMean(s.t, s.m, s.th, s.th.current, e);
    AbsoluteIs(s, e);
    var s0 := s.(th := s.th.(initial := s.th.initial[e := false]));
    FrameLinked(s, s0);
    var s1 := SetClock(s0, now);
    SetClockLinked(s0, now);
    EnqueueLinked(s1, e, !s.th.initial[e]);
    var s2 := Enqueue(s1, e, !s.th.initial[e]);
    EnqueueCands(s1, e, !s.th.initial[e]);
    SteadyCurrent(s1, s2, e);
    LinkedStarted(s2);
    CheckAnswered(s2, e, resched);
  }

  lemma SteadyCurrent(s: State, r: State, e: nat)
    requires Sane(s) && Sane(r) && r.t == s.t && Steady(s, r, e)
    ensures r.th.current == s.th.current
  {
  }

  lemma LinkedStarted(s: State)
    requires Sane(s) && Linked(s)
    ensures Started(s.t, s.m, s.tm)
  {
    hide Structure, Chain, Conserved, Sorted;
  }

  /** Queueing a thread leaves all candidates alone. */
  lemma EnqueueCands(s: State, e: nat, wakeup: bool)
    requires Sane(s) && IsEnt(s, e) && IsThread(s.t, e)
    ensures Enqueue(s, e, wakeup).c == s.c
  {
    hide EnqueueWalk, SharesWalk;
    EnqueueWalkCands(NotRealtime(s, e), e, wakeup);
  }

  lemma {:induction false} EnqueueWalkCands(s: State, e: int, wakeup: bool)
    requires Sane(s) && (e == NIL || IsEnt(s, e))
    ensures EnqueueWalk(s, e, wakeup).0.c == s.c
    decreases Rank(s.t, e)
  {
    hide Arrive, MakeRunnable, TreeEnqueue, UpdateShares, WfTopo;
    if e != NIL && !s.m.joined[e] {
      ParentGroup(s, e);
      ArriveMembers(s.(ok := s.ok && !s.m.joined[e]), e, wakeup);
      EnqueueWalkCands(EnqueueEntity(s, e, wakeup), s.t.parent[e], true);
    }
  }

  /** And so is a queued thread that enters the pss class. */
  lemma EnterAnswered(s: State, e: nat, pri: PriClass, now: int, resched: bool)
    requires Sane(s) && IsLive(s, e) && !s.th.initial[e] && s.th.cls[e] == Realtime && ClassOf(pri) == Pss
    requires s.th.state[e] == OnRunq && s.th.pri[e] != pri && Inv(s)
    ensures Answered(s.c, Do(s, Reclasses(e, pri, now, resched)), s.th.current, e, resched)
  {
    hide Withdraw, Restore, CheckClassPreempt, Answered, Linked, Roles, Steady, Withdrawn, ClassReady, WfTopo, SizedM, SizedC, SizedTm;
    ClassReadyKeeps(s, e, pri);
    ClassUnfolds(s, e, pri, now, resched);
    var s2 := ClassReady(s, e, pri);
    EnterReady(s, e, pri);
    RestoreKeeps(s2, e, OnRunq, now);
    var s3 := Restore(s2, e, OnRunq, now);
    SteadyClass(s2, s3, e);
    EnterRestored(s2, e, now);
    LinkedStarted(s3);
    CheckAnswered(s3, e, resched);
  }

  lemma EnterReady(s: State, e: nat, pri: PriClass)
    requires Sane(s) && IsLive(s, e) && s.th.cls[e] == Realtime && s.th.state[e] == OnRunq && Inv(s)
    ensures var r := ClassReady(s, e, pri);
            r.c == s.c && r.th.current == s.th.current && r.th.initial == s.th.initial && r.th.current != e && r.t == s.t
  {
    hide Linked, Roles;
    RolesMean(s.t, s.m, s.th, s.th.current, e);
  }

  lemma EnterRestored(s: State, e: nat, now: int)
    requires Sane(s) && IsEnt(s, e) && IsThread(s.t, e)
    ensures Restore(s, e, OnRunq, now).c == s.c
  {
    hide Enqueue;
    EnqueueCands(s, e, false);
  }

  // ---------- giving up the processor ----------

  /** A runnable thread is put back with everything charged on its path, and is to be skipped if it has
      given up the processor of its own accord. */
  lemma YieldDoes(s: State, relinquish: bool, now: int)
    requires Sane(s) && s.th.current != NIL && s.th.cls[s.th.current] == Pss && Inv(s)
    ensures var c, r, e := SetClock(s, now), Yield(s, relinquish, now), s.th.current;
            && CreditsPath(c, r, e)
            && (if relinquish then Skips(c, s.c.skip, r.c.skip, e) && r.c.next == s.c.next && r.c.last == s.c.last else r.c == s.c)
  {
    hide Inv, PutPrevWalk, Skips, CreditsPath, WfTopo;
    var c, e := SetClock(s, now), s.th.current;
    RunningPss(s, e);
    PssPutPrevSkips(c, e, relinquish);
    InvCurrs(s);
    var c0 := NotRealtime(c, e);
    JoinedStill(s, c0, e);
    HomeAlso(s, c0);
    PutPrevWalkCredits(c0, e, relinquish);
    CreditsSame(c, c0, PutPrevWalk(c0, e, relinquish), e);
  }

  lemma RunningPss(s: State, e: nat)
    requires Sane(s) && s.th.current == e && IsEnt(s, e) && s.th.cls[e] == Pss && Inv(s)
    ensures IsThread(s.t, e) && s.m.joined[e] && PathJoined(s, e)
  {
    hide Timed, Placed, Joins, Candidates, GroupsAbsolute, Normal;
    RolesThread(s, e);
    PssJoined(s, s.th, e, e);
    assert Role(s.t, s.m, s.th, e, e);
    JoinedPath(s, e);
  }

  /** e and all groups above it are joined. */
  ghost predicate PathJoined(s: State, e: int)
    requires Sane(s) && (e == NIL || IsEnt(s, e))
    decreases Rank(s.t, e)
  {
    e == NIL || (s.m.joined[e] && PathJoined(s, s.t.parent[e]))
  }

  lemma {:induction false} JoinedPath(s: State, e: int)
    requires Sane(s) && (e == NIL || (IsEnt(s, e) && s.m.joined[e])) && Kept(s) && Groups(s.t, s.m, s.a, NIL)
    ensures PathJoined(s, e)
    decreases Rank(s.t, e)
  {
    hide Kept, Groups;
    if e != NIL {
      ParentJoined(s, e);
      JoinedPath(s, s.t.parent[e]);
    }
  }

  lemma CreditsSame(s: State, s': State, r: State, e: nat)
    requires Sane(s) && Sane(s') && Sane(r) && s'.t == s.t && r.t == s.t && s'.tm == s.tm && s'.m == s.m && s'.a == s.a && IsEnt(s, e)
    requires CreditsPath(s', r, e)
    ensures CreditsPath(s, r, e)
  {
    hide WfTopo, FixedPoint.Worth;
    Widths(s);
    forall x | 0 <= x < |s.t.sfq| && s.t.sfq[x] < |s.m.curr|
      ensures if OnPath(s.t, e, s.t.sfq[x]) != NIL && s.m.curr[s.t.sfq[x]] == x && s.tm.start[x] < s.tm.clock then Credited(s, r, x)
              else Untouched(s, r, x)
    {
      assert r.tm.sum[x] == r.tm.sum[x];
    }
  }

  /** What put_prev_entity does to the times is what update_curr does. */
  lemma PutPrevEntityTm(s: State, e: nat, relinquish: bool)
    requires Sane(s) && IsEnt(s, e) && s.m.joined[e] && s.t.sfq[e] < |s.t.owner|
    ensures var r := PutPrevEntity(s, e, relinquish);
            && r.tm == UpdateCurr(s, s.t.sfq[e]).tm && r.m.curr == s.m.curr[s.t.sfq[e] := NIL]
            && r.m.joined == s.m.joined && r.a == s.a
  {
    hide TreeEnqueue, MakeRunnable, SetSkip, UpdateCurr;
    var s0 := if IsThread(s.t, e) && relinquish then SetSkip(s, e) else s;
    var q := s.t.sfq[e];
    UpdateCurrReads(s, s0, q);
    var s1 := MakeRunnable(UpdateCurr(s0, q), e);
    var s2 := TreeEnqueue(s1, e);
    assert s1.tm == UpdateCurr(s, q).tm && s1.m == s.m && s1.a == s.a;
    assert PutPrevEntity(s, e, relinquish) == SetCurr(s2, q, NIL);
  }

  /** The queue that has been charged no longer has a current entity. */
  lemma PutPrevCredits(s: State, s1: State, r: State, e: nat)
    requires Sane(s) && Sane(s1) && Sane(r) && s1.t == s.t && r.t == s.t && s1.a == s.a && IsEnt(s, e)
    requires s.t.sfq[e] < |s.t.owner| && (s.t.parent[e] == NIL || IsEnt(s, s.t.parent[e]))
    requires s1.m.curr == s.m.curr[s.t.sfq[e] := NIL]
    requires CurrsHome(s) && s1.tm == UpdateCurr(s, s.t.sfq[e]).tm && CreditsPath(s1, r, s.t.parent[e])
    ensures CreditsPath(s, r, e)
  {
    hide FixedPoint.Worth, UpdateCurr, WfTopo;
    Widths(s);
    var q := s.t.sfq[e];
    UpdateCurrCredits(s, q);
    OnPathOnce(s, e);
    forall x | 0 <= x < |s.t.sfq| && s.t.sfq[x] < |s.m.curr|
      ensures if OnPath(s.t, e, s.t.sfq[x]) != NIL && s.m.curr[s.t.sfq[x]] == x && s.tm.start[x] < s.tm.clock then Credited(s, r, x)
              else Untouched(s, r, x)
    {
      assert r.tm.sum[x] == r.tm.sum[x] && s1.tm.sum[x] == s1.tm.sum[x];
    }
  }

  lemma {:induction false} PutPrevWalkCredits(s: State, e: int, relinquish: bool)
    requires Sane(s) && (e == NIL || IsEnt(s, e)) && PathJoined(s, e) && CurrsHome(s)
    ensures CreditsPath(s, PutPrevWalk(s, e, relinquish), e)
    decreases Rank(s.t, e)
  {
    hide PutPrevEntity, CreditsPath, UpdateCurr, WfTopo;
    if e == NIL {
      NoCredits(s);
    } else {
      ParentGroup(s, e);
      PutPrevEntityTm(s, e, relinquish);
      var s1 := PutPrevEntity(s, e, relinquish);
      JoinedStill(s, s1, s.t.parent[e]);
      HomeStill(s, s1, s.t.sfq[e]);
      PutPrevWalkCredits(s1, s.t.parent[e], relinquish);
      PutPrevCredits(s, s1, PutPrevWalk(s, e, relinquish), e);
    }
  }

  lemma {:induction false} JoinedStill(s: State, r: State, e: int)
    requires Sane(s) && Sane(r) && r.t == s.t && r.m.joined == s.m.joined && (e == NIL || IsEnt(s, e)) && PathJoined(s, e)
    ensures PathJoined(r, e)
    decreases Rank(s.t, e)
  {
    if e != NIL {
      JoinedStill(s, r, s.t.parent[e]);
    }
  }

  lemma HomeAlso(s: State, r: State)
    requires Sane(s) && Sane(r) && r.t == s.t && r.m == s.m && CurrsHome(s)
    ensures CurrsHome(r)
  {
  }

  lemma HomeStill(s: State, r: State, q: nat)
    requires Sane(s) && Sane(r) && r.t == s.t && IsQueue(s, q) && r.m.curr == s.m.curr[q := NIL] && CurrsHome(s)
    ensures CurrsHome(r)
  {
  }

  /** Who is put forward when thread e, which was joined in s, is off its queues in h: the groups that stay,
      if it has gone to sleep; nobody otherwise. */
  ghost predicate PutsForward(s: State, h: State, e: nat, sleep: bool)
    requires Sane(s) && Sane(h) && h.t == s.t && IsEnt(s, e)
  {
    StaysSomewhere(h, e);
    var p := Stays(h, e);
    && |h.c.next| == |s.c.next| == |s.t.owner|
    && (if sleep then forall q :: 0 <= q < |h.c.next| ==> if OnPath(s.t, p, q) != NIL then h.c.next[q] == OnPath(s.t, p, q)
                                                             else h.c.next[q] == s.c.next[q] || h.c.next[q] == NIL
        else Unset(s.c.next, h.c.next))
  }

  lemma {:induction false} StaysSomewhere(s: State, e: int)
    requires Sane(s) && (e == NIL || IsEnt(s, e))
    ensures Stays(s, e) == NIL || IsEnt(s, Stays(s, e))
    decreases Rank(s.t, e)
  {
    if e != NIL && !s.m.joined[e] {
      StaysSomewhere(s, s.t.parent[e]);
    }
  }

  lemma {:induction false} StaysSame(s: State, r: State, e: int)
    requires Sane(s) && Sane(r) && r.t == s.t && r.m.joined == s.m.joined && (e == NIL || IsEnt(s, e))
    ensures Stays(r, e) == Stays(s, e)
    decreases Rank(s.t, e)
  {
    if e != NIL && !s.m.joined[e] {
      StaysSame(s, r, s.t.parent[e]);
    }
  }

  lemma PssDequeueForward(s: State, e: nat, sleep: bool)
    requires Sane(s) && IsEnt(s, e) && Core(s) && IsThread(s.t, e) && s.m.joined[e] && !s.th.rtJoined[e] && s.th.absolute[e]
    ensures PutsForward(s, PssDequeue(s, e, sleep), e, sleep)
  {
    hide DequeueWalk, SharesWalk, Structure, GroupsAbsolute, Timed, Unset, WfTopo;
    assert NotRealtime(s, e) == s;
    WideStructure(s, e);
    DequeueWalkNext(s, e, sleep, sleep);
    var (s1, e1) := DequeueWalk(s, e, sleep, sleep);
    StaysSomewhere(s1, e);
    StaysSomewhere(PssDequeue(s, e, sleep), e);
    StaysSame(s1, PssDequeue(s, e, sleep), e);
  }

  /** When the running pss thread goes to sleep, the groups that still have members are the next to run;
      when it leaves for good, nobody is put forward. */
  lemma VacateForward(s: State, sleep: bool, now: int)
    requires Sane(s) && s.th.current != NIL && s.th.cls[s.th.current] == Pss && Inv(s)
    ensures PutsForward(s, Vacate(s, sleep, now), s.th.current, sleep)
  {
    hide PssDequeue, PssPutPrev, PutsForward, Inv, WfTopo, SizedM, SizedC, SizedTm;
    var e := s.th.current;
    RunsJoinedPss(s, e);
    var s0 := SetState(s, e, Inhibited);
    SetAside(s, now);
    var s1 := SetClock(s0, now);
    PssDequeueForward(s1, e, sleep);
    var s2 := PssDequeue(s1, e, sleep);
    PssDequeueKeeps(s1, e, sleep);
    PssPutPrevSkips(s2, e, false);
    PutPrevJoined(s2, e);
    ForwardSame(s1, s2, s, PssPutPrev(s2, e, false), e, sleep);
  }

  lemma RunsJoinedPss(s: State, e: nat)
    requires Sane(s) && s.th.current == e && IsEnt(s, e) && s.th.cls[e] == Pss && Inv(s)
    ensures IsThread(s.t, e) && s.m.joined[e] && !s.th.rtJoined[e] && s.th.absolute[e] && s.th.nrRunning != 0
  {
    hide Linked, Roles;
    RolesMean(s.t, s.m, s.th, e, e);
    RolesThread(s, e);
  }

  lemma SetAside(s: State, now: int)
    requires Sane(s) && s.th.current != NIL && Inv(s)
    ensures Core(SetClock(SetState(s, s.th.current, Inhibited), now))
  {
    hide Linked, Roles;
    var s0 := SetState(s, s.th.current, Inhibited);
    FrameLinked(s, s0);
    SetClockLinked(s0, now);
    LinkedCore(SetClock(s0, now));
  }

  lemma {:induction false} PutPrevWalkJoined(s: State, e: int, relinquish: bool)
    requires Sane(s) && (e == NIL || IsEnt(s, e))
    ensures PutPrevWalk(s, e, relinquish).m.joined == s.m.joined
    decreases Rank(s.t, e)
  {
    hide UpdateCurr, TreeEnqueue, MakeRunnable, SetSkip, WfTopo;
    if e != NIL {
      ParentGroup(s, e);
      PutPrevWalkJoined(PutPrevEntity(s, e, relinquish), s.t.parent[e], relinquish);
    }
  }

  lemma PutPrevJoined(s: State, e: nat)
    requires Sane(s) && IsEnt(s, e)
    ensures PssPutPrev(s, e, false).m.joined == s.m.joined
  {
    hide PutPrevWalk;
    PutPrevWalkJoined(NotRealtime(s, e), e, false);
  }

  lemma ForwardSame(s: State, h: State, s': State, h': State, e: nat, sleep: bool)
    requires Sane(s) && Sane(h) && Sane(s') && Sane(h') && h.t == s.t && s'.t == s.t && h'.t == s.t && IsEnt(s, e)
    requires s'.c == s.c && h'.c == h.c && h'.m.joined == h.m.joined && PutsForward(s, h, e, sleep)
    ensures PutsForward(s', h', e, sleep)
  {
    hide Unset, WfTopo, SizedM, SizedC;
    StaysSomewhere(h, e);
    StaysSomewhere(h', e);
    StaysSame(h, h', e);
  }

  // ---------- shares ----------

  /** Changing the shares of a group brings the groups above it to their shares.  The group itself keeps
      its weight: it gets the new one when a member next joins or leaves. */
  lemma SetSharesWeighs(s: State, g: nat, shares: nat)
    requires Sane(s) && IsEnt(s, g) && !IsThread(s.t, g)
    ensures var r := SetShares(s, g, shares);
            r == s || (r.a.weight[g] == s.a.weight[g] && GroupsWeigh(r, g))
  {
    hide SharesWalk, GroupsWeigh, WfTopo;
    Widths(s);
    ParentGroup(s, g);
    GroupQueues(s, g);
    var q := s.t.myq[g];
    var n := if shares < MIN_SHARES then MIN_SHARES else if shares > MAX_SHARES then MAX_SHARES else shares;
    var s1 := s.(a := s.a.(shares := s.a.shares[q := n]));
    SharesWalkWeighs(s1, g);
    assert Rank(s.t, g) >= Rank(s.t, g);
    Widths(SharesWalk(s1, g));
  }
}
