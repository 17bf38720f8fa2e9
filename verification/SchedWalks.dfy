/** The hierarchy invariant along the walks of the pss class (pss.c:1011-1216). */
module SchedWalks {
  import opened SchedState
  import opened SchedOps
  import opened SchedSteps
  import opened SchedBooks
  import opened SchedMembers
  import FixedPoint

  // ---------- candidates ----------

  ghost predicate CandOf(t: Topo, joined: seq<bool>, e: int, q: nat)
    requires |t.sfq| == |joined|
  {
    e == NIL || (0 <= e < |joined| && t.sfq[e] == q && joined[e])
  }

  /** skip, next and last are unset or joined entities of the same queue. */
  ghost predicate Candidates(t: Topo, joined: seq<bool>, c: Cands)
    requires |t.sfq| == |joined|
  {
    && (forall q :: 0 <= q < |c.skip| ==> CandOf(t, joined, c.skip[q], q))
    && (forall q :: 0 <= q < |c.next| ==> CandOf(t, joined, c.next[q], q))
    && (forall q :: 0 <= q < |c.last| ==> CandOf(t, joined, c.last[q], q))
  }

  /** The structural part of the invariant, with group x possibly not yet (un)joined. */
  ghost predicate Structure(s: State, x: int)
    requires Sane(s)
  {
    Kept(s) && Membership(s, x) && Candidates(s.t, s.m.joined, s.c)
  }

  lemma ParentJoined(s: State, e: nat)
    requires Sane(s) && IsEnt(s, e) && s.m.joined[e] && Kept(s) && Groups(s.t, s.m, s.a, NIL)
    ensures s.a.nr[s.t.sfq[e]] > 0
    ensures s.t.parent[e] != NIL ==> IsEnt(s, s.t.parent[e]) && s.m.joined[s.t.parent[e]] && s.t.myq[s.t.parent[e]] == s.t.sfq[e]
  {
    var q := s.t.sfq[e];
    LoadSumPart(s.t.sfq, s.m.joined, s.a.weight, q, |s.t.sfq|);
    assert QueueBooks(s.t, s.m.joined, s.a, q);
    assert s.t.parent[e] == s.t.owner[q];
  }

  lemma {:induction false} SetSkipKeeps(s: State, e: int)
    requires Sane(s) && (e == NIL || (IsEnt(s, e) && s.m.joined[e]))
    requires Kept(s) && Groups(s.t, s.m, s.a, NIL) && Candidates(s.t, s.m.joined, s.c)
    ensures Candidates(s.t, s.m.joined, SetSkip(s, e).c)
    decreases Rank(s.t, e)
  {
    if e != NIL {
      ParentJoined(s, e);
      var s1 := s.(c := s.c.(skip := s.c.skip[s.t.sfq[e] := e]));
      if s.a.nr[s.t.sfq[e]] <= 1 {
        SetSkipKeeps(s1, s.t.parent[e]);
      }
    }
  }

  lemma {:induction false} SetNextKeeps(s: State, e: int)
    requires Sane(s) && (e == NIL || (IsEnt(s, e) && s.m.joined[e]))
    requires Kept(s) && Groups(s.t, s.m, s.a, NIL) && Candidates(s.t, s.m.joined, s.c)
    ensures Candidates(s.t, s.m.joined, SetNextUp(s, e).c)
    decreases Rank(s.t, e)
  {
    if e != NIL {
      ParentJoined(s, e);
      SetNextKeeps(s.(c := s.c.(next := s.c.next[s.t.sfq[e] := e])), s.t.parent[e]);
    }
  }

  lemma {:induction false} SetLastKeeps(s: State, e: int)
    requires Sane(s) && (e == NIL || (IsEnt(s, e) && s.m.joined[e]))
    requires Kept(s) && Groups(s.t, s.m, s.a, NIL) && Candidates(s.t, s.m.joined, s.c)
    ensures Candidates(s.t, s.m.joined, SetLastUp(s, e).c)
    decreases Rank(s.t, e)
  {
    if e != NIL {
      ParentJoined(s, e);
      SetLastKeeps(s.(c := s.c.(last := s.c.last[s.t.sfq[e] := e])), s.t.parent[e]);
    }
  }

  lemma {:induction false} ClearSkipKeeps(s: State, e: int, joined: seq<bool>)
    requires Sane(s) && (e == NIL || IsEnt(s, e)) && |joined| == |s.m.joined| && Candidates(s.t, joined, s.c)
    ensures var c := ClearSkip(s, e).c;
            Candidates(s.t, joined, c) && c.next == s.c.next && c.last == s.c.last
            && (e != NIL ==> c.skip[s.t.sfq[e]] != e)
            && (forall q :: 0 <= q < |c.skip| ==> c.skip[q] == NIL || c.skip[q] == s.c.skip[q])
    decreases Rank(s.t, e)
  {
    if e != NIL && s.c.skip[s.t.sfq[e]] == e {
      ClearSkipKeeps(s.(c := s.c.(skip := s.c.skip[s.t.sfq[e] := NIL])), s.t.parent[e], joined);
    }
  }

  lemma {:induction false} ClearNextKeeps(s: State, e: int, joined: seq<bool>)
    requires Sane(s) && (e == NIL || IsEnt(s, e)) && |joined| == |s.m.joined| && Candidates(s.t, joined, s.c)
    ensures var c := ClearNext(s, e).c;
            Candidates(s.t, joined, c) && c.skip == s.c.skip && c.last == s.c.last
            && (e != NIL ==> c.next[s.t.sfq[e]] != e)
            && (forall q :: 0 <= q < |c.next| ==> c.next[q] == NIL || c.next[q] == s.c.next[q])
    decreases Rank(s.t, e)
  {
    if e != NIL && s.c.next[s.t.sfq[e]] == e {
      ClearNextKeeps(s.(c := s.c.(next := s.c.next[s.t.sfq[e] := NIL])), s.t.parent[e], joined);
    }
  }

  lemma {:induction false} ClearLastKeeps(s: State, e: int, joined: seq<bool>)
    requires Sane(s) && (e == NIL || IsEnt(s, e)) && |joined| == |s.m.joined| && Candidates(s.t, joined, s.c)
    ensures var c := ClearLast(s, e).c;
            Candidates(s.t, joined, c) && c.skip == s.c.skip && c.next == s.c.next
            && (e != NIL ==> c.last[s.t.sfq[e]] != e)
            && (forall q :: 0 <= q < |c.last| ==> c.last[q] == NIL || c.last[q] == s.c.last[q])
    decreases Rank(s.t, e)
  {
    if e != NIL && s.c.last[s.t.sfq[e]] == e {
      ClearLastKeeps(s.(c := s.c.(last := s.c.last[s.t.sfq[e] := NIL])), s.t.parent[e], joined);
    }
  }

  /** After clear_candidates no queue has e as a candidate, so e may leave. */
  lemma ClearCandidatesKeeps(s: State, e: nat)
    requires Sane(s) && IsEnt(s, e) && Candidates(s.t, s.m.joined, s.c)
    ensures Candidates(s.t, s.m.joined, ClearCandidates(s, e).c)
    ensures Candidates(s.t, s.m.joined[e := false], ClearCandidates(s, e).c)
  {
    var s1 := ClearSkip(s, e);
    ClearSkipKeeps(s, e, s.m.joined);
    var s2 := ClearNext(s1, e);
    ClearNextKeeps(s1, e, s.m.joined);
    ClearLastKeeps(s2, e, s.m.joined);
    var c := ClearCandidates(s, e).c;
    assert c == ClearLast(s2, e).c;
    forall q | 0 <= q < |c.skip| ensures CandOf(s.t, s.m.joined[e := false], c.skip[q], q) {
      assert CandOf(s.t, s.m.joined, c.skip[q], q);
    }
    forall q | 0 <= q < |c.next| ensures CandOf(s.t, s.m.joined[e := false], c.next[q], q) {
      assert CandOf(s.t, s.m.joined, c.next[q], q);
    }
    forall q | 0 <= q < |c.last| ensures CandOf(s.t, s.m.joined[e := false], c.last[q], q) {
      assert CandOf(s.t, s.m.joined, c.last[q], q);
    }
  }

  lemma MoreJoined(t: Topo, joined: seq<bool>, e: nat, c: Cands)
    requires |t.sfq| == |joined| && e < |joined| && Candidates(t, joined, c)
    ensures Candidates(t, joined[e := true], c)
  {
    var j := joined[e := true];
    forall q | 0 <= q < |c.skip| ensures CandOf(t, j, c.skip[q], q) {
      assert CandOf(t, joined, c.skip[q], q);
    }
    forall q | 0 <= q < |c.next| ensures CandOf(t, j, c.next[q], q) {
      assert CandOf(t, joined, c.next[q], q);
    }
    forall q | 0 <= q < |c.last| ensures CandOf(t, j, c.last[q], q) {
      assert CandOf(t, joined, c.last[q], q);
    }
  }

  // ---------- walks ----------

  lemma {:induction false} SharesWalkKeeps(s: State, e: int)
    requires Sane(s) && (e == NIL || IsEnt(s, e)) && Kept(s)
    ensures var r := SharesWalk(s, e); Kept(r) && r.a.nr == s.a.nr && r.a.shares == s.a.shares
    decreases Rank(s.t, e)
  {
    hide UpdateShares, Books;
    if e != NIL {
      var q := s.t.sfq[e];
      UpdateSharesBooks(s, s.m.joined, q);
      WeightsBut(s, s.t.owner[q]);
      UpdateSharesWeights(s, s.m.joined, q);
      SharesWalkKeeps(UpdateShares(s, q), s.t.parent[e]);
    }
  }

  lemma WeightsBut(s: State, x: int)
    requires Sane(s) && Weights(s.t, s.a, NIL)
    ensures Weights(s.t, s.a, x)
  {
  }

  lemma SharesWalkStructure(s: State, e: int)
    requires Sane(s) && (e == NIL || IsEnt(s, e)) && Structure(s, NIL)
    ensures var r := SharesWalk(s, e); Structure(r, NIL)
  {
    SharesWalkKeeps(s, e);
    GroupsOnly(s, SharesWalk(s, e), NIL);
  }

  /** Group entities keep absolute vruntimes. */
  ghost predicate GroupsAbsolute(t: Topo, absolute: seq<bool>)
    requires |t.myq| == |absolute|
  {
    forall g :: 0 <= g < |t.myq| && t.myq[g] != NIL ==> absolute[g]
  }

  lemma EnqueueEntityThreads(s: State, e: nat, wakeup: bool)
    requires Sane(s) && IsEnt(s, e)
    ensures var r := EnqueueEntity(s, e, wakeup);
            && r.th == (if IsThread(s.t, e) then MakeRunnable(s, e).th else s.th).(absolute := r.th.absolute)
            && r.th.absolute == s.th.absolute[e := s.th.absolute[e] || !wakeup]
  {
    hide UpdateCurr, TreeEnqueue, UpdateShares, Account;
    if wakeup {
      assert s.th.absolute[e := s.th.absolute[e]] == s.th.absolute;
    }
  }

  /** Along the enqueue walk every queue on the way becomes or stays non-empty and its group
      joined; the walk stops at the first ancestor that was joined already. */
  lemma {:induction false} EnqueueWalkKeeps(s: State, e: int, wakeup: bool)
    requires Sane(s) && (e == NIL || IsEnt(s, e))
    requires Structure(s, e) && CurrJoined(s.m) && GroupsAbsolute(s.t, s.th.absolute) && s.ok
    requires e != NIL && !IsThread(s.t, e) ==> s.a.nr[s.t.myq[e]] > 0
    requires e != NIL && !s.m.joined[e] ==> MayArrive(s, e, wakeup)
    ensures var r := EnqueueWalk(s, e, wakeup).0;
            && Structure(r, NIL) && r.ok && r.m.curr == s.m.curr && r.c == s.c && r.a.shares == s.a.shares
            && (forall x :: 0 <= x < |s.m.joined| && s.m.joined[x] ==> r.m.joined[x])
            && (e != NIL ==> r.m.joined[e])
            && (forall x :: 0 <= x < |s.m.joined| && IsThread(s.t, x) && x != e ==> r.m.joined[x] == s.m.joined[x])
            && GroupsAbsolute(r.t, r.th.absolute)
    decreases Rank(s.t, e)
  {
    hide EnqueueEntity, Kept, Timelines, Currs, Joins, Candidates, WfTopo;
    if e == NIL || s.m.joined[e] {
      GroupsAll(s, e);
    } else {
      ParentGroup(s, e);
      EnqueueStep(s, e, wakeup);
      EnqueueWalkKeeps(EnqueueEntity(s, e, wakeup), s.t.parent[e], true);
    }
  }

  /** One round of the enqueue walk. */
  lemma EnqueueStep(s: State, e: nat, wakeup: bool)
    requires Sane(s) && IsEnt(s, e) && !s.m.joined[e] && s.ok
    requires Structure(s, e) && CurrJoined(s.m) && GroupsAbsolute(s.t, s.th.absolute)
    requires !IsThread(s.t, e) ==> s.a.nr[s.t.myq[e]] > 0
    requires MayArrive(s, e, wakeup)
    ensures var r, p := EnqueueEntity(s, e, wakeup), s.t.parent[e];
            && Structure(r, p) && CurrJoined(r.m) && r.ok && r.m.curr == s.m.curr && r.c == s.c && r.a.shares == s.a.shares
            && r.m.joined == s.m.joined[e := true] && GroupsAbsolute(r.t, r.th.absolute)
            && (p != NIL ==> IsEnt(s, p) && r.a.nr[r.t.myq[p]] > 0 && (!r.m.joined[p] ==> MayArrive(r, p, true)))
  {
    hide EnqueueEntity, Books, Weights, Timelines, Currs, Joins;
    assert s.m.curr[s.t.sfq[e]] != e;
    EnqueueEntityMembers(s, e, wakeup);
    EnqueueEntityThreads(s, e, wakeup);
    MoreJoined(s.t, s.m.joined, e, s.c);
    ParentGroup(s, e);
  }

  lemma GroupsAll(s: State, e: int)
    requires Sane(s) && Groups(s.t, s.m, s.a, e)
    requires e != NIL ==> IsEnt(s, e) && s.m.joined[e] && (!IsThread(s.t, e) ==> s.a.nr[s.t.myq[e]] > 0)
    ensures Groups(s.t, s.m, s.a, NIL)
  {
  }

  lemma ParentGroup(s: State, e: nat)
    requires Sane(s) && IsEnt(s, e)
    ensures var p := s.t.parent[e];
            && |s.t.sfq| == |s.t.myq| == |s.t.level| == |s.t.parent|
            && IsQueue(s, s.t.sfq[e]) && p == s.t.owner[s.t.sfq[e]]
            && (p == NIL || IsEnt(s, p)) && Rank(s.t, e) == Rank(s.t, p) + 1
            && (p != NIL ==> !IsThread(s.t, p) && s.t.myq[p] == s.t.sfq[e] && p != e)
  {
    OwnerElsewhere(s, e);
    assert s.t.parent[e] == s.t.owner[s.t.sfq[e]];
  }

  /** One round of the dequeue walk: the parent is left with a right or an empty queue. */
  lemma DequeueStep(s: State, e: nat, sleep: bool)
    requires Sane(s) && IsEnt(s, e) && s.m.joined[e] && s.ok
    requires Structure(s, e) && GroupsAbsolute(s.t, s.th.absolute)
    requires !IsThread(s.t, e) ==> s.a.nr[s.t.myq[e]] == 0
    requires !sleep ==> s.th.absolute[e] && IsThread(s.t, e)
    ensures var r, p := DequeueEntity(s, e, sleep), s.t.parent[e];
            && Structure(r, p) && r.ok && r.m.curr == s.m.curr && r.a.shares == s.a.shares
            && r.m.joined == s.m.joined[e := false] && GroupsAbsolute(r.t, r.th.absolute)
            && (p != NIL ==> IsEnt(s, p) && !IsThread(s.t, p) && s.t.myq[p] == s.t.sfq[e] && p != e && r.m.joined[p])
            && (r.a.load[s.t.sfq[e]] != 0 <==> r.a.nr[s.t.sfq[e]] > 0) && r.a.nr[s.t.sfq[e]] >= 0
  {
    hide DequeueEntity, Books, Weights, Timelines, Currs, Joins;
    var r := DequeueEntity(s, e, sleep);
    DequeueEntityMembers(s, e, sleep);
    DequeueEntityRest(s, e, sleep);
    ParentGroup(s, e);
    assert s.t.parent[e] == s.t.owner[s.t.sfq[e]];
    LoadIsCount(r, s.t.sfq[e]);
    WasCounted(s, r, e);
  }

  lemma NextSet(s: State, p: nat)
    requires Sane(s) && IsEnt(s, p) && s.m.joined[p] && !IsThread(s.t, p) && Structure(s, NIL)
    ensures Structure(SetNext(s, p), NIL)
  {
    SetNextKeeps(s, p);
  }

  lemma {:induction false} DequeueWalkKeeps(s: State, e: int, sleep: bool, isSleep: bool)
    requires Sane(s) && (e == NIL || IsEnt(s, e))
    requires Structure(s, e) && GroupsAbsolute(s.t, s.th.absolute) && s.ok
    requires e != NIL ==> s.m.joined[e] && (!IsThread(s.t, e) ==> s.a.nr[s.t.myq[e]] == 0)
    requires e != NIL && !sleep ==> s.th.absolute[e] && IsThread(s.t, e)
    ensures var r := DequeueWalk(s, e, sleep, isSleep).0;
            && Structure(r, NIL) && r.ok && r.m.curr == s.m.curr && r.a.shares == s.a.shares
            && (e != NIL ==> !r.m.joined[e])
            && (forall x :: 0 <= x < |s.m.joined| && r.m.joined[x] ==> s.m.joined[x])
            && (forall x :: 0 <= x < |s.m.joined| && IsThread(s.t, x) && x != e ==> r.m.joined[x] == s.m.joined[x])
            && GroupsAbsolute(r.t, r.th.absolute)
    decreases Rank(s.t, e)
  {
    hide DequeueEntity, Kept, Timelines, Currs, Joins, Candidates, SetNextUp, WfTopo;
    if e != NIL {
      ParentGroup(s, e);
      var s1, p := DequeueEntity(s, e, sleep), s.t.parent[e];
      DequeueStep(s, e, sleep);
      if s1.a.load[s.t.sfq[e]] != 0 {
        GroupsAll(s1, p);
        if isSleep && p != NIL {
          NextSet(s1, p);
        }
      } else {
        DequeueWalkKeeps(s1, p, true, isSleep);
      }
    }
  }

  /** The parent of a joined entity is joined, also after the entity has left. */
  lemma WasCounted(s: State, r: State, e: nat)
    requires Sane(s) && Sane(r) && IsEnt(s, e) && r.t == s.t && s.m.joined[e] && Kept(s) && Kept(r)
    requires Groups(s.t, s.m, s.a, e) && r.m.joined == s.m.joined[e := false]
    requires r.a.nr == s.a.nr[s.t.sfq[e] := s.a.nr[s.t.sfq[e]] - 1]
    ensures s.t.parent[e] != NIL ==> IsEnt(s, s.t.parent[e]) && r.m.joined[s.t.parent[e]]
    ensures r.a.nr[s.t.sfq[e]] >= 0
  {
    ParentGroup(s, e);
    LoadSumPart(s.t.sfq, s.m.joined, s.a.weight, s.t.sfq[e], |s.t.sfq|);
    assert QueueBooks(s.t, s.m.joined, s.a, s.t.sfq[e]);
    NrFromBooks(r, s.t.sfq[e]);
  }

  lemma DequeueEntityRest(s: State, e: nat, sleep: bool)
    requires Sane(s) && IsEnt(s, e) && s.m.joined[e] && Placed(s) && Candidates(s.t, s.m.joined, s.c)
    ensures var r := DequeueEntity(s, e, sleep);
            && Candidates(r.t, s.m.joined[e := false], r.c)
            && r.th == (if IsThread(s.t, e) then RunqDequeue(s, e).th else s.th).(absolute := r.th.absolute)
            && r.th.absolute == s.th.absolute[e := s.th.absolute[e] && sleep]
  {
    hide Detach, UpdateShares, Account, NewVtime, ClearCandidates;
    DetachMembers(s, e);
    ClearCandidatesKeeps(if IsThread(s.t, e) then RunqDequeue(s, e) else s, e);
    if sleep {
      assert s.th.absolute[e := s.th.absolute[e]] == s.th.absolute;
    }
  }

  /** One round of the put_prev walk: the end of the chain moves up. */
  lemma PutPrevStep(s: State, e: nat, relinquish: bool)
    requires Sane(s) && IsEnt(s, e) && s.ok && Structure(s, NIL) && Chain(s.t, s.m, e)
    requires s.m.curr[s.t.sfq[e]] == e && (!IsThread(s.t, e) ==> s.m.curr[s.t.myq[e]] == NIL)
    requires IsThread(s.t, e) ==> !s.th.onRunq[e]
    ensures var r, p := PutPrevEntity(s, e, relinquish), s.t.parent[e];
            && Structure(r, NIL) && Chain(r.t, r.m, p) && r.ok && r.m.joined == s.m.joined && r.a == s.a
            && r.m.curr == s.m.curr[s.t.sfq[e] := NIL]
            && (p != NIL ==> r.m.curr[s.t.sfq[p]] == p && r.m.curr[s.t.myq[p]] == NIL)
            && (forall x :: 0 <= x < |s.t.sfq| && s.m.curr[s.t.sfq[x]] != x ==> r.m.curr[s.t.sfq[x]] != x)
  {
    hide PutPrevEntity, Kept, Timelines, Joins, Groups, Candidates;
    var r := PutPrevEntity(s, e, relinquish);
    ParentGroup(s, e);
    PutPrevEntityMembers(s, e, relinquish);
    PutPrevEntityCands(s, e, relinquish);
    KeptOnly(s, r);
    var p := s.t.parent[e];
    if p != NIL {
      NotOwnGroup(s, p);
    }
  }

  lemma {:induction false} PutPrevWalkKeeps(s: State, e: int, relinquish: bool)
    requires Sane(s) && (e == NIL || IsEnt(s, e)) && s.ok
    requires Structure(s, NIL) && Chain(s.t, s.m, e)
    requires e != NIL ==> s.m.curr[s.t.sfq[e]] == e && (!IsThread(s.t, e) ==> s.m.curr[s.t.myq[e]] == NIL)
    requires e != NIL && IsThread(s.t, e) ==> !s.th.onRunq[e]
    ensures var r := PutPrevWalk(s, e, relinquish);
            && Structure(r, NIL) && Chain(r.t, r.m, NIL) && r.ok && r.m.joined == s.m.joined && r.a == s.a
            && (e != NIL ==> NoCurr(r.m))
    decreases Rank(s.t, e)
  {
    hide PutPrevEntity, Kept, Timelines, Joins, Groups, Candidates, WfTopo;
    if e != NIL {
      var s1, p := PutPrevEntity(s, e, relinquish), s.t.parent[e];
      ParentGroup(s, e);
      PutPrevStep(s, e, relinquish);
      PutPrevWalkKeeps(s1, p, relinquish);
      if p == NIL {
        RootParent(s, e);
        ChainEmpty(s1);
      }
    }
  }

  lemma KeptOnly(s: State, r: State)
    requires Sane(s) && Sane(r) && r.t == s.t && r.a == s.a && r.m.joined == s.m.joined
    ensures Kept(r) <==> Kept(s)
  {
  }

  lemma PutPrevEntityCands(s: State, e: nat, relinquish: bool)
    requires Sane(s) && IsEnt(s, e) && Kept(s) && Groups(s.t, s.m, s.a, NIL) && Candidates(s.t, s.m.joined, s.c)
    ensures Candidates(s.t, s.m.joined, PutPrevEntity(s, e, relinquish).c)
  {
    hide SetSkip, UpdateCurr, TreeEnqueue;
    if s.m.joined[e] && IsThread(s.t, e) && relinquish {
      SetSkipKeeps(s, e);
    }
  }

  ghost predicate NoCurr(m: Members) {
    forall q :: 0 <= q < |m.curr| ==> m.curr[q] == NIL
  }

  /** With no current entity at the root there is none anywhere. */
  lemma ChainEmpty(s: State)
    requires Sane(s) && Chain(s.t, s.m, NIL) && s.m.curr[0] == NIL
    ensures NoCurr(s.m)
  {
    forall q | 0 <= q < |s.m.curr| ensures s.m.curr[q] == NIL {
      ChainEmptyAt(s, q);
    }
  }

  lemma {:induction false} ChainEmptyAt(s: State, q: nat)
    requires Sane(s) && Chain(s.t, s.m, NIL) && s.m.curr[0] == NIL && IsQueue(s, q)
    ensures s.m.curr[q] == NIL
    decreases Rank(s.t, s.t.owner[q])
  {
    if q > 0 {
      var g := s.t.owner[q];
      assert s.t.myq[g] == q;
      ParentGroup(s, g);
      assert s.t.parent[g] == s.t.owner[s.t.sfq[g]];
      ChainEmptyAt(s, s.t.sfq[g]);
    }
  }

  /** Queues at this level or above have no current entity. */
  ghost predicate ClearAbove(t: Topo, m: Members, rank: nat)
    requires WfTopo(t) && |m.curr| == |t.owner|
  {
    forall q :: 0 <= q < |m.curr| && Rank(t, t.owner[q]) < rank ==> m.curr[q] == NIL
  }

  /** One round of the activate walk: the chain grows by one entity. */
  lemma ActivateStep(s: State, e: nat)
    requires Sane(s) && IsEnt(s, e) && s.ok && s.m.joined[e]
    requires Structure(s, NIL) && Chain(s.t, s.m, e) && ClearAbove(s.t, s.m, Rank(s.t, e))
    requires !IsThread(s.t, e) ==> s.m.curr[s.t.myq[e]] != NIL
    ensures s.m.curr[s.t.sfq[e]] == NIL
    ensures var r, p := ActivateEntity(s, e), s.t.parent[e];
            && Structure(r, NIL) && Chain(r.t, r.m, p) && ClearAbove(r.t, r.m, Rank(s.t, p))
            && r.ok && r.m.joined == s.m.joined && r.a == s.a && r.c == s.c
            && r.m.curr == s.m.curr[s.t.sfq[e] := e]
            && (p != NIL ==> r.m.joined[p] && r.m.curr[r.t.myq[p]] != NIL)
  {
    hide ActivateEntity, Kept, Timelines, Currs, Groups, Candidates;
    var r := ActivateEntity(s, e);
    ParentGroup(s, e);
    ParentJoined(s, e);
    ActivateEntityMembers(s, e);
    KeptOnly(s, r);
  }

  lemma {:induction false} ActivateWalkKeeps(s: State, e: int)
    requires Sane(s) && (e == NIL || IsEnt(s, e)) && s.ok
    requires Structure(s, NIL) && Chain(s.t, s.m, e) && ClearAbove(s.t, s.m, Rank(s.t, e))
    requires e != NIL ==> s.m.joined[e] && (!IsThread(s.t, e) ==> s.m.curr[s.t.myq[e]] != NIL)
    ensures var r := ActivateWalk(s, e);
            && Structure(r, NIL) && Chain(r.t, r.m, NIL) && r.ok && r.m.joined == s.m.joined && r.a == s.a && r.c == s.c
            && (e != NIL ==> r.m.curr[s.t.sfq[e]] == e)
            && (forall q :: 0 <= q < |s.m.curr| && Rank(s.t, s.t.owner[q]) >= Rank(s.t, e) ==> r.m.curr[q] == s.m.curr[q])
    decreases Rank(s.t, e)
  {
    hide ActivateEntity, Kept, Timelines, Currs, Groups, WfTopo;
    if e != NIL {
      ParentGroup(s, e);
      ActivateStep(s, e);
      ActivateWalkKeeps(ActivateEntity(s, e), s.t.parent[e]);
    }
  }
}
