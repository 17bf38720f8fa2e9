/** Who is on which timeline, who is current, and which groups are joined
    (pss.c:662-716, 983-1216). */
module SchedMembers {
  import opened SchedState
  import opened SchedOps
  import opened SchedBooks
  import FixedPoint

  // ---------- invariants ----------

  /** Timelines hold exactly the flagged entities of their own queue, once each. */
  ghost predicate Timelines(t: Topo, m: Members)
    requires |t.sfq| == |m.onSfq| == |m.joined| && |t.owner| == |m.timeline| == |m.curr|
  {
    && (forall q, i, j :: 0 <= q < |m.timeline| && 0 <= i < j < |m.timeline[q]| ==> m.timeline[q][i] != m.timeline[q][j])
    && (forall q, i {:trigger m.timeline[q][i]} :: 0 <= q < |m.timeline| && 0 <= i < |m.timeline[q]| ==>
          m.timeline[q][i] < |t.sfq| && t.sfq[m.timeline[q][i]] == q && m.onSfq[m.timeline[q][i]])
    && (forall e :: 0 <= e < |m.onSfq| && m.onSfq[e] ==> t.sfq[e] < |m.timeline| && e in m.timeline[t.sfq[e]])
  }

  /** The current entity of a queue is one of its own and not on its timeline. */
  ghost predicate Currs(t: Topo, m: Members)
    requires |t.sfq| == |m.onSfq| == |m.joined| && |t.owner| == |m.timeline| == |m.curr|
  {
    forall q :: 0 <= q < |m.curr| && m.curr[q] != NIL ==>
      0 <= m.curr[q] < |t.sfq| && t.sfq[m.curr[q]] == q && !m.onSfq[m.curr[q]]
  }

  /** A joined entity is on its timeline or current, never both, and nothing else is on a timeline. */
  ghost predicate Joins(t: Topo, m: Members)
    requires |t.sfq| == |m.onSfq| == |m.joined| && |t.owner| == |m.timeline| == |m.curr|
  {
    && (forall e :: 0 <= e < |m.onSfq| && m.onSfq[e] ==> m.joined[e])
    && (forall e {:trigger m.joined[e]} :: 0 <= e < |m.joined| && m.joined[e] && !m.onSfq[e] && t.sfq[e] < |m.curr| ==>
          m.curr[t.sfq[e]] == e)
  }

  /** A group entity, except possibly x, is joined exactly when its own queue is not empty. */
  ghost predicate Groups(t: Topo, m: Members, a: Acct, x: int)
    requires |t.myq| == |m.joined| && |t.owner| == |a.nr|
  {
    forall g {:trigger t.myq[g]} :: 0 <= g < |t.myq| && g != x && 0 <= t.myq[g] < |a.nr| ==>
      (m.joined[g] <==> a.nr[t.myq[g]] > 0)
  }

  /** A group entity, except possibly x, is current exactly when its own queue has a current
      entity: the curr pointers form one chain from the root. */
  ghost predicate Chain(t: Topo, m: Members, x: int)
    requires |t.myq| == |t.sfq| && |t.owner| == |m.curr|
  {
    forall g {:trigger t.myq[g]} :: 0 <= g < |t.myq| && g != x && 0 <= t.myq[g] < |m.curr| && t.sfq[g] < |m.curr| ==>
      (m.curr[t.sfq[g]] == g <==> m.curr[t.myq[g]] != NIL)
  }

  ghost predicate Placed(s: State)
    requires Sane(s)
  {
    Timelines(s.t, s.m) && Currs(s.t, s.m)
  }

  ghost predicate Membership(s: State, x: int)
    requires Sane(s)
  {
    Placed(s) && Joins(s.t, s.m) && Groups(s.t, s.m, s.a, x)
  }

  /** No queue keeps an entity that has left as its current one. */
  ghost predicate CurrJoined(m: Members)
    requires forall q {:trigger m.curr[q]} :: 0 <= q < |m.curr| ==> NIL <= m.curr[q] < |m.joined|
  {
    forall q :: 0 <= q < |m.curr| && m.curr[q] != NIL ==> m.joined[m.curr[q]]
  }

  // ---------- timelines under insertion and removal ----------

  lemma {:induction false} InsertIdElems(tl: seq<nat>, v: seq<int>, e: nat)
    requires e < |v| && (forall i :: 0 <= i < |tl| ==> tl[i] < |v|)
    ensures forall x :: x in InsertId(tl, v, e) <==> x == e || x in tl
    ensures |InsertId(tl, v, e)| == |tl| + 1
  {
    if tl != [] && v[e] >= v[tl[0]] {
      InsertIdElems(tl[1..], v, e);
      assert forall x :: x in tl <==> x == tl[0] || x in tl[1..];
    }
  }

  ghost predicate Distinct(tl: seq<nat>) {
    forall i, j :: 0 <= i < j < |tl| ==> tl[i] != tl[j]
  }

  lemma {:induction false} InsertIdDistinct(tl: seq<nat>, v: seq<int>, e: nat)
    requires e < |v| && (forall i :: 0 <= i < |tl| ==> tl[i] < |v|)
    requires Distinct(tl) && e !in tl
    ensures Distinct(InsertId(tl, v, e))
  {
    if tl != [] && v[e] >= v[tl[0]] {
      InsertIdDistinct(tl[1..], v, e);
      InsertIdElems(tl[1..], v, e);
      var r := InsertId(tl[1..], v, e);
      assert tl[0] !in tl[1..];
      assert forall j :: 0 <= j < |r| ==> r[j] in r;
    }
  }

  lemma {:induction false} WithoutIdElems(tl: seq<nat>, e: nat)
    requires Distinct(tl)
    ensures forall x :: x in WithoutId(tl, e) <==> x in tl && x != e
    ensures Distinct(WithoutId(tl, e))
  {
    if tl != [] {
      assert forall x :: x in tl <==> x == tl[0] || x in tl[1..];
      assert tl[0] !in tl[1..];
      if tl[0] != e {
        WithoutIdElems(tl[1..], e);
        var r := WithoutId(tl[1..], e);
        assert forall j :: 0 <= j < |r| ==> r[j] in r;
      }
    }
  }

  lemma TreeEnqueuePlaced(s: State, e: nat)
    requires Sane(s) && IsEnt(s, e) && Placed(s) && !s.m.onSfq[e] && s.m.curr[s.t.sfq[e]] != e
    ensures var r := TreeEnqueue(s, e);
            && Placed(r) && r.ok == s.ok && r.m.joined == s.m.joined && r.m.curr == s.m.curr
            && r.m.onSfq == s.m.onSfq[e := true] && r == s.(m := r.m)
  {
    hide InsertId;
    var r, q := TreeEnqueue(s, e), s.t.sfq[e];
    var tl := s.m.timeline[q];
    assert Distinct(tl);
    assert e !in tl;
    InsertIdElems(tl, s.tm.vruntime, e);
    InsertIdDistinct(tl, s.tm.vruntime, e);
    assert r.m.timeline[q] == InsertId(tl, s.tm.vruntime, e);
    TimelinesFrom(s, r, q, e);
  }

  /** One queue's timeline has changed; the others are as before. */
  lemma TimelinesFrom(s: State, r: State, q: nat, e: nat)
    requires Sane(s) && Sane(r) && r.t == s.t && IsQueue(s, q) && IsEnt(s, e) && s.t.sfq[e] == q && Timelines(s.t, s.m)
    requires Distinct(r.m.timeline[q])
    requires forall x :: x in r.m.timeline[q] ==> x == e || x in s.m.timeline[q]
    requires forall x :: x in s.m.timeline[q] && x != e ==> x in r.m.timeline[q]
    requires r.m.onSfq[e] <==> e in r.m.timeline[q]
    requires forall p :: 0 <= p < |s.m.timeline| && p != q ==> r.m.timeline[p] == s.m.timeline[p]
    requires forall x :: 0 <= x < |s.m.onSfq| && x != e ==> r.m.onSfq[x] == s.m.onSfq[x]
    ensures Timelines(r.t, r.m)
  {
    forall p, i | 0 <= p < |r.m.timeline| && 0 <= i < |r.m.timeline[p]|
      ensures s.t.sfq[r.m.timeline[p][i]] == p && r.m.onSfq[r.m.timeline[p][i]]
    {
      var x := r.m.timeline[p][i];
      if p == q {
        assert x in r.m.timeline[q];
        if x != e {
          var k :| 0 <= k < |s.m.timeline[q]| && s.m.timeline[q][k] == x;
        }
      } else {
        assert x == s.m.timeline[p][i];
      }
    }
    forall x | 0 <= x < |r.m.onSfq| && r.m.onSfq[x] ensures x in r.m.timeline[s.t.sfq[x]] {
      if x != e {
        assert x in s.m.timeline[s.t.sfq[x]];
      }
    }
  }

  lemma TreeDequeuePlaced(s: State, e: nat)
    requires Sane(s) && IsEnt(s, e) && Placed(s) && s.m.onSfq[e]
    ensures var r := TreeDequeue(s, e);
            && Placed(r) && r.ok == s.ok && r.m.joined == s.m.joined && r.m.curr == s.m.curr
            && r.m.onSfq == s.m.onSfq[e := false] && r == s.(m := r.m)
  {
    hide WithoutId;
    var r, q := TreeDequeue(s, e), s.t.sfq[e];
    assert Distinct(s.m.timeline[q]);
    WithoutIdElems(s.m.timeline[q], e);
    assert r.m.timeline[q] == WithoutId(s.m.timeline[q], e);
    TimelinesFrom(s, r, q, e);
  }

  // ---------- entities ----------

  /** What the assertions on enqueue_entity's path need of a thread or group entity. */
  ghost predicate MayArrive(s: State, e: nat, wakeup: bool)
    requires Sane(s) && IsEnt(s, e)
  {
    && s.th.absolute[e] == wakeup
    && (IsThread(s.t, e) ==> !s.th.onRunq[e])
  }

  /** Arriving, being made runnable and being charged for leave membership alone. */
  lemma ArriveMembers(s: State, e: nat, wakeup: bool)
    requires Sane(s) && IsEnt(s, e)
    ensures var r := MakeRunnable(Arrive(s, e, wakeup), e);
            r.m == s.m && r.a == s.a && r.c == s.c && (s.ok && MayArrive(s, e, wakeup) ==> r.ok)
  {
    hide UpdateCurr;
  }

  lemma ParentOwns(s: State, e: nat)
    requires Sane(s) && IsEnt(s, e)
    ensures s.t.parent[e] == s.t.owner[s.t.sfq[e]]
    ensures s.t.parent[e] == NIL || (IsEnt(s, s.t.parent[e]) && s.t.myq[s.t.parent[e]] == s.t.sfq[e])
  {
  }

  lemma EnqueueEntityMembers(s: State, e: nat, wakeup: bool)
    requires Sane(s) && IsEnt(s, e) && !s.m.joined[e] && s.m.curr[s.t.sfq[e]] != e
    requires Kept(s) && Membership(s, e)
    requires !IsThread(s.t, e) ==> s.a.nr[s.t.myq[e]] > 0
    ensures var r := EnqueueEntity(s, e, wakeup);
            && Kept(r) && Membership(r, s.t.parent[e])
            && r.m.curr == s.m.curr && r.m.joined == s.m.joined[e := true] && r.c == s.c
            && r.a.nr == s.a.nr[s.t.sfq[e] := s.a.nr[s.t.sfq[e]] + 1] && r.a.nr[s.t.sfq[e]] > 0
            && r.a.shares == s.a.shares
            && (s.ok && MayArrive(s, e, wakeup) ==> r.ok)
  {
    hide Arrive, MakeRunnable, UpdateShares, Account, TreeEnqueue, Books, Weights, SizedTh, SizedTm, SizedC, WfTopo;
    SfqInRange(s, e);
    ParentOwns(s, e);
    EnqueueEntityBooks(s, e, wakeup);
    NrFromBooks(s, s.t.sfq[e]);
    var s0 := s.(ok := s.ok && !s.m.joined[e]);
    ArriveMembers(s0, e, wakeup);
    var s1 := MakeRunnable(Arrive(s0, e, wakeup), e);
    TreeEnqueuePlaced(s1, e);
    var r := EnqueueEntity(s, e, wakeup);
    assert r.m == TreeEnqueue(s1, e).m.(joined := s.m.joined[e := true]);
    JoinedLater(TreeEnqueue(s1, e), r);
    OwnerElsewhere(s, e);
    NotOwnGroup(s, e);
  }

  lemma NrFromBooks(s: State, q: nat)
    requires Sane(s) && IsQueue(s, q) && Kept(s)
    ensures s.a.nr[q] >= 0
  {
    assert QueueBooks(s.t, s.m.joined, s.a, q);
  }

  lemma JoinedLater(s: State, r: State)
    requires Sane(s) && Sane(r) && r.t == s.t && r.m == s.m.(joined := r.m.joined) && Placed(s)
    ensures Placed(r)
  {
  }

  lemma NotOwnGroup(s: State, e: nat)
    requires Sane(s) && IsEnt(s, e)
    ensures s.t.myq[e] != s.t.sfq[e]
  {
    OwnerElsewhere(s, e);
    assert s.t.myq[e] != NIL ==> s.t.owner[s.t.myq[e]] == e;
  }

  // Detach: what leaves of the entity before it is unjoined.

  lemma DetachMembers(s: State, e: nat)
    requires Sane(s) && IsEnt(s, e) && Placed(s)
    ensures var r := Detach(s, e);
            && Placed(r) && r.ok == s.ok && r.m.onSfq == s.m.onSfq[e := false] && r.tm == UpdateCurr(s, s.t.sfq[e]).tm
            && r.th == (if IsThread(s.t, e) then RunqDequeue(s, e) else s).th
            && r.c == ClearCandidates(if IsThread(s.t, e) then RunqDequeue(s, e) else s, e).c
  {
    hide UpdateCurr, TreeDequeue;
    var s1 := UpdateCurr(s, s.t.sfq[e]);
    var s2 := if IsThread(s.t, e) then RunqDequeue(s1, e) else s1;
    ClearFrame(s2, if IsThread(s.t, e) then RunqDequeue(s, e) else s, e);
    var s3 := ClearCandidates(s2, e);
    if s3.m.onSfq[e] {
      TreeDequeuePlaced(s3, e);
    } else {
      assert s.m.onSfq[e := false] == s.m.onSfq;
    }
  }

  /** The candidate walks read only the hierarchy and the candidates. */
  lemma ClearFrame(s: State, r: State, e: nat)
    requires Sane(s) && Sane(r) && r.t == s.t && r.c == s.c && IsEnt(s, e)
    ensures ClearCandidates(s, e).c == ClearCandidates(r, e).c
  {
    ClearSkipFrame(s, r, e);
    ClearNextFrame(ClearSkip(s, e), ClearSkip(r, e), e);
    ClearLastFrame(ClearNext(ClearSkip(s, e), e), ClearNext(ClearSkip(r, e), e), e);
  }

  lemma {:induction false} ClearSkipFrame(s: State, r: State, e: int)
    requires Sane(s) && Sane(r) && r.t == s.t && r.c == s.c && (e == NIL || IsEnt(s, e))
    ensures ClearSkip(s, e).c == ClearSkip(r, e).c
    decreases if e == NIL then 0 else s.t.level[e] + 1
  {
    if e != NIL && s.c.skip[s.t.sfq[e]] == e {
      var c := s.c.(skip := s.c.skip[s.t.sfq[e] := NIL]);
      ClearSkipFrame(s.(c := c), r.(c := c), s.t.parent[e]);
    }
  }

  lemma {:induction false} ClearNextFrame(s: State, r: State, e: int)
    requires Sane(s) && Sane(r) && r.t == s.t && r.c == s.c && (e == NIL || IsEnt(s, e))
    ensures ClearNext(s, e).c == ClearNext(r, e).c
    decreases if e == NIL then 0 else s.t.level[e] + 1
  {
    if e != NIL && s.c.next[s.t.sfq[e]] == e {
      var c := s.c.(next := s.c.next[s.t.sfq[e] := NIL]);
      ClearNextFrame(s.(c := c), r.(c := c), s.t.parent[e]);
    }
  }

  lemma {:induction false} ClearLastFrame(s: State, r: State, e: int)
    requires Sane(s) && Sane(r) && r.t == s.t && r.c == s.c && (e == NIL || IsEnt(s, e))
    ensures ClearLast(s, e).c == ClearLast(r, e).c
    decreases if e == NIL then 0 else s.t.level[e] + 1
  {
    if e != NIL && s.c.last[s.t.sfq[e]] == e {
      var c := s.c.(last := s.c.last[s.t.sfq[e] := NIL]);
      ClearLastFrame(s.(c := c), r.(c := c), s.t.parent[e]);
    }
  }

  lemma DequeueEntityMembers(s: State, e: nat, sleep: bool)
    requires Sane(s) && IsEnt(s, e) && s.m.joined[e]
    requires Kept(s) && Membership(s, e)
    requires !IsThread(s.t, e) ==> s.a.nr[s.t.myq[e]] == 0
    ensures var r := DequeueEntity(s, e, sleep);
            && Kept(r) && Membership(r, s.t.parent[e])
            && r.m.curr == s.m.curr && r.m.joined == s.m.joined[e := false]
            && r.a.nr == s.a.nr[s.t.sfq[e] := s.a.nr[s.t.sfq[e]] - 1] && r.a.shares == s.a.shares
            && (s.ok && (!sleep ==> s.th.absolute[e]) ==> r.ok)
  {
    hide Detach, DequeueEntity, Timelines, Currs, Joins, Groups, Kept;
    DequeueEntityBooks(s, e, sleep);
    DequeueEntityShape(s, e, sleep);
    var r := DequeueEntity(s, e, sleep);
    DetachMembers(s, e);
    JoinedLater(Detach(s, e), r);
    JoinsLeave(s, r, e);
    GroupsLeave(s, r, e);
  }

  lemma DequeueEntityShape(s: State, e: nat, sleep: bool)
    requires Sane(s) && IsEnt(s, e) && s.m.joined[e] && Placed(s)
    ensures var r := DequeueEntity(s, e, sleep);
            && r.m == Detach(s, e).m.(joined := s.m.joined[e := false])
            && (s.ok && (!sleep ==> s.th.absolute[e]) ==> r.ok)
  {
    hide Detach, UpdateShares, Account, NewVtime;
    DetachMembers(s, e);
    DetachAbsolute(s, e);
  }

  lemma JoinsLeave(s: State, r: State, e: nat)
    requires Sane(s) && Sane(r) && IsEnt(s, e) && r.t == s.t && Joins(s.t, s.m)
    requires r.m.joined == s.m.joined[e := false] && r.m.onSfq == s.m.onSfq[e := false] && r.m.curr == s.m.curr
    ensures Joins(r.t, r.m)
  {
    forall x | 0 <= x < |r.m.joined| && r.m.joined[x] && !r.m.onSfq[x] ensures r.m.curr[r.t.sfq[x]] == x {
      assert s.m.joined[x];
    }
  }

  lemma GroupsLeave(s: State, r: State, e: nat)
    requires Sane(s) && Sane(r) && IsEnt(s, e) && r.t == s.t && Groups(s.t, s.m, s.a, e)
    requires r.m.joined == s.m.joined[e := false]
    requires r.a.nr == s.a.nr[s.t.sfq[e] := s.a.nr[s.t.sfq[e]] - 1]
    requires !IsThread(s.t, e) ==> s.a.nr[s.t.myq[e]] == 0
    ensures Groups(r.t, r.m, r.a, s.t.parent[e])
  {
    OwnerElsewhere(s, e);
    NotOwnGroup(s, e);
  }

  lemma DetachAbsolute(s: State, e: nat)
    requires Sane(s) && IsEnt(s, e) && Placed(s)
    ensures Detach(s, e).th.absolute == s.th.absolute
  {
    hide UpdateCurr, TreeDequeue;
    DetachMembers(s, e);
  }

  /** The test of load.weight in pss_dequeue_thread is a test for members (pss.c:1190). */
  lemma LoadIsCount(s: State, q: nat)
    requires Sane(s) && IsQueue(s, q) && Kept(s)
    requires Groups(s.t, s.m, s.a, s.t.owner[q])
    ensures s.a.load[q] != 0 <==> s.a.nr[q] > 0
    ensures s.a.nr[q] > 0 <==> exists e :: 0 <= e < |s.m.joined| && s.m.joined[e] && s.t.sfq[e] == q
  {
    var n := |s.t.sfq|;
    assert QueueBooks(s.t, s.m.joined, s.a, q);
    LoadSumPart(s.t.sfq, s.m.joined, s.a.weight, q, n);
    forall e | 0 <= e < n && s.m.joined[e] && s.t.sfq[e] == q ensures s.a.weight[e] > 0 {
      OwnerElsewhere(s, e);
      if !IsThread(s.t, e) {
        assert 0 < s.t.myq[e] < |s.a.nr|;
      }
    }
  }

  /** Setting or clearing curr one level up moves the end of the chain there. */
  lemma ChainMoves(t: Topo, m: Members, m': Members, e: nat, v: int)
    requires WfTopo(t) && |t.owner| == |m.curr| && e < |t.parent|
    requires Chain(t, m, e) && m'.curr == m.curr[t.sfq[e] := v]
    requires v == e || v == NIL
    requires v == e ==> m.curr[t.sfq[e]] == NIL
    requires v == NIL ==> m.curr[t.sfq[e]] == e
    requires t.myq[e] != NIL ==> (v == e <==> m.curr[t.myq[e]] != NIL)
    ensures Chain(t, m', t.parent[e])
  {
    var q := t.sfq[e];
    assert t.parent[e] == t.owner[q];
    forall g | 0 <= g < |t.myq| && g != t.parent[e] && 0 <= t.myq[g] < |m.curr|
      ensures m'.curr[t.sfq[g]] == g <==> m'.curr[t.myq[g]] != NIL
    {
      assert t.owner[t.myq[g]] == g;
      assert t.myq[g] != q;
    }
  }

  lemma JoinsActivate(t: Topo, m: Members, m': Members, e: nat)
    requires WfTopo(t) && SizedM(m, |t.parent|, |t.owner|) && SizedM(m', |t.parent|, |t.owner|) && e < |t.parent|
    requires Joins(t, m) && Currs(t, m) && m.joined[e] && m.curr[t.sfq[e]] == NIL
    requires m'.joined == m.joined && m'.onSfq == m.onSfq[e := false] && m'.curr == m.curr[t.sfq[e] := e]
    ensures Joins(t, m') && Currs(t, m')
  {
    forall x | 0 <= x < |m'.joined| && m'.joined[x] && !m'.onSfq[x] ensures m'.curr[t.sfq[x]] == x {
      if x != e {
        assert m.joined[x] && m.curr[t.sfq[x]] == x;
      }
    }
  }

  lemma JoinsPutPrev(t: Topo, m: Members, m': Members, e: nat)
    requires WfTopo(t) && SizedM(m, |t.parent|, |t.owner|) && SizedM(m', |t.parent|, |t.owner|) && e < |t.parent|
    requires Joins(t, m) && Currs(t, m) && m.curr[t.sfq[e]] == e
    requires m'.joined == m.joined && m'.onSfq == m.onSfq[e := m.joined[e]] && m'.curr == m.curr[t.sfq[e] := NIL]
    ensures Joins(t, m') && Currs(t, m')
  {
    forall x | 0 <= x < |m'.joined| && m'.joined[x] && !m'.onSfq[x] ensures m'.curr[t.sfq[x]] == x {
      assert m.joined[x] && x != e && m.curr[t.sfq[x]] == x;
    }
  }

  lemma ActivateEntityMembers(s: State, e: nat)
    requires Sane(s) && IsEnt(s, e) && s.m.joined[e] && s.m.onSfq[e] && s.m.curr[s.t.sfq[e]] == NIL
    requires Membership(s, NIL) && Chain(s.t, s.m, e)
    requires !IsThread(s.t, e) ==> s.m.curr[s.t.myq[e]] != NIL
    ensures var r := ActivateEntity(s, e);
            && Membership(r, NIL) && Chain(r.t, r.m, s.t.parent[e])
            && r.m.joined == s.m.joined && r.m.curr == s.m.curr[s.t.sfq[e] := e]
            && r.m.onSfq == s.m.onSfq[e := false]
            && r.a == s.a && r.c == s.c && r.ok == s.ok
  {
    hide TreeDequeue, Joins, Chain, Timelines, Currs, Groups;
    var s0 := s.(ok := s.ok && s.m.joined[e] && s.m.curr[s.t.sfq[e]] == NIL);
    var s1 := if IsThread(s.t, e) then RunqDequeue(s0, e) else s0;
    TreeDequeuePlaced(s1, e);
    var s2, r := TreeDequeue(s1, e), ActivateEntity(s, e);
    assert r.m == s2.m.(curr := s.m.curr[s.t.sfq[e] := e]);
    JoinsActivate(s.t, s.m, r.m, e);
    ChainMoves(s.t, s.m, r.m, e, e);
    TimelinesOnly(s2, r);
    GroupsOnly(s, r, NIL);
  }

  lemma TimelinesOnly(s: State, r: State)
    requires Sane(s) && Sane(r) && r.t == s.t && r.m.timeline == s.m.timeline && r.m.onSfq == s.m.onSfq
    requires Timelines(s.t, s.m)
    ensures Timelines(r.t, r.m)
  {
  }

  lemma GroupsOnly(s: State, r: State, x: int)
    requires Sane(s) && Sane(r) && r.t == s.t && r.m.joined == s.m.joined && r.a.nr == s.a.nr
    ensures Groups(s.t, s.m, s.a, x) <==> Groups(r.t, r.m, r.a, x)
  {
  }

  lemma PutPrevEntityMembers(s: State, e: nat, relinquish: bool)
    requires Sane(s) && IsEnt(s, e) && s.m.curr[s.t.sfq[e]] == e
    requires Membership(s, NIL) && Chain(s.t, s.m, e)
    requires !IsThread(s.t, e) ==> s.m.curr[s.t.myq[e]] == NIL
    ensures var r := PutPrevEntity(s, e, relinquish);
            && Membership(r, NIL) && Chain(r.t, r.m, s.t.parent[e])
            && r.m.joined == s.m.joined && r.m.curr == s.m.curr[s.t.sfq[e] := NIL] && r.a == s.a
            && (s.ok && (IsThread(s.t, e) ==> !s.th.onRunq[e]) ==> r.ok)
  {
    hide Joins, Chain, Timelines, Groups, TreeEnqueue;
    PutPrevPlaced(s, e, relinquish);
    var r := PutPrevEntity(s, e, relinquish);
    JoinsPutPrev(s.t, s.m, r.m, e);
    ChainMoves(s.t, s.m, r.m, e, NIL);
    GroupsOnly(s, r, NIL);
  }

  lemma PutPrevPlaced(s: State, e: nat, relinquish: bool)
    requires Sane(s) && IsEnt(s, e) && s.m.curr[s.t.sfq[e]] == e && Placed(s)
    ensures var r := PutPrevEntity(s, e, relinquish);
            && Timelines(r.t, r.m) && r.m.onSfq == s.m.onSfq[e := s.m.joined[e]]
            && r.m.joined == s.m.joined && r.m.curr == s.m.curr[s.t.sfq[e] := NIL] && r.a == s.a
            && (s.ok && (IsThread(s.t, e) ==> !s.th.onRunq[e]) ==> r.ok)
  {
    hide TreeEnqueue, UpdateCurr, SetSkip, MakeRunnable;
    var q := s.t.sfq[e];
    if s.m.joined[e] {
      var s0 := if IsThread(s.t, e) && relinquish then SetSkip(s, e) else s;
      var s1 := MakeRunnable(UpdateCurr(s0, q), e);
      MakeRunnableOk(UpdateCurr(s0, q), e);
      PutBack(s1, e);
    } else {
      assert s.m.onSfq[e := false] == s.m.onSfq;
      TimelinesOnly(s, SetCurr(s, q, NIL));
    }
  }

  lemma MakeRunnableOk(s: State, e: nat)
    requires Sane(s) && IsEnt(s, e)
    ensures s.ok && (IsThread(s.t, e) ==> !s.th.onRunq[e]) ==> MakeRunnable(s, e).ok
  {
  }

  lemma PutBack(s: State, e: nat)
    requires Sane(s) && IsEnt(s, e) && s.m.curr[s.t.sfq[e]] == e && Placed(s)
    ensures var r := SetCurr(TreeEnqueue(s, e), s.t.sfq[e], NIL);
            && Timelines(r.t, r.m) && r.m.onSfq == s.m.onSfq[e := true]
            && r.m.joined == s.m.joined && r.m.curr == s.m.curr[s.t.sfq[e] := NIL] && r.a == s.a && r.ok == s.ok
  {
    hide TreeEnqueue;
    var s2 := s.(m := s.m.(curr := s.m.curr[s.t.sfq[e] := NIL]));
    TimelinesOnly(s, s2);
    TreeEnqueuePlaced(s2, e);
    CommuteCurr(s, e, s.t.sfq[e]);
  }

  /** Clearing curr and inserting into the timeline do not interfere. */
  lemma CommuteCurr(s: State, e: nat, q: nat)
    requires Sane(s) && IsEnt(s, e) && q == s.t.sfq[e]
    ensures SetCurr(TreeEnqueue(s, e), q, NIL) == TreeEnqueue(s.(m := s.m.(curr := s.m.curr[q := NIL])), e)
  {
  }
}
