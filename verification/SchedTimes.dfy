/** Execution time, virtual time and the order of the timelines
    (pss.c:750-777, 822-884, 983-1216). */
module SchedTimes {
  import opened SchedState
  import opened SchedOps
  import opened SchedSteps
  import opened SchedBooks
  import opened SchedMembers
  import opened SchedWalks
  import FixedPoint

  // ---------- invariants ----------

  ghost predicate Shape(t: Topo, m: Members, tm: Times) {
    WfTopo(t) && SizedM(m, |t.parent|, |t.owner|) && SizedTm(tm, |t.parent|, |t.owner|)
  }

  /** Execution time of queue q's current entity that has not been charged yet. */
  ghost function Owed(m: Members, tm: Times, q: nat): int
    requires q < |m.curr| && NIL <= m.curr[q] < |tm.start|
  {
    if m.curr[q] == NIL then 0 else tm.clock - tm.start[m.curr[q]]
  }

  /** The execution time of a group entity: charged so far, and owed if it is current. */
  ghost function Earned(t: Topo, m: Members, tm: Times, g: nat): int
    requires Shape(t, m, tm) && g < |t.parent|
  {
    tm.sum[g] + if m.curr[t.sfq[g]] == g then tm.clock - tm.start[g] else 0
  }

  /** A group has been charged, and owes, exactly what the members of its queue have and do. */
  ghost predicate Conserved(t: Topo, m: Members, tm: Times)
    requires Shape(t, m, tm)
  {
    forall g {:trigger t.myq[g]} :: 0 <= g < |t.parent| && t.myq[g] != NIL ==>
      Earned(t, m, tm, g) == tm.charged[t.myq[g]] + Owed(m, tm, t.myq[g])
  }

  /** Current entities started in the past; one that has left owes nothing. */
  ghost predicate Started(t: Topo, m: Members, tm: Times)
    requires Shape(t, m, tm)
  {
    forall q :: 0 <= q < |m.curr| && m.curr[q] != NIL ==>
      tm.start[m.curr[q]] <= tm.clock && (!m.joined[m.curr[q]] ==> tm.start[m.curr[q]] == tm.clock)
  }

  ghost predicate Sorted(t: Topo, m: Members, tm: Times)
    requires Shape(t, m, tm)
  {
    forall q, i, j :: 0 <= q < |m.timeline| && 0 <= i < j < |m.timeline[q]| ==>
      tm.vruntime[m.timeline[q][i]] <= tm.vruntime[m.timeline[q][j]]
  }

  ghost predicate Timed(t: Topo, m: Members, tm: Times)
    requires Shape(t, m, tm)
  {
    Conserved(t, m, tm) && Started(t, m, tm) && Sorted(t, m, tm)
  }

  /** No joined entity is more than the threshold behind its queue's vtime. */
  ghost predicate Lag(p: Params, t: Topo, m: Members, tm: Times)
    requires Shape(t, m, tm)
  {
    forall e {:trigger m.joined[e]} :: 0 <= e < |m.joined| && m.joined[e] ==> tm.vruntime[e] >= tm.vtime[t.sfq[e]] - p.thresh
  }

  /** Relative vruntimes are not more than the threshold below zero. */
  ghost predicate RelativeLag(p: Params, t: Topo, absolute: seq<bool>, tm: Times)
    requires |absolute| == |t.myq| == |tm.vruntime|
  {
    forall e {:trigger absolute[e]} :: 0 <= e < |absolute| && t.myq[e] == NIL && !absolute[e] ==> tm.vruntime[e] + p.thresh >= 0
  }

  /** The clock stands still and no vtime goes back. */
  ghost predicate Later(tm: Times, tm': Times) {
    && tm'.clock == tm.clock && |tm'.vtime| == |tm.vtime|
    && (forall q :: 0 <= q < |tm.vtime| ==> tm'.vtime[q] >= tm.vtime[q])
  }

  /** Only e and entities that are joined and current have moved. */
  ghost predicate Unmoved(t: Topo, m: Members, tm: Times, tm': Times, e: int)
    requires Shape(t, m, tm) && Shape(t, m, tm')
  {
    forall x :: 0 <= x < |tm.vruntime| && x != e && (m.curr[t.sfq[x]] != x || !m.joined[x]) ==>
      tm'.vruntime[x] == tm.vruntime[x]
  }

  /** Joined entities are on a timeline or current. */
  ghost predicate Housed(t: Topo, m: Members)
    requires |t.sfq| == |m.onSfq| == |m.joined|
  {
    forall e {:trigger m.joined[e]} :: 0 <= e < |m.joined| && m.joined[e] && !m.onSfq[e] && t.sfq[e] < |m.curr| ==>
      m.curr[t.sfq[e]] == e
  }

  // ---------- charging ----------

  lemma ChargeTimed(s: State, q: nat)
    requires Sane(s) && IsQueue(s, q) && Placed(s) && s.m.curr[q] != NIL && s.tm.clock > s.tm.start[s.m.curr[q]]
    requires Timed(s.t, s.m, s.tm)
    ensures var r := Charge(s, q); Timed(r.t, r.m, r.tm)
  {
    hide WfTopo, Conserved, FixedPoint.ScaleDelta;
    ChargeConserved(s, q);
  }

  lemma ChargeConserved(s: State, q: nat)
    requires Sane(s) && IsQueue(s, q) && Placed(s) && s.m.curr[q] != NIL && s.tm.clock > s.tm.start[s.m.curr[q]]
    requires Conserved(s.t, s.m, s.tm)
    ensures var r := Charge(s, q); Shape(r.t, r.m, r.tm) && Conserved(r.t, r.m, r.tm)
  {
    hide FixedPoint.ScaleDelta;
    var r := Charge(s, q);
    forall g | 0 <= g < |s.t.parent| && s.t.myq[g] != NIL
      ensures Earned(r.t, r.m, r.tm, g) == r.tm.charged[r.t.myq[g]] + Owed(r.m, r.tm, r.t.myq[g])
    {
      assert Earned(s.t, s.m, s.tm, g) == s.tm.charged[s.t.myq[g]] + Owed(s.m, s.tm, s.t.myq[g]);
      NotOwnGroup(s, g);
    }
  }

  /** vtime moves to the least virtual time of the members, so none falls behind by it. */
  lemma UpdateVtimeLag(s: State, q: nat)
    requires Sane(s) && IsQueue(s, q) && Placed(s) && Housed(s.t, s.m) && Timed(s.t, s.m, s.tm)
    ensures var r := UpdateVtime(s, q);
            Later(s.tm, r.tm) && (Lag(s.p, s.t, s.m, s.tm) ==> Lag(r.p, r.t, r.m, r.tm))
  {
    var r, tl := UpdateVtime(s, q), s.m.timeline[q];
    if Lag(s.p, s.t, s.m, s.tm) {
      forall e | 0 <= e < |s.m.joined| && s.m.joined[e]
        ensures r.tm.vruntime[e] >= r.tm.vtime[r.t.sfq[e]] - r.p.thresh
      {
        if s.t.sfq[e] == q && s.m.onSfq[e] {
          var i :| 0 <= i < |tl| && tl[i] == e;
          assert i > 0 ==> s.tm.vruntime[tl[0]] <= s.tm.vruntime[tl[i]];
        }
      }
    }
  }

  lemma VtimeOnly(s: State, q: nat)
    requires Sane(s) && IsQueue(s, q) && Timed(s.t, s.m, s.tm)
    ensures var r := UpdateVtime(s, q); Timed(r.t, r.m, r.tm)
  {
    hide NewVtime;
    var r := UpdateVtime(s, q);
    forall g | 0 <= g < |s.t.parent| && s.t.myq[g] != NIL
      ensures Earned(r.t, r.m, r.tm, g) == r.tm.charged[r.t.myq[g]] + Owed(r.m, r.tm, r.t.myq[g])
    {
      assert Earned(s.t, s.m, s.tm, g) == s.tm.charged[s.t.myq[g]] + Owed(s.m, s.tm, s.t.myq[g]);
    }
  }

  /** What update_curr does for everyone: the current entity is paid up and only it and the
      queue's vtime have moved, forward. */
  lemma UpdateCurrTimed(s: State, q: nat)
    requires Sane(s) && IsQueue(s, q) && Placed(s) && Housed(s.t, s.m) && Timed(s.t, s.m, s.tm)
    ensures var r := UpdateCurr(s, q);
            && Timed(r.t, r.m, r.tm) && Later(s.tm, r.tm) && Owed(r.m, r.tm, q) == 0
            && (Owed(s.m, s.tm, q) == 0 ==> r == s) && Unmoved(s.t, s.m, s.tm, r.tm, NIL)
            && (forall x :: 0 <= x < |s.tm.vruntime| && x != s.m.curr[q] ==> r.tm.vruntime[x] == s.tm.vruntime[x])
            && r.tm.vtime == s.tm.vtime[q := r.tm.vtime[q]]
            && (Lag(s.p, s.t, s.m, s.tm) ==> Lag(r.p, r.t, r.m, r.tm))
  {
    hide FixedPoint.ScaleDelta, NewVtime, Conserved;
    if s.m.curr[q] != NIL && s.tm.clock > s.tm.start[s.m.curr[q]] {
      var s1 := Charge(s, q);
      ChargeTimed(s, q);
      VtimeOnly(s1, q);
      UpdateVtimeLag(s1, q);
    } else {
      assert Started(s.t, s.m, s.tm);
    }
  }

  /** By how much charging the current entity of queue q moves the queue's vtime: to the smaller of
      what that entity will have run and the leftmost waiting one has, if that is further on. */
  function VtimeGain(s: State, q: nat): int
    requires Sane(s) && IsQueue(s, q)
  {
    hide FixedPoint.ScaleDelta;
    var u, tl := s.m.curr[q], s.m.timeline[q];
    if u == NIL || s.tm.clock <= s.tm.start[u] then 0
    else
      var paid := s.tm.vruntime[u] + FixedPoint.ScaleDelta(s.tm.clock - s.tm.start[u], s.a.weight[u]);
      Max(s.tm.vtime[q], if tl == [] then paid else Min(paid, s.tm.vruntime[tl[0]])) - s.tm.vtime[q]
  }

  lemma GainIs(s: State, q: nat)
    requires Sane(s) && IsQueue(s, q) && Placed(s) && Timed(s.t, s.m, s.tm)
    ensures UpdateCurr(s, q).tm.vtime[q] == s.tm.vtime[q] + VtimeGain(s, q)
    ensures Owed(s.m, s.tm, q) == 0 ==> VtimeGain(s, q) == 0
  {
    hide FixedPoint.ScaleDelta, Conserved, Sorted, WfTopo;
    var u, tl := s.m.curr[q], s.m.timeline[q];
    if u != NIL && s.tm.clock > s.tm.start[u] {
      assert Started(s.t, s.m, s.tm);
      if tl != [] {
        assert s.m.onSfq[tl[0]];
      }
    }
  }

  lemma GainSame(s: State, r: State, q: nat)
    requires Sane(s) && Sane(r) && IsQueue(s, q) && r.t == s.t && r.m == s.m && r.a == s.a && r.tm == s.tm
    ensures VtimeGain(r, q) == VtimeGain(s, q)
  {
  }

  /** Charging does not look at an entity that is neither current nor waiting. */
  lemma ChargeApart(s: State, e: nat)
    requires Sane(s) && IsEnt(s, e) && Placed(s) && !s.m.onSfq[e] && s.m.curr[s.t.sfq[e]] != e
    ensures var q := s.t.sfq[e]; UpdateCurr(AddVtime(s, e), q).tm.vtime[q] == UpdateCurr(s, q).tm.vtime[q]
  {
    hide FixedPoint.ScaleDelta;
    var q := s.t.sfq[e];
    if s.m.timeline[q] != [] {
      assert s.m.onSfq[s.m.timeline[q][0]];
    }
  }

  // ---------- placement ----------

  /** One vruntime changes, of an entity that is on no timeline. */
  lemma VruntimeOnly(s: State, r: State, e: nat)
    requires Sane(s) && Sane(r) && IsEnt(s, e) && r.t == s.t && r.m == s.m && !s.m.onSfq[e] && Placed(s)
    requires r.tm == s.tm.(vruntime := r.tm.vruntime) && r.tm.vruntime == s.tm.vruntime[e := r.tm.vruntime[e]]
    requires Timed(s.t, s.m, s.tm)
    ensures Timed(r.t, r.m, r.tm)
  {
    forall g | 0 <= g < |s.t.parent| && s.t.myq[g] != NIL
      ensures Earned(r.t, r.m, r.tm, g) == r.tm.charged[r.t.myq[g]] + Owed(r.m, r.tm, r.t.myq[g])
    {
      assert Earned(s.t, s.m, s.tm, g) == s.tm.charged[s.t.myq[g]] + Owed(s.m, s.tm, s.t.myq[g]);
    }
  }

  /** Where enqueue_entity puts an entity: not further back than the threshold, unless a relative
      vruntime is made absolute while the current entity owes time that takes vtime further than
      the entity has in hand. */
  lemma ArriveTimed(s: State, e: nat, wakeup: bool)
    requires Sane(s) && IsEnt(s, e) && !s.m.joined[e] && !s.m.onSfq[e] && s.m.curr[s.t.sfq[e]] != e
    requires Placed(s) && Housed(s.t, s.m) && Timed(s.t, s.m, s.tm)
    ensures var r := Arrive(s, e, wakeup);
            && Timed(r.t, r.m, r.tm) && Later(s.tm, r.tm)
            && (Lag(s.p, s.t, s.m, s.tm) ==> Lag(r.p, r.t, r.m, r.tm))
            && (wakeup || s.tm.vruntime[e] + s.p.thresh >= VtimeGain(s, s.t.sfq[e]) <==>
                  r.tm.vruntime[e] >= r.tm.vtime[s.t.sfq[e]] - s.p.thresh)
            && (!wakeup ==> r.tm.vruntime[e] == s.tm.vruntime[e] + s.tm.vtime[s.t.sfq[e]])
            && Unmoved(s.t, s.m, s.tm, r.tm, e)
  {
    hide UpdateCurr, Timed, Timelines, Currs, VtimeGain, WfTopo;
    SfqInRange(s, e);
    var q := s.t.sfq[e];
    if wakeup {
      UpdateCurrTimed(s, q);
      var s1 := UpdateCurr(s, q);
      VruntimeOnly(s1, Place(s1, e, false, 0), e);
    } else {
      var s1 := AddVtime(s, e);
      VruntimeOnly(s, s1, e);
      UpdateCurrTimed(s1, q);
      ChargeApart(s, e);
      GainIs(s, q);
    }
  }

  // ---------- timelines ----------

  lemma {:induction false} InsertIdSorted(tl: seq<nat>, v: seq<int>, e: nat)
    requires e < |v| && (forall i :: 0 <= i < |tl| ==> tl[i] < |v|)
    requires forall i, j :: 0 <= i < j < |tl| ==> v[tl[i]] <= v[tl[j]]
    ensures forall i, j :: 0 <= i < j < |InsertId(tl, v, e)| ==> v[InsertId(tl, v, e)[i]] <= v[InsertId(tl, v, e)[j]]
  {
    if tl != [] && v[e] >= v[tl[0]] {
      InsertIdSorted(tl[1..], v, e);
      InsertIdElems(tl[1..], v, e);
      var r := InsertId(tl[1..], v, e);
      forall j | 0 <= j < |r| ensures v[tl[0]] <= v[r[j]] {
        assert r[j] in r;
        if r[j] != e {
          var k :| 0 <= k < |tl[1..]| && tl[1..][k] == r[j];
          assert tl[k + 1] == r[j];
        }
      }
    }
  }

  lemma {:induction false} WithoutIdSorted(tl: seq<nat>, v: seq<int>, e: nat)
    requires forall i :: 0 <= i < |tl| ==> tl[i] < |v|
    requires forall i, j :: 0 <= i < j < |tl| ==> v[tl[i]] <= v[tl[j]]
    ensures forall i :: 0 <= i < |WithoutId(tl, e)| ==> WithoutId(tl, e)[i] < |v|
    ensures forall i, j :: 0 <= i < j < |WithoutId(tl, e)| ==> v[WithoutId(tl, e)[i]] <= v[WithoutId(tl, e)[j]]
  {
    if tl != [] && tl[0] == e {
      assert WithoutId(tl, e) == tl[1..];
      assert forall j :: 0 <= j < |tl[1..]| ==> tl[1..][j] == tl[j + 1];
    } else if tl != [] {
      WithoutIdSorted(tl[1..], v, e);
      var r := WithoutId(tl[1..], e);
      forall j | 0 <= j < |r| ensures v[tl[0]] <= v[r[j]] {
        assert r[j] in tl[1..];
        var k :| 0 <= k < |tl[1..]| && tl[1..][k] == r[j];
        assert tl[k + 1] == r[j];
      }
    }
  }

  /** The parts of Timed that do not look at timelines see only curr, joined and the times. */
  lemma MembersOnly(s: State, r: State)
    requires Sane(s) && Sane(r) && r.t == s.t && r.tm == s.tm && r.m.curr == s.m.curr
    requires Conserved(s.t, s.m, s.tm)
    ensures Conserved(r.t, r.m, r.tm)
  {
    forall g | 0 <= g < |s.t.parent| && s.t.myq[g] != NIL
      ensures Earned(r.t, r.m, r.tm, g) == r.tm.charged[r.t.myq[g]] + Owed(r.m, r.tm, r.t.myq[g])
    {
      assert Earned(s.t, s.m, s.tm, g) == s.tm.charged[s.t.myq[g]] + Owed(s.m, s.tm, s.t.myq[g]);
    }
  }

  lemma TreeEnqueueTimed(s: State, e: nat)
    requires Sane(s) && IsEnt(s, e) && Timed(s.t, s.m, s.tm)
    ensures var r := TreeEnqueue(s, e); Timed(r.t, r.m, r.tm)
  {
    hide InsertId, Conserved;
    var r, q := TreeEnqueue(s, e), s.t.sfq[e];
    InsertIdSorted(s.m.timeline[q], s.tm.vruntime, e);
    MembersOnly(s, r);
  }

  lemma TreeDequeueTimed(s: State, e: nat)
    requires Sane(s) && IsEnt(s, e) && Timed(s.t, s.m, s.tm)
    ensures var r := TreeDequeue(s, e); Timed(r.t, r.m, r.tm)
  {
    hide WithoutId, Conserved;
    var r, q := TreeDequeue(s, e), s.t.sfq[e];
    WithoutIdSorted(s.m.timeline[q], s.tm.vruntime, e);
    MembersOnly(s, r);
  }

  // ---------- entities ----------

  lemma UpdateSharesTm(s: State, q: nat)
    requires Sane(s) && IsQueue(s, q)
    ensures var r, p := UpdateShares(s, q), s.t.owner[q];
            r.tm == s.tm || (p != NIL && IsQueue(s, s.t.sfq[p]) && r.tm == UpdateCurr(s, s.t.sfq[p]).tm)
  {
    hide UpdateCurr;
    if s.t.owner[q] != NIL {
      OwnerOf(s, q);
    }
  }

  lemma UpdateSharesTimed(s: State, q: nat)
    requires Sane(s) && IsQueue(s, q) && Placed(s) && Housed(s.t, s.m) && Timed(s.t, s.m, s.tm)
    ensures var r := UpdateShares(s, q);
            && Timed(r.t, r.m, r.tm) && Later(s.tm, r.tm) && Unmoved(s.t, s.m, s.tm, r.tm, NIL)
            && r.tm.vtime[q] == s.tm.vtime[q]
            && (forall x :: 0 <= x < |s.t.sfq| && s.t.sfq[x] == q ==> r.tm.vruntime[x] == s.tm.vruntime[x])
            && (Lag(s.p, s.t, s.m, s.tm) ==> Lag(r.p, r.t, r.m, r.tm))
  {
    hide UpdateShares, UpdateCurr, Timed, Lag, Timelines, Housed;
    UpdateSharesTm(s, q);
    var p := s.t.owner[q];
    if p != NIL {
      OwnerOf(s, q);
      NotOwnGroup(s, p);
      UpdateCurrTimed(s, s.t.sfq[p]);
    }
  }

  /** Joining on a timeline: nothing is owed or moved. */
  lemma SetJoinedTimed(s: State, e: nat, j: bool)
    requires Sane(s) && IsEnt(s, e) && Timed(s.t, s.m, s.tm) && Currs(s.t, s.m)
    requires !j && s.m.curr[s.t.sfq[e]] == e ==> s.tm.start[e] == s.tm.clock
    ensures var r := SetJoined(s, e, j);
            && Timed(r.t, r.m, r.tm)
            && (Lag(s.p, s.t, s.m, s.tm) && (j ==> s.tm.vruntime[e] >= s.tm.vtime[s.t.sfq[e]] - s.p.thresh) ==>
                  Lag(r.p, r.t, r.m, r.tm))
  {
    hide Conserved;
    MembersOnly(s, SetJoined(s, e, j));
  }

  lemma EnqueueEntityTimed(s: State, e: nat, wakeup: bool)
    requires Sane(s) && IsEnt(s, e) && !s.m.joined[e] && s.m.curr[s.t.sfq[e]] != e
    requires Placed(s) && Joins(s.t, s.m) && Timed(s.t, s.m, s.tm) && !s.m.onSfq[e]
    ensures var r := EnqueueEntity(s, e, wakeup);
            && Timed(r.t, r.m, r.tm) && Later(s.tm, r.tm) && Unmoved(s.t, s.m, s.tm, r.tm, e)
            && (Lag(s.p, s.t, s.m, s.tm) && (wakeup || s.tm.vruntime[e] + s.p.thresh >= VtimeGain(s, s.t.sfq[e])) ==>
                  Lag(r.p, r.t, r.m, r.tm))
            && (!wakeup && s.tm.vruntime[e] + s.p.thresh < VtimeGain(s, s.t.sfq[e]) ==>
                  r.tm.vruntime[e] < r.tm.vtime[s.t.sfq[e]] - s.p.thresh)
            && (!wakeup ==> r.tm.vruntime[e] == s.tm.vruntime[e] + s.tm.vtime[s.t.sfq[e]])
  {
    hide Arrive, MakeRunnable, TreeEnqueue, Account, UpdateShares, SetJoined, Timed, Lag, Timelines, Currs, VtimeGain, WfTopo;
    SfqInRange(s, e);
    var q := s.t.sfq[e];
    var s0 := s.(ok := s.ok && !s.m.joined[e]);
    GainSame(s, s0, q);
    ArriveTimed(s0, e, wakeup);
    var s1 := MakeRunnable(Arrive(s0, e, wakeup), e);
    TreeEnqueuePlaced(s1, e);
    TreeEnqueueTimed(s1, e);
    var s2 := Account(TreeEnqueue(s1, e), e, 1);
    LagOnly(s1, s2);
    UpdateSharesTimed(s2, q);
    var s3 := UpdateShares(s2, q);
    SetJoinedTimed(s3, e, true);
    CurrElsewhere(s, e);
  }

  lemma LagOnly(s: State, r: State)
    requires Sane(s) && Sane(r) && r.t == s.t && r.p == s.p && r.tm == s.tm && r.m.joined == s.m.joined
    ensures Lag(s.p, s.t, s.m, s.tm) <==> Lag(r.p, r.t, r.m, r.tm)
  {
  }

  lemma CurrElsewhere(s: State, e: nat)
    requires Sane(s) && IsEnt(s, e) && Currs(s.t, s.m) && s.m.curr[s.t.sfq[e]] != e
    ensures forall q :: 0 <= q < |s.m.curr| ==> s.m.curr[q] != e
  {
  }

  /** Charged and off the timeline. */
  lemma DetachTimed(s: State, e: nat)
    requires Sane(s) && IsEnt(s, e) && Placed(s) && Joins(s.t, s.m) && Timed(s.t, s.m, s.tm)
    ensures var r, q := Detach(s, e), s.t.sfq[e];
            && Timed(r.t, r.m, r.tm) && Later(s.tm, r.tm) && Unmoved(s.t, s.m, s.tm, r.tm, NIL)
            && Placed(r) && !r.m.onSfq[e] && r.tm == UpdateCurr(s, q).tm && Owed(r.m, r.tm, q) == 0
            && (Lag(s.p, s.t, s.m, s.tm) ==> Lag(r.p, r.t, r.m, r.tm))
  {
    hide Timed, UpdateCurr, TreeDequeue, ClearCandidates, RunqDequeue, Timelines, Currs, Lag, Unmoved, Later;
    UpdateCurrTimed(s, s.t.sfq[e]);
    var s1 := UpdateCurr(s, s.t.sfq[e]);
    DetachMembers(s, e);
    var s3 := ClearCandidates(if IsThread(s.t, e) then RunqDequeue(s1, e) else s1, e);
    if s3.m.onSfq[e] {
      TreeDequeueTimed(s3, e);
    }
    LagOnly(s1, Detach(s, e));
  }

  /** Charged, off the timeline and no longer joined. */
  lemma LeaveTimed(s: State, e: nat)
    requires Sane(s) && IsEnt(s, e) && s.m.joined[e] && Placed(s) && Joins(s.t, s.m) && Timed(s.t, s.m, s.tm)
    ensures var r, q := Leave(s, e), s.t.sfq[e];
            && Timed(r.t, r.m, r.tm) && Later(s.tm, r.tm) && Unmoved(s.t, s.m, s.tm, r.tm, NIL)
            && Placed(r) && Housed(r.t, r.m) && r.m.curr == s.m.curr && !r.m.onSfq[e]
            && r.m.joined == s.m.joined[e := false]
            && r.tm == UpdateCurr(s, q).tm
            && (Lag(s.p, s.t, s.m, s.tm) ==>
                  Lag(r.p, r.t, r.m, r.tm) && r.tm.vruntime[e] >= r.tm.vtime[q] - s.p.thresh)
  {
    hide Timed, UpdateCurr, Detach, Account, Timelines, Currs, Unmoved, Later, Housed;
    DetachTimed(s, e);
    var s2 := Detach(s, e);
    var s4 := Account(s2, e, -1);
    SetJoinedTimed(s4, e, false);
    JoinedLater(s4, SetJoined(s4, e, false));
    LeaveHoused(s, e);
  }

  lemma LeaveHoused(s: State, e: nat)
    requires Sane(s) && IsEnt(s, e) && Placed(s) && Joins(s.t, s.m)
    ensures var r := Leave(s, e); Housed(r.t, r.m) && r.m.curr == s.m.curr
  {
    hide Detach, Timelines, Currs;
    DetachMembers(s, e);
  }

  /** Leaving for good or for a while.  What stays behind of a thread that will be queued again
      is its lag at the moment it left. */
  lemma DequeueEntityTimed(s: State, e: nat, sleep: bool)
    requires Sane(s) && IsEnt(s, e) && s.m.joined[e] && Placed(s) && Joins(s.t, s.m) && Timed(s.t, s.m, s.tm)
    ensures var r := DequeueEntity(s, e, sleep);
            && Timed(r.t, r.m, r.tm) && Later(s.tm, r.tm) && Unmoved(s.t, s.m, s.tm, r.tm, e)
            && (Lag(s.p, s.t, s.m, s.tm) ==> Lag(r.p, r.t, r.m, r.tm) && (!sleep ==> r.tm.vruntime[e] + s.p.thresh >= 0))
            && (!sleep ==> r.tm.vruntime[e] == UpdateCurr(s, s.t.sfq[e]).tm.vruntime[e] - UpdateCurr(s, s.t.sfq[e]).tm.vtime[s.t.sfq[e]])
  {
    hide Timed, Leave, UpdateCurr, UpdateShares, Timelines, Currs, NewVtime, Housed, Lag, WfTopo;
    SfqInRange(s, e);
    var q := s.t.sfq[e];
    LeaveTimed(s, e);
    var s1 := Leave(s, e);
    var s2 := if sleep then s1 else SubVtime(s1, e);
    if !sleep {
      VruntimeOnly(s1, s2, e);
      LagBut(s1, s2, e);
    }
    VtimeOnly(s2, q);
    UpdateVtimeLag(s2, q);
    UpdateSharesTimed(UpdateVtime(s2, q), q);
  }

  lemma LagSame(s: State, r: State)
    requires Sane(s) && Sane(r) && r.t == s.t && r.p == s.p && r.m.joined == s.m.joined
    requires r.tm.vruntime == s.tm.vruntime && r.tm.vtime == s.tm.vtime
    ensures Lag(s.p, s.t, s.m, s.tm) <==> Lag(r.p, r.t, r.m, r.tm)
  {
  }

  lemma LagBut(s: State, r: State, e: nat)
    requires Sane(s) && Sane(r) && IsEnt(s, e) && !s.m.joined[e] && r.t == s.t && r.p == s.p && r.m == s.m
    requires r.tm.vtime == s.tm.vtime && r.tm.vruntime == s.tm.vruntime[e := r.tm.vruntime[e]]
    ensures Lag(s.p, s.t, s.m, s.tm) <==> Lag(r.p, r.t, r.m, r.tm)
  {
  }

  lemma PutPrevEntityTimed(s: State, e: nat, relinquish: bool)
    requires Sane(s) && IsEnt(s, e) && s.m.curr[s.t.sfq[e]] == e
    requires Placed(s) && Joins(s.t, s.m) && Timed(s.t, s.m, s.tm)
    ensures var r := PutPrevEntity(s, e, relinquish);
            && Timed(r.t, r.m, r.tm) && Later(s.tm, r.tm) && Unmoved(s.t, s.m, s.tm, r.tm, e)
            && (!s.m.joined[e] ==> r.tm == s.tm)
            && (Lag(s.p, s.t, s.m, s.tm) ==> Lag(r.p, r.t, r.m, r.tm))
  {
    hide Timed, UpdateCurr, TreeEnqueue, MakeRunnable, SetSkip, Timelines, Currs, Lag, WfTopo;
    SfqInRange(s, e);
    var q := s.t.sfq[e];
    if s.m.joined[e] {
      var s0 := if IsThread(s.t, e) && relinquish then SetSkip(s, e) else s;
      UpdateCurrTimed(s0, q);
      var s1 := MakeRunnable(UpdateCurr(s0, q), e);
      TreeEnqueueTimed(s1, e);
      StopTimed(TreeEnqueue(s1, e), q);
      LagOnly(s1, PutPrevEntity(s, e, relinquish));
    } else {
      PaidUp(s, q);
      StopTimed(s, q);
      LagOnly(s, PutPrevEntity(s, e, relinquish));
    }
  }

  lemma PaidUp(s: State, q: nat)
    requires Sane(s) && IsQueue(s, q) && Timed(s.t, s.m, s.tm)
    requires s.m.curr[q] != NIL && !s.m.joined[s.m.curr[q]]
    ensures Owed(s.m, s.tm, q) == 0
  {
    assert Started(s.t, s.m, s.tm);
  }

  /** An entity that owes nothing may stop being current. */
  lemma StopTimed(s: State, q: nat)
    requires Sane(s) && IsQueue(s, q) && Timed(s.t, s.m, s.tm) && Owed(s.m, s.tm, q) == 0
    ensures var r := SetCurr(s, q, NIL); Timed(r.t, r.m, r.tm)
  {
    var r := SetCurr(s, q, NIL);
    forall g | 0 <= g < |s.t.parent| && s.t.myq[g] != NIL
      ensures Earned(r.t, r.m, r.tm, g) == r.tm.charged[r.t.myq[g]] + Owed(r.m, r.tm, r.t.myq[g])
    {
      assert Earned(s.t, s.m, s.tm, g) == s.tm.charged[s.t.myq[g]] + Owed(s.m, s.tm, s.t.myq[g]);
    }
  }

  lemma ActivateEntityTimed(s: State, e: nat)
    requires Sane(s) && IsEnt(s, e) && s.m.joined[e] && s.m.curr[s.t.sfq[e]] == NIL
    requires Placed(s) && Timed(s.t, s.m, s.tm)
    ensures var r := ActivateEntity(s, e);
            && Timed(r.t, r.m, r.tm) && Later(s.tm, r.tm) && r.tm.vruntime == s.tm.vruntime && r.tm.vtime == s.tm.vtime
            && (Lag(s.p, s.t, s.m, s.tm) ==> Lag(r.p, r.t, r.m, r.tm))
  {
    hide Timed, TreeDequeue, RunqDequeue, Timelines, Lag;
    var s0 := s.(ok := s.ok && s.m.joined[e] && s.m.curr[s.t.sfq[e]] == NIL);
    var s1 := if IsThread(s.t, e) then RunqDequeue(s0, e) else s0;
    TreeDequeueTimed(s1, e);
    StartTimed(TreeDequeue(s1, e), e);
    LagSame(s, ActivateEntity(s, e));
  }

  /** Entity e has become the current one of its queue; it owes nothing yet. */
  ghost function Begun(s: State, e: nat): (r: State)
    requires Sane(s) && IsEnt(s, e)
    ensures Same(s, r)
  {
    s.(m := s.m.(curr := s.m.curr[s.t.sfq[e] := e]),
       tm := s.tm.(start := s.tm.start[e := s.tm.clock], prevSum := s.tm.prevSum[e := s.tm.sum[e]]))
  }

  ghost predicate CurrsHome(s: State)
    requires Sane(s)
  {
    forall q :: 0 <= q < |s.m.curr| && s.m.curr[q] != NIL ==> s.t.sfq[s.m.curr[q]] == q
  }

  lemma StartTimed(s: State, e: nat)
    requires Sane(s) && IsEnt(s, e) && s.m.joined[e] && s.m.curr[s.t.sfq[e]] == NIL
    requires CurrsHome(s) && Timed(s.t, s.m, s.tm)
    ensures var r := Begun(s, e); Timed(r.t, r.m, r.tm)
  {
    hide WfTopo, Conserved;
    StartConserved(s, e);
    GroupQueues(s, e);
  }

  lemma GroupQueues(s: State, g: nat)
    requires Sane(s) && IsEnt(s, g)
    ensures |s.t.sfq| == |s.t.myq| == |s.t.parent| && s.t.sfq[g] < |s.t.owner| && NIL <= s.t.myq[g] < |s.t.owner|
  {
  }

  lemma StartConserved(s: State, e: nat)
    requires Sane(s) && IsEnt(s, e) && s.m.curr[s.t.sfq[e]] == NIL
    requires CurrsHome(s) && Conserved(s.t, s.m, s.tm)
    ensures var r := Begun(s, e); Conserved(r.t, r.m, r.tm)
  {
    hide WfTopo, Begun, CurrsHome;
    GroupQueues(s, e);
    var r := Begun(s, e);
    forall g | 0 <= g < |s.t.parent| && s.t.myq[g] != NIL
      ensures s.t.sfq[g] < |s.m.curr| && 0 <= s.t.myq[g] < |s.m.curr|
      ensures Earned(r.t, r.m, r.tm, g) == r.tm.charged[s.t.myq[g]] + Owed(r.m, r.tm, s.t.myq[g])
    {
      GroupQueues(s, g);
      StartEarned(s, e, g);
    }
  }

  lemma StartEarned(s: State, e: nat, g: nat)
    requires Sane(s) && IsEnt(s, e) && IsEnt(s, g) && s.m.curr[s.t.sfq[e]] == NIL && CurrsHome(s)
    requires s.t.sfq[g] < |s.m.curr| && 0 <= s.t.myq[g] < |s.m.curr|
    ensures var r := Begun(s, e);
            && r.tm.charged == s.tm.charged && Earned(r.t, r.m, r.tm, g) == Earned(s.t, s.m, s.tm, g)
            && Owed(r.m, r.tm, s.t.myq[g]) == Owed(s.m, s.tm, s.t.myq[g])
  {
    hide WfTopo;
    GroupQueues(s, e);
    GroupQueues(s, g);
  }

  /** Time passes for all current entities together, because they form one chain. */
  lemma SetClockTimed(s: State, now: int)
    requires Sane(s) && Chain(s.t, s.m, NIL) && CurrJoined(s.m) && Timed(s.t, s.m, s.tm)
    ensures var r := SetClock(s, now); Timed(r.t, r.m, r.tm)
  {
    var r := SetClock(s, now);
    forall g | 0 <= g < |s.t.parent| && s.t.myq[g] != NIL
      ensures Earned(r.t, r.m, r.tm, g) == r.tm.charged[r.t.myq[g]] + Owed(r.m, r.tm, r.t.myq[g])
    {
      assert Earned(s.t, s.m, s.tm, g) == s.tm.charged[s.t.myq[g]] + Owed(s.m, s.tm, s.t.myq[g]);
    }
  }
}
