/** What the operations on one entity amount to, said from outside: how much is charged, where vtime
    goes, where an entity lands, what a group weighs, who becomes a candidate
    (pss.c:589-620, 750-981, 1068-1177, 1241-1266). */
module SchedEffects {
  import opened SchedState
  import opened SchedOps
  import opened SchedSteps
  import opened SchedBooks
  import opened SchedMembers
  import opened SchedWalks
  import opened SchedTimes
  import opened SchedClass
  import opened SchedRoles
  import FixedPoint

  // ---------- virtual time ----------

  ghost predicate Member(t: Topo, m: Members, e: int, q: nat)
    requires |t.sfq| == |m.joined|
  {
    0 <= e < |m.joined| && m.joined[e] && t.sfq[e] == q
  }

  /** From v0, vtime of queue q has gone on to the least virtual time of the members, if that is further. */
  ghost predicate Follows(t: Topo, m: Members, tm: Times, q: nat, v0: int)
    requires |t.sfq| == |m.joined| == |tm.vruntime| && q < |tm.vtime|
  {
    var v := tm.vtime[q];
    && v >= v0
    && (forall e :: Member(t, m, e, q) ==> v <= v0 || v <= tm.vruntime[e])
    && (v == v0 || exists e :: Member(t, m, e, q) && tm.vruntime[e] == v)
    && ((exists e :: Member(t, m, e, q)) ==> exists e :: Member(t, m, e, q) && tm.vruntime[e] <= v)
  }

  /** Timelines and the current entities hold exactly the members. */
  ghost predicate Seated(s: State)
    requires Sane(s)
  {
    && Placed(s) && Housed(s.t, s.m)
    && (forall e {:trigger s.m.onSfq[e]} :: 0 <= e < |s.m.onSfq| && s.m.onSfq[e] ==> s.m.joined[e])
  }

  /** update_sfq_vtime looks at the leftmost and the current entity only, and that is enough. */
  lemma UpdateVtimeFollows(s: State, q: nat)
    requires Sane(s) && IsQueue(s, q) && Seated(s) && Sorted(s.t, s.m, s.tm)
    ensures |s.t.sfq| == |s.m.joined| == |s.tm.vruntime|
    ensures var r := UpdateVtime(s, q); Follows(r.t, r.m, r.tm, q, s.tm.vtime[q])
  {
    hide WfTopo;
    var r, tl, u := UpdateVtime(s, q), s.m.timeline[q], s.m.curr[q];
    Lengths(s);
    forall e | Member(s.t, s.m, e, q) ensures e in tl || e == u {
    }
    forall e | e in tl ensures Member(s.t, s.m, e, q) && s.tm.vruntime[tl[0]] <= s.tm.vruntime[e] {
      var i :| 0 <= i < |tl| && tl[i] == e;
      assert s.m.onSfq[tl[i]];
      assert i > 0 ==> s.tm.vruntime[tl[0]] <= s.tm.vruntime[tl[i]];
    }
    assert tl != [] ==> tl[0] in tl;
    assert u != NIL && s.m.joined[u] ==> Member(s.t, s.m, u, q);
  }

  lemma Lengths(s: State)
    requires Sane(s)
    ensures |s.t.sfq| == |s.t.myq| == |s.t.level| == |s.t.parent| == |s.m.joined| == |s.m.onSfq| == |s.tm.vruntime| == |s.a.weight|
    ensures |s.m.curr| == |s.m.timeline| == |s.tm.vtime| == |s.t.owner| == |s.a.nr| == |s.a.shares|
    ensures |s.c.skip| == |s.c.next| == |s.c.last| == |s.t.owner|
    ensures forall e :: 0 <= e < |s.t.sfq| ==> s.t.sfq[e] < |s.t.owner|
  {
  }

  // ---------- charging ----------

  /** From s to r queue q's current entity has been credited with all the time since it was last
      charged, at its weight, and vtime has followed.  Nothing else has changed. */
  ghost predicate Pays(s: State, r: State, q: nat)
    requires Sane(s) && Sane(r) && r.t == s.t && IsQueue(s, q) && |s.t.sfq| == |s.m.joined| == |s.tm.vruntime|
  {
    var u := s.m.curr[q];
    if u == NIL || s.tm.clock <= s.tm.start[u] then r == s
    else
      var d: nat := s.tm.clock - s.tm.start[u];
      && r == s.(tm := s.tm.(sum := s.tm.sum[u := s.tm.sum[u] + d], start := s.tm.start[u := s.tm.clock],
                             vruntime := s.tm.vruntime[u := r.tm.vruntime[u]], vtime := s.tm.vtime[q := r.tm.vtime[q]],
                             charged := s.tm.charged[q := s.tm.charged[q] + d]))
      && FixedPoint.Worth(d, s.a.weight[u], r.tm.vruntime[u] - s.tm.vruntime[u])
      && Follows(r.t, r.m, r.tm, q, s.tm.vtime[q])
  }

  lemma UpdateCurrPays(s: State, q: nat)
    requires Sane(s) && IsQueue(s, q) && Seated(s) && Timed(s.t, s.m, s.tm)
    ensures |s.t.sfq| == |s.m.joined| == |s.tm.vruntime| && Pays(s, UpdateCurr(s, q), q)
  {
    hide FixedPoint.ScaleDelta, FixedPoint.Worth, WfTopo, NewVtime, Follows;
    Lengths(s);
    var u := s.m.curr[q];
    if u != NIL && s.tm.clock > s.tm.start[u] {
      FixedPoint.ScaleDeltaWorth(s.tm.clock - s.tm.start[u], s.a.weight[u]);
      ChargeTimed(s, q);
      UpdateVtimeFollows(Charge(s, q), q);
    }
  }

  /** With weight w instead of its own. */
  function Reweighed(s: State, e: nat, w: nat): (r: State)
    requires Sane(s) && IsEnt(s, e)
    ensures Same(s, r)
  {
    SetWeight(s, e, w)
  }

  /** For the same time a heavier entity is charged no more virtual time. */
  lemma HeavierPaysNoMore(s: State, q: nat, w: nat)
    requires Sane(s) && IsQueue(s, q) && s.m.curr[q] != NIL && s.tm.start[s.m.curr[q]] <= s.tm.clock
    requires 2 <= s.a.weight[s.m.curr[q]] <= w < FixedPoint.TWO_32
    requires FixedPoint.Fits(s.tm.clock - s.tm.start[s.m.curr[q]], FixedPoint.NICE_0_WEIGHT, s.a.weight[s.m.curr[q]])
    ensures var u := s.m.curr[q];
            UpdateCurr(Reweighed(s, u, w), q).tm.vruntime[u] <= UpdateCurr(s, q).tm.vruntime[u]
  {
    hide FixedPoint.ScaleDelta, FixedPoint.Fits, NewVtime, WfTopo;
    var u := s.m.curr[q];
    FixedPoint.HeavierGainsNoMore(s.tm.clock - s.tm.start[u], s.a.weight[u], w);
  }

  /** The weight of a running entity changes after it has been charged at its old weight. */
  lemma UpdateEntityWeightPays(s: State, e: nat, w: nat)
    requires Sane(s) && IsEnt(s, e)
    ensures s.t.sfq[e] < |s.m.curr|
    ensures UpdateEntityWeight(s, e, w).tm == if s.m.joined[e] && s.m.curr[s.t.sfq[e]] == e then UpdateCurr(s, s.t.sfq[e]).tm else s.tm
  {
    hide UpdateCurr;
  }

  // ---------- arriving ----------

  /** An entity is moved up to `low` and no further, and never back. */
  predicate Lands(old_: int, new_: int, low: int) {
    new_ >= old_ && new_ >= low && (new_ == old_ || new_ == low)
  }

  /** A waking entity goes at most the threshold behind the vtime of its queue as it is once the
      current entity has been charged; it keeps what it has if that is more. */
  lemma ArriveLands(s: State, e: nat)
    requires Sane(s) && IsEnt(s, e)
    ensures s.t.sfq[e] < |s.t.owner| && s.t.sfq[e] < |s.tm.vtime|
    ensures var q, r := s.t.sfq[e], Arrive(s, e, true);
            var paid := UpdateCurr(s, q);
            && r == paid.(ok := r.ok, tm := paid.tm.(vruntime := paid.tm.vruntime[e := r.tm.vruntime[e]]))
            && Lands(paid.tm.vruntime[e], r.tm.vruntime[e], paid.tm.vtime[q] - s.p.thresh)
  {
    hide UpdateCurr, WfTopo;
    SfqInRange(s, e);
  }

  lemma UpdateSharesSpareTm(s: State, q: nat, e: nat)
    requires Sane(s) && IsQueue(s, q) && IsEnt(s, e) && s.t.sfq[e] == q && Placed(s) && Housed(s.t, s.m) && Timed(s.t, s.m, s.tm)
    ensures var r := UpdateShares(s, q); r.tm.vruntime[e] == s.tm.vruntime[e] && r.tm.vtime[q] == s.tm.vtime[q]
  {
    hide UpdateShares, Timed, Lag, Unmoved, Later, WfTopo;
    SfqInRange(s, e);
    UpdateSharesTimed(s, q);
  }

  /** What a waking entity joins with. */
  lemma EnqueueEntityLands(s: State, e: nat)
    requires Sane(s) && IsEnt(s, e) && !s.m.joined[e] && s.m.curr[s.t.sfq[e]] != e && !s.m.onSfq[e]
    requires Placed(s) && Joins(s.t, s.m) && Timed(s.t, s.m, s.tm)
    ensures s.t.sfq[e] < |s.t.owner|
    ensures var q, r := s.t.sfq[e], EnqueueEntity(s, e, true);
            var v := UpdateCurr(s, q).tm.vtime[q];
            r.tm.vtime[q] == v && Lands(s.tm.vruntime[e], r.tm.vruntime[e], v - s.p.thresh)
  {
    hide Arrive, UpdateCurr, MakeRunnable, TreeEnqueue, Account, UpdateShares, Lands, Timed, Timelines, Currs, Lag, WfTopo;
    SfqInRange(s, e);
    var q := s.t.sfq[e];
    var s0 := s.(ok := s.ok && !s.m.joined[e]);
    UpdateCurrTimed(s, q);
    UpdateCurrOk(s, s0.ok, q);
    ArriveLands(s0, e);
    ArriveTimed(s0, e, true);
    var s1 := MakeRunnable(Arrive(s0, e, true), e);
    TreeEnqueuePlaced(s1, e);
    TreeEnqueueTimed(s1, e);
    var s2 := Account(TreeEnqueue(s1, e), e, 1);
    UpdateSharesSpareTm(s2, q, e);
  }

  lemma UpdateCurrOk(s: State, ok: bool, q: nat)
    requires Sane(s) && IsQueue(s, q)
    ensures UpdateCurr(s.(ok := ok), q).tm == UpdateCurr(s, q).tm
  {
    hide FixedPoint.ScaleDelta, NewVtime;
  }

  // ---------- leaving ----------

  lemma LeaveSeated(s: State, e: nat)
    requires Sane(s) && IsEnt(s, e) && s.m.joined[e] && Placed(s) && Joins(s.t, s.m) && Timed(s.t, s.m, s.tm)
    ensures Seated(Leave(s, e))
  {
    hide Detach, Timelines, Currs, Timed, Lag, Unmoved, Later;
    LeaveTimed(s, e);
    DetachMembers(s, e);
  }

  /** When an entity has left, vtime follows those that stay; one that goes to sleep keeps its virtual
      time as charged. */
  lemma DequeueEntityFollows(s: State, e: nat, sleep: bool)
    requires Sane(s) && IsEnt(s, e) && s.m.joined[e] && Placed(s) && Joins(s.t, s.m) && Timed(s.t, s.m, s.tm)
    ensures |s.t.sfq| == |s.m.joined| == |s.tm.vruntime| && s.t.sfq[e] < |s.t.owner|
    ensures var q, r := s.t.sfq[e], DequeueEntity(s, e, sleep);
            && Follows(r.t, r.m, r.tm, q, UpdateCurr(s, q).tm.vtime[q])
            && (sleep ==> r.tm.vruntime[e] == UpdateCurr(s, q).tm.vruntime[e])
  {
    hide Leave, UpdateCurr, UpdateVtime, UpdateShares, Follows, Seated, Timed, Lag, Unmoved, Later, WfTopo, Timelines, Currs;
    Lengths(s);
    var q := s.t.sfq[e];
    LeaveTimed(s, e);
    LeaveSeated(s, e);
    var s1 := Leave(s, e);
    var s2 := if sleep then s1 else SubVtime(s1, e);
    if !sleep {
      VruntimeOnly(s1, s2, e);
    }
    SeatedSame(s1, s2);
    assert Timed(s2.t, s2.m, s2.tm);
    TimedSorted(s2);
    UpdateVtimeFollows(s2, q);
    VtimeOnly(s2, q);
    var s3 := UpdateVtime(s2, q);
    VtimeOnlyMoves(s2, q);
    SeatedSame(s2, s3);
    SeatedMeans(s3);
    UpdateSharesTimed(s3, q);
    FollowsSame(s3, UpdateShares(s3, q), q, s2.tm.vtime[q]);
    SubVtimeKeeps(s1, e);
  }

  lemma SeatedSame(s: State, r: State)
    requires Sane(s) && Sane(r) && r.t == s.t && r.m == s.m
    ensures Seated(s) <==> Seated(r)
  {
  }

  lemma SeatedMeans(s: State)
    requires Sane(s) && Seated(s)
    ensures Placed(s) && Housed(s.t, s.m)
  {
  }

  lemma TimedSorted(s: State)
    requires Sane(s) && Timed(s.t, s.m, s.tm)
    ensures Sorted(s.t, s.m, s.tm)
  {
  }

  lemma VtimeOnlyMoves(s: State, q: nat)
    requires Sane(s) && IsQueue(s, q)
    ensures var r := UpdateVtime(s, q); r == s.(tm := s.tm.(vtime := r.tm.vtime))
  {
    hide NewVtime;
  }

  lemma SubVtimeKeeps(s: State, e: nat)
    requires Sane(s) && IsEnt(s, e)
    ensures SubVtime(s, e).tm.vtime == s.tm.vtime && SubVtime(s, e).t == s.t
  {
  }

  lemma FollowsSame(s: State, r: State, q: nat, v0: int)
    requires Sane(s) && Sane(r) && IsQueue(s, q) && r.t == s.t && r.m == s.m && r.tm.vtime[q] == s.tm.vtime[q]
    requires |s.t.sfq| == |s.m.joined| == |s.tm.vruntime|
    requires forall x :: 0 <= x < |s.t.sfq| && s.t.sfq[x] == q ==> r.tm.vruntime[x] == s.tm.vruntime[x]
    requires Follows(s.t, s.m, s.tm, q, v0)
    ensures Follows(r.t, r.m, r.tm, q, v0)
  {
    if exists e :: Member(s.t, s.m, e, q) {
      var e :| Member(s.t, s.m, e, q) && s.tm.vruntime[e] <= s.tm.vtime[q];
      assert Member(r.t, r.m, e, q) && r.tm.vruntime[e] <= r.tm.vtime[q];
    }
    if s.tm.vtime[q] != v0 {
      var e :| Member(s.t, s.m, e, q) && s.tm.vruntime[e] == s.tm.vtime[q];
      assert Member(r.t, r.m, e, q) && r.tm.vruntime[e] == r.tm.vtime[q];
    }
  }

  // ---------- shares ----------

  lemma UpdateSharesWeigh(s: State, q: nat)
    requires Sane(s) && IsQueue(s, q)
    ensures var r, p := UpdateShares(s, q), s.t.owner[q];
            r.a.shares == s.a.shares && (if p == NIL then r.a.weight == s.a.weight
                                         else 0 <= p < |s.a.weight| && r.a.weight == s.a.weight[p := s.a.shares[q]])
  {
    hide UpdateCurr;
    if s.t.owner[q] != NIL {
      OwnerOf(s, q);
      assert s.a.weight[s.t.owner[q] := s.a.weight[s.t.owner[q]]] == s.a.weight;
    }
  }

  /** Every group above e weighs what the shares of its queue say. */
  ghost predicate GroupsWeigh(s: State, e: int)
    requires Sane(s) && (e == NIL || IsEnt(s, e))
    decreases Rank(s.t, e)
  {
    e == NIL
    || ((s.t.parent[e] != NIL ==> s.a.weight[s.t.parent[e]] == s.a.shares[s.t.sfq[e]]) && GroupsWeigh(s, s.t.parent[e]))
  }

  /** Only entities above e have another weight. */
  ghost predicate WeightsAbove(s: State, r: State, e: int)
    requires Sane(s) && Sane(r) && r.t == s.t && (e == NIL || IsEnt(s, e))
  {
    r.a.shares == s.a.shares
    && forall x {:trigger r.a.weight[x]} :: 0 <= x < |s.t.level| && x < |s.a.weight| && x < |r.a.weight| && Rank(s.t, x) >= Rank(s.t, e) ==>
         r.a.weight[x] == s.a.weight[x]
  }

  lemma WeightsUp(s: State, s': State, r: State, e: nat)
    requires Sane(s) && Sane(s') && Sane(r) && s'.t == s.t && r.t == s.t && IsEnt(s, e)
    requires s'.a.shares == s.a.shares
    requires var p := s.t.parent[e];
             if p == NIL then s'.a.weight == s.a.weight else 0 <= p < |s.a.weight| && s'.a.weight == s.a.weight[p := s.a.shares[s.t.sfq[e]]]
    requires s.t.parent[e] == NIL || IsEnt(s, s.t.parent[e])
    requires WeightsAbove(s', r, s.t.parent[e])
    ensures WeightsAbove(s, r, e)
    ensures s.t.parent[e] != NIL ==> r.a.weight[s.t.parent[e]] == r.a.shares[s.t.sfq[e]]
  {
    ParentGroup(s, e);
    Lengths(s);
    Lengths(s');
    Lengths(r);
    hide Sane, WfTopo;
  }

  lemma {:induction false} SharesWalkWeighs(s: State, e: int)
    requires Sane(s) && (e == NIL || IsEnt(s, e))
    ensures var r := SharesWalk(s, e); GroupsWeigh(r, e) && WeightsAbove(s, r, e)
    decreases Rank(s.t, e)
  {
    hide UpdateShares, WeightsAbove, WfTopo;
    if e == NIL {
      NoWeights(s);
    } else {
      ParentGroup(s, e);
      UpdateSharesWeigh(s, s.t.sfq[e]);
      var s1 := UpdateShares(s, s.t.sfq[e]);
      SharesWalkWeighs(s1, s.t.parent[e]);
      WeightsUp(s, s1, SharesWalk(s, e), e);
    }
  }

  lemma NoWeights(s: State)
    requires Sane(s)
    ensures WeightsAbove(s, s, NIL)
  {
  }

  lemma EnqueueEntityWeighs(s: State, e: nat, wakeup: bool)
    requires Sane(s) && IsEnt(s, e)
    ensures var r, p := EnqueueEntity(s, e, wakeup), s.t.parent[e];
            r.a.shares == s.a.shares && (if p == NIL then r.a.weight == s.a.weight
                                         else 0 <= p < |s.a.weight| && r.a.weight == s.a.weight[p := s.a.shares[s.t.sfq[e]]])
  {
    hide Arrive, MakeRunnable, TreeEnqueue, UpdateShares, WfTopo;
    ParentGroup(s, e);
    var s0 := s.(ok := s.ok && !s.m.joined[e]);
    ArriveMembers(s0, e, wakeup);
    var s1 := MakeRunnable(Arrive(s0, e, wakeup), e);
    UpdateSharesWeigh(Account(TreeEnqueue(s1, e), e, 1), s.t.sfq[e]);
  }

  lemma DequeueEntityWeighs(s: State, e: nat, sleep: bool)
    requires Sane(s) && IsEnt(s, e) && s.m.joined[e]
    ensures var r, p := DequeueEntity(s, e, sleep), s.t.parent[e];
            r.a.shares == s.a.shares && (if p == NIL then r.a.weight == s.a.weight
                                         else 0 <= p < |s.a.weight| && r.a.weight == s.a.weight[p := s.a.shares[s.t.sfq[e]]])
  {
    hide Detach, NewVtime, UpdateShares, WfTopo;
    ParentGroup(s, e);
    var s1 := Leave(s, e);
    UpdateSharesWeigh(UpdateVtime(if sleep then s1 else SubVtime(s1, e), s.t.sfq[e]), s.t.sfq[e]);
  }

  /** Queueing an entity brings all groups above it to their shares, those that are joined with it and
      those that were joined already. */
  lemma {:induction false} EnqueueWalkWeighs(s: State, e: int, wakeup: bool)
    requires Sane(s) && (e == NIL || IsEnt(s, e))
    ensures var (s1, e1) := EnqueueWalk(s, e, wakeup);
            var r := SharesWalk(s1, e1);
            GroupsWeigh(r, e) && WeightsAbove(s, r, e)
    decreases Rank(s.t, e)
  {
    hide EnqueueEntity, SharesWalk, WeightsAbove, WfTopo;
    if e == NIL || s.m.joined[e] {
      SharesWalkWeighs(s, e);
    } else {
      ParentGroup(s, e);
      EnqueueEntityWeighs(s, e, wakeup);
      var s' := EnqueueEntity(s, e, wakeup);
      EnqueueWalkWeighs(s', s.t.parent[e], true);
      var (s1, e1) := EnqueueWalk(s, e, wakeup);
      WeightsUp(s, s', SharesWalk(s1, e1), e);
    }
  }

  /** And so does taking one off. */
  lemma {:induction false} DequeueWalkWeighs(s: State, e: int, sleep: bool, isSleep: bool)
    requires Sane(s) && (e == NIL || IsEnt(s, e)) && s.ok
    requires Structure(s, e) && GroupsAbsolute(s.t, s.th.absolute)
    requires e != NIL ==> s.m.joined[e] && (!IsThread(s.t, e) ==> s.a.nr[s.t.myq[e]] == 0)
    requires e != NIL && !sleep ==> s.th.absolute[e] && IsThread(s.t, e)
    ensures var (s1, e1) := DequeueWalk(s, e, sleep, isSleep);
            var r := SharesWalk(s1, e1);
            GroupsWeigh(r, e) && WeightsAbove(s, r, e)
    decreases Rank(s.t, e)
  {
    hide DequeueEntity, SharesWalk, SetNext, WeightsAbove, Structure, GroupsAbsolute, WfTopo;
    if e == NIL {
      SharesWalkWeighs(s, e);
    } else {
      ParentGroup(s, e);
      DequeueEntityWeighs(s, e, sleep);
      DequeueStep(s, e, sleep);
      var s', p := DequeueEntity(s, e, sleep), s.t.parent[e];
      var (s1, e1) := DequeueWalk(s, e, sleep, isSleep);
      if s'.a.load[s.t.sfq[e]] != 0 {
        SharesWalkWeighs(s1, e1);
        WeightsFrom(s', s1, SharesWalk(s1, e1), p);
      } else {
        DequeueWalkWeighs(s', p, true, isSleep);
      }
      WeightsUp(s, s', SharesWalk(s1, e1), e);
    }
  }

  lemma WeightsFrom(s: State, s': State, r: State, e: int)
    requires Sane(s) && Sane(s') && Sane(r) && s'.t == s.t && r.t == s.t && s'.a == s.a && (e == NIL || IsEnt(s, e))
    requires WeightsAbove(s', r, e)
    ensures WeightsAbove(s, r, e)
  {
  }

  /** pss_enqueue_thread and pss_dequeue_thread leave all groups above the thread at their shares. */
  lemma PssEnqueueWeighs(s: State, e: nat, wakeup: bool)
    requires Sane(s) && IsEnt(s, e)
    ensures GroupsWeigh(PssEnqueue(s, e, wakeup), e)
  {
    hide EnqueueWalk, SharesWalk, WfTopo;
    var s0 := NotRealtime(s, e);
    EnqueueWalkWeighs(s0, e, wakeup);
    var (s1, e1) := EnqueueWalk(s0, e, wakeup);
    WeighsSame(SharesWalk(s1, e1), PssEnqueue(s, e, wakeup), e);
  }

  lemma PssDequeueWeighs(s: State, e: nat, sleep: bool)
    requires Sane(s) && IsEnt(s, e) && Core(s) && IsThread(s.t, e) && s.m.joined[e] && (!sleep ==> s.th.absolute[e]) && !s.th.rtJoined[e]
    ensures GroupsWeigh(PssDequeue(s, e, sleep), e)
  {
    hide DequeueWalk, SharesWalk, Structure, Timed, GroupsWeigh, WfTopo;
    assert NotRealtime(s, e) == s;
    WideStructure(s, e);
    DequeueWalkWeighs(s, e, sleep, sleep);
    var (s1, e1) := DequeueWalk(s, e, sleep, sleep);
    WeighsSame(SharesWalk(s1, e1), PssDequeue(s, e, sleep), e);
  }

  lemma {:induction false} WeighsSame(s: State, r: State, e: int)
    requires Sane(s) && Sane(r) && r.t == s.t && r.a == s.a && (e == NIL || IsEnt(s, e))
    ensures GroupsWeigh(s, e) <==> GroupsWeigh(r, e)
    decreases Rank(s.t, e)
  {
    if e != NIL {
      ParentGroup(s, e);
      WeighsSame(s, r, s.t.parent[e]);
    }
  }
}
