/** Who runs, who is queued and who sleeps, across the realtime and the pss class
    (rt.c:270-347, pss.c:641-660, sched.c:904-922). */
module SchedRoles {
  import opened SchedState
  import opened SchedOps
  import opened SchedSteps
  import opened SchedBooks
  import opened SchedMembers
  import opened SchedWalks
  import opened SchedTimes
  import opened SchedClass
  import opened SchedPick
  import FixedPoint

  // ---------- invariants ----------

  /** The role of one entity when thread cur runs (NIL: the idle thread). */
  ghost predicate Role(t: Topo, m: Members, th: Threads, cur: int, e: nat)
    requires WfTopo(t) && SizedM(m, |t.parent|, |t.owner|) && SizedTh(th, |t.parent|) && e < |t.parent|
  {
    if t.myq[e] != NIL then !th.onRunq[e] && !th.rtJoined[e] && cur != e
    else
      && (!th.live[e] ==> th.state[e] == Inhibited)
      && (th.cls[e] == Realtime ==> !m.joined[e])
      && (th.cls[e] == Pss ==> !th.rtJoined[e])
      && (th.state[e] != Inhibited <==> m.joined[e] || th.rtJoined[e])
      && (th.state[e] == Running <==> cur == e)
      && (th.onRunq[e] ==> th.state[e] == OnRunq)
      && (th.rtJoined[e] && th.state[e] == OnRunq ==> th.onRunq[e])
      && (m.curr[t.sfq[e]] == e <==> cur == e && th.cls[e] == Pss)
      && (th.initial[e] ==> th.state[e] == Inhibited)
      && (th.live[e] ==> th.cls[e] == ClassOf(th.pri[e]))
  }

  /** How many threads are joined. */
  ghost function Runnable(t: Topo, joined: seq<bool>, rtJoined: seq<bool>, n: nat): nat
    requires n <= |t.myq| == |joined| == |rtJoined|
  {
    if n == 0 then 0
    else Runnable(t, joined, rtJoined, n - 1) + if t.myq[n - 1] == NIL && (joined[n - 1] || rtJoined[n - 1]) then 1 else 0
  }

  ghost predicate Roles(t: Topo, m: Members, th: Threads, cur: int)
    requires WfTopo(t) && SizedM(m, |t.parent|, |t.owner|) && SizedTh(th, |t.parent|) && NIL <= cur < |t.parent|
  {
    && (forall e :: 0 <= e < |t.parent| ==> Role(t, m, th, cur, e))
    && (forall e :: 0 <= e < |t.parent| ==> (e in th.runq <==> th.onRunq[e]))
    && th.rtCurr == (if cur != NIL && th.cls[cur] == Realtime then cur else NIL)
    && (m.curr[0] != NIL <==> cur != NIL && th.cls[cur] == Pss)
    && th.nrRunning == Runnable(t, m.joined, th.rtJoined, |t.parent|)
  }

  /** Vruntimes of started pss threads, except possibly x, include their queue's vtime; others do not. */
  ghost predicate Normal(t: Topo, th: Threads, x: int)
    requires |th.absolute| == |th.live| == |th.cls| == |th.initial| == |t.myq|
  {
    forall e {:trigger th.absolute[e]} :: 0 <= e < |t.myq| && t.myq[e] == NIL && e != x ==>
      (th.absolute[e] <==> th.live[e] && th.cls[e] == Pss && !th.initial[e])
  }

  ghost predicate Linked(s: State)
    requires Sane(s)
  {
    Core(s) && Chain(s.t, s.m, NIL) && CurrJoined(s.m)
  }

  /** The whole invariant between two steps. */
  ghost predicate Inv(s: State)
    requires Sane(s)
  {
    Linked(s) && Roles(s.t, s.m, s.th, s.th.current) && Normal(s.t, s.th, NIL)
  }

  /** No thread lags more than the threshold, wherever it will be queued next. */
  ghost predicate Near(s: State)
    requires Sane(s)
  {
    Bounded(s) && RelativeLag(s.p, s.t, s.th.absolute, s.tm)
  }

  /** Threads other than e keep their roles, and their vruntimes if they are not joined. */
  ghost predicate Steady(s: State, r: State, e: int)
    requires Sane(s) && Sane(r) && r.t == s.t
  {
    && Later(s.tm, r.tm) && r.a.shares == s.a.shares
    && r.th.cls == s.th.cls && r.th.prio == s.th.prio && r.th.pri == s.th.pri
    && r.th.initial == s.th.initial && r.th.live == s.th.live && r.th.current == s.th.current
    && (forall x {:trigger r.th.absolute[x]} :: 0 <= x < |s.t.parent| && s.t.myq[x] == NIL && x != e ==> r.th.absolute[x] == s.th.absolute[x])
    && (forall x {:trigger r.m.joined[x]} :: 0 <= x < |s.t.parent| && s.t.myq[x] == NIL && x != e ==> r.m.joined[x] == s.m.joined[x])
    && (forall x {:trigger r.tm.vruntime[x]} :: 0 <= x < |s.t.parent| && s.t.myq[x] == NIL && x != e && !s.m.joined[x] ==>
          r.tm.vruntime[x] == s.tm.vruntime[x])
  }

  // ---------- counting ----------

  function One(b: bool): int {
    if b then 1 else 0
  }

  lemma {:induction false} RunnableBut(t: Topo, j: seq<bool>, rj: seq<bool>, j': seq<bool>, rj': seq<bool>, e: nat, n: nat)
    requires n <= |t.myq| == |j| == |rj| == |j'| == |rj'| && e < |t.myq| && t.myq[e] == NIL
    requires forall x :: 0 <= x < |t.myq| && t.myq[x] == NIL && x != e ==> j'[x] == j[x] && rj'[x] == rj[x]
    ensures Runnable(t, j', rj', n) ==
              Runnable(t, j, rj, n) + (if e < n then One(j'[e] || rj'[e]) - One(j[e] || rj[e]) else 0)
  {
    if n > 0 {
      RunnableBut(t, j, rj, j', rj', e, n - 1);
    }
  }

  lemma {:induction false} RunnableAny(t: Topo, j: seq<bool>, rj: seq<bool>, e: nat, n: nat)
    requires n <= |t.myq| == |j| == |rj| && e < n && t.myq[e] == NIL && (j[e] || rj[e])
    ensures Runnable(t, j, rj, n) > 0
  {
    if e < n - 1 {
      RunnableAny(t, j, rj, e, n - 1);
    }
  }

  // ---------- enqueueing ----------

  /** The state with thread e asleep. */
  function Asleep(s: State, e: nat): (r: State)
    requires Sane(s) && IsEnt(s, e)
    ensures Same(s, r) && r == s.(th := s.th.(state := r.th.state))
  {
    SetState(s, e, Inhibited)
  }

  lemma EnqueueLinked(s: State, e: nat, wakeup: bool)
    requires Sane(s) && IsEnt(s, e) && IsThread(s.t, e) && Linked(s) && !s.m.joined[e] && !s.th.rtJoined[e] && !s.th.onRunq[e]
    requires s.th.cls[e] == Pss ==> s.th.absolute[e] == wakeup
    ensures var r := Enqueue(s, e, wakeup);
            && Linked(r) && r.m.curr == s.m.curr && Steady(s, r, e)
            && (if s.th.cls[e] == Pss then
                  r.m.joined[e] && r.th == Queued(s, e, wakeup).(nrRunning := s.th.nrRunning + 1)
                else
                  r.m == s.m && r.tm == s.tm && r.th == RtEnqueue(s, e).th)
            && (Bounded(s) && (s.th.cls[e] == Pss ==> Welcome(s, e, wakeup)) ==> Bounded(r))
            && (s.th.cls[e] == Pss && !wakeup ==> r.tm.vruntime[e] == s.tm.vruntime[e] + s.tm.vtime[s.t.sfq[e]])
            && (s.th.cls[e] == Pss && !Welcome(s, e, wakeup) ==> Late(r, e))
  {
    if s.th.cls[e] == Pss {
      PssEnqueueLinked(s, e, wakeup);
    } else {
      RtEnqueueLinked(s, e);
    }
  }

  lemma PssEnqueueLinked(s: State, e: nat, wakeup: bool)
    requires Sane(s) && IsEnt(s, e) && IsThread(s.t, e) && Linked(s) && !s.m.joined[e] && !s.th.rtJoined[e] && !s.th.onRunq[e]
    requires s.th.absolute[e] == wakeup
    ensures var r := PssEnqueue(s, e, wakeup);
            && Linked(r) && r.m.curr == s.m.curr && Steady(s, r, e) && r.m.joined[e]
            && r.th == Queued(s, e, wakeup).(nrRunning := s.th.nrRunning + 1)
            && (Bounded(s) && Welcome(s, e, wakeup) ==> Bounded(r))
            && (!wakeup ==> r.tm.vruntime[e] == s.tm.vruntime[e] + s.tm.vtime[s.t.sfq[e]])
            && (!Welcome(s, e, wakeup) ==> Late(r, e))
  {
    hide PssEnqueue, Core, Bounded, Welcome, Later, Late;
    PssEnqueueKeeps(s, e, wakeup);
    ChainSame(s, PssEnqueue(s, e, wakeup));
  }

  lemma ChainSame(s: State, r: State)
    requires Sane(s) && Sane(r) && r.t == s.t && r.m.curr == s.m.curr
    ensures forall x :: Chain(s.t, s.m, x) <==> Chain(r.t, r.m, x)
  {
  }

  lemma RtEnqueueLinked(s: State, e: nat)
    requires Sane(s) && IsEnt(s, e) && IsThread(s.t, e) && Linked(s) && !s.m.joined[e] && !s.th.rtJoined[e] && !s.th.onRunq[e]
    ensures var r := RtEnqueue(s, e); Linked(r) && Steady(s, r, e) && (Bounded(s) ==> Bounded(r))
  {
    hide Kept, Timelines, Currs, Groups, Candidates, Timed, Chain, CurrJoined, Bounded, Joins;
    OffTimeline(s, e);
    ThreadsOnly(s, RtEnqueue(s, e));
  }

  lemma OffTimeline(s: State, e: nat)
    requires Sane(s) && IsEnt(s, e) && Core(s) && !s.m.joined[e]
    ensures !s.m.onSfq[e]
  {
  }

  /** Only fields of threads have changed, and no absolute flag of a group. */
  lemma ThreadsOnly(s: State, r: State)
    requires Sane(s) && Sane(r) && r == s.(th := r.th, ok := r.ok) && r.ok == s.ok && r.th.absolute == s.th.absolute
    ensures Core(s) <==> Core(r)
    ensures Linked(s) <==> Linked(r)
    ensures Bounded(s) <==> Bounded(r)
  {
    hide Kept, Timelines, Currs, Groups, Candidates, Timed, Chain, CurrJoined, Joins;
    GroupsSame(s, s.(th := r.th));
    KeptOnly(s, r);
    PlacedOnly(s, r);
  }

  // ---------- one thread changes its role ----------

  /** Entities other than thread e look the same. */
  ghost predicate OthersSame(t: Topo, m: Members, th: Threads, m': Members, th': Threads, e: nat)
    requires WfTopo(t) && SizedM(m, |t.parent|, |t.owner|) && SizedTh(th, |t.parent|)
    requires SizedM(m', |t.parent|, |t.owner|) && SizedTh(th', |t.parent|)
  {
    forall x {:trigger th'.state[x]} {:trigger th'.onRunq[x]} {:trigger th'.rtJoined[x]} {:trigger m'.joined[x]}
              :: 0 <= x < |t.parent| && x != e ==>
      && th'.onRunq[x] == th.onRunq[x] && th'.rtJoined[x] == th.rtJoined[x]
      && (t.myq[x] == NIL ==>
            && th'.live[x] == th.live[x] && th'.cls[x] == th.cls[x] && th'.pri[x] == th.pri[x] && th'.initial[x] == th.initial[x]
            && th'.state[x] == th.state[x] && m'.joined[x] == m.joined[x]
            && (m'.curr[t.sfq[x]] == x <==> m.curr[t.sfq[x]] == x))
  }

  lemma RolesStep(t: Topo, m: Members, th: Threads, cur: int, m': Members, th': Threads, cur': int, e: nat)
    requires WfTopo(t) && SizedM(m, |t.parent|, |t.owner|) && SizedTh(th, |t.parent|)
    requires SizedM(m', |t.parent|, |t.owner|) && SizedTh(th', |t.parent|)
    requires NIL <= cur < |t.parent| && e < |t.parent| && t.myq[e] == NIL && Roles(t, m, th, cur)
    requires OthersSame(t, m, th, m', th', e) && Role(t, m', th', cur', e)
    requires cur' == e || (cur == e && cur' == NIL) || cur' == cur
    requires cur' == e ==> cur == e || cur == NIL
    requires th'.runq == if th'.onRunq[e] then th.runq + {e} else th.runq - {e}
    requires th'.rtCurr == (if cur' != NIL && th'.cls[cur'] == Realtime then cur' else NIL)
    requires m'.curr[0] != NIL <==> cur' != NIL && th'.cls[cur'] == Pss
    requires th'.nrRunning == th.nrRunning + One(m'.joined[e] || th'.rtJoined[e]) - One(m.joined[e] || th.rtJoined[e])
    ensures Roles(t, m', th', cur')
  {
    forall x | 0 <= x < |t.parent| ensures Role(t, m', th', cur', x) {
      if x != e {
        assert Role(t, m, th, cur, x);
        assert th'.state[x] == th'.state[x];
      }
    }
    assert forall x :: 0 <= x < |t.parent| && t.myq[x] == NIL && x != e ==>
      m'.joined[x] == m.joined[x] && th'.rtJoined[x] == th.rtJoined[x];
    RunnableBut(t, m.joined, th.rtJoined, m'.joined, th'.rtJoined, e, |t.parent|);
  }

  lemma EnqueueRoles(s: State, e: nat, wakeup: bool, cur: int)
    requires Sane(s) && IsEnt(s, e) && IsThread(s.t, e) && Linked(s) && !s.m.joined[e] && !s.th.rtJoined[e] && !s.th.onRunq[e]
    requires s.th.cls[e] == Pss ==> s.th.absolute[e] == wakeup
    requires NIL <= cur < |s.t.parent| && cur != e && s.th.live[e] && !s.th.initial[e]
    requires Roles(s.t, s.m, Asleep(s, e).th, cur)
    ensures var r := Enqueue(s, e, wakeup); Roles(r.t, r.m, r.th, cur) && r.th.state[e] == OnRunq
    ensures s.th.cls[e] == Pss ==> Enqueue(s, e, wakeup).th.absolute[e]
    ensures s.th.cls[e] != Pss ==> Enqueue(s, e, wakeup).th.absolute == s.th.absolute
  {
    hide Enqueue, Linked, Bounded, Welcome, Later, Roles, WfTopo;
    EnqueueLinked(s, e, wakeup);
    ParentGroup(s, e);
    var r := Enqueue(s, e, wakeup);
    RolesMean(s.t, s.m, Asleep(s, e).th, cur, e);
    assert s.th.runq - {e} == s.th.runq;
    RolesStep(s.t, s.m, Asleep(s, e).th, cur, r.m, r.th, cur, e);
  }

  lemma RolesMean(t: Topo, m: Members, th: Threads, cur: int, e: nat)
    requires WfTopo(t) && SizedM(m, |t.parent|, |t.owner|) && SizedTh(th, |t.parent|) && NIL <= cur < |t.parent|
    requires Roles(t, m, th, cur) && e < |t.parent|
    ensures Role(t, m, th, cur, e) && (e in th.runq <==> th.onRunq[e])
    ensures th.rtCurr == (if cur != NIL && th.cls[cur] == Realtime then cur else NIL)
    ensures m.curr[0] != NIL <==> cur != NIL && th.cls[cur] == Pss
    ensures t.myq[e] == NIL && (m.joined[e] || th.rtJoined[e]) ==> th.nrRunning != 0
  {
    if t.myq[e] == NIL && (m.joined[e] || th.rtJoined[e]) {
      RunnableAny(t, m.joined, th.rtJoined, e, |t.parent|);
    }
  }

  // ---------- dequeueing ----------

  /** Every current entity is joined if the running thread is: the chain holds the groups. */
  lemma {:induction false} CurrJoinedAt(s: State, q: nat)
    requires Sane(s) && IsQueue(s, q) && Kept(s) && Currs(s.t, s.m) && Groups(s.t, s.m, s.a, NIL) && Chain(s.t, s.m, NIL)
    requires forall p :: 0 <= p < |s.m.curr| && s.m.curr[p] != NIL && IsThread(s.t, s.m.curr[p]) ==> s.m.joined[s.m.curr[p]]
    requires s.m.curr[q] != NIL
    ensures s.m.joined[s.m.curr[q]]
    decreases s.t.depth - s.t.level[s.m.curr[q]]
  {
    hide Kept;
    var g := s.m.curr[q];
    if !IsThread(s.t, g) {
      var p := s.t.myq[g];
      assert s.t.sfq[g] == q && s.m.curr[p] != NIL;
      var f := s.m.curr[p];
      assert s.t.sfq[f] == p && s.t.parent[f] == s.t.owner[p] == g;
      CurrJoinedAt(s, p);
      MemberCounts(s, f);
    }
  }

  lemma MemberCounts(s: State, e: nat)
    requires Sane(s) && IsEnt(s, e) && Kept(s) && s.m.joined[e]
    ensures s.a.nr[s.t.sfq[e]] > 0
  {
    LoadSumPart(s.t.sfq, s.m.joined, s.a.weight, s.t.sfq[e], |s.t.sfq|);
    assert QueueBooks(s.t, s.m.joined, s.a, s.t.sfq[e]);
  }

  lemma LinkedBy(s: State)
    requires Sane(s) && Core(s) && Chain(s.t, s.m, NIL)
    requires forall p :: 0 <= p < |s.m.curr| && s.m.curr[p] != NIL && IsThread(s.t, s.m.curr[p]) ==> s.m.joined[s.m.curr[p]]
    ensures Linked(s)
  {
    hide Kept, Timelines, Currs, Groups, Candidates, Timed, Chain, Joins;
    forall q | 0 <= q < |s.m.curr| && s.m.curr[q] != NIL ensures s.m.joined[s.m.curr[q]] {
      CurrJoinedAt(s, q);
    }
  }

  lemma DequeueLinked(s: State, e: nat, sleep: bool)
    requires Sane(s) && IsEnt(s, e) && IsThread(s.t, e) && Core(s) && Chain(s.t, s.m, NIL) && s.th.nrRunning != 0
    requires if s.th.cls[e] == Pss then s.m.joined[e] && !s.th.rtJoined[e] else s.th.rtJoined[e] && !s.m.joined[e]
    requires s.th.cls[e] == Pss && !sleep ==> s.th.absolute[e]
    ensures var r := Dequeue(s, e, sleep);
            && Core(r) && Chain(r.t, r.m, NIL) && r.m.curr == s.m.curr && Steady(s, r, e)
            && !r.m.joined[e]
            && (if s.th.cls[e] == Pss then
                  r.th == Dequeued(s, e, sleep).(nrRunning := s.th.nrRunning - 1)
                else
                  r.m == s.m && r.tm == s.tm && r.th == RtDequeue(s, e).th)
            && (Bounded(s) ==> Bounded(r))
            && (Bounded(s) && s.th.cls[e] == Pss && !sleep ==> r.tm.vruntime[e] + s.p.thresh >= 0)
            && (s.th.cls[e] == Pss && !sleep ==> r.tm.vruntime[e] == LagNow(s, e))
  {
    if s.th.cls[e] == Pss {
      PssDequeueLinked(s, e, sleep);
    } else {
      RtDequeueLinked(s, e);
    }
  }

  lemma PssDequeueLinked(s: State, e: nat, sleep: bool)
    requires Sane(s) && IsEnt(s, e) && IsThread(s.t, e) && Core(s) && Chain(s.t, s.m, NIL) && s.th.nrRunning != 0
    requires s.m.joined[e] && !s.th.rtJoined[e] && (!sleep ==> s.th.absolute[e])
    ensures var r := PssDequeue(s, e, sleep);
            && Core(r) && Chain(r.t, r.m, NIL) && r.m.curr == s.m.curr && Steady(s, r, e)
            && !r.m.joined[e] && r.th == Dequeued(s, e, sleep).(nrRunning := s.th.nrRunning - 1)
            && (Bounded(s) ==> Bounded(r))
            && (Bounded(s) && !sleep ==> r.tm.vruntime[e] + s.p.thresh >= 0)
            && (!sleep ==> r.tm.vruntime[e] == LagNow(s, e))
  {
    hide PssDequeue, Core, Bounded, Later, Currs, LagNow;
    PssDequeueKeeps(s, e, sleep);
    ChainSame(s, PssDequeue(s, e, sleep));
    CoreCurrs(s);
    CurrsMean(s);
  }

  lemma CoreCurrs(s: State)
    requires Sane(s) && Core(s)
    ensures Currs(s.t, s.m)
  {
  }

  lemma CurrsMean(s: State)
    requires Sane(s) && Currs(s.t, s.m)
    ensures forall q :: 0 <= q < |s.m.curr| && s.m.curr[q] != NIL ==> s.t.sfq[s.m.curr[q]] == q
  {
  }

  lemma RtDequeueLinked(s: State, e: nat)
    requires Sane(s) && IsEnt(s, e) && IsThread(s.t, e) && Core(s) && Chain(s.t, s.m, NIL) && s.th.nrRunning != 0
    requires s.th.rtJoined[e] && !s.m.joined[e]
    ensures var r := RtDequeue(s, e);
            Core(r) && Chain(r.t, r.m, NIL) && Steady(s, r, e) && (Bounded(s) ==> Bounded(r))
  {
    hide Kept, Timelines, Currs, Groups, Candidates, Timed, Chain, Bounded, Joins;
    OffTimeline(s, e);
    ThreadsOnly(s, RtDequeue(s, e));
  }

  /** A queued thread leaves; whoever runs goes on running. */
  lemma DequeueRoles(s: State, e: nat, cur: int)
    requires Sane(s) && IsEnt(s, e) && IsThread(s.t, e) && Linked(s)
    requires NIL <= cur < |s.t.parent| && Roles(s.t, s.m, s.th, cur) && s.th.state[e] == OnRunq
    requires s.th.cls[e] == Pss ==> s.th.absolute[e]
    ensures var r := Dequeue(s, e, false);
            && Linked(r) && Roles(r.t, r.m, Asleep(r, e).th, cur) && Steady(s, r, e) && (Bounded(s) ==> Bounded(r))
            && !r.m.joined[e] && !r.th.rtJoined[e] && !r.th.onRunq[e]
            && r.th.absolute[e] == (s.th.absolute[e] && s.th.cls[e] != Pss)
            && r.th.state == s.th.state
            && (s.th.cls[e] != Pss ==> r.tm == s.tm) && (Bounded(s) && s.th.cls[e] == Pss ==> r.tm.vruntime[e] + s.p.thresh >= 0)
            && (s.th.cls[e] == Pss ==> r.tm.vruntime[e] == LagNow(s, e))
  {
    hide LagNow, Dequeue, Core, Bounded, Later, Roles, WfTopo, Chain, SizedC, SizedA, SizedTm, Runnable, Role;
    RolesMean(s.t, s.m, s.th, cur, e);
    DequeueLinked(s, e, false);
    ParentGroup(s, e);
    var r := Dequeue(s, e, false);
    assert s.th.runq - {e} == (if s.th.onRunq[e] then s.th.runq - {e} else s.th.runq);
    RolesStep(s.t, s.m, s.th, cur, r.m, Asleep(r, e).th, cur, e);
    CoreCurrs(s);
    LinkedBy(r);
  }

  // ---------- giving up the processor ----------

  /** The running thread is put back, or forgotten if it has left. */
  lemma PutPrevLinked(s: State, e: nat, relinquish: bool)
    requires Sane(s) && IsEnt(s, e) && IsThread(s.t, e) && Core(s) && Chain(s.t, s.m, NIL) && !s.th.onRunq[e]
    requires s.th.cls[e] == Pss ==> s.m.curr[s.t.sfq[e]] == e && !s.th.rtJoined[e]
    requires s.th.cls[e] == Realtime ==> !s.m.joined[e] && NoCurr(s.m)
    ensures var r := PutPrev(s, e, relinquish);
            && Linked(r) && NoCurr(r.m) && Steady(s, r, e) && r.m.joined == s.m.joined
            && (if s.th.cls[e] == Pss then
                  r.th == if s.m.joined[e] then MakeRunnable(s, e).th else s.th
                else
                  r.m == s.m && r.tm == s.tm && r.th == RtPutPrev(s, e).th)
            && (!s.m.joined[e] ==> r.tm.vruntime[e] == s.tm.vruntime[e])
            && (Bounded(s) ==> Bounded(r))
  {
    if s.th.cls[e] == Pss {
      PssPutPrevLinked(s, e, relinquish);
    } else {
      RtPutPrevLinked(s, e);
    }
  }

  lemma PssPutPrevLinked(s: State, e: nat, relinquish: bool)
    requires Sane(s) && IsEnt(s, e) && IsThread(s.t, e) && Core(s) && Chain(s.t, s.m, NIL) && !s.th.onRunq[e]
    requires s.m.curr[s.t.sfq[e]] == e && !s.th.rtJoined[e]
    ensures var r := PssPutPrev(s, e, relinquish);
            && Linked(r) && NoCurr(r.m) && Steady(s, r, e) && r.m.joined == s.m.joined
            && r.th == (if s.m.joined[e] then MakeRunnable(s, e).th else s.th)
            && (!s.m.joined[e] ==> r.tm.vruntime[e] == s.tm.vruntime[e])
            && (Bounded(s) ==> Bounded(r))
  {
    hide PssPutPrev, Core, Bounded, Later, Chain;
    PssPutPrevKeeps(s, e, relinquish);
    NoChain(PssPutPrev(s, e, relinquish), e);
  }

  lemma RtPutPrevLinked(s: State, e: nat)
    requires Sane(s) && IsEnt(s, e) && IsThread(s.t, e) && Core(s) && NoCurr(s.m) && !s.th.onRunq[e] && !s.m.joined[e]
    ensures var r := RtPutPrev(s, e); Linked(r) && Steady(s, r, e) && (Bounded(s) ==> Bounded(r))
  {
    hide Kept, Timelines, Currs, Groups, Candidates, Timed, Chain, Bounded, Joins;
    NoChain(s, e);
    ThreadsOnly(s, RtPutPrev(s, e));
  }

  /** put_prev of the running thread, which stays runnable. */
  lemma PutPrevRoles(s: State, e: nat, relinquish: bool)
    requires Sane(s) && IsEnt(s, e) && IsThread(s.t, e) && Linked(s) && Roles(s.t, s.m, s.th, e)
    ensures var r := PutPrev(s, e, relinquish);
            && Linked(r) && NoCurr(r.m) && Roles(r.t, r.m, r.th, NIL) && Steady(s, r, e)
            && r.th.absolute == s.th.absolute && r.th.state[e] == OnRunq && (Bounded(s) ==> Bounded(r))
            && (s.th.cls[e] != Pss ==> r.tm == s.tm)
  {
    hide PutPrev, Core, Bounded, Later, Roles, WfTopo, Chain, SizedC, SizedM;
    RolesMean(s.t, s.m, s.th, e, e);
    if s.th.cls[e] == Realtime {
      RunningChain(s, e);
    }
    OneRuns(s, e);
    PutPrevLinked(s, e, relinquish);
    ParentGroup(s, e);
    CoreCurrs(s);
    CurrsMean(s);
    var r := PutPrev(s, e, relinquish);
    NoneAt(r);
    assert s.th.runq - {e} == s.th.runq;
    RolesStep(s.t, s.m, s.th, e, r.m, r.th, NIL, e);
  }

  lemma NoneAt(s: State)
    requires Sane(s) && NoCurr(s.m)
    ensures s.m.curr[0] == NIL
    ensures forall x :: 0 <= x < |s.t.sfq| ==> s.m.curr[s.t.sfq[x]] != x
  {
  }

  lemma OneRuns(s: State, cur: int)
    requires Sane(s) && NIL <= cur < |s.t.parent| && Roles(s.t, s.m, s.th, cur)
    ensures forall x :: 0 <= x < |s.t.sfq| && IsThread(s.t, x) && x != cur ==> s.m.curr[s.t.sfq[x]] != x
  {
    forall x | 0 <= x < |s.t.sfq| && IsThread(s.t, x) && x != cur ensures s.m.curr[s.t.sfq[x]] != x {
      assert Role(s.t, s.m, s.th, cur, x);
    }
  }

  /** While a realtime thread or the idle thread runs there is no current entity. */
  lemma RunningChain(s: State, cur: int)
    requires Sane(s) && Linked(s) && NIL <= cur < |s.t.parent| && Roles(s.t, s.m, s.th, cur)
    requires cur == NIL || s.th.cls[cur] == Realtime
    ensures NoCurr(s.m)
  {
    hide Core;
    ChainEmpty(s);
  }

  /** dequeue and put_prev of the running thread, whatever its state says by now: it is off all
      queues and nothing is current. */
  lemma VacateRoles(s: State, e: nat, sleep: bool)
    requires Sane(s) && IsEnt(s, e) && IsThread(s.t, e) && Linked(s)
    requires Roles(s.t, s.m, SetState(s, e, Running).th, e)
    requires s.th.cls[e] == Pss ==> s.th.absolute[e]
    ensures var r := PutPrev(Dequeue(s, e, sleep), e, false);
            && Linked(r) && NoCurr(r.m) && Roles(r.t, r.m, Asleep(r, e).th, NIL) && Steady(s, r, e)
            && !r.m.joined[e] && !r.th.rtJoined[e] && !r.th.onRunq[e]
            && r.th.absolute[e] == (s.th.absolute[e] && (s.th.cls[e] == Pss ==> sleep))
            && r.th.state == s.th.state
            && (Bounded(s) ==> Bounded(r))
            && (s.th.cls[e] != Pss ==> r.tm == s.tm)
            && (Bounded(s) && s.th.cls[e] == Pss && !sleep ==> r.tm.vruntime[e] + s.p.thresh >= 0)
            && (s.th.cls[e] == Pss && !sleep ==> r.tm.vruntime[e] == LagNow(s, e))
  {
    hide LagNow, Dequeue, PutPrev, Core, Bounded, Later, Roles, WfTopo, Chain, SizedC, SizedM, SizedA, Steady, Runnable, Role, SizedTm;
    var s0 := SetState(s, e, Running);
    RolesMean(s.t, s.m, s0.th, e, e);
    OneRuns(s0, e);
    DequeueLinked(s, e, sleep);
    ParentGroup(s, e);
    var s1 := Dequeue(s, e, sleep);
    if s.th.cls[e] == Realtime {
      ThreadsOnly(s, s0);
      RunningChain(s0, e);
    }
    PutPrevLinked(s1, e, false);
    var r := PutPrev(s1, e, false);
    NoneAt(r);
    SteadyThrough(s, s1, r, e);
    assert s.th.runq - {e} == s.th.runq;
    RolesStep(s.t, s.m, s0.th, e, r.m, Asleep(r, e).th, NIL, e);
  }

  lemma SteadyThrough(s: State, s': State, r: State, e: int)
    requires Sane(s) && Sane(s') && Sane(r) && s'.t == s.t && r.t == s.t && Steady(s, s', e) && Steady(s', r, e)
    ensures Steady(s, r, e)
  {
  }

  // ---------- taking the processor ----------

  lemma ActivateLinked(s: State, e: nat, now: int)
    requires Sane(s) && IsEnt(s, e) && IsThread(s.t, e) && Linked(s) && NoCurr(s.m)
    requires if s.th.cls[e] == Pss then s.m.joined[e] && !s.th.rtJoined[e]
             else !s.m.joined[e] && s.th.rtJoined[e] && s.th.onRunq[e]
    ensures var r := Activate(s, e, now);
            && Linked(r) && Steady(s, r, e) && r.m.joined == s.m.joined && r.tm.vruntime == s.tm.vruntime
            && (if s.th.cls[e] == Pss then
                  && r.m.curr[s.t.sfq[e]] == e && r.m.curr[0] != NIL && r.th == SetState(RunqDequeue(s, e), e, Running).th
                  && (forall x :: 0 <= x < |s.t.sfq| && IsThread(s.t, x) && x != e ==> r.m.curr[s.t.sfq[x]] != x)
                else
                  r.m == s.m && r.th == RtActivate(s, e, now).th)
            && (Bounded(s) ==> Bounded(r))
  {
    if s.th.cls[e] == Pss {
      PssActivateLinked(s, e);
    } else {
      RtActivateLinked(s, e, now);
    }
  }

  lemma PssActivateLinked(s: State, e: nat)
    requires Sane(s) && IsEnt(s, e) && IsThread(s.t, e) && Linked(s) && NoCurr(s.m)
    requires s.m.joined[e] && !s.th.rtJoined[e]
    ensures var r := PssActivate(s, e);
            && Linked(r) && Steady(s, r, e) && r.m.joined == s.m.joined && r.tm.vruntime == s.tm.vruntime
            && r.m.curr[s.t.sfq[e]] == e && r.m.curr[0] != NIL && r.th == SetState(RunqDequeue(s, e), e, Running).th
            && (forall x :: 0 <= x < |s.t.sfq| && IsThread(s.t, x) && x != e ==> r.m.curr[s.t.sfq[x]] != x)
            && (Bounded(s) ==> Bounded(r))
  {
    hide PssActivate, Core, Bounded, Later, Chain, WfTopo;
    ParentGroup(s, e);
    PssActivateKeeps(s, e);
  }

  lemma RtActivateLinked(s: State, e: nat, now: int)
    requires Sane(s) && IsEnt(s, e) && IsThread(s.t, e) && Linked(s) && NoCurr(s.m)
    requires !s.m.joined[e] && s.th.rtJoined[e] && s.th.onRunq[e]
    ensures var r := RtActivate(s, e, now); Linked(r) && Steady(s, r, e) && (Bounded(s) ==> Bounded(r))
  {
    hide Kept, Timelines, Currs, Groups, Candidates, Chain, Joins, Lag;
    OffTimeline(s, e);
    var r := RtActivate(s, e, now);
    var s1 := s.(th := r.th);
    ThreadsOnly(s, s1);
    KeptOnly(s1, r);
    PlacedOnly(s1, r);
    IdleTimes(s1, r);
    LagSame(s1, r);
  }

  /** Without current entities start times and previous sums do not matter. */
  lemma IdleTimes(s: State, r: State)
    requires Sane(s) && Sane(r) && r == s.(tm := s.tm.(start := r.tm.start, prevSum := r.tm.prevSum)) && NoCurr(s.m)
    requires Timed(s.t, s.m, s.tm)
    ensures Timed(r.t, r.m, r.tm)
  {
    forall g | 0 <= g < |s.t.parent| && s.t.myq[g] != NIL
      ensures Earned(r.t, r.m, r.tm, g) == r.tm.charged[r.t.myq[g]] + Owed(r.m, r.tm, r.t.myq[g])
    {
      assert Earned(s.t, s.m, s.tm, g) == s.tm.charged[s.t.myq[g]] + Owed(s.m, s.tm, s.t.myq[g]);
    }
  }

  /** A queued thread becomes the running one. */
  lemma ActivateRoles(s: State, e: nat, now: int)
    requires Sane(s) && IsEnt(s, e) && IsThread(s.t, e) && Linked(s) && NoCurr(s.m)
    requires Roles(s.t, s.m, s.th, NIL) && s.th.state[e] == OnRunq
    ensures var r := Activate(s, e, now);
            && Linked(r) && Roles(r.t, r.m, r.th, e) && Steady(s, r, e) && r.th.absolute == s.th.absolute
            && r.tm.vruntime == s.tm.vruntime && (Bounded(s) ==> Bounded(r))
  {
    hide Activate, Core, Bounded, Later, Roles, WfTopo, Chain;
    RolesMean(s.t, s.m, s.th, NIL, e);
    NoneAt(s);
    ActivateLinked(s, e, now);
    ParentGroup(s, e);
    var r := Activate(s, e, now);
    assert s.th.runq - {e} == (if s.th.onRunq[e] then s.th.runq - {e} else s.th.runq);
    RolesStep(s.t, s.m, s.th, NIL, r.m, r.th, e, e);
  }
}
