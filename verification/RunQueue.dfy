/** The scheduler of one CPU, updated in place (pss.c, rt.c, sched.c).

    Entities and queues live in arenas and refer to each other by number.  The object holds the
    fields of struct sched_entity, struct sfq and struct rq as records of sequences, which the
    methods reassign; walks up the hierarchy are loops, as in WALKUP_SCHED_ENTITY.  State() is the
    value that the rest of the model reasons about: every method takes it exactly where the
    function of the same operation does, so that all laws about runs hold of the object. */
module RunQueue {
  import opened SchedState
  import SchedOps
  import SchedBooks
  import SchedSteps
  import SchedMembers
  import SchedWalks
  import SchedClass
  import SchedPick
  import SchedRoles
  import SchedEntry
  import SchedHistory
  import SchedLaws
  import SchedRun
  import SchedTable
  import SchedEarned
  import SchedDeeds
  import SchedTurns
  import FixedPoint

  class Rq {
    const p: Params
    var t: Topo
    var m: Members
    var a: Acct
    var tm: Times
    var c: Cands
    var th: Threads
    ghost var ok: bool

    ghost function State(): State
      reads this
    {
      SchedState.State(p, t, m, a, tm, c, th, ok)
    }

    ghost predicate Valid()
      reads this
    {
      Sane(State())
    }

    predicate Ent(e: int)
      reads this`t
    {
      0 <= e < |t.parent|
    }

    predicate Queue(q: int)
      reads this`t
    {
      0 <= q < |t.owner|
    }

    constructor (params: Params, topo: Topo, members: Members, acct: Acct, times: Times, cands: Cands, threads: Threads)
      requires Sane(SchedState.State(params, topo, members, acct, times, cands, threads, true))
      ensures State() == SchedState.State(params, topo, members, acct, times, cands, threads, true)
      ensures Valid()
    {
      p, t, m, a, tm, c, th, ok := params, topo, members, acct, times, cands, threads, true;
    }

    // ---------- timelines ----------

    /** __enqueue_entity (pss.c:665-702); Timeline.Enqueue of RbTree does the same to the tree. */
    method EnqueueInTimeline(e: nat)
      requires Valid() && Ent(e)
      modifies this`m, this`ok
      ensures State() == SchedOps.TreeEnqueue(old(State()), e)
      ensures Valid()
    {
      hide SchedOps.InsertId;
      var q := t.sfq[e];
      ok := ok && !m.onSfq[e];
      m := m.(timeline := m.timeline[q := SchedOps.InsertId(m.timeline[q], tm.vruntime, e)]);
      m := m.(onSfq := m.onSfq[e := true]);
    }

    /** __dequeue_entity (pss.c:707-716). */
    method DequeueFromTimeline(e: nat)
      requires Valid() && Ent(e)
      modifies this`m, this`ok
      ensures State() == SchedOps.TreeDequeue(old(State()), e)
      ensures Valid()
    {
      hide SchedOps.WithoutId;
      var q := t.sfq[e];
      ok := ok && m.onSfq[e];
      m := m.(timeline := m.timeline[q := SchedOps.WithoutId(m.timeline[q], e)]);
      m := m.(onSfq := m.onSfq[e := false]);
    }

    // ---------- virtual time ----------

    /** update_sfq_vtime (pss.c:750-777). */
    method UpdateSfqVtime(q: nat)
      requires Valid() && Queue(q)
      modifies this`tm
      ensures State() == SchedOps.UpdateVtime(old(State()), q)
      ensures Valid()
    {
      var curr, leftmost := m.curr[q], SchedOps.Leftmost(m.timeline[q]);
      if curr != NIL && !m.joined[curr] {
        curr := NIL;
      }
      var vruntime;
      if curr != NIL && leftmost != NIL {
        vruntime := SchedOps.Min(tm.vruntime[curr], tm.vruntime[leftmost]);
      } else if curr != NIL {
        vruntime := tm.vruntime[curr];
      } else if leftmost != NIL {
        vruntime := tm.vruntime[leftmost];
      } else {
        assert tm.vtime[q := tm.vtime[q]] == tm.vtime;
        return;
      }
      tm := tm.(vtime := tm.vtime[q := SchedOps.Max(tm.vtime[q], vruntime)]);
    }

    /** update_curr (pss.c:852-884). */
    method UpdateCurr(q: nat)
      requires Valid() && Queue(q)
      modifies this`tm
      ensures State() == SchedOps.UpdateCurr(old(State()), q)
      ensures Valid()
    {
      hide FixedPoint.ScaleDelta, SchedOps.NewVtime;
      var curr := m.curr[q];
      if curr == NIL || tm.clock <= tm.start[curr] {
        return;
      }
      var delta := tm.clock - tm.start[curr];
      tm := tm.(sum := tm.sum[curr := tm.sum[curr] + delta]);
      tm := tm.(vruntime := tm.vruntime[curr := tm.vruntime[curr] + FixedPoint.ScaleDelta(delta, a.weight[curr])]);
      tm := tm.(start := tm.start[curr := tm.clock]);
      tm := tm.(charged := tm.charged[q := tm.charged[q] + delta]);
      assert State() == SchedOps.Charge(old(State()), q);
      UpdateSfqVtime(q);
    }

    /** place_entity (pss.c:822-847). */
    method PlaceEntity(e: nat, initial: bool, debit: nat)
      requires Valid() && Ent(e)
      modifies this`tm, this`ok
      ensures State() == SchedOps.Place(old(State()), e, initial, debit)
      ensures Valid()
    {
      var vruntime := tm.vtime[t.sfq[e]];
      if initial {
        if p.startDebit {
          vruntime := vruntime + debit;
        }
      } else {
        vruntime := vruntime - p.thresh;
      }
      ok := ok && th.absolute[e];
      tm := tm.(vruntime := tm.vruntime[e := SchedOps.Max(tm.vruntime[e], vruntime)]);
    }

    method AddVtime(e: nat)
      requires Valid() && Ent(e)
      modifies this`tm, this`th, this`ok
      ensures State() == SchedOps.AddVtime(old(State()), e)
      ensures Valid()
    {
      ok := ok && !th.absolute[e];
      th := th.(absolute := th.absolute[e := true]);
      tm := tm.(vruntime := tm.vruntime[e := tm.vruntime[e] + tm.vtime[t.sfq[e]]]);
    }

    method SubVtime(e: nat)
      requires Valid() && Ent(e)
      modifies this`tm, this`th, this`ok
      ensures State() == SchedOps.SubVtime(old(State()), e)
      ensures Valid()
    {
      ok := ok && th.absolute[e];
      th := th.(absolute := th.absolute[e := false]);
      tm := tm.(vruntime := tm.vruntime[e := tm.vruntime[e] - tm.vtime[t.sfq[e]]]);
    }

    // ---------- load ----------

    /** account_entity_enqueue (pss.c:441-448). */
    method AccountEntityEnqueue(e: nat)
      requires Valid() && Ent(e)
      modifies this`a
      ensures State() == SchedOps.Account(old(State()), e, 1)
      ensures Valid()
    {
      var q := t.sfq[e];
      a := a.(load := a.load[q := a.load[q] + a.weight[e]]);
      if t.parent[e] == NIL {
        a := a.(rqLoad := a.rqLoad + a.weight[e]);
      }
      a := a.(nr := a.nr[q := a.nr[q] + 1]);
    }

    /** account_entity_dequeue (pss.c:450-457). */
    method AccountEntityDequeue(e: nat)
      requires Valid() && Ent(e)
      modifies this`a
      ensures State() == SchedOps.Account(old(State()), e, -1)
      ensures Valid()
    {
      var q := t.sfq[e];
      a := a.(load := a.load[q := a.load[q] - a.weight[e]]);
      if t.parent[e] == NIL {
        a := a.(rqLoad := a.rqLoad - a.weight[e]);
      }
      a := a.(nr := a.nr[q := a.nr[q] - 1]);
    }

    method SetWeight(e: nat, weight: nat)
      requires Valid() && Ent(e)
      modifies this`a
      ensures State() == SchedOps.SetWeight(old(State()), e, weight)
      ensures Valid()
    {
      a := a.(weight := a.weight[e := weight]);
    }

    /** update_entity_weight (pss.c:589-601). */
    method UpdateEntityWeight(e: nat, weight: nat)
      requires Valid() && Ent(e)
      modifies this`a, this`tm
      ensures State() == SchedOps.UpdateEntityWeight(old(State()), e, weight)
      ensures Valid()
    {
      hide SchedOps.UpdateCurr, SchedOps.Account, SchedOps.SetWeight;
      if m.joined[e] {
        if m.curr[t.sfq[e]] == e {
          UpdateCurr(t.sfq[e]);
        }
        AccountEntityDequeue(e);
        SetWeight(e, weight);
        AccountEntityEnqueue(e);
      } else {
        SetWeight(e, weight);
      }
    }

    /** update_sfq_shares (pss.c:603-620). */
    method UpdateSfqShares(q: nat)
      requires Valid() && Queue(q)
      modifies this`a, this`tm
      ensures State() == SchedOps.UpdateShares(old(State()), q)
      ensures Valid()
    {
      hide SchedOps.UpdateEntityWeight;
      var e := t.owner[q];
      if e == NIL || a.weight[e] == a.shares[q] {
        return;
      }
      UpdateEntityWeight(e, a.shares[q]);
    }

    // ---------- the kernel run queue ----------

    /** __runq_enqueue (pss.c:641-650). */
    method RunqEnqueue(e: nat)
      requires Valid() && Ent(e)
      modifies this`th, this`ok
      ensures State() == SchedOps.RunqEnqueue(old(State()), e)
      ensures Valid()
    {
      ok := ok && !th.onRunq[e];
      th := th.(runq := th.runq + {e});
      th := th.(onRunq := th.onRunq[e := true]);
    }

    /** __runq_dequeue (pss.c:652-660). */
    method RunqDequeue(e: nat)
      requires Valid() && Ent(e)
      modifies this`th
      ensures State() == SchedOps.RunqDequeue(old(State()), e)
      ensures Valid()
    {
      if th.onRunq[e] {
        th := th.(runq := th.runq - {e});
        th := th.(onRunq := th.onRunq[e := false]);
      }
    }

    method SetState(e: nat, state: TdState)
      requires Valid() && Ent(e)
      modifies this`th
      ensures State() == SchedOps.SetState(old(State()), e, state)
      ensures Valid()
    {
      th := th.(state := th.state[e := state]);
    }

    /** TD_SET_RUNQ and the run queue (pss.c:994-1000, 1116-1121). */
    method MakeRunnable(e: nat)
      requires Valid() && Ent(e)
      modifies this`th, this`ok
      ensures State() == SchedOps.MakeRunnable(old(State()), e)
      ensures Valid()
    {
      hide SchedOps.RunqEnqueue;
      if IsThread(t, e) {
        SetState(e, OnRunq);
        if th.prio[e] < p.normalPri {
          RunqEnqueue(e);
        }
      }
    }

    // ---------- candidates ----------

    /** set_skip_candidate (pss.c:886-897). */
    method SetSkipCandidate(e: nat)
      requires Valid() && Ent(e)
      modifies this`c
      ensures State() == SchedOps.SetSkip(old(State()), e)
      ensures Valid()
    {
      hide WfTopo;
      EntityBounds(State(), e);
      var se: int := e;
      while se != NIL
        invariant Valid() && (se == NIL || Ent(se))
        invariant SchedOps.SetSkip(State(), se) == SchedOps.SetSkip(old(State()), e)
        decreases SchedSteps.Rank(t, se)
      {
        EntityBounds(State(), se);
        c := c.(skip := c.skip[t.sfq[se] := se]);
        if a.nr[t.sfq[se]] > 1 {
          return;
        }
        se := t.parent[se];
      }
    }

    /** clear_skip_candidate (pss.c:899-911). */
    method ClearSkipCandidate(e: nat)
      requires Valid() && Ent(e)
      modifies this`c
      ensures State() == SchedOps.ClearSkip(old(State()), e)
      ensures Valid()
    {
      var se: int := e;
      while se != NIL
        invariant Valid() && (se == NIL || Ent(se))
        invariant SchedOps.ClearSkip(State(), se) == SchedOps.ClearSkip(old(State()), e)
        decreases SchedSteps.Rank(t, se)
      {
        EntityBounds(State(), se);
        if c.skip[t.sfq[se]] != se {
          return;
        }
        c := c.(skip := c.skip[t.sfq[se] := NIL]);
        se := t.parent[se];
      }
    }

    /** set_next_candidate (pss.c:913-925). */
    method SetNextCandidate(e: nat)
      requires Valid() && Ent(e)
      modifies this`c
      ensures State() == SchedOps.SetNext(old(State()), e)
      ensures Valid()
    {
      hide WfTopo;
      EntityBounds(State(), e);
      if IsThread(t, e) && th.pri[e].IdlePri? {
        return;
      }
      var se: int := e;
      while se != NIL
        invariant Valid() && (se == NIL || Ent(se))
        invariant SchedOps.SetNextUp(State(), se) == SchedOps.SetNextUp(old(State()), e)
        decreases SchedSteps.Rank(t, se)
      {
        EntityBounds(State(), se);
        c := c.(next := c.next[t.sfq[se] := se]);
        se := t.parent[se];
      }
    }

    /** clear_next_candidate (pss.c:927-939). */
    method ClearNextCandidate(e: nat)
      requires Valid() && Ent(e)
      modifies this`c
      ensures State() == SchedOps.ClearNext(old(State()), e)
      ensures Valid()
    {
      var se: int := e;
      while se != NIL
        invariant Valid() && (se == NIL || Ent(se))
        invariant SchedOps.ClearNext(State(), se) == SchedOps.ClearNext(old(State()), e)
        decreases SchedSteps.Rank(t, se)
      {
        EntityBounds(State(), se);
        if c.next[t.sfq[se]] != se {
          return;
        }
        c := c.(next := c.next[t.sfq[se] := NIL]);
        se := t.parent[se];
      }
    }

    /** set_last_candidate (pss.c:941-953). */
    method SetLastCandidate(e: nat)
      requires Valid() && Ent(e)
      modifies this`c
      ensures State() == SchedOps.SetLast(old(State()), e)
      ensures Valid()
    {
      hide WfTopo;
      EntityBounds(State(), e);
      if IsThread(t, e) && th.pri[e].IdlePri? {
        return;
      }
      var se: int := e;
      while se != NIL
        invariant Valid() && (se == NIL || Ent(se))
        invariant SchedOps.SetLastUp(State(), se) == SchedOps.SetLastUp(old(State()), e)
        decreases SchedSteps.Rank(t, se)
      {
        EntityBounds(State(), se);
        c := c.(last := c.last[t.sfq[se] := se]);
        se := t.parent[se];
      }
    }

    /** clear_last_candidate (pss.c:956-968). */
    method ClearLastCandidate(e: nat)
      requires Valid() && Ent(e)
      modifies this`c
      ensures State() == SchedOps.ClearLast(old(State()), e)
      ensures Valid()
    {
      var se: int := e;
      while se != NIL
        invariant Valid() && (se == NIL || Ent(se))
        invariant SchedOps.ClearLast(State(), se) == SchedOps.ClearLast(old(State()), e)
        decreases SchedSteps.Rank(t, se)
      {
        EntityBounds(State(), se);
        if c.last[t.sfq[se]] != se {
          return;
        }
        c := c.(last := c.last[t.sfq[se] := NIL]);
        se := t.parent[se];
      }
    }

    /** clear_candidates (pss.c:970-981): where e is no candidate of its queue the walk stops at once. */
    method ClearCandidates(e: nat)
      requires Valid() && Ent(e)
      modifies this`c
      ensures State() == SchedOps.ClearCandidates(old(State()), e)
      ensures Valid()
    {
      hide SchedOps.ClearSkip, SchedOps.ClearNext, SchedOps.ClearLast;
      ClearSkipCandidate(e);
      ClearNextCandidate(e);
      ClearLastCandidate(e);
    }

    // ---------- entities ----------

    /** enqueue_entity (pss.c:1101-1129). */
    method EnqueueEntity(e: nat, wakeup: bool)
      requires Valid() && Ent(e)
      modifies this`m, this`a, this`tm, this`th, this`ok
      ensures State() == SchedOps.EnqueueEntity(old(State()), e, wakeup)
      ensures Valid()
    {
      hide SchedOps.AddVtime, SchedOps.UpdateCurr, SchedOps.Place, SchedOps.MakeRunnable, SchedOps.TreeEnqueue, SchedOps.Account, WfTopo, SizedA, Sane;
      hide SchedOps.UpdateShares, Sane;
      EntityBounds(State(), e);
      ok := ok && !m.joined[e];
      SaneOk(old(State()), ok);
      if !wakeup {
        AddVtime(e);
      }
      UpdateCurr(t.sfq[e]);
      if wakeup {
        PlaceEntity(e, false, 0);
      }
      MakeRunnable(e);
      EnqueueInTimeline(e);
      AccountEntityEnqueue(e);
      UpdateSfqShares(t.sfq[e]);
      EntityBounds(State(), e);
      m := m.(joined := m.joined[e := true]);
    }

    /** The first part of dequeue_entity, up to joined = 0 (pss.c:1164-1172). */
    method LeaveQueue(e: nat)
      requires Valid() && Ent(e)
      modifies this`m, this`a, this`tm, this`c, this`th, this`ok
      ensures State() == SchedOps.Leave(old(State()), e)
      ensures Valid()
    {
      hide SchedOps.UpdateCurr, SchedOps.RunqDequeue, SchedOps.ClearCandidates, SchedOps.TreeDequeue, SchedOps.Account, Sane, WfTopo;
      EntityBounds(State(), e);
      UpdateCurr(t.sfq[e]);
      if IsThread(t, e) {
        RunqDequeue(e);
      }
      ClearCandidates(e);
      EntityBounds(State(), e);
      if m.onSfq[e] {
        DequeueFromTimeline(e);
      }
      AccountEntityDequeue(e);
      EntityBounds(State(), e);
      m := m.(joined := m.joined[e := false]);
    }

    /** dequeue_entity (pss.c:1154-1177). */
    method DequeueEntity(e: nat, sleep: bool)
      requires Valid() && Ent(e)
      modifies this`m, this`a, this`tm, this`c, this`th, this`ok
      ensures State() == SchedOps.DequeueEntity(old(State()), e, sleep)
      ensures Valid()
    {
      hide SchedOps.SubVtime, SchedOps.Leave, SchedOps.UpdateShares, SchedOps.UpdateVtime, Sane, WfTopo;
      EntityBounds(State(), e);
      if !m.joined[e] {
        ok := ok && !th.onRunq[e] && !m.onSfq[e];
        return;
      }
      LeaveQueue(e);
      EntityBounds(State(), e);
      if !sleep {
        SubVtime(e);
      }
      UpdateSfqVtime(t.sfq[e]);
      UpdateSfqShares(t.sfq[e]);
    }

    /** put_prev_entity (pss.c:983-1009). */
    method PutPrevEntity(e: nat, relinquish: bool)
      requires Valid() && Ent(e)
      modifies this`m, this`tm, this`c, this`th, this`ok
      ensures State() == SchedOps.PutPrevEntity(old(State()), e, relinquish)
      ensures Valid()
    {
      hide SchedOps.SetSkip, SchedOps.UpdateCurr, SchedOps.MakeRunnable, SchedOps.TreeEnqueue, Sane;
      EntityBounds(State(), e);
      var q := t.sfq[e];
      if m.joined[e] {
        if IsThread(t, e) && relinquish {
          SetSkipCandidate(e);
        }
        UpdateCurr(q);
        MakeRunnable(e);
        EnqueueInTimeline(e);
      }
      EntityBounds(State(), e);
      m := m.(curr := m.curr[q := NIL]);
    }

    /** activate_entity (pss.c:1068-1085). */
    method ActivateEntity(e: nat)
      requires Valid() && Ent(e)
      modifies this`m, this`tm, this`th, this`ok
      ensures State() == SchedOps.ActivateEntity(old(State()), e)
      ensures Valid()
    {
      hide SchedOps.RunqDequeue, SchedOps.TreeDequeue, Sane;
      EntityBounds(State(), e);
      var q := t.sfq[e];
      ok := ok && m.joined[e] && m.curr[q] == NIL;
      SaneOk(old(State()), ok);
      if IsThread(t, e) {
        RunqDequeue(e);
      }
      DequeueFromTimeline(e);
      EntityBounds(State(), e);
      m := m.(curr := m.curr[q := e]);
      tm := tm.(start := tm.start[e := tm.clock]);
      tm := tm.(prevSum := tm.prevSum[e := tm.sum[e]]);
    }

    // ---------- the pss class ----------

    /** pss_enqueue_thread (pss.c:1131-1152). */
    method PssEnqueueThread(e: nat, wakeup: bool)
      requires Valid() && Ent(e)
      modifies this`m, this`a, this`tm, this`th, this`ok
      ensures State() == SchedSteps.PssEnqueue(old(State()), e, wakeup)
      ensures Valid()
    {
      hide SchedSteps.EnqueueWalk, SchedSteps.SharesWalk, Sane;
      EntityBounds(State(), e);
      ok := ok && !th.rtJoined[e];
      SaneOk(old(State()), ok);
      var se := EnqueueLoop(e, wakeup);
      SharesLoop(se);
      th := th.(nrRunning := th.nrRunning + 1);
    }

    /** Its first loop, and where it stops. */
    method EnqueueLoop(e: nat, wakeup: bool) returns (se: int)
      requires Valid() && Ent(e)
      modifies this`m, this`a, this`tm, this`th, this`ok
      ensures (State(), se) == SchedSteps.EnqueueWalk(old(State()), e, wakeup)
      ensures Valid() && (se == NIL || Ent(se))
    {
      hide SchedOps.EnqueueEntity, WfTopo;
      EntityBounds(State(), e);
      se := e;
      var flags := wakeup;
      while se != NIL
        invariant Valid() && (se == NIL || Ent(se)) && |t.level| == |t.parent|
        invariant SchedSteps.EnqueueWalk(State(), se, flags) == SchedSteps.EnqueueWalk(old(State()), e, wakeup)
        decreases SchedSteps.Rank(t, se)
      {
        EntityBounds(State(), se);
        if m.joined[se] {
          return;
        }
        EnqueueEntity(se, flags);
        flags := true;
        se := t.parent[se];
      }
    }

    /** The second loop of pss_enqueue_thread, pss_dequeue_thread and pss_sched_group_set_shares. */
    method SharesLoop(e: int)
      requires Valid() && (e == NIL || Ent(e))
      modifies this`a, this`tm
      ensures State() == SchedSteps.SharesWalk(old(State()), e)
      ensures Valid()
    {
      hide SchedOps.UpdateShares, WfTopo;
      Bounds(State());
      var se := e;
      while se != NIL
        invariant Valid() && (se == NIL || Ent(se)) && |t.level| == |t.parent|
        invariant SchedSteps.SharesWalk(State(), se) == SchedSteps.SharesWalk(old(State()), e)
        decreases SchedSteps.Rank(t, se)
      {
        EntityBounds(State(), se);
        UpdateSfqShares(t.sfq[se]);
        se := t.parent[se];
      }
    }

    /** pss_dequeue_thread (pss.c:1179-1216). */
    method PssDequeueThread(e: nat, sleep: bool)
      requires Valid() && Ent(e)
      modifies this`m, this`a, this`tm, this`c, this`th, this`ok
      ensures State() == SchedSteps.PssDequeue(old(State()), e, sleep)
      ensures Valid()
    {
      hide SchedSteps.DequeueWalk, SchedSteps.SharesWalk, Sane;
      EntityBounds(State(), e);
      ok := ok && !th.rtJoined[e];
      SaneOk(old(State()), ok);
      var se := DequeueLoop(e, sleep);
      SharesLoop(se);
      ok := ok && th.nrRunning != 0;
      th := th.(nrRunning := th.nrRunning - 1);
    }

    /** Its first loop, and where it stops. */
    method DequeueLoop(e: nat, sleep: bool) returns (se: int)
      requires Valid() && Ent(e)
      modifies this`m, this`a, this`tm, this`c, this`th, this`ok
      ensures (State(), se) == SchedSteps.DequeueWalk(old(State()), e, sleep, sleep)
      ensures Valid() && (se == NIL || Ent(se))
    {
      hide SchedOps.DequeueEntity, SchedOps.SetNext, WfTopo;
      EntityBounds(State(), e);
      se := e;
      var flags := sleep;
      while se != NIL
        invariant Valid() && (se == NIL || Ent(se)) && |t.level| == |t.parent|
        invariant SchedSteps.DequeueWalk(State(), se, flags, sleep) == SchedSteps.DequeueWalk(old(State()), e, sleep, sleep)
        decreases SchedSteps.Rank(t, se)
      {
        EntityBounds(State(), se);
        var q, parent := t.sfq[se], t.parent[se];
        DequeueEntity(se, flags);
        EntityBounds(State(), se);
        if a.load[q] != 0 {
          if sleep && parent != NIL {
            SetNextCandidate(parent);
          }
          se := parent;
          return;
        }
        flags := true;
        se := parent;
      }
    }

    /** pss_put_prev_thread (pss.c:1011-1023). */
    method PssPutPrevThread(e: nat, relinquish: bool)
      requires Valid() && Ent(e)
      modifies this`m, this`tm, this`c, this`th, this`ok
      ensures State() == SchedSteps.PssPutPrev(old(State()), e, relinquish)
      ensures Valid()
    {
      hide SchedOps.PutPrevEntity, WfTopo;
      EntityBounds(State(), e);
      ok := ok && !th.rtJoined[e];
      ghost var s0 := State();
      assert s0 == SchedSteps.NotRealtime(old(State()), e);
      var se: int := e;
      while se != NIL
        invariant Valid() && (se == NIL || Ent(se)) && |t.level| == |t.parent|
        invariant SchedSteps.PutPrevWalk(State(), se, relinquish) == SchedSteps.PutPrevWalk(s0, e, relinquish)
        decreases SchedSteps.Rank(t, se)
      {
        EntityBounds(State(), se);
        PutPrevEntity(se, relinquish);
        se := t.parent[se];
      }
    }

    /** pss_activate_thread (pss.c:1087-1099). */
    method PssActivateThread(e: nat)
      requires Valid() && Ent(e)
      modifies this`m, this`tm, this`th, this`ok
      ensures State() == SchedSteps.PssActivate(old(State()), e)
      ensures Valid()
    {
      hide SchedOps.ActivateEntity, SchedOps.SetState, WfTopo;
      EntityBounds(State(), e);
      ok := ok && !th.rtJoined[e];
      ghost var s0 := State();
      assert s0 == SchedSteps.NotRealtime(old(State()), e);
      var se: int := e;
      while se != NIL
        invariant Valid() && (se == NIL || Ent(se)) && |t.level| == |t.parent|
        invariant SchedSteps.ActivateWalk(State(), se) == SchedSteps.ActivateWalk(s0, e)
        decreases SchedSteps.Rank(t, se)
      {
        EntityBounds(State(), se);
        ActivateEntity(se);
        se := t.parent[se];
      }
      SetState(e, Running);
    }

    /** wakeup_preempt_entity (pss.c:1253-1266). */
    method WakeupPreemptEntity(curr: nat, se: nat) returns (r: int)
      requires Valid() && Ent(curr) && Ent(se)
      ensures r == SchedOps.WakeupPreempt(State(), curr, se)
    {
      hide FixedPoint.ScaleDelta;
      var diff := tm.vruntime[curr] - tm.vruntime[se];
      if diff > 0 {
        var gran := FixedPoint.ScaleDelta(p.wakeupGranularity, a.weight[se]);
        if diff > gran {
          return 1;
        }
        return 0;
      }
      return -1;
    }

    /** pick_next_entity (pss.c:1027-1048); the timeline must not be empty. */
    method PickNextEntity(q: nat) returns (e: nat)
      requires Valid() && Queue(q) && m.timeline[q] != []
      modifies this`c
      ensures Ent(e) && e == SchedOps.Choose(old(State()), q)
      ensures State() == SchedOps.ClearCandidates(old(State()), e)
      ensures Valid()
    {
      hide SchedOps.WakeupPreempt, SchedOps.ClearCandidates;
      var first := m.timeline[q][0];
      e := first;
      if c.skip[q] == e && |m.timeline[q]| > 1 {
        var second := m.timeline[q][1];
        var r := WakeupPreemptEntity(second, first);
        if r < 1 {
          e := second;
        }
      }
      if c.last[q] != NIL {
        var r := WakeupPreemptEntity(c.last[q], first);
        if r < 1 {
          e := c.last[q];
        }
      }
      if c.next[q] != NIL {
        var r := WakeupPreemptEntity(c.next[q], first);
        if r < 1 {
          e := c.next[q];
        }
      }
      ClearCandidates(e);
    }

    /** pss_pick_next_thread (pss.c:1050-1066): after put_prev it finds a thread whenever the root
        queue is not empty, without following a null pointer. */
    method PssPickNextThread() returns (e: int)
      requires Valid() && SchedClass.Core(State()) && SchedWalks.NoCurr(m)
      modifies this`c
      ensures (State(), e) == SchedSteps.PssPick(old(State()))
      ensures Valid() && SchedClass.Core(State())
      ensures e != NIL <==> a.nr[0] > 0
    {
      hide SchedClass.Core, SchedOps.Choose, SchedOps.ClearCandidates, SchedPick.NearAllTheWay, WfTopo;
      PickFacts(State());
      if a.nr[0] == 0 {
        return NIL;
      }
      var q: nat := 0;
      ghost var fuel: nat := t.depth + 1;
      while true
        invariant Valid() && Queue(q) && SchedClass.Core(State()) && |t.level| == |t.parent| && a.nr[q] > 0
        invariant t.owner[q] == NIL || Ent(t.owner[q])
        invariant fuel + SchedSteps.Rank(t, t.owner[q]) >= t.depth + 1
        invariant SchedSteps.PickWalk(State(), q, fuel) == SchedSteps.PickWalk(old(State()), 0, old(t.depth) + 1)
        decreases fuel
      {
        NextRound(State(), q, fuel);
        var se := PickNextEntity(q);
        EntityBounds(State(), se);
        if t.myq[se] == NIL {
          return se;
        }
        q := t.myq[se];
        fuel := fuel - 1;
      }
    }

    /** entity_depth (pss.c:209-217). */
    method EntityDepth(e: nat) returns (depth: nat)
      requires Valid() && Ent(e)
      ensures depth == t.level[e] + 1
    {
      hide WfTopo;
      EntityBounds(State(), e);
      depth := 0;
      var se: int := e;
      while se != NIL
        invariant se == NIL || Ent(se)
        invariant depth + SchedSteps.Rank(t, se) == t.level[e] + 1
        decreases SchedSteps.Rank(t, se)
      {
        EntityBounds(State(), se);
        depth := depth + 1;
        se := t.parent[se];
      }
    }

    /** find_common_ancestor (pss.c:219-241). */
    method FindCommonAncestor(e0: nat, f0: nat) returns (e: nat, f: nat)
      requires Valid() && Ent(e0) && Ent(f0)
      ensures (e, f) == SchedSteps.CommonAncestor(t, e0, f0)
    {
      hide WfTopo;
      EntityBounds(State(), e0);
      EntityBounds(State(), f0);
      var depthE := EntityDepth(e0);
      var depthF := EntityDepth(f0);
      e, f := e0, f0;
      while depthE > depthF
        invariant Ent(e) && depthE == t.level[e] + 1
        invariant SchedSteps.CommonAncestor(t, e, f) == SchedSteps.CommonAncestor(t, e0, f0)
      {
        DeeperHasParent(State(), e, f);
        depthE := depthE - 1;
        e := t.parent[e];
      }
      while depthF > depthE
        invariant Ent(e) && Ent(f) && depthE == t.level[e] + 1 && depthF == t.level[f] + 1 && depthE <= depthF
        invariant SchedSteps.CommonAncestor(t, e, f) == SchedSteps.CommonAncestor(t, e0, f0)
      {
        DeeperHasParent(State(), f, e);
        depthF := depthF - 1;
        f := t.parent[f];
      }
      EntityBounds(State(), e);
      EntityBounds(State(), f);
      while t.sfq[e] != t.sfq[f]
        invariant Ent(e) && Ent(f) && t.level[e] == t.level[f] && |t.sfq| == |t.parent|
        invariant SchedSteps.CommonAncestor(t, e, f) == SchedSteps.CommonAncestor(t, e0, f0)
        decreases t.level[e]
      {
        ApartHasParent(State(), e, f);
        e, f := t.parent[e], t.parent[f];
      }
    }

    /** pss_check_preempt_curr (pss.c:1268-1305) for the current thread `curr`; `resched` is
        thread_need_resched. */
    method PssCheckPreemptCurr(curr: nat, e: nat, resched: bool)
      requires Valid() && Ent(curr) && Ent(e)
      modifies this`tm, this`c
      ensures State() == SchedSteps.CheckPreempt(old(State()), curr, e, resched)
      ensures Valid()
    {
      hide SchedOps.WakeupPreempt, SchedSteps.CommonAncestor, SchedOps.UpdateCurr, SchedOps.SetNext, SchedOps.SetLast, WfTopo;
      EntityBounds(State(), curr);
      EntityBounds(State(), e);
      if resched {
        return;
      }
      var scale := a.nr[t.sfq[curr]] >= p.nrLatency;
      var se := e;
      if !(th.pri[curr].IdlePri? && !th.pri[e].IdlePri?) {
        var ca;
        ca, se := FindCommonAncestor(curr, e);
        EntityBounds(State(), ca);
        UpdateCurr(t.sfq[ca]);
        var r := WakeupPreemptEntity(ca, se);
        if r <= 0 {
          return;
        }
        SetNextCandidate(se);
      }
      if p.schedLast && scale && IsThread(t, se) {
        SetLastCandidate(se);
      }
    }

    /** pss_tick_thread with entity_tick and check_preempt_tick (pss.c:1307-1354); slices[e] is the
        sched_slice of e. */
    method PssTickThread(e: nat, slices: seq<nat>)
      requires Valid() && Ent(e) && |slices| == |t.parent|
      modifies this`tm, this`c
      ensures State() == SchedSteps.TickWalk(old(State()), e, slices)
      ensures Valid()
    {
      hide SchedOps.UpdateCurr, SchedOps.ClearCandidates, WfTopo;
      EntityBounds(State(), e);
      var se: int := e;
      while se != NIL
        invariant Valid() && (se == NIL || Ent(se)) && |t.level| == |t.parent|
        invariant SchedSteps.TickWalk(State(), se, slices) == SchedSteps.TickWalk(old(State()), e, slices)
        decreases SchedSteps.Rank(t, se)
      {
        EntityBounds(State(), se);
        var q := t.sfq[se];
        UpdateCurr(q);
        EntityBounds(State(), se);
        if a.nr[q] > 1 {
          var delta := tm.sum[se] - tm.prevSum[se];
          if delta > slices[se] {
            ClearCandidates(se);
          }
        }
        se := t.parent[se];
      }
    }

    // ---------- the realtime class ----------

    /** rt_enqueue_thread (rt.c:314-330). */
    method RtEnqueueThread(e: nat)
      requires Valid() && Ent(e)
      modifies this`th, this`ok
      ensures State() == SchedSteps.RtEnqueue(old(State()), e)
      ensures Valid()
    {
      ok := ok && !m.joined[e] && !th.rtJoined[e] && !m.onSfq[e] && !th.onRunq[e];
      th := th.(runq := th.runq + {e}, onRunq := th.onRunq[e := true]);
      th := th.(state := th.state[e := OnRunq]);
      th := th.(nrRunning := th.nrRunning + 1);
      th := th.(rtJoined := th.rtJoined[e := true]);
    }

    /** rt_dequeue_thread (rt.c:332-347). */
    method RtDequeueThread(e: nat)
      requires Valid() && Ent(e)
      modifies this`th, this`ok
      ensures State() == SchedSteps.RtDequeue(old(State()), e)
      ensures Valid()
    {
      ok := ok && !m.joined[e] && !m.onSfq[e];
      if !th.rtJoined[e] {
        return;
      }
      if th.onRunq[e] {
        th := th.(runq := th.runq - {e}, onRunq := th.onRunq[e := false]);
      }
      ok := ok && th.nrRunning != 0;
      th := th.(nrRunning := th.nrRunning - 1);
      th := th.(rtJoined := th.rtJoined[e := false]);
    }

    /** rt_put_prev_thread (rt.c:270-285). */
    method RtPutPrevThread(e: nat)
      requires Valid() && Ent(e)
      modifies this`th, this`ok
      ensures State() == SchedSteps.RtPutPrev(old(State()), e)
      ensures Valid()
    {
      ok := ok && !m.joined[e];
      if th.rtJoined[e] {
        ok := ok && !th.onRunq[e];
        th := th.(state := th.state[e := OnRunq]);
        th := th.(runq := th.runq + {e}, onRunq := th.onRunq[e := true]);
      }
      th := th.(rtCurr := NIL);
    }

    /** rt_activate_thread (rt.c:297-312); `now` is what sched_time_cpu returns. */
    method RtActivateThread(e: nat, now: int)
      requires Valid() && Ent(e)
      modifies this`tm, this`th, this`ok
      ensures State() == SchedSteps.RtActivate(old(State()), e, now)
      ensures Valid()
    {
      ok := ok && !m.joined[e] && th.rtJoined[e] && th.onRunq[e] && !m.onSfq[e];
      if th.onRunq[e] {
        th := th.(runq := th.runq - {e}, onRunq := th.onRunq[e := false]);
      }
      tm := tm.(start := tm.start[e := now]);
      tm := tm.(prevSum := tm.prevSum[e := tm.sum[e]]);
      th := th.(rtCurr := e);
      th := th.(state := th.state[e := Running]);
    }

    // ---------- through the thread's class ----------

    /** update_rq_clock (sched.c:1275-1283); `now` is what sched_time_cpu returns. */
    method UpdateRqClock(now: int)
      requires Valid()
      modifies this`tm
      ensures State() == SchedSteps.SetClock(old(State()), now)
      ensures Valid()
    {
      tm := tm.(clock := SchedOps.Max(tm.clock, now));
    }

    method ClassEnqueue(e: nat, wakeup: bool)
      requires Valid() && Ent(e)
      modifies this`m, this`a, this`tm, this`th, this`ok
      ensures State() == SchedSteps.Enqueue(old(State()), e, wakeup)
      ensures Valid()
    {
      hide SchedSteps.PssEnqueue, SchedSteps.RtEnqueue;
      if th.cls[e] == Pss {
        PssEnqueueThread(e, wakeup);
      } else {
        RtEnqueueThread(e);
      }
    }

    method ClassDequeue(e: nat, sleep: bool)
      requires Valid() && Ent(e)
      modifies this`m, this`a, this`tm, this`c, this`th, this`ok
      ensures State() == SchedSteps.Dequeue(old(State()), e, sleep)
      ensures Valid()
    {
      hide SchedSteps.PssDequeue, SchedSteps.RtDequeue;
      if th.cls[e] == Pss {
        PssDequeueThread(e, sleep);
      } else {
        RtDequeueThread(e);
      }
    }

    method ClassPutPrev(e: nat, relinquish: bool)
      requires Valid() && Ent(e)
      modifies this`m, this`tm, this`c, this`th, this`ok
      ensures State() == SchedSteps.PutPrev(old(State()), e, relinquish)
      ensures Valid()
    {
      hide SchedSteps.PssPutPrev, SchedSteps.RtPutPrev;
      if th.cls[e] == Pss {
        PssPutPrevThread(e, relinquish);
      } else {
        RtPutPrevThread(e);
      }
    }

    method ClassActivate(e: nat, now: int)
      requires Valid() && Ent(e)
      modifies this`m, this`tm, this`th, this`ok
      ensures State() == SchedSteps.Activate(old(State()), e, now)
      ensures Valid()
    {
      hide SchedSteps.PssActivate, SchedSteps.RtActivate;
      if th.cls[e] == Pss {
        PssActivateThread(e);
      } else {
        RtActivateThread(e, now);
      }
    }

    /** check_preempt_curr (sched.c:948-957). */
    method CheckPreemptCurr(e: nat, resched: bool)
      requires Valid() && Ent(e)
      modifies this`tm, this`c
      ensures State() == SchedSteps.CheckClassPreempt(old(State()), e, resched)
      ensures Valid()
    {
      hide SchedSteps.CheckPreempt;
      var curr := th.current;
      if curr != NIL && th.cls[curr] == Pss && th.cls[e] == Pss {
        PssCheckPreemptCurr(curr, e, resched);
      }
    }

    // ---------- the bodies of the entry points ----------

    /** sched_add (sched.c:963-984). */
    method AddThread(e: nat, now: int, resched: bool)
      requires Valid() && Ent(e)
      modifies this`m, this`a, this`tm, this`c, this`th, this`ok
      ensures State() == SchedSteps.Add(old(State()), e, now, resched)
      ensures Valid()
    {
      hide SchedSteps.Enqueue, SchedSteps.CheckClassPreempt, SchedSteps.SetClock;
      var initial := th.initial[e];
      th := th.(initial := th.initial[e := false]);
      UpdateRqClock(now);
      ClassEnqueue(e, !initial);
      CheckPreemptCurr(e, resched);
    }

    /** sched_choose (sched.c:904-922); `pick` is what runq_choose finds, if anything. */
    method SchedChoose(pick: nat, now: int)
      requires Valid() && SchedClass.Core(State()) && SchedWalks.NoCurr(m)
      modifies this`m, this`tm, this`c, this`th, this`ok
      ensures State() == SchedSteps.ChooseThread(old(State()), pick, now)
      ensures Valid()
    {
      hide SchedClass.Core, SchedSteps.PssPick, SchedSteps.Activate, SchedWalks.NoCurr;
      var e: int := pick;
      if pick !in th.runq {
        e := PssPickNextThread();
      }
      if e != NIL {
        ClassActivate(e, now);
      }
      th := th.(current := e);
    }

    /** sched_switch of the running thread, which stays runnable (`running`) or goes to sleep
        (sched.c:513-555, 904-922). */
    method SwitchThread(running: bool, relinquish: bool, now: int, pick: nat)
      requires Valid() && SchedRoles.Inv(State()) && (!running ==> th.current != NIL)
      modifies this`m, this`a, this`tm, this`c, this`th, this`ok
      ensures var s1 := if running then SchedSteps.Yield(old(State()), relinquish, now)
                        else SchedSteps.Vacate(old(State()), true, now);
              State() == SchedSteps.ChooseThread(s1, pick, now)
      ensures Valid()
    {
      hide SchedSteps.PutPrev, SchedSteps.Dequeue, SchedSteps.SetClock, SchedSteps.ChooseThread, SchedOps.SetState;
      hide SchedRoles.Inv;
      var e := th.current;
      ReadyToChoose(State(), running, relinquish, now);
      if running {
        if e != NIL {
          UpdateRqClock(now);
          ClassPutPrev(e, relinquish);
        }
      } else {
        SetState(e, Inhibited);
        UpdateRqClock(now);
        ClassDequeue(e, true);
        ClassPutPrev(e, false);
      }
      SchedChoose(pick, now);
    }

    /** sched_throw of the running thread, which is gone for good (sched.c:1165-1189). */
    method ThrowThread(now: int, pick: nat)
      requires Valid() && SchedRoles.Inv(State()) && th.current != NIL
      modifies this`m, this`a, this`tm, this`c, this`th, this`ok
      ensures State() == SchedSteps.ChooseThread(SchedRun.Leaves(old(State()), now), pick, now)
      ensures Valid()
    {
      hide SchedSteps.PutPrev, SchedSteps.Dequeue, SchedSteps.SetClock, SchedSteps.ChooseThread, SchedOps.SetState;
      hide SchedRoles.Inv;
      var e := th.current;
      ReadyToLeave(State(), now);
      SetState(e, Inhibited);
      UpdateRqClock(now);
      ClassDequeue(e, false);
      ClassPutPrev(e, false);
      th := th.(live := th.live[e := false]);
      SchedChoose(pick, now);
    }

    /** Off all queues (sched.c:620-623, 768-771, 1444-1447). */
    method TakeOff(e: nat)
      requires Valid() && Ent(e)
      modifies this`m, this`a, this`tm, this`c, this`th, this`ok
      ensures State() == SchedSteps.Withdraw(old(State()), e)
      ensures Valid()
    {
      hide SchedSteps.Dequeue, SchedSteps.PutPrev;
      var onRq, running := th.state[e] == OnRunq, th.state[e] == Running;
      if onRq || running {
        ClassDequeue(e, false);
      }
      if running {
        ClassPutPrev(e, false);
      }
    }

    /** And back (sched.c:625-630, 774-779, 1453-1458). */
    method PutBack(e: nat, was: TdState, now: int)
      requires Valid() && Ent(e)
      modifies this`m, this`a, this`tm, this`th, this`ok
      ensures State() == SchedSteps.Restore(old(State()), e, was, now)
      ensures Valid()
    {
      hide SchedSteps.Enqueue, SchedSteps.Activate;
      if was == OnRunq || was == Running {
        ClassEnqueue(e, false);
      }
      if was == Running {
        ClassActivate(e, now);
      }
    }

    /** sched_nice for one thread (sched.c:608-634). */
    method NiceThread(e: nat, weight: nat, now: int, later: int)
      requires Valid() && Ent(e)
      modifies this`m, this`a, this`tm, this`c, this`th, this`ok
      ensures State() == SchedSteps.Nice(old(State()), e, weight, now, later)
      ensures Valid()
    {
      hide SchedSteps.Withdraw, SchedSteps.Restore, SchedSteps.SetClock, SchedOps.SetWeight;
      var was := th.state[e];
      if th.cls[e] != Pss || was == Inhibited {
        SetWeight(e, weight);
        return;
      }
      UpdateRqClock(now);
      TakeOff(e);
      SetWeight(e, weight);
      UpdateRqClock(later);
      PutBack(e, was, later);
    }

    /** sched_class with check_class_changed (sched.c:734-782). */
    method ChangeClass(e: nat, pri: PriClass, now: int, resched: bool)
      requires Valid() && Ent(e)
      modifies this`m, this`a, this`tm, this`c, this`th, this`ok
      ensures State() == SchedSteps.SetClass(old(State()), e, pri, now, resched)
      ensures Valid()
    {
      hide SchedSteps.Withdraw, SchedSteps.Restore, SchedSteps.SwitchedFrom, SchedSteps.SwitchedTo;
      if th.pri[e] == pri {
        return;
      }
      var was, prev, cls := th.state[e], th.cls[e], ClassOf(pri);
      TakeOff(e);
      th := th.(pri := th.pri[e := pri]);
      th := th.(cls := th.cls[e := cls]);
      PutBack(e, was, now);
      if prev != cls {
        if cls == Realtime {
          PssSwitchedFrom(e);
        } else {
          PssSwitchedTo(e, resched);
        }
      }
    }

    /** pss_switched_from (pss.c:1380-1396). */
    method PssSwitchedFrom(e: nat)
      requires Valid() && Ent(e)
      modifies this`tm, this`th, this`ok
      ensures State() == SchedSteps.SwitchedFrom(old(State()), e)
      ensures Valid()
    {
      hide SchedOps.Place, SchedOps.SubVtime;
      if !th.initial[e] && th.state[e] != OnRunq && th.state[e] != Running {
        PlaceEntity(e, false, 0);
        SubVtime(e);
      }
    }

    /** pss_switched_to (pss.c:1398-1413). */
    method PssSwitchedTo(e: nat, resched: bool)
      requires Valid() && Ent(e)
      modifies this`tm, this`c, this`th, this`ok
      ensures State() == SchedSteps.SwitchedTo(old(State()), e, resched)
      ensures Valid()
    {
      hide SchedOps.AddVtime, SchedSteps.CheckClassPreempt;
      if !th.initial[e] && th.state[e] != OnRunq && th.state[e] != Running {
        AddVtime(e);
        return;
      }
      if th.current != e {
        CheckPreemptCurr(e, resched);
      }
    }

    /** set_thread_rq (sched.h:480-488). */
    method SetThreadRq(e: nat, q: nat)
      requires Valid() && Ent(e) && Queue(q) && IsThread(t, e)
      modifies this`t
      ensures State() == SchedSteps.SetQueue(old(State()), e, q)
      ensures Valid()
    {
      hide SizedM, SizedA, SizedTm, SizedC, SizedTh, WfTopo;
      ghost var s := State();
      EntityBounds(s, e);
      OwnerBounds(s, q);
      var g := t.owner[q];
      t := t.(sfq := t.sfq[e := q], parent := t.parent[e := g], level := t.level[e := if g == NIL then 0 else t.level[g] + 1]);
    }

    /** sched_group_move with pss_sched_group_move (sched.c:1434-1461, pss.c:1502-1513). */
    method MoveThread(e: nat, q: nat, now: int, later: int)
      requires Valid() && Ent(e) && Queue(q) && IsThread(t, e)
      modifies this`t, this`m, this`a, this`tm, this`c, this`th, this`ok
      ensures State() == SchedSteps.Move(old(State()), e, q, now, later)
      ensures Valid()
    {
      hide SchedSteps.Withdraw, SchedSteps.Restore, SchedSteps.SetClock, SchedSteps.SetQueue, SchedOps.AddVtime, SchedOps.SubVtime;
      var was := th.state[e];
      if was == Inhibited {
        var shift := th.cls[e] == Pss && !th.initial[e];
        if shift {
          SubVtime(e);
        }
        SetThreadRq(e, q);
        if shift {
          AddVtime(e);
        }
        return;
      }
      UpdateRqClock(now);
      TakeOff(e);
      SetThreadRq(e, q);
      UpdateRqClock(later);
      PutBack(e, was, later);
    }

    /** sched_fork_thread by the running thread (sched.c:692-728). */
    method ForkThread(child: nat, prio: int, debit: nat, now: int)
      requires Valid() && th.current != NIL && Ent(child) && IsThread(t, child)
      modifies this`t, this`a, this`tm, this`th, this`ok
      ensures State() == SchedSteps.Fork(old(State()), child, prio, debit, now)
      ensures Valid()
    {
      hide SchedSteps.ForkPss, SchedSteps.SetQueue, SchedSteps.SetClock, SchedOps.SetWeight, Sane;
      var e := th.current;
      CurrentBounds(State());
      EntityBounds(State(), e);
      SetWeight(child, a.weight[e]);
      SetThreadRq(child, t.sfq[e]);
      NewChild(State(), e, child, prio);
      th := th.(cls := th.cls[child := th.cls[e]], pri := th.pri[child := th.pri[e]],
                initial := th.initial[child := true], live := th.live[child := true], prio := th.prio[child := prio]);
      if th.cls[e] == Pss {
        UpdateRqClock(now);
        PssForkThread(e, child, debit);
      }
    }

    /** pss_fork_thread after update_rq_clock (pss.c:1365-1377). */
    method PssForkThread(e: nat, child: nat, debit: nat)
      requires Valid() && Ent(e) && Ent(child)
      modifies this`tm, this`th, this`ok
      ensures State() == SchedSteps.ForkPss(old(State()), e, child, debit)
      ensures Valid()
    {
      hide SchedOps.UpdateCurr, SchedOps.Place, SchedOps.SubVtime, Sane;
      EntityBounds(State(), e);
      UpdateCurr(t.sfq[e]);
      EntityBounds(State(), e);
      NewVruntimes(State(), tm.vruntime[child := tm.vruntime[e]], th.absolute[child := true]);
      tm := tm.(vruntime := tm.vruntime[child := tm.vruntime[e]]);
      th := th.(absolute := th.absolute[child := true]);
      PlaceEntity(child, true, debit);
      EntityBounds(State(), e);
      NewVruntimes(State(), tm.vruntime[e := tm.vruntime[child]][child := tm.vruntime[e]], th.absolute);
      var v, w := tm.vruntime[e], tm.vruntime[child];
      if p.childRunsFirst && v < w {
        tm := tm.(vruntime := tm.vruntime[e := w][child := v]);
      }
      SubVtime(child);
    }

    /** sched_tick (sched.c:859-874). */
    method Tick(now: int, slices: seq<nat>)
      requires Valid() && |slices| == |t.parent|
      modifies this`tm, this`c
      ensures State() == SchedSteps.Tick(old(State()), now, slices)
      ensures Valid()
    {
      hide SchedSteps.TickWalk, SchedSteps.SetClock;
      UpdateRqClock(now);
      var e := th.current;
      if e != NIL && th.cls[e] == Pss {
        PssTickThread(e, slices);
      }
    }

    /** pss_sched_group_set_shares for the group of entity g, shares not 0 (pss.c:1515-1549). */
    method ApplyShares(g: nat, n: nat)
      requires Valid() && Ent(g) && !IsThread(t, g)
      modifies this`a, this`tm
      ensures State() == SchedSteps.SetShares(old(State()), g, n)
      ensures Valid()
    {
      hide SchedSteps.SharesWalk;
      var shares := n;
      if shares < SchedSteps.MIN_SHARES {
        shares := SchedSteps.MIN_SHARES;
      } else if shares > SchedSteps.MAX_SHARES {
        shares := SchedSteps.MAX_SHARES;
      }
      if shares == a.shares[t.myq[g]] {
        return;
      }
      a := a.(shares := a.shares[t.myq[g] := shares]);
      SharesLoop(g);
    }

    /** pss_change_priority and rt_change_priority (pss.c:1218-1239, rt.c:357-372). */
    method Reprioritize(e: nat, prio: int)
      requires Valid() && Ent(e)
      modifies this`th, this`ok
      ensures State() == SchedSteps.SetPriority(old(State()), e, prio)
      ensures Valid()
    {
      hide SchedOps.RunqEnqueue, SchedOps.RunqDequeue;
      if th.state[e] == OnRunq && prio < th.prio[e] {
        var realtime := th.cls[e] == Realtime;
        ok := ok && (realtime ==> th.onRunq[e]);
        RunqDequeue(e);
        th := th.(prio := th.prio[e := prio]);
        if realtime || prio < p.normalPri {
          RunqEnqueue(e);
        }
        return;
      }
      th := th.(prio := th.prio[e := prio]);
    }

    // ---------- entry points, as steps of a run ----------

    /** The invariant holds and the rest of the kernel keeps its side of the call. */
    ghost predicate Ready(ev: SchedRun.Event)
      reads this
    {
      Valid() && SchedRoles.Inv(State()) && SchedRun.Allowed(State(), ev)
    }

    /** From state s the step has been taken: the invariant holds again, no assertion of the source
        has failed, neither a clock nor any vtime has gone back, every thread's fields are what the step
        makes of them, and those that ran have earned the time that has passed. */
    ghost predicate Taken(s: State, ev: SchedRun.Event)
      reads this
    {
      && Valid() && Sane(s) && SchedRun.Allowed(s, ev) && State() == SchedRun.Do(s, ev)
      && SchedRoles.Inv(State()) && ok && SchedHistory.Onward(s.tm, tm)
      && SchedTable.Tells(s, ev, State()) && SchedEarned.Gains(s, State(), SchedEarned.Ran(s, ev))
    }

    /** The processor has gone to whom it should. */
    ghost predicate Chosen(s: State, ev: SchedRun.Event)
      reads this
    {
      Valid() && Sane(s) && SchedRun.Allowed(s, ev) && SchedDeeds.RightOne(SchedDeeds.Halfway(s, ev), th.current)
    }

    /** The thread has been put where it belongs. */
    ghost predicate Started(s: State, e: nat, now: int)
      reads this
    {
      Valid() && Sane(s) && IsEnt(s, e) && t == s.t && SchedDeeds.StartsAt(s, e, now, State())
    }

    /** The running thread and its groups have been charged, and their slices looked at. */
    ghost predicate TickTaken(s: State, now: int, slices: seq<nat>)
      reads this
    {
      Valid() && Sane(s) && |slices| == |s.t.parent| && SchedTurns.Ticked(s, now, slices, State())
    }

    /** sched_add (sched.c:963-984). */
    method SchedAdd(e: nat, now: int, resched: bool)
      requires Ready(SchedRun.Starts(e, now, resched))
      modifies this`m, this`a, this`tm, this`c, this`th, this`ok
      ensures Taken(old(State()), SchedRun.Starts(e, now, resched))
      ensures Started(old(State()), e, now)
    {
      hide SchedRoles.Inv, SchedTable.Tells, SchedEarned.Gains, SchedEarned.Ran, SchedSteps.Add, SchedDeeds.StartsAt;
      SchedDeeds.StartLands(State(), e, now, resched);
      StepHolds(State(), SchedRun.Starts(e, now, resched));
      AddThread(e, now, resched);
    }

    /** sched_switch of a thread that stays runnable (sched.c:513-555). */
    method SchedYield(relinquish: bool, now: int, pick: nat)
      requires Ready(SchedRun.Yields(relinquish, now, pick))
      modifies this`m, this`a, this`tm, this`c, this`th, this`ok
      ensures Taken(old(State()), SchedRun.Yields(relinquish, now, pick))
      ensures Chosen(old(State()), SchedRun.Yields(relinquish, now, pick))
    {
      hide SchedDeeds.RightOne, SchedDeeds.Halfway, SchedRoles.Inv, SchedTable.Tells, SchedEarned.Gains, SchedEarned.Ran, SchedSteps.Yield, SchedSteps.ChooseThread;
      StepHolds(State(), SchedRun.Yields(relinquish, now, pick));
      SchedDeeds.SwitchRight(State(), SchedRun.Yields(relinquish, now, pick));
      SwitchThread(true, relinquish, now, pick);
    }

    /** sched_switch of a thread that goes to sleep (sched.c:513-555). */
    method SchedSleep(now: int, pick: nat)
      requires Ready(SchedRun.Sleeps(now, pick))
      modifies this`m, this`a, this`tm, this`c, this`th, this`ok
      ensures Taken(old(State()), SchedRun.Sleeps(now, pick))
      ensures Chosen(old(State()), SchedRun.Sleeps(now, pick))
    {
      hide SchedDeeds.RightOne, SchedDeeds.Halfway, SchedRoles.Inv, SchedTable.Tells, SchedEarned.Gains, SchedEarned.Ran, SchedSteps.Vacate, SchedSteps.ChooseThread;
      StepHolds(State(), SchedRun.Sleeps(now, pick));
      SchedDeeds.SwitchRight(State(), SchedRun.Sleeps(now, pick));
      SwitchThread(false, false, now, pick);
    }

    /** sched_throw (sched.c:1165-1189). */
    method SchedThrow(now: int, pick: nat)
      requires Ready(SchedRun.Exits(now, pick))
      modifies this`m, this`a, this`tm, this`c, this`th, this`ok
      ensures Taken(old(State()), SchedRun.Exits(now, pick))
      ensures Chosen(old(State()), SchedRun.Exits(now, pick))
    {
      hide SchedDeeds.RightOne, SchedDeeds.Halfway, SchedRoles.Inv, SchedTable.Tells, SchedEarned.Gains, SchedEarned.Ran, SchedRun.Leaves, SchedSteps.ChooseThread;
      StepHolds(State(), SchedRun.Exits(now, pick));
      SchedDeeds.SwitchRight(State(), SchedRun.Exits(now, pick));
      ThrowThread(now, pick);
    }

    /** sched_nice for one thread (sched.c:608-634). */
    method SchedNice(e: nat, weight: nat, now: int, later: int)
      requires Ready(SchedRun.Renices(e, weight, now, later))
      modifies this`m, this`a, this`tm, this`c, this`th, this`ok
      ensures Taken(old(State()), SchedRun.Renices(e, weight, now, later))
    {
      hide SchedRoles.Inv, SchedTable.Tells, SchedEarned.Gains, SchedEarned.Ran, SchedSteps.Nice;
      StepHolds(State(), SchedRun.Renices(e, weight, now, later));
      NiceThread(e, weight, now, later);
    }

    /** sched_class (sched.c:751-782). */
    method SchedClassChange(e: nat, pri: PriClass, now: int, resched: bool)
      requires Ready(SchedRun.Reclasses(e, pri, now, resched))
      modifies this`m, this`a, this`tm, this`c, this`th, this`ok
      ensures Taken(old(State()), SchedRun.Reclasses(e, pri, now, resched))
    {
      hide SchedRoles.Inv, SchedTable.Tells, SchedEarned.Gains, SchedEarned.Ran, SchedSteps.SetClass;
      StepHolds(State(), SchedRun.Reclasses(e, pri, now, resched));
      ChangeClass(e, pri, now, resched);
    }

    /** sched_group_move (sched.c:1434-1461). */
    method SchedGroupMove(e: nat, q: nat, now: int, later: int)
      requires Ready(SchedRun.Moves(e, q, now, later))
      modifies this`t, this`m, this`a, this`tm, this`c, this`th, this`ok
      ensures Taken(old(State()), SchedRun.Moves(e, q, now, later))
    {
      hide SchedRoles.Inv, SchedTable.Tells, SchedEarned.Gains, SchedEarned.Ran, SchedSteps.Move;
      StepHolds(State(), SchedRun.Moves(e, q, now, later));
      MoveThread(e, q, now, later);
    }

    /** sched_fork_thread (sched.c:692-728). */
    method SchedForkThread(child: nat, prio: int, debit: nat, now: int)
      requires Ready(SchedRun.Forks(child, prio, debit, now))
      modifies this`t, this`a, this`tm, this`th, this`ok
      ensures Taken(old(State()), SchedRun.Forks(child, prio, debit, now))
    {
      hide SchedRoles.Inv, SchedTable.Tells, SchedEarned.Gains, SchedEarned.Ran, SchedSteps.Fork;
      StepHolds(State(), SchedRun.Forks(child, prio, debit, now));
      ForkThread(child, prio, debit, now);
    }

    /** sched_tick (sched.c:859-874). */
    method SchedTick(now: int, slices: seq<nat>)
      requires Ready(SchedRun.Ticks(now, slices))
      modifies this`tm, this`c
      ensures Taken(old(State()), SchedRun.Ticks(now, slices))
      ensures TickTaken(old(State()), now, slices)
    {
      hide SchedRoles.Inv, SchedTable.Tells, SchedEarned.Gains, SchedEarned.Ran, SchedSteps.Tick, SchedTurns.Ticked;
      SchedTurns.TickDoes(State(), now, slices);
      StepHolds(State(), SchedRun.Ticks(now, slices));
      Tick(now, slices);
    }

    /** pss_sched_group_set_shares, shares not 0 (pss.c:1515-1549). */
    method SetShares(g: nat, n: nat)
      requires Ready(SchedRun.Reshares(g, n))
      modifies this`a, this`tm
      ensures Taken(old(State()), SchedRun.Reshares(g, n))
    {
      hide SchedRoles.Inv, SchedTable.Tells, SchedEarned.Gains, SchedEarned.Ran, SchedSteps.SetShares;
      StepHolds(State(), SchedRun.Reshares(g, n));
      ApplyShares(g, n);
    }

    /** pss_change_priority and rt_change_priority (pss.c:1218-1239, rt.c:357-372). */
    method ChangePriority(e: nat, prio: int)
      requires Ready(SchedRun.Reprioritizes(e, prio))
      modifies this`th, this`ok
      ensures Taken(old(State()), SchedRun.Reprioritizes(e, prio))
    {
      hide SchedRoles.Inv, SchedTable.Tells, SchedEarned.Gains, SchedEarned.Ran, SchedSteps.SetPriority;
      StepHolds(State(), SchedRun.Reprioritizes(e, prio));
      Reprioritize(e, prio);
    }
  }

  /** One step of any run. */
  lemma StepHolds(s: State, ev: SchedRun.Event)
    requires Sane(s) && SchedRun.Allowed(s, ev) && SchedRoles.Inv(s)
    ensures var r := SchedRun.Do(s, ev);
            && SchedRoles.Inv(r) && r.ok && SchedHistory.Onward(s.tm, r.tm)
            && SchedTable.Tells(s, ev, r) && SchedEarned.Gains(s, r, SchedEarned.Ran(s, ev))
  {
    hide SchedRun.Do, SchedRun.Allowed, SchedRoles.Inv, SchedTable.Tells, SchedEarned.Gains, SchedEarned.Ran;
    SchedRun.StepKeeps(s, ev);
    SchedTable.StepTells(s, ev);
    SchedEarned.StepEarns(s, ev);
    SchedLaws.StepOnward(s, ev);
    InvOk(SchedRun.Do(s, ev));
  }

  lemma InvOk(s: State)
    requires Sane(s) && SchedRoles.Inv(s)
    ensures s.ok
  {
  }

  lemma OwnerBounds(s: State, q: nat)
    requires Sane(s) && IsQueue(s, q)
    ensures NIL <= s.t.owner[q] < |s.t.parent| == |s.t.level|
  {
  }

  /** Index ranges around entity e. */
  lemma EntityBounds(s: State, e: nat)
    requires Sane(s) && IsEnt(s, e)
    ensures |s.t.parent| == |s.t.sfq| == |s.t.myq| == |s.t.level| == |s.m.joined| == |s.m.onSfq| == |s.th.onRunq| == |s.th.prio|
    ensures |s.t.parent| == |s.tm.vruntime| == |s.th.absolute| == |s.tm.start| == |s.tm.sum| == |s.tm.prevSum| == |s.a.weight| == |s.th.state| == |s.th.rtJoined|
    ensures s.t.sfq[e] < |s.t.owner| == |s.m.curr| == |s.m.timeline| == |s.a.nr| == |s.a.load| == |s.a.shares|
    ensures s.t.parent[e] == NIL || IsEnt(s, s.t.parent[e])
    ensures SchedSteps.Rank(s.t, e) == SchedSteps.Rank(s.t, s.t.parent[e]) + 1
  {
    SchedWalks.ParentGroup(s, e);
  }

  /** The deeper of two entities has a parent, and its parent has the same common ancestors. */
  lemma DeeperHasParent(s: State, e: nat, f: nat)
    requires Sane(s) && IsEnt(s, e) && IsEnt(s, f) && |s.t.level| == |s.t.parent| && s.t.level[e] > s.t.level[f]
    ensures s.t.parent[e] != NIL && IsEnt(s, s.t.parent[e]) && s.t.level[e] == s.t.level[s.t.parent[e]] + 1
    ensures SchedSteps.CommonAncestor(s.t, e, f) == SchedSteps.CommonAncestor(s.t, s.t.parent[e], f)
    ensures SchedSteps.CommonAncestor(s.t, f, e) == SchedSteps.CommonAncestor(s.t, f, s.t.parent[e])
  {
    SchedPick.OwnerLevel(s, s.t.sfq[e]);
    SchedPick.OwnerLevel(s, s.t.sfq[f]);
  }

  lemma ApartHasParent(s: State, e: nat, f: nat)
    requires Sane(s) && IsEnt(s, e) && IsEnt(s, f) && |s.t.level| == |s.t.parent| == |s.t.sfq|
    requires s.t.level[e] == s.t.level[f] && s.t.sfq[e] != s.t.sfq[f]
    ensures var e', f' := s.t.parent[e], s.t.parent[f];
            && e' != NIL && f' != NIL && IsEnt(s, e') && IsEnt(s, f')
            && s.t.level[e'] == s.t.level[f'] == s.t.level[e] - 1
            && SchedSteps.CommonAncestor(s.t, e, f) == SchedSteps.CommonAncestor(s.t, e', f')
  {
    SchedPick.OwnerLevel(s, s.t.sfq[e]);
    SchedPick.OwnerLevel(s, s.t.sfq[f]);
    SchedBooks.RootParent(s, e);
    SchedBooks.RootParent(s, f);
  }

  /** One round of the descent: the chosen group's queue has members. */
  lemma NextRound(s: State, q: nat, fuel: nat)
    requires Sane(s) && IsQueue(s, q) && SchedClass.Core(s) && SchedWalks.NoCurr(s.m) && s.a.nr[q] > 0
    requires s.t.owner[q] == NIL || 0 <= s.t.owner[q] < |s.t.level|
    requires fuel + SchedSteps.Rank(s.t, s.t.owner[q]) >= s.t.depth + 1
    ensures s.m.timeline[q] != [] && fuel > 0
    ensures var e := SchedOps.Choose(s, q);
            var r := SchedOps.ClearCandidates(s, e);
            && SchedClass.Core(r)
            && (!IsThread(s.t, e) ==>
                  && IsQueue(s, s.t.myq[e]) && s.a.nr[s.t.myq[e]] > 0 && s.t.owner[s.t.myq[e]] == e
                  && fuel - 1 + SchedSteps.Rank(s.t, e) >= s.t.depth + 1)
  {
    hide SchedPick.NearLeftmost, SchedOps.Choose, SchedOps.ClearCandidates;
    SchedPick.OwnerLevel(s, q);
    SchedPick.ChooseNear(s, q);
    var e := SchedOps.Choose(s, q);
    SchedWalks.ClearCandidatesKeeps(s, e);
    SchedPick.CandsOnly(s, SchedOps.ClearCandidates(s, e));
  }

  lemma PickFacts(s: State)
    requires Sane(s) && SchedClass.Core(s) && SchedWalks.NoCurr(s.m)
    ensures IsQueue(s, 0) && s.t.owner[0] == NIL && |s.t.level| == |s.t.parent| && s.a.nr[0] >= 0
    ensures var (r, e) := SchedSteps.PssPick(s); SchedClass.Core(r) && (e != NIL <==> s.a.nr[0] > 0)
  {
    hide SchedSteps.PssPick, SchedPick.NearAllTheWay;
    SchedPick.RootQueue(s);
    SchedPick.RootNr(s);
    SchedPick.PssPickKeeps(s);
  }

  lemma Bounds(s: State)
    requires Sane(s)
    ensures |s.t.level| == |s.t.parent|
  {
  }

  /** After the first half of sched_switch no entity is current. */
  lemma ReadyToChoose(s: State, running: bool, relinquish: bool, now: int)
    requires Sane(s) && SchedRoles.Inv(s) && (!running ==> s.th.current != NIL)
    ensures var r := if running then SchedSteps.Yield(s, relinquish, now) else SchedSteps.Vacate(s, true, now);
            SchedClass.Core(r) && SchedWalks.NoCurr(r.m)
  {
    hide SchedSteps.Yield, SchedSteps.Vacate, SchedClass.Core, SchedRoles.Inv, SchedRoles.Roles;
    if running {
      SchedEntry.YieldKeeps(s, relinquish, now);
    } else {
      SchedEntry.VacateKeeps(s, true, now);
    }
  }

  lemma ReadyToLeave(s: State, now: int)
    requires Sane(s) && s.th.current != NIL && SchedRoles.Inv(s)
    ensures var r := SchedRun.Leaves(s, now); SchedClass.Core(r) && SchedWalks.NoCurr(r.m)
  {
    hide SchedRun.Leaves, SchedClass.Core, SchedRoles.Inv, SchedRoles.Roles;
    SchedRun.LeavesKeeps(s, now);
  }

  lemma NewVruntimes(s: State, vruntime: seq<int>, absolute: seq<bool>)
    requires Sane(s) && |vruntime| == |s.tm.vruntime| && |absolute| == |s.th.absolute|
    ensures Sane(s.(tm := s.tm.(vruntime := vruntime), th := s.th.(absolute := absolute)))
  {
  }

  lemma CurrentBounds(s: State)
    requires Sane(s)
    ensures s.th.current == NIL || IsEnt(s, s.th.current)
  {
  }

  lemma NewChild(s: State, e: nat, child: nat, prio: int)
    requires Sane(s) && IsEnt(s, e) && IsEnt(s, child)
    ensures |s.th.cls| == |s.th.pri| == |s.th.initial| == |s.th.live| == |s.th.prio| == |s.t.parent|
    ensures Sane(s.(th := s.th.(cls := s.th.cls[child := s.th.cls[e]], pri := s.th.pri[child := s.th.pri[e]],
                                initial := s.th.initial[child := true], live := s.th.live[child := true],
                                prio := s.th.prio[child := prio])))
  {
  }

  lemma SaneOk(s: State, ok: bool)
    requires Sane(s)
    ensures Sane(s.(ok := ok))
  {
  }
}
