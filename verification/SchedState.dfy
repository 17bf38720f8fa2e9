/** The state of one CPU's scheduler: run queue, group hierarchy, threads
    (sched.h:120-318).

    Scheduling entities and queues are numbered.  The fields of struct sched_entity,
    struct sfq and struct rq are kept field by field, grouped by what they are about,
    so that an operation that does not touch a group visibly leaves it alone.
    Virtual times are unbounded integers; see WrapTime. */
module SchedState {
  const NIL: int := -1

  datatype Class = Realtime | Pss

  /** td_pri_class: PRI_ITHD, PRI_REALTIME, PRI_FIFO, PRI_TIMESHARE and PRI_IDLE. */
  datatype PriClass = Ithd | RealTime | Fifo | Timeshare | IdlePri

  /** get_sched_class (sched.c:1260-1273) of a thread that is not the idle thread. */
  function ClassOf(pri: PriClass): Class {
    if pri.Ithd? || pri.RealTime? || pri.Fifo? then Realtime else Pss
  }
  datatype TdState = Inhibited | OnRunq | Running

  /** The tunables sched_min_granularity (halved by gentle_sleeper), wakeup_granularity, start_debit,
      child_runs_first, sched_last and sched_nr_latency, and the kernel's NORMAL_PRI. */
  datatype Params = Params(thresh: nat, wakeupGranularity: nat, startDebit: bool, childRunsFirst: bool,
                           schedLast: bool, nrLatency: nat, normalPri: int)

  /** parent, sfq, my_q of every entity; the group entity that owns a queue. `level` is the
      number of groups above an entity, at most `depth`. */
  datatype Topo = Topo(parent: seq<int>, sfq: seq<nat>, myq: seq<int>, level: seq<nat>, owner: seq<int>, depth: nat)

  /** joined and SEF_ONSFQ per entity; timeline and curr per queue. */
  datatype Members = Members(joined: seq<bool>, onSfq: seq<bool>, timeline: seq<seq<nat>>, curr: seq<int>)

  /** load.weight per entity; load, nr_running and the owning group's shares per queue; rq->load. */
  datatype Acct = Acct(weight: seq<nat>, load: seq<int>, nr: seq<int>, shares: seq<nat>, rqLoad: int)

  /** Clocks and virtual times.  `charged` is an auxiliary history: the execution time that
      update_curr has ever added to the members of a queue. */
  datatype Times = Times(clock: int, vruntime: seq<int>, start: seq<int>, sum: seq<int>, prevSum: seq<int>,
                         vtime: seq<int>, charged: seq<int>)

  datatype Cands = Cands(skip: seq<int>, next: seq<int>, last: seq<int>)

  /** Thread state.  `rtJoined` is the field joined of a thread of the realtime class; for all other
      entities it is Members.joined.  `absolute` is an auxiliary history: whether the thread's vruntime
      currently includes its queue's vtime.  `live` marks the entities that are threads in use. */
  datatype Threads = Threads(cls: seq<Class>, state: seq<TdState>, prio: seq<int>, pri: seq<PriClass>,
                             initial: seq<bool>, absolute: seq<bool>, live: seq<bool>, rtJoined: seq<bool>,
                             onRunq: seq<bool>, runq: set<nat>, rtCurr: int, nrRunning: int, current: int)

  /** `ok` turns false when a KASSERT or MPASS of the source fails, or when vtime is added to
      an absolute or subtracted from a relative vruntime. */
  datatype State = State(p: Params, t: Topo, m: Members, a: Acct, tm: Times, c: Cands, th: Threads, ok: bool)

  ghost predicate WfTopo(t: Topo) {
    var n, k := |t.parent|, |t.owner|;
    && |t.sfq| == |t.myq| == |t.level| == n
    && k > 0 && t.owner[0] == NIL
    && (forall e {:trigger t.sfq[e]} :: 0 <= e < n ==> t.sfq[e] < k && t.parent[e] == t.owner[t.sfq[e]])
    && (forall e {:trigger t.parent[e]} :: 0 <= e < n && t.parent[e] != NIL ==>
          0 <= t.parent[e] < n && t.level[e] == t.level[t.parent[e]] + 1)
    && (forall e {:trigger t.level[e]} :: 0 <= e < n && t.parent[e] == NIL ==> t.level[e] == 0)
    && (forall e {:trigger t.myq[e]} :: 0 <= e < n && t.myq[e] != NIL ==> 0 < t.myq[e] < k && t.owner[t.myq[e]] == e)
    && (forall q {:trigger t.owner[q]} :: 0 < q < k ==> 0 <= t.owner[q] < n && t.myq[t.owner[q]] == q && t.level[t.owner[q]] < t.depth)
    && (forall e {:trigger t.level[e]} :: 0 <= e < n ==> t.level[e] <= t.depth)
  }

  ghost predicate SizedM(m: Members, n: nat, k: nat) {
    && |m.joined| == |m.onSfq| == n && |m.timeline| == |m.curr| == k
    && (forall q {:trigger m.curr[q]} :: 0 <= q < k ==> NIL <= m.curr[q] < n)
    && (forall q, i {:trigger m.timeline[q][i]} :: 0 <= q < k && 0 <= i < |m.timeline[q]| ==> m.timeline[q][i] < n)
  }

  predicate SizedA(a: Acct, n: nat, k: nat) {
    |a.weight| == n && |a.load| == |a.nr| == |a.shares| == k
  }

  predicate SizedTm(tm: Times, n: nat, k: nat) {
    |tm.vruntime| == |tm.start| == |tm.sum| == |tm.prevSum| == n && |tm.vtime| == |tm.charged| == k
  }

  ghost predicate SizedC(c: Cands, n: nat, k: nat) {
    && |c.skip| == |c.next| == |c.last| == k
    && (forall q {:trigger c.skip[q]} :: 0 <= q < k ==> NIL <= c.skip[q] < n)
    && (forall q {:trigger c.next[q]} :: 0 <= q < k ==> NIL <= c.next[q] < n)
    && (forall q {:trigger c.last[q]} :: 0 <= q < k ==> NIL <= c.last[q] < n)
  }

  ghost predicate SizedTh(th: Threads, n: nat) {
    && |th.cls| == |th.state| == |th.prio| == |th.pri| == |th.initial| == n
    && |th.absolute| == |th.live| == |th.onRunq| == |th.rtJoined| == n
    && NIL <= th.current < n && NIL <= th.rtCurr < n
    && (forall e :: e in th.runq ==> e < n)
  }

  /** Lengths and index ranges: what the pointers of the source give for free. */
  ghost predicate Sane(s: State) {
    var n, k := |s.t.parent|, |s.t.owner|;
    && WfTopo(s.t) && SizedM(s.m, n, k) && SizedA(s.a, n, k) && SizedTm(s.tm, n, k)
    && SizedC(s.c, n, k) && SizedTh(s.th, n)
  }

  predicate IsEnt(s: State, e: int) {
    0 <= e < |s.t.parent|
  }

  predicate IsQueue(s: State, q: int) {
    0 <= q < |s.t.owner|
  }

  /** entity_is_thread (sched.h:360-368). */
  predicate IsThread(t: Topo, e: nat)
    requires e < |t.myq|
  {
    t.myq[e] == NIL
  }

  /** r is s with other contents but the same hierarchy. */
  ghost predicate Same(s: State, r: State) {
    r.t == s.t && r.p == s.p && Sane(r)
  }
}
