/** The class operations and the scheduler's entry points (pss.c:1011-1413, rt.c:270-372,
    sched.c:474-1004, 1165-1461).  Each entry point is one atomic step. */
module SchedSteps {
  import opened SchedState
  import opened SchedOps
  import FixedPoint

  function Rank(t: Topo, e: int): nat
    requires e == NIL || 0 <= e < |t.level|
  {
    if e == NIL then 0 else t.level[e] + 1
  }

  // ---------- walks up the hierarchy ----------

  /** The second loop of pss_enqueue_thread and pss_dequeue_thread (pss.c:1145-1149, 1209-1213). */
  function SharesWalk(s: State, e: int): (r: State)
    requires Sane(s) && (e == NIL || IsEnt(s, e))
    ensures Same(s, r) && r == s.(a := r.a, tm := r.tm)
    decreases Rank(s.t, e)
  {
    if e == NIL then s else SharesWalk(UpdateShares(s, s.t.sfq[e]), s.t.parent[e])
  }

  /** The first loop of pss_enqueue_thread; also returns where it stopped (pss.c:1138-1144). */
  function EnqueueWalk(s: State, e: int, wakeup: bool): (r: (State, int))
    requires Sane(s) && (e == NIL || IsEnt(s, e))
    ensures Same(s, r.0) && (r.1 == NIL || IsEnt(s, r.1))
    decreases Rank(s.t, e)
  {
    if e == NIL || s.m.joined[e] then (s, e)
    else EnqueueWalk(EnqueueEntity(s, e, wakeup), s.t.parent[e], true)
  }

  /** rq_run_add (sched.c:276-286). */
  function RunAdd(s: State): (r: State)
    requires Sane(s)
    ensures Same(s, r) && r == s.(th := r.th)
  {
    s.(th := s.th.(nrRunning := s.th.nrRunning + 1))
  }

  /** rq_run_rem (sched.c:292-304). */
  function RunRemove(s: State): (r: State)
    requires Sane(s)
    ensures Same(s, r) && r == s.(th := r.th, ok := r.ok)
  {
    s.(ok := s.ok && s.th.nrRunning != 0, th := s.th.(nrRunning := s.th.nrRunning - 1))
  }

  /** A thread that the pss class handles is not joined as a realtime thread, so that its field
      joined is Members.joined. */
  function NotRealtime(s: State, e: nat): (r: State)
    requires Sane(s) && IsEnt(s, e)
    ensures Same(s, r) && r == s.(ok := r.ok)
  {
    s.(ok := s.ok && !s.th.rtJoined[e])
  }

  /** pss_enqueue_thread (pss.c:1131-1152). */
  function PssEnqueue(s: State, e: nat, wakeup: bool): (r: State)
    requires Sane(s) && IsEnt(s, e)
    ensures Same(s, r)
  {
    var (s1, e1) := EnqueueWalk(NotRealtime(s, e), e, wakeup);
    RunAdd(SharesWalk(s1, e1))
  }

  /** The first loop of pss_dequeue_thread (pss.c:1187-1208). */
  function DequeueWalk(s: State, e: int, sleep: bool, isSleep: bool): (r: (State, int))
    requires Sane(s) && (e == NIL || IsEnt(s, e))
    ensures Same(s, r.0) && (r.1 == NIL || IsEnt(s, r.1))
    decreases Rank(s.t, e)
  {
    if e == NIL then (s, NIL)
    else
      var s1 := DequeueEntity(s, e, sleep);
      var p := s.t.parent[e];
      if s1.a.load[s.t.sfq[e]] != 0 then (if isSleep && p != NIL then SetNext(s1, p) else s1, p)
      else DequeueWalk(s1, p, true, isSleep)
  }

  /** pss_dequeue_thread (pss.c:1179-1216). */
  function PssDequeue(s: State, e: nat, sleep: bool): (r: State)
    requires Sane(s) && IsEnt(s, e)
    ensures Same(s, r)
  {
    var (s1, e1) := DequeueWalk(NotRealtime(s, e), e, sleep, sleep);
    RunRemove(SharesWalk(s1, e1))
  }

  function PutPrevWalk(s: State, e: int, relinquish: bool): (r: State)
    requires Sane(s) && (e == NIL || IsEnt(s, e))
    ensures Same(s, r)
    decreases Rank(s.t, e)
  {
    if e == NIL then s else PutPrevWalk(PutPrevEntity(s, e, relinquish), s.t.parent[e], relinquish)
  }

  /** pss_put_prev_thread (pss.c:1011-1023). */
  function PssPutPrev(s: State, e: nat, relinquish: bool): (r: State)
    requires Sane(s) && IsEnt(s, e)
    ensures Same(s, r)
  {
    PutPrevWalk(NotRealtime(s, e), e, relinquish)
  }

  function ActivateWalk(s: State, e: int): (r: State)
    requires Sane(s) && (e == NIL || IsEnt(s, e))
    ensures Same(s, r)
    decreases Rank(s.t, e)
  {
    if e == NIL then s else ActivateWalk(ActivateEntity(s, e), s.t.parent[e])
  }

  /** pss_activate_thread (pss.c:1087-1099). */
  function PssActivate(s: State, e: nat): (r: State)
    requires Sane(s) && IsEnt(s, e)
    ensures Same(s, r)
  {
    SetState(ActivateWalk(NotRealtime(s, e), e), e, Running)
  }

  /** The descent of pss_pick_next_thread (pss.c:1059-1062).  It stops with `ok` false where
      the source would follow a null pointer. */
  function PickWalk(s: State, q: nat, fuel: nat): (r: (State, int))
    requires Sane(s) && IsQueue(s, q)
    ensures Same(s, r.0) && r.0 == s.(c := r.0.c, ok := r.0.ok) && (r.1 == NIL || IsEnt(s, r.1))
    decreases fuel
  {
    if s.m.timeline[q] == [] || fuel == 0 then (s.(ok := false), NIL)
    else
      var e := Choose(s, q);
      var s1 := ClearCandidates(s, e);
      if IsThread(s.t, e) then (s1, e) else PickWalk(s1, s.t.myq[e], fuel - 1)
  }

  /** pss_pick_next_thread (pss.c:1050-1066). */
  function PssPick(s: State): (r: (State, int))
    requires Sane(s)
    ensures Same(s, r.0) && r.0 == s.(c := r.0.c, ok := r.0.ok) && (r.1 == NIL || IsEnt(s, r.1))
  {
    if s.a.nr[0] == 0 then (s, NIL) else PickWalk(s, 0, s.t.depth + 1)
  }

  // ---------- the realtime class ----------

  function SetRtJoined(s: State, e: nat, j: bool): (r: State)
    requires Sane(s) && IsEnt(s, e)
    ensures Same(s, r) && r == s.(th := r.th)
  {
    s.(th := s.th.(rtJoined := s.th.rtJoined[e := j]))
  }

  /** rt_enqueue_thread (rt.c:314-330). */
  function RtEnqueue(s: State, e: nat): (r: State)
    requires Sane(s) && IsEnt(s, e)
    ensures Same(s, r) && r == s.(th := r.th, ok := r.ok)
  {
    var s1 := RunqEnqueue(s.(ok := s.ok && !s.m.joined[e] && !s.th.rtJoined[e] && !s.m.onSfq[e]), e);
    SetRtJoined(RunAdd(SetState(s1, e, OnRunq)), e, true)
  }

  /** rt_dequeue_thread (rt.c:332-347). */
  function RtDequeue(s: State, e: nat): (r: State)
    requires Sane(s) && IsEnt(s, e)
    ensures Same(s, r) && r == s.(th := r.th, ok := r.ok)
  {
    var s0 := s.(ok := s.ok && !s.m.joined[e] && !s.m.onSfq[e]);
    if !s.th.rtJoined[e] then s0 else SetRtJoined(RunRemove(RunqDequeue(s0, e)), e, false)
  }

  /** rt_put_prev_thread (rt.c:270-285). */
  function RtPutPrev(s: State, e: nat): (r: State)
    requires Sane(s) && IsEnt(s, e)
    ensures Same(s, r) && r == s.(th := r.th, ok := r.ok)
  {
    var s0 := s.(ok := s.ok && !s.m.joined[e]);
    var s1 := if s.th.rtJoined[e] then RunqEnqueue(SetState(s0, e, OnRunq), e) else s0;
    s1.(th := s1.th.(rtCurr := NIL))
  }

  /** rt_activate_thread (rt.c:297-312); it reads the clock itself. */
  function RtActivate(s: State, e: nat, now: int): (r: State)
    requires Sane(s) && IsEnt(s, e)
    ensures Same(s, r) && r == s.(th := r.th, tm := s.tm.(start := r.tm.start, prevSum := r.tm.prevSum), ok := r.ok)
  {
    var s1 := RunqDequeue(s.(ok := s.ok && !s.m.joined[e] && s.th.rtJoined[e] && s.th.onRunq[e] && !s.m.onSfq[e]), e);
    var s2 := s1.(tm := s1.tm.(start := s1.tm.start[e := now], prevSum := s1.tm.prevSum[e := s1.tm.sum[e]]));
    SetState(s2.(th := s2.th.(rtCurr := e)), e, Running)
  }

  // ---------- dispatch through the thread's class ----------

  function Enqueue(s: State, e: nat, wakeup: bool): (r: State)
    requires Sane(s) && IsEnt(s, e)
    ensures Same(s, r)
  {
    if s.th.cls[e] == Pss then PssEnqueue(s, e, wakeup) else RtEnqueue(s, e)
  }

  function Dequeue(s: State, e: nat, sleep: bool): (r: State)
    requires Sane(s) && IsEnt(s, e)
    ensures Same(s, r)
  {
    if s.th.cls[e] == Pss then PssDequeue(s, e, sleep) else RtDequeue(s, e)
  }

  function PutPrev(s: State, e: nat, relinquish: bool): (r: State)
    requires Sane(s) && IsEnt(s, e)
    ensures Same(s, r)
  {
    if s.th.cls[e] == Pss then PssPutPrev(s, e, relinquish) else RtPutPrev(s, e)
  }

  function Activate(s: State, e: nat, now: int): (r: State)
    requires Sane(s) && IsEnt(s, e)
    ensures Same(s, r)
  {
    if s.th.cls[e] == Pss then PssActivate(s, e) else RtActivate(s, e, now)
  }

  /** update_rq_clock (sched.c:1275-1283); the clock of one CPU never runs backward (see Clock). */
  function SetClock(s: State, now: int): (r: State)
    requires Sane(s)
    ensures Same(s, r) && r == s.(tm := s.tm.(clock := r.tm.clock)) && r.tm.clock >= s.tm.clock
  {
    s.(tm := s.tm.(clock := Max(s.tm.clock, now)))
  }

  function SetCurrent(s: State, e: int): (r: State)
    requires Sane(s) && (e == NIL || IsEnt(s, e))
    ensures Same(s, r) && r == s.(th := s.th.(current := e))
  {
    s.(th := s.th.(current := e))
  }

  // ---------- preemption ----------

  /** find_common_ancestor (pss.c:219-241). */
  function CommonAncestor(t: Topo, a: nat, b: nat): (r: (nat, nat))
    requires WfTopo(t) && a < |t.parent| && b < |t.parent|
    ensures r.0 < |t.parent| && r.1 < |t.parent| && t.sfq[r.0] == t.sfq[r.1]
    decreases t.level[a] + t.level[b]
  {
    if t.sfq[a] == t.sfq[b] then (a, b)
    else if t.level[a] > t.level[b] then CommonAncestor(t, t.parent[a], b)
    else if t.level[b] > t.level[a] then CommonAncestor(t, a, t.parent[b])
    else CommonAncestor(t, t.parent[a], t.parent[b])
  }

  /** pss_check_preempt_curr (pss.c:1268-1305) for current thread c and thread e; `resched` is
      thread_need_resched(c). */
  function CheckPreempt(s: State, c: nat, e: nat, resched: bool): (r: State)
    requires Sane(s) && IsEnt(s, c) && IsEnt(s, e)
    ensures Same(s, r) && r == s.(tm := r.tm, c := r.c)
  {
    hide WakeupPreempt;
    var last := s.p.schedLast && s.a.nr[s.t.sfq[c]] >= s.p.nrLatency;
    if resched then s
    else if s.th.pri[c].IdlePri? && !s.th.pri[e].IdlePri? then (if last && IsThread(s.t, e) then SetLast(s, e) else s)
    else
      var (ca, ce) := CommonAncestor(s.t, c, e);
      var s1 := UpdateCurr(s, s.t.sfq[ca]);
      if WakeupPreempt(s1, ca, ce) <= 0 then s1
      else
        var s2 := SetNext(s1, ce);
        if last && IsThread(s.t, ce) then SetLast(s2, ce) else s2
  }

  /** check_preempt_curr (sched.c:948-957); the idle thread is of no class here. */
  function CheckClassPreempt(s: State, e: nat, resched: bool): (r: State)
    requires Sane(s) && IsEnt(s, e)
    ensures Same(s, r) && r == s.(tm := r.tm, c := r.c)
  {
    var c := s.th.current;
    if c != NIL && s.th.cls[c] == Pss && s.th.cls[e] == Pss then CheckPreempt(s, c, e, resched) else s
  }

  // ---------- entry points ----------

  lemma NoChildren(t: Topo, e: nat)
    requires WfTopo(t) && e < |t.parent| && t.myq[e] == NIL
    ensures forall x :: 0 <= x < |t.parent| ==> t.parent[x] != e
    ensures forall q :: 0 <= q < |t.owner| ==> t.owner[q] != e
  {
    forall x | 0 <= x < |t.parent| ensures t.parent[x] != e {
      assert t.parent[x] == t.owner[t.sfq[x]];
    }
  }

  /** set_thread_rq (sched.h:480-488): thread e belongs to queue q. */
  function SetQueue(s: State, e: nat, q: nat): (r: State)
    requires Sane(s) && IsEnt(s, e) && IsQueue(s, q) && IsThread(s.t, e)
    ensures Sane(r) && r == s.(t := r.t) && |r.t.parent| == |s.t.parent| && r.t.owner == s.t.owner && r.t.myq == s.t.myq
  {
    var p := s.t.owner[q];
    NoChildren(s.t, e);
    s.(t := s.t.(sfq := s.t.sfq[e := q], parent := s.t.parent[e := p],
                 level := s.t.level[e := if p == NIL then 0 else s.t.level[p] + 1]))
  }

  /** sched_fork_thread by the current thread (sched.c:692-728, pss.c:1356-1378). */
  function Fork(s: State, child: nat, prio: int, debit: nat, now: int): (r: State)
    requires Sane(s) && s.th.current != NIL && IsEnt(s, child) && IsThread(s.t, child)
    ensures Sane(r)
  {
    var e := s.th.current;
    var th := s.th.(cls := s.th.cls[child := s.th.cls[e]], pri := s.th.pri[child := s.th.pri[e]],
                    initial := s.th.initial[child := true], live := s.th.live[child := true],
                    prio := s.th.prio[child := prio]);
    var s1 := SetQueue(SetWeight(s, child, s.a.weight[e]), child, s.t.sfq[e]).(th := th);
    if s.th.cls[e] == Pss then ForkPss(SetClock(s1, now), e, child, debit) else s1
  }

  /** pss_fork_thread (pss.c:1356-1378). */
  function ForkPss(s: State, e: nat, child: nat, debit: nat): (r: State)
    requires Sane(s) && IsEnt(s, e) && IsEnt(s, child)
    ensures Same(s, r)
  {
    var s1 := UpdateCurr(s, s.t.sfq[e]);
    var s2 := s1.(tm := s1.tm.(vruntime := s1.tm.vruntime[child := s1.tm.vruntime[e]]),
                  th := s1.th.(absolute := s1.th.absolute[child := true]));
    var s3 := Place(s2, child, true, debit);
    var v, w := s3.tm.vruntime[e], s3.tm.vruntime[child];
    var s4 := if s.p.childRunsFirst && v < w then
                s3.(tm := s3.tm.(vruntime := s3.tm.vruntime[e := w][child := v]))
              else s3;
    SubVtime(s4, child)
  }

  /** sched_add (sched.c:963-984). */
  function Add(s: State, e: nat, now: int, resched: bool): (r: State)
    requires Sane(s) && IsEnt(s, e)
    ensures Same(s, r)
  {
    var s1 := SetClock(s.(th := s.th.(initial := s.th.initial[e := false])), now);
    CheckClassPreempt(Enqueue(s1, e, !s.th.initial[e]), e, resched)
  }

  /** The first half of sched_switch when the current thread goes on wanting the processor
      (sched.c:538-540); with the idle thread there is nothing to put back. */
  function Yield(s: State, relinquish: bool, now: int): (r: State)
    requires Sane(s)
    ensures Same(s, r)
  {
    if s.th.current == NIL then s else PutPrev(SetClock(s, now), s.th.current, relinquish)
  }

  /** The first half of sched_switch when it goes to sleep (sched.c:541-547), and sched_throw (sched.c:1179-1182). */
  function Vacate(s: State, sleep: bool, now: int): (r: State)
    requires Sane(s) && s.th.current != NIL
    ensures Same(s, r)
  {
    var e := s.th.current;
    PutPrev(Dequeue(SetClock(SetState(s, e, Inhibited), now), e, sleep), e, false)
  }

  /** sched_choose (sched.c:904-922).  `pick` is the thread runq_choose finds on the kernel's run queue. */
  function ChooseThread(s: State, pick: nat, now: int): (r: State)
    requires Sane(s)
    ensures Same(s, r)
  {
    var (s1, e) := if pick in s.th.runq then (s, pick) else PssPick(s);
    if e == NIL then SetCurrent(s1, NIL) else SetCurrent(Activate(s1, e, now), e)
  }

  /** A queued or running thread is taken off its queues (sched.c:620-623, 768-771, 1444-1447). */
  function Withdraw(s: State, e: nat): (r: State)
    requires Sane(s) && IsEnt(s, e)
    ensures Same(s, r)
  {
    var s1 := if s.th.state[e] != Inhibited then Dequeue(s, e, false) else s;
    if s.th.state[e] == Running then PutPrev(s1, e, false) else s1
  }

  /** A thread that was in state `was` is put back (sched.c:625-630, 774-779, 1453-1458). */
  function Restore(s: State, e: nat, was: TdState, now: int): (r: State)
    requires Sane(s) && IsEnt(s, e)
    ensures Same(s, r)
  {
    var s1 := if was != Inhibited then Enqueue(s, e, false) else s;
    if was == Running then Activate(s1, e, now) else s1
  }

  /** sched_nice for one thread (sched.c:608-634); `now` and `later` are the two clock readings. */
  function Nice(s: State, e: nat, weight: nat, now: int, later: int): (r: State)
    requires Sane(s) && IsEnt(s, e)
    ensures Same(s, r)
  {
    if s.th.cls[e] != Pss then SetWeight(s, e, weight)
    else if s.th.state[e] == Inhibited then SetWeight(s, e, weight)
    else
      var s1 := Withdraw(SetClock(s, now), e);
      Restore(SetClock(SetWeight(s1, e, weight), later), e, s.th.state[e], later)
  }

  /** sched_class (sched.c:751-782). */
  function SetClass(s: State, e: nat, pri: PriClass, now: int, resched: bool): (r: State)
    requires Sane(s) && IsEnt(s, e)
    ensures Same(s, r)
  {
    if s.th.pri[e] == pri then s
    else
      var s1 := Withdraw(s, e);
      var s2 := s1.(th := s1.th.(cls := s1.th.cls[e := ClassOf(pri)], pri := s1.th.pri[e := pri]));
      var s3 := Restore(s2, e, s.th.state[e], now);
      if s.th.cls[e] == ClassOf(pri) then s3
      else if ClassOf(pri) == Realtime then SwitchedFrom(s3, e)
      else SwitchedTo(s3, e, resched)
  }

  /** pss_switched_from (pss.c:1380-1396); rt_switched_to does nothing. */
  function SwitchedFrom(s: State, e: nat): (r: State)
    requires Sane(s) && IsEnt(s, e)
    ensures Same(s, r)
  {
    if !s.th.initial[e] && s.th.state[e] == Inhibited then SubVtime(Place(s, e, false, 0), e) else s
  }

  /** pss_switched_to (pss.c:1398-1413); the realtime class has no switched_from. */
  function SwitchedTo(s: State, e: nat, resched: bool): (r: State)
    requires Sane(s) && IsEnt(s, e)
    ensures Same(s, r)
  {
    if !s.th.initial[e] && s.th.state[e] == Inhibited then AddVtime(s, e)
    else if s.th.current == e then s
    else CheckClassPreempt(s, e, resched)
  }

  /** sched_group_move (sched.c:1434-1461). */
  function Move(s: State, e: nat, q: nat, now: int, later: int): (r: State)
    requires Sane(s) && IsEnt(s, e) && IsQueue(s, q) && IsThread(s.t, e)
    ensures Sane(r)
  {
    if s.th.state[e] == Inhibited then MoveIdle(s, e, q)
    else
      var s1 := Withdraw(SetClock(s, now), e);
      Restore(SetClock(SetQueue(s1, e, q), later), e, s.th.state[e], later)
  }

  /** pss_sched_group_move for a thread that is not queued (pss.c:1502-1513, sched.c:1449-1452). */
  function MoveIdle(s: State, e: nat, q: nat): (r: State)
    requires Sane(s) && IsEnt(s, e) && IsQueue(s, q) && IsThread(s.t, e)
    ensures Sane(r)
  {
    if s.th.cls[e] == Pss && !s.th.initial[e] then AddVtime(SetQueue(SubVtime(s, e), e, q), e)
    else SetQueue(s, e, q)
  }

  /** pss_tick_thread (pss.c:1307-1354); slices[e] is the sched_slice of entity e. */
  function TickWalk(s: State, e: int, slices: seq<nat>): (r: State)
    requires Sane(s) && (e == NIL || IsEnt(s, e)) && |slices| == |s.t.parent|
    ensures Same(s, r) && r == s.(tm := r.tm, c := r.c)
    decreases Rank(s.t, e)
  {
    if e == NIL then s
    else
      var q := s.t.sfq[e];
      var s1 := UpdateCurr(s, q);
      var s2 := if s1.a.nr[q] > 1 && s1.tm.sum[e] - s1.tm.prevSum[e] > slices[e] then ClearCandidates(s1, e) else s1;
      TickWalk(s2, s.t.parent[e], slices)
  }

  /** sched_tick (sched.c:859-874); rt_tick only asks for a reschedule. */
  function Tick(s: State, now: int, slices: seq<nat>): (r: State)
    requires Sane(s) && |slices| == |s.t.parent|
    ensures Same(s, r) && r == s.(tm := r.tm, c := r.c)
  {
    var s1 := SetClock(s, now);
    if s.th.current != NIL && s.th.cls[s.th.current] == Pss then TickWalk(s1, s.th.current, slices) else s1
  }

  const MIN_SHARES: nat := 2
  const MAX_SHARES: nat := 0x40000

  /** pss_sched_group_set_shares for the group of entity g, with shares > 0 (pss.c:1515-1549). */
  function SetShares(s: State, g: nat, shares: nat): (r: State)
    requires Sane(s) && IsEnt(s, g) && !IsThread(s.t, g)
    ensures Same(s, r)
  {
    var q := s.t.myq[g];
    var n := if shares < MIN_SHARES then MIN_SHARES else if shares > MAX_SHARES then MAX_SHARES else shares;
    if n == s.a.shares[q] then s
    else SharesWalk(s.(a := s.a.(shares := s.a.shares[q := n])), g)
  }

  /** pss_change_priority and rt_change_priority (pss.c:1218-1239, rt.c:357-372). */
  function SetPriority(s: State, e: nat, prio: int): (r: State)
    requires Sane(s) && IsEnt(s, e)
    ensures Same(s, r) && r == s.(th := r.th, ok := r.ok)
  {
    var requeue := s.th.state[e] == OnRunq && prio < s.th.prio[e];
    var s0 := s.(ok := s.ok && (requeue && s.th.cls[e] == Realtime ==> s.th.onRunq[e]));
    var s1 := if requeue then RunqDequeue(s0, e) else s0;
    var s2 := s1.(th := s1.th.(prio := s1.th.prio[e := prio]));
    if requeue && (s.th.cls[e] == Realtime || prio < s.p.normalPri) then RunqEnqueue(s2, e) else s2
  }
}
