/** One queue and one entity at a time (pss.c:398-457, 589-1177, 1241-1266). */
module SchedOps {
  import opened SchedState
  import FixedPoint

  // ---------- the timeline, as a sequence (what RbTree.Timeline keeps) ----------

  /** __enqueue_entity: e goes behind every entity of equal or smaller vruntime. */
  function InsertId(tl: seq<nat>, v: seq<int>, e: nat): (r: seq<nat>)
    requires e < |v| && (forall i :: 0 <= i < |tl| ==> tl[i] < |v|)
    ensures forall i :: 0 <= i < |r| ==> r[i] < |v|
  {
    if tl == [] || v[e] < v[tl[0]] then [e] + tl
    else [tl[0]] + InsertId(tl[1..], v, e)
  }

  function WithoutId(tl: seq<nat>, e: nat): (r: seq<nat>)
    ensures forall i :: 0 <= i < |r| ==> r[i] in tl
  {
    if tl == [] then [] else if tl[0] == e then tl[1..] else [tl[0]] + WithoutId(tl[1..], e)
  }

  function Leftmost(tl: seq<nat>): int {
    if tl == [] then NIL else tl[0]
  }

  function TreeEnqueue(s: State, e: nat): (r: State)
    requires Sane(s) && IsEnt(s, e)
    ensures Same(s, r) && r == s.(m := s.m.(timeline := r.m.timeline, onSfq := r.m.onSfq), ok := r.ok)
  {
    var q := s.t.sfq[e];
    s.(ok := s.ok && !s.m.onSfq[e],
       m := s.m.(timeline := s.m.timeline[q := InsertId(s.m.timeline[q], s.tm.vruntime, e)],
                 onSfq := s.m.onSfq[e := true]))
  }

  function TreeDequeue(s: State, e: nat): (r: State)
    requires Sane(s) && IsEnt(s, e)
    ensures Same(s, r) && r == s.(m := s.m.(timeline := r.m.timeline, onSfq := r.m.onSfq), ok := r.ok)
  {
    var q := s.t.sfq[e];
    s.(ok := s.ok && s.m.onSfq[e],
       m := s.m.(timeline := s.m.timeline[q := WithoutId(s.m.timeline[q], e)],
                 onSfq := s.m.onSfq[e := false]))
  }

  // ---------- virtual time ----------

  function Min(a: int, b: int): int {
    if b < a then b else a
  }

  function Max(a: int, b: int): int {
    if b > a then b else a
  }

  /** What update_sfq_vtime makes of vtime (pss.c:750-777). */
  function NewVtime(m: Members, tm: Times, q: nat): int
    requires q < |m.curr| == |m.timeline| == |tm.vtime| && NIL <= m.curr[q] < |m.joined| == |tm.vruntime|
    requires m.timeline[q] != [] ==> m.timeline[q][0] < |tm.vruntime|
  {
    var curr := if m.curr[q] != NIL && m.joined[m.curr[q]] then m.curr[q] else NIL;
    var leftmost := Leftmost(m.timeline[q]);
    if curr != NIL && leftmost != NIL then
      Max(tm.vtime[q], Min(tm.vruntime[curr], tm.vruntime[leftmost]))
    else if curr != NIL then Max(tm.vtime[q], tm.vruntime[curr])
    else if leftmost != NIL then Max(tm.vtime[q], tm.vruntime[leftmost])
    else tm.vtime[q]
  }

  function UpdateVtime(s: State, q: nat): (r: State)
    requires Sane(s) && IsQueue(s, q)
    ensures Same(s, r)
  {
    s.(tm := s.tm.(vtime := s.tm.vtime[q := NewVtime(s.m, s.tm, q)]))
  }

  /** The charge of update_curr: sum_exec_time, vruntime and timing_start of curr (pss.c:879-882). */
  function Charge(s: State, q: nat): (r: State)
    requires Sane(s) && IsQueue(s, q) && s.m.curr[q] != NIL && s.tm.clock > s.tm.start[s.m.curr[q]]
    ensures Same(s, r)
  {
    var e := s.m.curr[q];
    var d := s.tm.clock - s.tm.start[e];
    hide FixedPoint.ScaleDelta;
    s.(tm := s.tm.(sum := s.tm.sum[e := s.tm.sum[e] + d],
                   vruntime := s.tm.vruntime[e := s.tm.vruntime[e] + FixedPoint.ScaleDelta(d, s.a.weight[e])],
                   start := s.tm.start[e := s.tm.clock],
                   charged := s.tm.charged[q := s.tm.charged[q] + d]))
  }

  /** update_curr (pss.c:852-884). */
  function UpdateCurr(s: State, q: nat): (r: State)
    requires Sane(s) && IsQueue(s, q)
    ensures Same(s, r) && r == s.(tm := r.tm)
  {
    if s.m.curr[q] == NIL || s.tm.clock <= s.tm.start[s.m.curr[q]] then s
    else UpdateVtime(Charge(s, q), q)
  }

  /** place_entity (pss.c:822-847); `debit` is sched_vslice when start_debit is set. */
  function Place(s: State, e: nat, initial: bool, debit: nat): (r: State)
    requires Sane(s) && IsEnt(s, e)
    ensures Same(s, r)
  {
    var base := s.tm.vtime[s.t.sfq[e]];
    var from := if !initial then base - s.p.thresh else if s.p.startDebit then base + debit else base;
    s.(ok := s.ok && s.th.absolute[e],
       tm := s.tm.(vruntime := s.tm.vruntime[e := Max(s.tm.vruntime[e], from)]))
  }

  /** se->vruntime += sfq->vtime, which the vruntime must not already include. */
  function AddVtime(s: State, e: nat): (r: State)
    requires Sane(s) && IsEnt(s, e)
    ensures Same(s, r)
  {
    s.(ok := s.ok && !s.th.absolute[e],
       th := s.th.(absolute := s.th.absolute[e := true]),
       tm := s.tm.(vruntime := s.tm.vruntime[e := s.tm.vruntime[e] + s.tm.vtime[s.t.sfq[e]]]))
  }

  /** se->vruntime -= sfq->vtime. */
  function SubVtime(s: State, e: nat): (r: State)
    requires Sane(s) && IsEnt(s, e)
    ensures Same(s, r)
  {
    s.(ok := s.ok && s.th.absolute[e],
       th := s.th.(absolute := s.th.absolute[e := false]),
       tm := s.tm.(vruntime := s.tm.vruntime[e := s.tm.vruntime[e] - s.tm.vtime[s.t.sfq[e]]]))
  }

  // ---------- load accounting ----------

  /** account_entity_enqueue and account_entity_dequeue (pss.c:441-457). */
  function Account(s: State, e: nat, sign: int): (r: State)
    requires Sane(s) && IsEnt(s, e)
    ensures Same(s, r) && r == s.(a := r.a)
  {
    var q, w := s.t.sfq[e], s.a.weight[e];
    s.(a := s.a.(load := s.a.load[q := s.a.load[q] + sign * w],
                 nr := s.a.nr[q := s.a.nr[q] + sign],
                 rqLoad := if s.t.parent[e] == NIL then s.a.rqLoad + sign * w else s.a.rqLoad))
  }

  function SetWeight(s: State, e: nat, w: nat): (r: State)
    requires Sane(s) && IsEnt(s, e)
    ensures Same(s, r) && r == s.(a := r.a)
  {
    s.(a := s.a.(weight := s.a.weight[e := w]))
  }

  /** update_entity_weight (pss.c:589-601). */
  function UpdateEntityWeight(s: State, e: nat, w: nat): (r: State)
    requires Sane(s) && IsEnt(s, e)
    ensures Same(s, r) && r == s.(a := r.a, tm := r.tm)
  {
    if s.m.joined[e] then
      var q := s.t.sfq[e];
      var s1 := if s.m.curr[q] == e then UpdateCurr(s, q) else s;
      Account(SetWeight(Account(s1, e, -1), e, w), e, 1)
    else SetWeight(s, e, w)
  }

  /** update_sfq_shares (pss.c:603-620). */
  function UpdateShares(s: State, q: nat): (r: State)
    requires Sane(s) && IsQueue(s, q)
    ensures Same(s, r) && r == s.(a := r.a, tm := r.tm)
  {
    var p := s.t.owner[q];
    if p == NIL || s.a.weight[p] == s.a.shares[q] then s
    else UpdateEntityWeight(s, p, s.a.shares[q])
  }

  // ---------- the kernel run queue ----------

  /** __runq_enqueue (pss.c:641-650). */
  function RunqEnqueue(s: State, e: nat): (r: State)
    requires Sane(s) && IsEnt(s, e)
    ensures Same(s, r) && r == s.(th := r.th, ok := r.ok)
  {
    s.(ok := s.ok && !s.th.onRunq[e],
       th := s.th.(onRunq := s.th.onRunq[e := true], runq := s.th.runq + {e}))
  }

  /** __runq_dequeue (pss.c:652-660). */
  function RunqDequeue(s: State, e: nat): (r: State)
    requires Sane(s) && IsEnt(s, e)
    ensures Same(s, r) && r == s.(th := r.th)
  {
    if s.th.onRunq[e] then
      s.(th := s.th.(onRunq := s.th.onRunq[e := false], runq := s.th.runq - {e}))
    else s
  }

  function SetState(s: State, e: nat, st: TdState): (r: State)
    requires Sane(s) && IsEnt(s, e)
    ensures Same(s, r) && r == s.(th := r.th)
  {
    s.(th := s.th.(state := s.th.state[e := st]))
  }

  /** TD_SET_RUNQ and, for a boosted priority, the run queue (pss.c:994-1000, 1116-1121). */
  function MakeRunnable(s: State, e: nat): (r: State)
    requires Sane(s) && IsEnt(s, e)
    ensures Same(s, r) && r == s.(th := r.th, ok := r.ok)
  {
    if IsThread(s.t, e) then
      var s1 := SetState(s, e, OnRunq);
      if s.th.prio[e] < s.p.normalPri then RunqEnqueue(s1, e) else s1
    else s
  }

  // ---------- candidates ----------

  /** set_skip_candidate (pss.c:886-897). */
  function SetSkip(s: State, e: int): (r: State)
    requires Sane(s) && (e == NIL || IsEnt(s, e))
    ensures Same(s, r) && r == s.(c := r.c)
    decreases if e == NIL then 0 else s.t.level[e] + 1
  {
    if e == NIL then s
    else
      var q := s.t.sfq[e];
      var s1 := s.(c := s.c.(skip := s.c.skip[q := e]));
      if s.a.nr[q] > 1 then s1 else SetSkip(s1, s.t.parent[e])
  }

  /** clear_skip_candidate (pss.c:899-911). */
  function ClearSkip(s: State, e: int): (r: State)
    requires Sane(s) && (e == NIL || IsEnt(s, e))
    ensures Same(s, r) && r == s.(c := r.c)
    decreases if e == NIL then 0 else s.t.level[e] + 1
  {
    if e == NIL || s.c.skip[s.t.sfq[e]] != e then s
    else ClearSkip(s.(c := s.c.(skip := s.c.skip[s.t.sfq[e] := NIL])), s.t.parent[e])
  }

  function SetNextUp(s: State, e: int): (r: State)
    requires Sane(s) && (e == NIL || IsEnt(s, e))
    ensures Same(s, r) && r == s.(c := r.c)
    decreases if e == NIL then 0 else s.t.level[e] + 1
  {
    if e == NIL then s
    else SetNextUp(s.(c := s.c.(next := s.c.next[s.t.sfq[e] := e])), s.t.parent[e])
  }

  /** set_next_candidate (pss.c:913-925). */
  function SetNext(s: State, e: nat): (r: State)
    requires Sane(s) && IsEnt(s, e)
    ensures Same(s, r) && r == s.(c := r.c)
  {
    if IsThread(s.t, e) && s.th.pri[e].IdlePri? then s else SetNextUp(s, e)
  }

  /** clear_next_candidate (pss.c:927-939). */
  function ClearNext(s: State, e: int): (r: State)
    requires Sane(s) && (e == NIL || IsEnt(s, e))
    ensures Same(s, r) && r == s.(c := r.c)
    decreases if e == NIL then 0 else s.t.level[e] + 1
  {
    if e == NIL || s.c.next[s.t.sfq[e]] != e then s
    else ClearNext(s.(c := s.c.(next := s.c.next[s.t.sfq[e] := NIL])), s.t.parent[e])
  }

  function SetLastUp(s: State, e: int): (r: State)
    requires Sane(s) && (e == NIL || IsEnt(s, e))
    ensures Same(s, r) && r == s.(c := r.c)
    decreases if e == NIL then 0 else s.t.level[e] + 1
  {
    if e == NIL then s
    else SetLastUp(s.(c := s.c.(last := s.c.last[s.t.sfq[e] := e])), s.t.parent[e])
  }

  /** set_last_candidate (pss.c:941-953). */
  function SetLast(s: State, e: nat): (r: State)
    requires Sane(s) && IsEnt(s, e)
    ensures Same(s, r) && r == s.(c := r.c)
  {
    if IsThread(s.t, e) && s.th.pri[e].IdlePri? then s else SetLastUp(s, e)
  }

  /** clear_last_candidate (pss.c:956-968). */
  function ClearLast(s: State, e: int): (r: State)
    requires Sane(s) && (e == NIL || IsEnt(s, e))
    ensures Same(s, r) && r == s.(c := r.c)
    decreases if e == NIL then 0 else s.t.level[e] + 1
  {
    if e == NIL || s.c.last[s.t.sfq[e]] != e then s
    else ClearLast(s.(c := s.c.(last := s.c.last[s.t.sfq[e] := NIL])), s.t.parent[e])
  }

  /** clear_candidates (pss.c:970-981). */
  function ClearCandidates(s: State, e: nat): (r: State)
    requires Sane(s) && IsEnt(s, e)
    ensures Same(s, r) && r == s.(c := r.c)
  {
    ClearLast(ClearNext(ClearSkip(s, e), e), e)
  }

  // ---------- entities joining, leaving, starting and stopping ----------

  function SetJoined(s: State, e: nat, j: bool): (r: State)
    requires Sane(s) && IsEnt(s, e)
    ensures Same(s, r) && r == s.(m := r.m)
  {
    s.(m := s.m.(joined := s.m.joined[e := j]))
  }

  function SetCurr(s: State, q: nat, e: int): (r: State)
    requires Sane(s) && IsQueue(s, q) && (e == NIL || IsEnt(s, e))
    ensures Same(s, r) && r == s.(m := r.m)
  {
    s.(m := s.m.(curr := s.m.curr[q := e]))
  }

  /** The times of enqueue_entity: where the entity is put (pss.c:1109-1114). */
  function Arrive(s: State, e: nat, wakeup: bool): (r: State)
    requires Sane(s) && IsEnt(s, e)
    ensures Same(s, r) && r == s.(tm := r.tm, th := s.th.(absolute := r.th.absolute), ok := r.ok)
  {
    if wakeup then Place(UpdateCurr(s, s.t.sfq[e]), e, false, 0)
    else UpdateCurr(AddVtime(s, e), s.t.sfq[e])
  }

  /** enqueue_entity (pss.c:1101-1129). */
  function EnqueueEntity(s: State, e: nat, wakeup: bool): (r: State)
    requires Sane(s) && IsEnt(s, e)
    ensures Same(s, r)
  {
    var s0 := s.(ok := s.ok && !s.m.joined[e]);
    var s1 := MakeRunnable(Arrive(s0, e, wakeup), e);
    var s2 := Account(TreeEnqueue(s1, e), e, 1);
    SetJoined(UpdateShares(s2, s.t.sfq[e]), e, true)
  }

  /** The entity is charged, forgotten as a candidate and taken off its queues (pss.c:1164-1170). */
  function Detach(s: State, e: nat): (r: State)
    requires Sane(s) && IsEnt(s, e)
    ensures Same(s, r) && r.a == s.a && r.m.joined == s.m.joined && r.m.curr == s.m.curr
  {
    var s1 := UpdateCurr(s, s.t.sfq[e]);
    var s2 := ClearCandidates(if IsThread(s.t, e) then RunqDequeue(s1, e) else s1, e);
    if s2.m.onSfq[e] then TreeDequeue(s2, e) else s2
  }

  /** What dequeue_entity does up to joined = 0 (pss.c:1164-1172). */
  function Leave(s: State, e: nat): (r: State)
    requires Sane(s) && IsEnt(s, e)
    ensures Same(s, r)
  {
    SetJoined(Account(Detach(s, e), e, -1), e, false)
  }

  /** dequeue_entity (pss.c:1154-1177). */
  function DequeueEntity(s: State, e: nat, sleep: bool): (r: State)
    requires Sane(s) && IsEnt(s, e)
    ensures Same(s, r)
  {
    if !s.m.joined[e] then s.(ok := s.ok && !s.th.onRunq[e] && !s.m.onSfq[e])
    else
      var s1 := Leave(s, e);
      var s2 := if sleep then s1 else SubVtime(s1, e);
      UpdateShares(UpdateVtime(s2, s.t.sfq[e]), s.t.sfq[e])
  }

  /** put_prev_entity (pss.c:983-1009). */
  function PutPrevEntity(s: State, e: nat, relinquish: bool): (r: State)
    requires Sane(s) && IsEnt(s, e)
    ensures Same(s, r)
  {
    var q := s.t.sfq[e];
    var s1 := if s.m.joined[e] then
                var s0 := if IsThread(s.t, e) && relinquish then SetSkip(s, e) else s;
                TreeEnqueue(MakeRunnable(UpdateCurr(s0, q), e), e)
              else s;
    SetCurr(s1, q, NIL)
  }

  /** activate_entity (pss.c:1068-1085). */
  function ActivateEntity(s: State, e: nat): (r: State)
    requires Sane(s) && IsEnt(s, e)
    ensures Same(s, r)
  {
    var q := s.t.sfq[e];
    var s0 := s.(ok := s.ok && s.m.joined[e] && s.m.curr[q] == NIL);
    var s1 := if IsThread(s.t, e) then RunqDequeue(s0, e) else s0;
    var s2 := SetCurr(TreeDequeue(s1, e), q, e);
    s2.(tm := s2.tm.(start := s2.tm.start[e := s2.tm.clock], prevSum := s2.tm.prevSum[e := s2.tm.sum[e]]))
  }

  // ---------- picking ----------

  /** wakeup_preempt_entity with wakeup_gran (pss.c:1241-1266). */
  function WakeupPreempt(s: State, curr: nat, se: nat): int
    requires Sane(s) && IsEnt(s, curr) && IsEnt(s, se)
  {
    var diff := s.tm.vruntime[curr] - s.tm.vruntime[se];
    if diff > 0 then
      if diff > FixedPoint.ScaleDelta(s.p.wakeupGranularity, s.a.weight[se]) then 1 else 0
    else -1
  }

  /** The choice of pick_next_entity (pss.c:1030-1043); the timeline is not empty. */
  function Choose(s: State, q: nat): (e: nat)
    requires Sane(s) && IsQueue(s, q) && s.m.timeline[q] != []
    ensures IsEnt(s, e)
  {
    hide WakeupPreempt;
    var tl := s.m.timeline[q];
    var first := tl[0];
    var e0 := if s.c.skip[q] == first && |tl| > 1 && WakeupPreempt(s, tl[1], first) < 1 then tl[1] else first;
    var e1 := if s.c.last[q] != NIL && WakeupPreempt(s, s.c.last[q], first) < 1 then s.c.last[q] else e0;
    if s.c.next[q] != NIL && WakeupPreempt(s, s.c.next[q], first) < 1 then s.c.next[q] else e1
  }
}
