/** Start-time fairness of one queue: however long its members take turns, their virtual times
    stay close together (pss.c:852-884, 983-1009, 1027-1048, 1068-1085, 1253-1266). */
module Fairness {
  import opened SchedState
  import opened SchedOps
  import opened SchedSteps
  import opened SchedMembers
  import opened SchedWalks
  import opened SchedTimes
  import FixedPoint

  // ---------- one turn ----------

  /** What the surroundings of a turn decide: the candidates at the pick, the clock at each
      update_curr, and whether the entity yields at the end. */
  datatype Turn = Turn(c: Cands, clocks: seq<int>, relinquish: bool)

  function Charges(s: State, q: nat, clocks: seq<int>): (r: State)
    requires Sane(s) && IsQueue(s, q)
    ensures Same(s, r) && r == s.(tm := r.tm)
    decreases |clocks|
  {
    if clocks == [] then s else Charges(UpdateCurr(SetClock(s, clocks[0]), q), q, clocks[1..])
  }

  /** pick_next_entity, activate_entity, any number of update_curr, put_prev_entity. */
  function Take(s: State, q: nat, turn: Turn): (r: State)
    requires Sane(s) && IsQueue(s, q) && s.m.timeline[q] != [] && Sane(s.(c := turn.c))
    ensures Same(s, r)
  {
    var s0 := s.(c := turn.c);
    var e := Choose(s0, q);
    var s1 := ActivateEntity(ClearCandidates(s0, e), e);
    PutPrevEntity(Charges(s1, q, turn.clocks), e, turn.relinquish)
  }

  ghost predicate Member(s: State, q: nat, e: nat)
    requires Sane(s)
  {
    IsEnt(s, e) && s.m.joined[e] && s.t.sfq[e] == q
  }

  ghost predicate InOrder(s: State, q: nat)
    requires Sane(s) && IsQueue(s, q)
  {
    forall i, j :: 0 <= i < j < |s.m.timeline[q]| ==> s.tm.vruntime[s.m.timeline[q][i]] <= s.tm.vruntime[s.m.timeline[q][j]]
  }

  /** Between turns every member waits on the timeline. */
  ghost predicate Waiting(s: State, q: nat) {
    && Sane(s) && IsQueue(s, q) && Placed(s) && Joins(s.t, s.m) && s.m.curr[q] == NIL
    && InOrder(s, q) && s.m.timeline[q] != []
  }

  ghost predicate TurnFits(s: State, turn: Turn)
    requires Sane(s)
  {
    Sane(s.(c := turn.c)) && Candidates(s.t, s.m.joined, turn.c)
  }

  /** Largest wakeup granularity of the members. */
  ghost predicate GranWithin(s: State, q: nat, g: nat)
    requires Sane(s)
  {
    forall e: nat :: Member(s, q, e) ==> FixedPoint.ScaleDelta(s.p.wakeupGranularity, s.a.weight[e]) <= g
  }

  /** No two members are further apart than b. */
  ghost predicate Within(s: State, q: nat, b: int)
    requires Sane(s)
  {
    forall e: nat, f: nat :: Member(s, q, e) && Member(s, q, f) ==> s.tm.vruntime[e] - s.tm.vruntime[f] <= b
  }

  lemma FirstIsLeast(s: State, q: nat, e: nat)
    requires Waiting(s, q) && Member(s, q, e)
    ensures e in s.m.timeline[q] && s.tm.vruntime[s.m.timeline[q][0]] <= s.tm.vruntime[e]
  {
    assert s.m.onSfq[e];
    var i :| 0 <= i < |s.m.timeline[q]| && s.m.timeline[q][i] == e;
  }

  /** The pick is a member at most the granularity behind any other. */
  lemma ChosenNear(s: State, q: nat, g: nat)
    requires Waiting(s, q) && Candidates(s.t, s.m.joined, s.c) && GranWithin(s, q, g)
    ensures var e := Choose(s, q);
            Member(s, q, e) && s.m.onSfq[e] && (forall f: nat :: Member(s, q, f) ==> s.tm.vruntime[e] <= s.tm.vruntime[f] + g)
  {
    hide WakeupPreempt, FixedPoint.ScaleDelta;
    var tl, e := s.m.timeline[q], Choose(s, q);
    assert CandOf(s.t, s.m.joined, s.c.next[q], q) && CandOf(s.t, s.m.joined, s.c.last[q], q);
    assert e == tl[0] || (|tl| > 1 && e == tl[1]) || e == s.c.next[q] || e == s.c.last[q];
    assert Member(s, q, tl[0]);
    if e != tl[0] {
      Behind(s, e, tl[0]);
    }
    assert Member(s, q, e);
    forall f: nat | Member(s, q, f) ensures s.tm.vruntime[e] <= s.tm.vruntime[f] + g {
      FirstIsLeast(s, q, f);
    }
  }

  lemma Behind(s: State, e: nat, first: nat)
    requires Sane(s) && IsEnt(s, e) && IsEnt(s, first) && WakeupPreempt(s, e, first) < 1
    ensures s.tm.vruntime[e] <= s.tm.vruntime[first] + FixedPoint.ScaleDelta(s.p.wakeupGranularity, s.a.weight[first])
  {
    hide FixedPoint.ScaleDelta;
  }

  // ---------- what a turn changes ----------

  /** Charging moves only the current entity, forward. */
  lemma {:induction false} ChargesOnly(s: State, q: nat, clocks: seq<int>, e: nat)
    requires Sane(s) && IsQueue(s, q) && IsEnt(s, e) && s.m.curr[q] == e
    ensures var r := Charges(s, q, clocks);
            r.tm.vruntime[e] >= s.tm.vruntime[e] && r.tm.vruntime == s.tm.vruntime[e := r.tm.vruntime[e]]
    decreases |clocks|
  {
    if clocks == [] {
      assert s.tm.vruntime[e := s.tm.vruntime[e]] == s.tm.vruntime;
    } else {
      var s0 := SetClock(s, clocks[0]);
      UpdateOnly(s0, q, e);
      ChargesOnly(UpdateCurr(s0, q), q, clocks[1..], e);
    }
  }

  lemma UpdateOnly(s: State, q: nat, e: nat)
    requires Sane(s) && IsQueue(s, q) && IsEnt(s, e) && s.m.curr[q] == e
    ensures var r := UpdateCurr(s, q);
            r.tm.vruntime[e] >= s.tm.vruntime[e] && r.tm.vruntime == s.tm.vruntime[e := r.tm.vruntime[e]]
  {
    hide FixedPoint.ScaleDelta;
    assert s.tm.vruntime[e := s.tm.vruntime[e]] == s.tm.vruntime;
  }

  lemma ActivatedOnly(s: State, q: nat, e: nat)
    requires Waiting(s, q) && Member(s, q, e) && s.m.onSfq[e]
    ensures var r := ActivateEntity(s, e);
            && Placed(r) && Joins(r.t, r.m) && InOrder(r, q) && r.m.joined == s.m.joined
            && r.m.curr == s.m.curr[q := e] && r.tm.vruntime == s.tm.vruntime && r.a == s.a && r.c == s.c
  {
    hide TreeDequeue, Timelines, Currs, Joins;
    var s0 := s.(ok := s.ok && s.m.joined[e] && s.m.curr[q] == NIL);
    var s1 := if IsThread(s.t, e) then RunqDequeue(s0, e) else s0;
    TreeDequeuePlaced(s1, e);
    var s2, r := TreeDequeue(s1, e), ActivateEntity(s, e);
    assert r.m == s2.m.(curr := s.m.curr[q := e]);
    JoinsActivate(s.t, s.m, r.m, e);
    TimelinesOnly(s2, r);
    TreeDequeueInOrder(s1, q, e);
  }

  lemma TreeDequeueInOrder(s: State, q: nat, e: nat)
    requires Sane(s) && IsQueue(s, q) && IsEnt(s, e) && s.t.sfq[e] == q && InOrder(s, q)
    ensures InOrder(TreeDequeue(s, e), q)
  {
    hide WithoutId;
    WithoutIdSorted(s.m.timeline[q], s.tm.vruntime, e);
  }

  lemma TreeEnqueueInOrder(s: State, q: nat, e: nat)
    requires Sane(s) && IsQueue(s, q) && IsEnt(s, e) && s.t.sfq[e] == q && InOrder(s, q)
    ensures InOrder(TreeEnqueue(s, e), q)
  {
    hide InsertId;
    InsertIdSorted(s.m.timeline[q], s.tm.vruntime, e);
  }

  /** An entity that is on no timeline may move without disturbing the order. */
  lemma MovedInOrder(s: State, r: State, q: nat, e: nat)
    requires Sane(s) && Sane(r) && IsQueue(s, q) && IsEnt(s, e) && r.t == s.t && r.m == s.m && Placed(s) && !s.m.onSfq[e]
    requires r.tm.vruntime == s.tm.vruntime[e := r.tm.vruntime[e]] && InOrder(s, q)
    ensures InOrder(r, q)
  {
  }

  lemma PutBackOnly(s: State, q: nat, e: nat, relinquish: bool)
    requires Sane(s) && IsQueue(s, q) && Member(s, q, e) && s.m.curr[q] == e && Placed(s) && Joins(s.t, s.m) && InOrder(s, q)
    ensures var r := PutPrevEntity(s, e, relinquish);
            && Waiting(r, q) && r.m.joined == s.m.joined && r.a == s.a
            && r.tm.vruntime[e] >= s.tm.vruntime[e] && r.tm.vruntime == s.tm.vruntime[e := r.tm.vruntime[e]]
  {
    hide TreeEnqueue, UpdateCurr, SetSkip, MakeRunnable, Timelines, Joins, InsertId;
    var r := PutPrevEntity(s, e, relinquish);
    PutPrevPlaced(s, e, relinquish);
    JoinsPutPrev(s.t, s.m, r.m, e);
    var s0 := if IsThread(s.t, e) && relinquish then SetSkip(s, e) else s;
    UpdateOnly(s0, q, e);
    var s1 := MakeRunnable(UpdateCurr(s0, q), e);
    MovedInOrder(s0, s1, q, e);
    TreeEnqueueInOrder(s1, q, e);
    NotEmptied(s1, e);
  }

  lemma NotEmptied(s: State, e: nat)
    requires Sane(s) && IsEnt(s, e)
    ensures TreeEnqueue(s, e).m.timeline[s.t.sfq[e]] != []
  {
  }

  /** A whole turn: one member, near the others when picked, has moved forward. */
  lemma TakeMoves(s: State, q: nat, turn: Turn, g: nat)
    requires Waiting(s, q) && TurnFits(s, turn) && GranWithin(s, q, g)
    ensures var r, e := Take(s, q, turn), Choose(s.(c := turn.c), q);
            && Waiting(r, q) && r.m.joined == s.m.joined && r.a == s.a
            && Member(s, q, e) && (forall f: nat :: Member(s, q, f) ==> s.tm.vruntime[e] <= s.tm.vruntime[f] + g)
            && r.tm.vruntime[e] >= s.tm.vruntime[e] && r.tm.vruntime == s.tm.vruntime[e := r.tm.vruntime[e]]
  {
    hide Choose, ClearCandidates, ActivateEntity, Charges, PutPrevEntity, Placed, Joins, InOrder, Candidates, GranWithin;
    var s0 := s.(c := turn.c);
    ChangedCands(s, s0, q, g);
    ChosenNear(s0, q, g);
    var e := Choose(s0, q);
    var s0' := ClearCandidates(s0, e);
    ChangedCands(s0, s0', q, g);
    ActivatedOnly(s0', q, e);
    var s1 := ActivateEntity(s0', e);
    var s2 := Charges(s1, q, turn.clocks);
    ChargesOnly(s1, q, turn.clocks, e);
    ChargedPlaced(s1, s2, q, e);
    PutBackOnly(s2, q, e, turn.relinquish);
  }

  lemma ChangedCands(s: State, r: State, q: nat, g: nat)
    requires Sane(s) && Sane(r) && r == s.(c := r.c)
    ensures Waiting(s, q) <==> Waiting(r, q)
    ensures GranWithin(s, q, g) <==> GranWithin(r, q, g)
    ensures forall e: nat :: Member(s, q, e) <==> Member(r, q, e)
  {
    hide FixedPoint.ScaleDelta, Timelines, Currs, Joins;
    assert forall e: nat :: Member(s, q, e) <==> Member(r, q, e);
  }

  lemma ChargedPlaced(s: State, r: State, q: nat, e: nat)
    requires Sane(s) && Sane(r) && IsQueue(s, q) && IsEnt(s, e) && r == s.(tm := r.tm) && s.m.curr[q] == e
    requires Placed(s) && Joins(s.t, s.m) && InOrder(s, q)
    requires r.tm.vruntime == s.tm.vruntime[e := r.tm.vruntime[e]]
    ensures Placed(r) && Joins(r.t, r.m) && InOrder(r, q)
  {
    MovedInOrder(s, r, q, e);
  }

  // ---------- any number of turns ----------

  /** Every turn may go ahead, and adds at most `most` to the virtual time of whoever takes it. */
  ghost predicate Turns(s: State, q: nat, turns: seq<Turn>, most: nat)
    decreases |turns|
  {
    && Sane(s) && IsQueue(s, q) && Waiting(s, q)
    && (turns != [] ==>
          && TurnFits(s, turns[0])
          && (var r, e := Take(s, q, turns[0]), Choose(s.(c := turns[0].c), q);
              r.tm.vruntime[e] - s.tm.vruntime[e] <= most && Turns(r, q, turns[1..], most)))
  }

  ghost function TakeAll(s: State, q: nat, turns: seq<Turn>, most: nat): (r: State)
    requires Turns(s, q, turns, most)
    ensures Sane(r) && r.t == s.t
    decreases |turns|
  {
    if turns == [] then s else TakeAll(Take(s, q, turns[0]), q, turns[1..], most)
  }

  lemma TakeWithin(s: State, q: nat, turn: Turn, g: nat, most: nat, b: int)
    requires Waiting(s, q) && TurnFits(s, turn) && GranWithin(s, q, g) && Within(s, q, b) && b >= most + g
    requires var r, e := Take(s, q, turn), Choose(s.(c := turn.c), q); r.tm.vruntime[e] - s.tm.vruntime[e] <= most
    ensures var r := Take(s, q, turn);
            && Within(r, q, b) && GranWithin(r, q, g) && r.p == s.p && r.t == s.t && r.a == s.a && r.m.joined == s.m.joined
  {
    hide Take, Choose, Placed, Joins, InOrder, FixedPoint.ScaleDelta;
    TakeMoves(s, q, turn, g);
    var r := Take(s, q, turn);
    assert forall e: nat :: Member(r, q, e) <==> Member(s, q, e);
  }

  /** Over any run of turns the spread never exceeds the larger of the first spread and the longest
      turn plus the largest wakeup granularity. */
  lemma {:induction false} SpreadBound(s: State, q: nat, turns: seq<Turn>, most: nat, g: nat, first: int)
    requires Turns(s, q, turns, most) && GranWithin(s, q, g) && Within(s, q, first)
    ensures var r := TakeAll(s, q, turns, most);
            && Within(r, q, Max(first, most + g))
            && r.m.joined == s.m.joined && r.a == s.a && r.t == s.t
    decreases |turns|
  {
    hide Take, Choose, GranWithin, Placed, Joins, InOrder, Candidates;
    var b := Max(first, most + g);
    Wider(s, q, first, b);
    if turns != [] {
      TakeWithin(s, q, turns[0], g, most, b);
      SpreadBound(Take(s, q, turns[0]), q, turns[1..], most, g, b);
    }
  }

  lemma Wider(s: State, q: nat, b: int, b': int)
    requires Sane(s) && Within(s, q, b) && b <= b'
    ensures Within(s, q, b')
  {
  }

  /** The virtual service any two members receive differs by at most twice that bound. */
  lemma ServiceBound(s: State, q: nat, turns: seq<Turn>, most: nat, g: nat, first: int, e: nat, f: nat)
    requires Turns(s, q, turns, most) && GranWithin(s, q, g) && Within(s, q, first) && Member(s, q, e) && Member(s, q, f)
    ensures var r := TakeAll(s, q, turns, most);
            (r.tm.vruntime[e] - s.tm.vruntime[e]) - (r.tm.vruntime[f] - s.tm.vruntime[f]) <= 2 * Max(first, most + g)
  {
    hide Turns, TakeAll, GranWithin;
    SpreadBound(s, q, turns, most, g, first);
    var r := TakeAll(s, q, turns, most);
    assert Member(r, q, e) && Member(r, q, f);
  }
}
