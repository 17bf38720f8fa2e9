/** Load sums and counts of every queue (pss.c:441-457, 589-620). */
module SchedBooks {
  import opened SchedState
  import opened SchedOps
  import FixedPoint

  // ---------- what the fields should be ----------

  /** Sum of the weights of the joined entities of queue q among the first n. */
  ghost function LoadSum(sfq: seq<nat>, joined: seq<bool>, weight: seq<nat>, q: nat, n: nat): nat
    requires n <= |sfq| == |joined| == |weight|
  {
    if n == 0 then 0
    else LoadSum(sfq, joined, weight, q, n - 1) + if joined[n - 1] && sfq[n - 1] == q then weight[n - 1] else 0
  }

  ghost function Count(sfq: seq<nat>, joined: seq<bool>, q: nat, n: nat): nat
    requires n <= |sfq| == |joined|
  {
    if n == 0 then 0
    else Count(sfq, joined, q, n - 1) + if joined[n - 1] && sfq[n - 1] == q then 1 else 0
  }

  ghost predicate QueueBooks(t: Topo, joined: seq<bool>, a: Acct, q: nat)
    requires |t.sfq| == |joined| == |a.weight| && q < |a.load| == |a.nr|
  {
    && a.load[q] == LoadSum(t.sfq, joined, a.weight, q, |t.sfq|)
    && a.nr[q] == Count(t.sfq, joined, q, |t.sfq|)
  }

  /** Every queue's load and count are right for these joined entities, and rq->load is the root's. */
  ghost predicate Books(t: Topo, joined: seq<bool>, a: Acct)
    requires |t.sfq| == |joined| == |a.weight| && 0 < |a.load| == |a.nr|
  {
    && (forall q :: 0 <= q < |a.load| ==> QueueBooks(t, joined, a, q))
    && a.rqLoad == a.load[0]
  }

  /** Threads and non-empty groups, except possibly x, weigh something; shares are positive. */
  ghost predicate Weights(t: Topo, a: Acct, x: int)
    requires |t.myq| == |a.weight| && |a.load| == |a.nr| == |a.shares|
  {
    && (forall e {:trigger a.weight[e]} :: 0 <= e < |t.myq| && t.myq[e] == NIL ==> a.weight[e] > 0)
    && (forall e {:trigger a.weight[e]} ::
          0 <= e < |t.myq| && e != x && 0 <= t.myq[e] < |a.nr| && a.nr[t.myq[e]] > 0 ==> a.weight[e] > 0)
    && (forall q :: 0 <= q < |a.shares| ==> a.shares[q] > 0)
  }

  // ---------- sums under updates ----------

  lemma {:induction false} LoadSumJoin(sfq: seq<nat>, joined: seq<bool>, weight: seq<nat>, q: nat, n: nat, e: nat)
    requires n <= |sfq| == |joined| == |weight| && e < |joined| && !joined[e]
    ensures LoadSum(sfq, joined[e := true], weight, q, n)
         == LoadSum(sfq, joined, weight, q, n) + if e < n && sfq[e] == q then weight[e] else 0
    ensures Count(sfq, joined[e := true], q, n)
         == Count(sfq, joined, q, n) + if e < n && sfq[e] == q then 1 else 0
  {
    if n > 0 {
      LoadSumJoin(sfq, joined, weight, q, n - 1, e);
    }
  }

  lemma {:induction false} LoadSumWeight(sfq: seq<nat>, joined: seq<bool>, weight: seq<nat>, q: nat, n: nat, e: nat, w: nat)
    requires n <= |sfq| == |joined| == |weight| && e < |joined|
    ensures LoadSum(sfq, joined, weight[e := w], q, n)
         == LoadSum(sfq, joined, weight, q, n) + if e < n && joined[e] && sfq[e] == q then w - weight[e] else 0
  {
    if n > 0 {
      LoadSumWeight(sfq, joined, weight, q, n - 1, e, w);
    }
  }

  lemma {:induction false} LoadSumPart(sfq: seq<nat>, joined: seq<bool>, weight: seq<nat>, q: nat, n: nat)
    requires n <= |sfq| == |joined| == |weight|
    ensures forall e :: 0 <= e < n && joined[e] && sfq[e] == q ==>
              weight[e] <= LoadSum(sfq, joined, weight, q, n) && Count(sfq, joined, q, n) > 0
    ensures (forall e :: 0 <= e < n ==> !(joined[e] && sfq[e] == q)) ==>
              LoadSum(sfq, joined, weight, q, n) == 0 && Count(sfq, joined, q, n) == 0
  {
    if n > 0 {
      LoadSumPart(sfq, joined, weight, q, n - 1);
    }
  }

  // ---------- the operations ----------

  /** Accounting an entity and joining it go together. */
  lemma AccountJoins(s: State, joined: seq<bool>, e: nat)
    requires Sane(s) && IsEnt(s, e) && |joined| == |s.m.joined| && !joined[e]
    requires Books(s.t, joined, s.a)
    ensures Books(s.t, joined[e := true], Account(s, e, 1).a)
  {
    var r, j := Account(s, e, 1), joined[e := true];
    forall q | 0 <= q < |r.a.load| ensures QueueBooks(s.t, j, r.a, q) {
      assert QueueBooks(s.t, joined, s.a, q);
      LoadSumJoin(s.t.sfq, joined, s.a.weight, q, |s.t.sfq|, e);
    }
    RootParent(s, e);
  }

  lemma AccountLeaves(s: State, joined: seq<bool>, e: nat)
    requires Sane(s) && IsEnt(s, e) && |joined| == |s.m.joined| && joined[e]
    requires Books(s.t, joined, s.a)
    ensures Books(s.t, joined[e := false], Account(s, e, -1).a)
  {
    var r, j := Account(s, e, -1), joined[e := false];
    assert j[e := true] == joined;
    forall q | 0 <= q < |r.a.load| ensures QueueBooks(s.t, j, r.a, q) {
      assert QueueBooks(s.t, joined, s.a, q);
      LoadSumJoin(s.t.sfq, j, s.a.weight, q, |s.t.sfq|, e);
    }
    RootParent(s, e);
  }

  /** An entity without a parent is exactly one of the root queue. */
  lemma RootParent(s: State, e: nat)
    requires Sane(s) && IsEnt(s, e)
    ensures s.t.parent[e] == NIL <==> s.t.sfq[e] == 0
  {
    var q := s.t.sfq[e];
    assert s.t.parent[e] == s.t.owner[q];
    assert q > 0 ==> 0 <= s.t.owner[q];
  }

  lemma SetWeightBooks(s: State, joined: seq<bool>, e: nat, w: nat)
    requires Sane(s) && IsEnt(s, e) && |joined| == |s.m.joined| && !joined[e]
    requires Books(s.t, joined, s.a)
    ensures Books(s.t, joined, SetWeight(s, e, w).a)
  {
    var r := SetWeight(s, e, w);
    forall q | 0 <= q < |r.a.load| ensures QueueBooks(s.t, joined, r.a, q) {
      assert QueueBooks(s.t, joined, s.a, q);
      LoadSumWeight(s.t.sfq, joined, s.a.weight, q, |s.t.sfq|, e, w);
    }
  }

  /** Changing a joined entity's weight takes it out of the books and back in. */
  lemma UpdateEntityWeightBooks(s: State, joined: seq<bool>, e: nat, w: nat)
    requires Sane(s) && IsEnt(s, e) && |joined| == |s.m.joined| && joined[e] == s.m.joined[e]
    requires Books(s.t, joined, s.a)
    ensures Books(s.t, joined, UpdateEntityWeight(s, e, w).a)
    ensures UpdateEntityWeight(s, e, w).a.nr == s.a.nr && UpdateEntityWeight(s, e, w).a.shares == s.a.shares
    ensures UpdateEntityWeight(s, e, w).a.weight == s.a.weight[e := w]
  {
    hide UpdateCurr;
    if s.m.joined[e] {
      var s1 := if s.m.curr[s.t.sfq[e]] == e then UpdateCurr(s, s.t.sfq[e]) else s;
      AccountLeaves(s1, joined, e);
      var s2 := Account(s1, e, -1);
      SetWeightBooks(s2, joined[e := false], e, w);
      AccountJoins(SetWeight(s2, e, w), joined[e := false], e);
      assert joined[e := false][e := true] == joined;
    } else {
      SetWeightBooks(s, joined, e, w);
    }
  }

  lemma UpdateSharesBooks(s: State, joined: seq<bool>, q: nat)
    requires Sane(s) && IsQueue(s, q) && |joined| == |s.m.joined|
    requires s.t.owner[q] != NIL ==> joined[s.t.owner[q]] == s.m.joined[s.t.owner[q]]
    requires Books(s.t, joined, s.a)
    ensures Books(s.t, joined, UpdateShares(s, q).a)
    ensures UpdateShares(s, q).a.nr == s.a.nr && UpdateShares(s, q).a.shares == s.a.shares
    ensures UpdateShares(s, q).a.weight ==
              if s.t.owner[q] == NIL then s.a.weight else s.a.weight[s.t.owner[q] := s.a.shares[q]]
  {
    hide UpdateEntityWeight;
    var p := s.t.owner[q];
    if p != NIL {
      OwnerOf(s, q);
      UpdateEntityWeightBooks(s, joined, p, s.a.shares[q]);
      assert s.a.weight[p] == s.a.shares[q] ==> s.a.weight[p := s.a.shares[q]] == s.a.weight;
    }
  }

  lemma OwnerOf(s: State, q: nat)
    requires Sane(s) && IsQueue(s, q) && s.t.owner[q] != NIL
    ensures q > 0 && IsEnt(s, s.t.owner[q]) && s.t.myq[s.t.owner[q]] == q
  {
  }

  lemma UpdateSharesWeights(s: State, joined: seq<bool>, q: nat)
    requires Sane(s) && IsQueue(s, q) && |joined| == |s.m.joined|
    requires s.t.owner[q] != NIL ==> joined[s.t.owner[q]] == s.m.joined[s.t.owner[q]]
    requires Books(s.t, joined, s.a) && Weights(s.t, s.a, s.t.owner[q])
    ensures Weights(s.t, UpdateShares(s, q).a, NIL)
  {
    hide UpdateShares;
    UpdateSharesBooks(s, joined, q);
  }

  // ---------- entities and walks ----------

  ghost predicate Kept(s: State)
    requires Sane(s)
  {
    Books(s.t, s.m.joined, s.a) && Weights(s.t, s.a, NIL)
  }

  lemma EnqueueEntityBooks(s: State, e: nat, wakeup: bool)
    requires Sane(s) && IsEnt(s, e) && !s.m.joined[e] && Kept(s)
    ensures var r := EnqueueEntity(s, e, wakeup);
            && Kept(r) && r.m.joined == s.m.joined[e := true] && r.a.shares == s.a.shares
            && r.a.nr == s.a.nr[s.t.sfq[e] := s.a.nr[s.t.sfq[e]] + 1]
  {
    hide Arrive, MakeRunnable, UpdateShares, Account, TreeEnqueue, Books, WfTopo;
    SfqInRange(s, e);
    var q := s.t.sfq[e];
    var s0 := s.(ok := s.ok && !s.m.joined[e]);
    var s1 := TreeEnqueue(MakeRunnable(Arrive(s0, e, wakeup), e), e);
    AccountJoins(s1, s.m.joined, e);
    var s2, j := Account(s1, e, 1), s.m.joined[e := true];
    AccountShape(s1, e, 1);
    OwnerElsewhere(s, e);
    assert Weights(s.t, s2.a, s.t.owner[q]);
    UpdateSharesBooks(s2, j, q);
    UpdateSharesWeights(s2, j, q);
  }

  lemma SfqInRange(s: State, e: nat)
    requires Sane(s) && IsEnt(s, e)
    ensures |s.t.sfq| == |s.t.myq| == |s.t.parent| && s.t.sfq[e] < |s.t.owner|
    ensures forall q :: 0 <= q < |s.t.owner| && s.t.owner[q] != NIL ==> 0 <= s.t.owner[q] < |s.t.parent|
  {
  }

  lemma AccountShape(s: State, e: nat, sign: int)
    requires Sane(s) && IsEnt(s, e)
    ensures var r := Account(s, e, sign);
            && r.a.nr == s.a.nr[s.t.sfq[e] := s.a.nr[s.t.sfq[e]] + sign]
            && r.a.weight == s.a.weight && r.a.shares == s.a.shares
  {
  }

  lemma OwnerElsewhere(s: State, e: nat)
    requires Sane(s) && IsEnt(s, e)
    ensures s.t.owner[s.t.sfq[e]] != e
    ensures forall p :: 0 <= p < |s.t.myq| && s.t.myq[p] == s.t.sfq[e] ==> p == s.t.owner[s.t.sfq[e]]
  {
    var p := s.t.parent[e];
    assert p == s.t.owner[s.t.sfq[e]];
    assert p != NIL ==> s.t.level[e] == s.t.level[p] + 1;
  }

  lemma LeaveBooks(s: State, e: nat)
    requires Sane(s) && IsEnt(s, e) && s.m.joined[e] && Kept(s)
    ensures var r := Leave(s, e);
            && Books(r.t, r.m.joined, r.a) && Weights(r.t, r.a, s.t.owner[s.t.sfq[e]])
            && r.m.joined == s.m.joined[e := false] && r.a.shares == s.a.shares
            && r.a.nr == s.a.nr[s.t.sfq[e] := s.a.nr[s.t.sfq[e]] - 1]
  {
    hide Detach, Account, Books, WfTopo, SizedM, SizedTm, SizedC, SizedTh;
    SfqInRange(s, e);
    var s1 := Detach(s, e);
    AccountLeaves(s1, s.m.joined, e);
    AccountShape(s1, e, -1);
    OwnerElsewhere(s, e);
  }

  lemma DequeueEntityBooks(s: State, e: nat, sleep: bool)
    requires Sane(s) && IsEnt(s, e) && s.m.joined[e] && Kept(s)
    ensures var r := DequeueEntity(s, e, sleep);
            && Kept(r) && r.m.joined == s.m.joined[e := false] && r.a.shares == s.a.shares
            && r.a.nr == s.a.nr[s.t.sfq[e] := s.a.nr[s.t.sfq[e]] - 1]
  {
    hide Leave, UpdateShares, NewVtime;
    LeaveBooks(s, e);
    var s1 := Leave(s, e);
    var s2 := UpdateVtime(if sleep then s1 else SubVtime(s1, e), s.t.sfq[e]);
    OwnerElsewhere(s, e);
    UpdateSharesBooks(s2, s2.m.joined, s.t.sfq[e]);
    UpdateSharesWeights(s2, s2.m.joined, s.t.sfq[e]);
  }
}
