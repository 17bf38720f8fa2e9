/** The wall-clock slices of the members of a queue (pss.c:791-811), in a state of the scheduler. */
module SchedSlices {
  import opened SchedState
  import opened SchedSteps
  import opened SchedBooks
  import opened SchedWalks
  import opened SchedClass
  import opened SchedRoles
  import opened Slices
  import FixedPoint

  function LoadOf(s: State, q: nat): (r: nat)
    requires Sane(s) && IsQueue(s, q)
  {
    if s.a.load[q] < 0 then 0 else s.a.load[q]
  }

  function NrOf(s: State, q: nat): (r: nat)
    requires Sane(s) && IsQueue(s, q)
  {
    if s.a.nr[q] < 0 then 0 else s.a.nr[q]
  }

  /** The levels that sched_slice walks for a joined entity. */
  function PathOf(s: State, e: int): seq<Level>
    requires Sane(s) && (e == NIL || IsEnt(s, e))
    decreases Rank(s.t, e)
  {
    if e == NIL then [] else [Level(s.a.weight[e], LoadOf(s, s.t.sfq[e]))] + PathOf(s, s.t.parent[e])
  }

  /** sched_slice of a joined entity. */
  function SliceOf(s: State, e: nat, p: Tunables): nat
    requires Sane(s) && IsEnt(s, e)
  {
    SchedSlice(SchedPeriod(p, NrOf(s, s.t.sfq[e])), PathOf(s, e))
  }

  /** The joined members of queue q among the first n entities. */
  ghost function MembersOf(sfq: seq<nat>, joined: seq<bool>, q: nat, n: nat): (r: seq<nat>)
    requires n <= |sfq| == |joined|
    ensures forall i :: 0 <= i < |r| ==> r[i] < n && sfq[r[i]] == q && joined[r[i]]
  {
    if n == 0 then []
    else if sfq[n - 1] == q && joined[n - 1] then MembersOf(sfq, joined, q, n - 1) + [n - 1]
    else MembersOf(sfq, joined, q, n - 1)
  }

  ghost function WeightsAt(weight: seq<nat>, es: seq<nat>): (r: seq<nat>)
    requires forall i :: 0 <= i < |es| ==> es[i] < |weight|
    ensures |r| == |es| && forall i :: 0 <= i < |r| ==> r[i] == weight[es[i]]
  {
    seq(|es|, i requires 0 <= i < |es| => weight[es[i]])
  }

  /** The slices of these entities. */
  ghost function SlicesAt(s: State, p: Tunables, es: seq<nat>): (r: seq<nat>)
    requires Sane(s) && (forall i :: 0 <= i < |es| ==> IsEnt(s, es[i]))
    ensures |r| == |es| && forall i :: 0 <= i < |r| ==> r[i] == SliceOf(s, es[i], p)
  {
    seq(|es|, i requires 0 <= i < |es| => SliceOf(s, es[i], p))
  }

  lemma {:induction false} SumAppend(a: seq<nat>, x: nat)
    ensures Sum(a + [x]) == Sum(a) + x
  {
    if a == [] {
      assert a + [x] == [x];
    } else {
      assert (a + [x])[1..] == a[1..] + [x];
      SumAppend(a[1..], x);
    }
  }

  lemma {:induction false} MembersSum(sfq: seq<nat>, joined: seq<bool>, weight: seq<nat>, q: nat, n: nat)
    requires n <= |sfq| == |joined| == |weight|
    ensures Sum(WeightsAt(weight, MembersOf(sfq, joined, q, n))) == LoadSum(sfq, joined, weight, q, n)
    ensures |MembersOf(sfq, joined, q, n)| == Count(sfq, joined, q, n)
  {
    if n > 0 {
      MembersSum(sfq, joined, weight, q, n - 1);
      if sfq[n - 1] == q && joined[n - 1] {
        var before := WeightsAt(weight, MembersOf(sfq, joined, q, n - 1));
        assert WeightsAt(weight, MembersOf(sfq, joined, q, n)) == before + [weight[n - 1]];
        SumAppend(before, weight[n - 1]);
      }
    }
  }

  lemma MemberSlice(s: State, q: nat, e: nat, p: Tunables)
    requires Sane(s) && IsQueue(s, q) && IsEnt(s, e) && s.t.sfq[e] == q
    ensures s.t.owner[q] == NIL || IsEnt(s, s.t.owner[q])
    ensures var path := [Level(s.a.weight[e], LoadOf(s, q))] + PathOf(s, s.t.owner[q]);
            PathOf(s, e) == path && SliceOf(s, e, p) == SchedSlice(SchedPeriod(p, NrOf(s, q)), path)
  {
    hide SchedSlice, SchedPeriod;
    assert s.t.parent[e] == s.t.owner[q];
  }

  lemma {:induction false} PathLoads(slice: nat, path: seq<Level>)
    requires PathFits(slice, path)
    ensures forall i :: 0 <= i < |path| ==> path[i].load > 0
    decreases path
  {
    hide FixedPoint.Scale, FixedPoint.Fits;
    if path != [] {
      PathLoads(FixedPoint.Scale(slice, path[0].weight, path[0].load), path[1..]);
    }
  }

  /** The members of a queue, and what has to fit for their slices to be exact up to rounding. */
  ghost predicate SlicesFit(s: State, q: nat, p: Tunables)
    requires Sane(s) && IsQueue(s, q)
  {
    && 2 <= s.a.load[q] < FixedPoint.TWO_32
    && (s.t.owner[q] == NIL || IsEnt(s, s.t.owner[q]))
    && PathFits(SchedPeriod(p, NrOf(s, q)), PathOf(s, s.t.owner[q]))
    && (forall e {:trigger s.m.joined[e]} :: 0 <= e < |s.m.joined| && e < |s.t.sfq| && s.m.joined[e] && s.t.sfq[e] == q ==>
          IsEnt(s, e) && PathFits(SchedPeriod(p, NrOf(s, q)), PathOf(s, e)))
  }

  /** The slices of all joined members of queue q together. */
  ghost function QueueSlices(s: State, q: nat, p: Tunables): nat
    requires Sane(s) && IsQueue(s, q)
  {
    Sum(SlicesAt(s, p, MembersOf(s.t.sfq, s.m.joined, q, |s.t.sfq|)))
  }

  /** What the group that owns queue q gets of the queue's period, or the period itself at the root,
      and what rounding may add. */
  ghost function Share(s: State, q: nat, p: Tunables): nat
    requires Sane(s) && IsQueue(s, q) && SlicesFit(s, q, p)
  {
    var slice, up, n := SchedPeriod(p, NrOf(s, q)), PathOf(s, s.t.owner[q]), NrOf(s, q);
    PathLoads(slice, up);
    SchedSlice(slice, up) + Slack(slice, n, n * Rounding(LoadOf(s, q)), up)
  }

  /** The slices of the joined members of a queue share out what its group would get of the same
      period, or the period itself at the root; only rounding is added. */
  lemma SlicesHold(s: State, q: nat, p: Tunables)
    requires Sane(s) && IsQueue(s, q) && SlicesFit(s, q, p) && Inv(s)
    ensures QueueSlices(s, q, p) <= Share(s, q, p)
  {
    hide Roles, SchedSlice, Slack, SchedPeriod, PathOf, Rounding, MembersOf, PathFits, SliceOf, FixedPoint.Scale;
    var slice, load, up := SchedPeriod(p, NrOf(s, q)), LoadOf(s, q), PathOf(s, s.t.owner[q]);
    var es := MembersOf(s.t.sfq, s.m.joined, q, |s.t.sfq|);
    var ws := WeightsAt(s.a.weight, es);
    BooksAt(s, q);
    MembersSum(s.t.sfq, s.m.joined, s.a.weight, q, |s.t.sfq|);
    PathLoads(slice, up);
    forall i | 0 <= i < |es|
      ensures PathFits(slice, [Level(ws[i], load)] + up) && SlicesAt(s, p, es)[i] == SchedSlice(slice, [Level(ws[i], load)] + up)
    {
      assert s.m.joined[es[i]];
      MemberSlice(s, q, es[i], p);
    }
    SlicesFillGroup(slice, ws, up);
    assert AllSlices(slice, ws, load, up) == SlicesAt(s, p, es);
  }

  lemma BooksAt(s: State, q: nat)
    requires Sane(s) && IsQueue(s, q) && Inv(s)
    ensures |s.t.sfq| == |s.m.joined| == |s.t.parent| == |s.a.weight|
    ensures s.a.load[q] == LoadSum(s.t.sfq, s.m.joined, s.a.weight, q, |s.t.sfq|)
    ensures s.a.nr[q] == Count(s.t.sfq, s.m.joined, q, |s.t.sfq|)
  {
    hide Roles;
    assert QueueBooks(s.t, s.m.joined, s.a, q);
  }
}
