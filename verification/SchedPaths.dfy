/** Ways up the hierarchy: from an entity over the groups above it to the root
    (WALKUP_SCHED_ENTITY of pss.c). */
module SchedPaths {
  import opened SchedState
  import opened SchedSteps
  import opened SchedWalks
  import opened SchedPick

  /** Entity a is e or a group above it. */
  ghost predicate AtOrAbove(t: Topo, e: int, a: int)
    requires WfTopo(t) && NIL <= e < |t.parent|
    decreases Rank(t, e)
  {
    e != NIL && (a == e || AtOrAbove(t, t.parent[e], a))
  }

  /** Of e and the groups above it the one that belongs to queue q, if any. */
  ghost function OnPath(t: Topo, e: int, q: nat): int
    requires WfTopo(t) && NIL <= e < |t.parent|
    decreases Rank(t, e)
  {
    if e == NIL then NIL else if t.sfq[e] == q then e else OnPath(t, t.parent[e], q)
  }

  lemma {:induction false} OnPathMeans(s: State, e: int, q: nat)
    requires Sane(s) && (e == NIL || IsEnt(s, e))
    ensures var a := OnPath(s.t, e, q);
            a != NIL ==> IsEnt(s, a) && s.t.sfq[a] == q && AtOrAbove(s.t, e, a) && Rank(s.t, a) <= Rank(s.t, e)
    decreases Rank(s.t, e)
  {
    if e != NIL && s.t.sfq[e] != q {
      OnPathMeans(s, s.t.parent[e], q);
    }
  }

  /** A path meets every queue at most once. */
  lemma OnPathOnce(s: State, e: nat)
    requires Sane(s) && IsEnt(s, e)
    ensures s.t.parent[e] == NIL || IsEnt(s, s.t.parent[e])
    ensures OnPath(s.t, s.t.parent[e], s.t.sfq[e]) == NIL && !AtOrAbove(s.t, s.t.parent[e], e)
  {
    ParentGroup(s, e);
    OnPathMeans(s, s.t.parent[e], s.t.sfq[e]);
    OwnerLevel(s, s.t.sfq[e]);
    if AtOrAbove(s.t, s.t.parent[e], e) {
      AboveOnPath(s, s.t.parent[e], e);
    }
  }

  lemma {:induction false} AboveOnPath(s: State, e: int, a: int)
    requires Sane(s) && (e == NIL || IsEnt(s, e)) && AtOrAbove(s.t, e, a)
    ensures IsEnt(s, a) && s.t.sfq[a] < |s.t.owner| && OnPath(s.t, e, s.t.sfq[a]) == a && Rank(s.t, a) <= Rank(s.t, e)
    decreases Rank(s.t, e)
  {
    ParentGroup(s, e);
    if a != e {
      AboveOnPath(s, s.t.parent[e], a);
      OwnerLevel(s, s.t.sfq[e]);
    }
  }

  lemma {:induction false} AboveTrans(s: State, e: int, a: int, b: int)
    requires Sane(s) && (e == NIL || IsEnt(s, e)) && AtOrAbove(s.t, e, a) && (a == NIL || IsEnt(s, a)) && AtOrAbove(s.t, a, b)
    ensures AtOrAbove(s.t, e, b)
    decreases Rank(s.t, e)
  {
    if a != e {
      ParentGroup(s, e);
      AboveTrans(s, s.t.parent[e], a, b);
    }
  }

  /** A path has one entity of every rank. */
  lemma {:induction false} AboveSame(s: State, e: int, a: int, b: int)
    requires Sane(s) && (e == NIL || IsEnt(s, e)) && AtOrAbove(s.t, e, a) && AtOrAbove(s.t, e, b)
    ensures IsEnt(s, a) && IsEnt(s, b) && (Rank(s.t, a) == Rank(s.t, b) ==> a == b)
    decreases Rank(s.t, e)
  {
    ParentGroup(s, e);
    AboveOnPath(s, e, a);
    AboveOnPath(s, e, b);
    if a != e && b != e {
      AboveSame(s, s.t.parent[e], a, b);
    } else if a == e && b != e {
      AboveOnPath(s, s.t.parent[e], b);
    } else if b == e && a != e {
      AboveOnPath(s, s.t.parent[e], a);
    }
  }

  lemma AboveParent(s: State, e: nat)
    requires Sane(s) && IsEnt(s, e)
    ensures AtOrAbove(s.t, e, e) && (s.t.parent[e] != NIL ==> AtOrAbove(s.t, e, s.t.parent[e]))
  {
    ParentGroup(s, e);
    assert s.t.parent[e] != NIL ==> AtOrAbove(s.t, s.t.parent[e], s.t.parent[e]);
  }
}
