/** The red-black tree of one queue keeps that queue's timeline in the scheduler's state
    (pss.c:662-734). */
module SfqTimeline {
  import RbShape
  import opened RbTree
  import opened SchedState
  import opened SchedOps

  /** ents[e] is the object of entity e: distinct objects with the vruntimes v. */
  ghost predicate Numbered(ents: seq<RbShape.Entity>, v: seq<int>)
    reads ents`vruntime
  {
    && |ents| == |v|
    && (forall e :: 0 <= e < |ents| ==> ents[e].vruntime == v[e])
    && (forall e, f :: 0 <= e < f < |ents| ==> ents[e] != ents[f])
  }

  /** The objects of c are the entities of tl, in order. */
  ghost predicate Stands(c: seq<RbShape.Entity>, tl: seq<nat>, ents: seq<RbShape.Entity>) {
    |c| == |tl| && (forall i :: 0 <= i < |tl| ==> tl[i] < |ents| && c[i] == ents[tl[i]])
  }

  lemma {:induction false} InsertStands(c: seq<RbShape.Entity>, tl: seq<nat>, ents: seq<RbShape.Entity>, v: seq<int>, e: nat)
    requires Numbered(ents, v) && Stands(c, tl, ents) && e < |v|
    ensures Stands(InsertByVtime(c, ents[e]), InsertId(tl, v, e), ents)
    decreases |tl|
  {
    if tl != [] && v[e] >= v[tl[0]] {
      InsertStands(c[1..], tl[1..], ents, v, e);
    }
  }

  lemma {:induction false} WithoutStands(c: seq<RbShape.Entity>, tl: seq<nat>, ents: seq<RbShape.Entity>, v: seq<int>, e: nat)
    requires Numbered(ents, v) && Stands(c, tl, ents) && e < |v|
    ensures Stands(Without(c, ents[e]), WithoutId(tl, e), ents)
    decreases |tl|
  {
    if tl != [] {
      assert c[0] == ents[e] <==> tl[0] == e;
      if tl[0] != e {
        WithoutStands(c[1..], tl[1..], ents, v, e);
      }
    }
  }

  /** Inserting into the tree is what TreeEnqueue says of the timeline. */
  method EnqueueEntity(tree: Timeline, se: RbShape.Entity, ghost ents: seq<RbShape.Entity>, ghost s: State, ghost e: nat)
    requires Sane(s) && IsEnt(s, e) && tree.Valid() && Numbered(ents, s.tm.vruntime)
    requires Stands(tree.Contents(), s.m.timeline[s.t.sfq[e]], ents) && ents[e] == se && se !in tree.nodes && !se.onSfq
    modifies tree, tree.nodes`left, tree.nodes`right, tree.nodes`parent, tree.nodes`red
    modifies se`left, se`right, se`parent, se`red, se`onSfq
    ensures tree.Valid() && Stands(tree.Contents(), TreeEnqueue(s, e).m.timeline[s.t.sfq[e]], ents)
  {
    InsertStands(tree.Contents(), s.m.timeline[s.t.sfq[e]], ents, s.tm.vruntime, e);
    tree.Enqueue(se);
  }

  method DequeueEntity(tree: Timeline, se: RbShape.Entity, ghost ents: seq<RbShape.Entity>, ghost s: State, ghost e: nat)
    requires Sane(s) && IsEnt(s, e) && tree.Valid() && Numbered(ents, s.tm.vruntime)
    requires Stands(tree.Contents(), s.m.timeline[s.t.sfq[e]], ents) && ents[e] == se && se in tree.nodes
    modifies tree, tree.nodes`left, tree.nodes`right, tree.nodes`parent, tree.nodes`red, se`onSfq
    ensures tree.Valid() && Stands(tree.Contents(), TreeDequeue(s, e).m.timeline[s.t.sfq[e]], ents)
  {
    WithoutStands(tree.Contents(), s.m.timeline[s.t.sfq[e]], ents, s.tm.vruntime, e);
    tree.Dequeue(se);
  }

  /** The cached leftmost is the entity that pick_next_entity and update_sfq_vtime start from. */
  lemma LeftmostStands(tree: Timeline, ents: seq<RbShape.Entity>, tl: seq<nat>)
    requires tree.Valid() && Stands(tree.Contents(), tl, ents)
    ensures if Leftmost(tl) == NIL then tree.leftmost == null else tree.leftmost == ents[Leftmost(tl)]
  {
  }
}
