/** The directory tree of sgfs and its reference counts (sgfs.c:252-435, 581-649, 824-841, 1185-1256).

    Only nodes, links and counts are kept; a vnode is a Vdata that points at its node.  Each method
    runs under the file system's lock and is one step.  A reference that a running operation holds
    (between sgnode_addref and sgnode_release) is counted in the ghost field `holds`; a node is
    freed when it leaves `nodes`. */
module Sgfs {

  datatype Kind = Root | Dir | This | Parent
  datatype Status = Ok | NotDir | NoEntry | NotEmpty

  predicate IsDir(k: Kind) {
    k == Root || k == Dir
  }

  class Node {
    const kind: Kind
    ghost const depth: nat
    var parent: Node?
    var children: seq<Node>
    var vnodes: seq<Vdata>
    var refcount: int
    var deleted: bool
    ghost var holds: nat

    /** sgfs_create_node. */
    constructor (k: Kind, ghost d: nat)
      ensures kind == k && depth == d && parent == null && children == [] && vnodes == []
      ensures refcount == 1 && !deleted && holds == 0
    {
      kind, depth, parent, children, vnodes, refcount, deleted, holds := k, d, null, [], [], 1, false, 0;
    }
  }

  class Vdata {
    const node: Node
    const mount: nat

    constructor (n: Node, mp: nat)
      ensures node == n && mount == mp
    {
      node, mount := n, mp;
    }
  }

  function Without<T(==)>(s: seq<T>, x: T): seq<T> {
    if s == [] then [] else if s[0] == x then s[1..] else [s[0]] + Without(s[1..], x)
  }

  ghost predicate DistinctNodes(s: seq<Node>) {
    forall i, j :: 0 <= i < j < |s| ==> s[i] != s[j]
  }

  lemma {:induction false} WithoutNode(s: seq<Node>, x: Node)
    requires DistinctNodes(s)
    ensures DistinctNodes(Without(s, x)) && forall y: Node :: y in Without(s, x) <==> y in s && y != x
    ensures x in s ==> |Without(s, x)| == |s| - 1
    ensures x !in s ==> Without(s, x) == s
  {
    if s != [] {
      assert forall y: Node :: y in s <==> y == s[0] || y in s[1..];
      assert s[0] !in s[1..];
      if s[0] != x {
        WithoutNode(s[1..], x);
        var r := Without(s[1..], x);
        assert forall j :: 0 <= j < |r| ==> r[j] in r;
      }
    }
  }

  lemma {:induction false} WithoutVdata(s: seq<Vdata>, x: Vdata)
    requires forall i, j :: 0 <= i < j < |s| ==> s[i].mount != s[j].mount
    ensures forall j :: 0 <= j < |Without(s, x)| ==> Without(s, x)[j] in s && Without(s, x)[j] != x
    ensures forall i :: 0 <= i < |s| && s[i] != x ==> s[i] in Without(s, x)
    ensures forall i, j :: 0 <= i < j < |Without(s, x)| ==> Without(s, x)[i].mount != Without(s, x)[j].mount
    ensures x in s ==> |Without(s, x)| == |s| - 1
    ensures s == [x] <==> x in s && Without(s, x) == []
  {
    if s != [] {
      assert forall i :: 0 < i < |s| ==> s[i] == s[1..][i - 1];
      if s[0] != x {
        WithoutVdata(s[1..], x);
        forall j | 0 <= j < |Without(s[1..], x)| ensures Without(s[1..], x)[j].mount != s[0].mount {
          var y := Without(s[1..], x)[j];
          assert y in s[1..];
          var l :| 0 <= l < |s[1..]| && s[1..][l] == y;
          assert s[l + 1] == y;
        }
      }
    }
  }

  /** The two dot entries stay at the end of a directory's list while another entry is removed. */
  lemma {:induction false} WithoutKeepsDots(s: seq<Node>, x: Node)
    requires |s| >= 2 && x in s && x != s[|s| - 2] && x != s[|s| - 1]
    ensures var r := Without(s, x);
            |r| == |s| - 1 && |r| >= 2 && r[|r| - 2] == s[|s| - 2] && r[|r| - 1] == s[|s| - 1]
    ensures var r := Without(s, x);
            forall i :: 0 <= i < |r| - 2 ==> r[i] in s[..|s| - 2]
  {
    if s[0] != x {
      assert x in s[1..];
      WithoutKeepsDots(s[1..], x);
      assert s[1..][..|s| - 3] == s[..|s| - 2][1..];
    } else {
      assert forall i :: 0 <= i < |s[1..]| - 2 ==> s[1..][i] == s[..|s| - 2][i + 1];
    }
  }

  // ---------- links, as values ----------

  type Kids = map<Node, seq<Node>>
  type Ups = map<Node, Node?>

  /** Parent and child links of n agree. */
  ghost predicate Linked(k: Kids, u: Ups, n: Node)
    requires n in k && k.Keys == u.Keys
  {
    && DistinctNodes(k[n])
    && (forall c: Node :: c in k[n] ==> c in k && u[c] == n && c.depth == n.depth + 1)
    && (u[n] != null ==> u[n] in k && n in k[u[n]])
    && (!IsDir(n.kind) ==> k[n] == [])
  }

  ghost predicate Tree(k: Kids, u: Ups) {
    k.Keys == u.Keys && forall n: Node :: n in k ==> Linked(k, u, n)
  }

  /** Without the childless node x. */
  ghost function Unlinked(k: Kids, u: Ups, x: Node): Kids
    requires x in u && (u[x] != null ==> u[x] in k)
  {
    (if u[x] == null then k else k[u[x] := Without(k[u[x]], x)]) - {x}
  }

  lemma UnlinkTree(k: Kids, u: Ups, x: Node)
    requires Tree(k, u) && x in k && k[x] == []
    ensures Linked(k, u, x) && (u[x] != null ==> u[x] in k && u[x] != x)
    ensures Tree(Unlinked(k, u, x), u - {x})
  {
    hide Linked, Unlinked;
    LinkedFacts(k, u, x);
    UnlinkedKeys(k, u, x);
    forall n: Node | n in Unlinked(k, u, x) ensures Linked(Unlinked(k, u, x), u - {x}, n) {
      LinkedFacts(k, u, n);
      UnlinkLinked(k, u, x, n);
    }
  }

  lemma UnlinkedKeys(k: Kids, u: Ups, x: Node)
    requires k.Keys == u.Keys && x in k && (u[x] != null ==> u[x] in k)
    ensures Unlinked(k, u, x).Keys == (u - {x}).Keys == k.Keys - {x}
  {
  }

  lemma UnlinkLinked(k: Kids, u: Ups, x: Node, n: Node)
    requires k.Keys == u.Keys && x in k && n in k && n != x && k[x] == [] && Linked(k, u, n) && Linked(k, u, x)
    requires u[n] != null ==> Linked(k, u, u[n])
    ensures k.Keys - {x} == Unlinked(k, u, x).Keys == (u - {x}).Keys && Linked(Unlinked(k, u, x), u - {x}, n)
  {
    UnlinkedKeys(k, u, x);
    UnlinkKids(k, u, x, n);
    forall c: Node | c in Unlinked(k, u, x)[n] ensures c in k[n] && c != x {
      UnlinkKid(k, u, x, n, c);
    }
    if u[n] != null {
      UnlinkKids(k, u, x, u[n]);
    }
  }

  lemma UnlinkKid(k: Kids, u: Ups, x: Node, n: Node, c: Node)
    requires k.Keys == u.Keys && x in k && n in k && n != x && Linked(k, u, n) && Linked(k, u, x)
    requires n in Unlinked(k, u, x) && c in Unlinked(k, u, x)[n]
    ensures c in k[n] && c != x
  {
    UnlinkKids(k, u, x, n);
  }

  /** The children of n without x. */
  lemma UnlinkKids(k: Kids, u: Ups, x: Node, n: Node)
    requires k.Keys == u.Keys && x in k && n in k && n != x && Linked(k, u, n) && Linked(k, u, x)
    ensures var k' := Unlinked(k, u, x);
            n in k' && DistinctNodes(k'[n]) && (k[n] == [] ==> k'[n] == []) && (forall c: Node :: c in k'[n] <==> c in k[n] && c != x)
  {
    WithoutNode(k[n], x);
  }

  /** kc are the children of node that are left when gone has been freed. */
  ghost predicate Going(u: Ups, node: Node, gone: set<Node>, kc: seq<Node>) {
    forall x: Node :: x in u && x != node ==> (x in gone <==> u[x] != null && (u[x] in gone || (u[x] == node && x !in kc)))
  }

  /** x is in the subtree of child, within the tree that is left. */
  ghost predicate Below(u: Ups, left: set<Node>, child: Node, gone: set<Node>) {
    child in gone && gone <= left && forall x: Node :: x in left && x in u && x != child ==> (x in gone <==> u[x] != null && u[x] in gone)
  }

  lemma GoneOn(u: Ups, node: Node, gone: set<Node>, kc: seq<Node>, child: Node, below: set<Node>)
    requires Going(u, node, gone, kc) && child in kc && DistinctNodes(kc) && child in u && u[child] == node && child != node
    requires Below(u, u.Keys - gone, child, below)
    ensures Going(u, node, gone + below, Without(kc, child))
  {
    WithoutNode(kc, child);
  }

  /** u' are the parents of the nodes that are left when gone has been freed. */
  ghost predicate Left(u: Ups, gone: set<Node>, u': Ups) {
    u'.Keys == u.Keys - gone && forall x: Node :: x in u' ==> u'[x] == u[x]
  }

  lemma LeftAll(u: Ups)
    ensures Left(u, {}, u)
  {
  }

  lemma LeftFacts(u: Ups, gone: set<Node>, u': Ups, n: Node)
    requires Left(u, gone, u') && n in u'
    ensures n in u && u'.Keys == u.Keys - gone && forall x: Node :: x in u' ==> x in u && u[x] == u'[x]
  {
  }

  lemma LeftOn(u: Ups, gone: set<Node>, u': Ups, below: set<Node>, u'': Ups)
    requires Left(u, gone, u') && u''.Keys == u'.Keys - below && (forall x: Node :: x in u'' ==> u''[x] == u'[x])
    ensures Left(u, gone + below, u'')
  {
  }

  lemma BelowFacts(u: Ups, left: set<Node>, child: Node, gone: set<Node>)
    requires Below(u, left, child, gone)
    ensures child in gone && gone <= left
  {
  }

  /** Whether x is below child does not depend on nodes that are gone. */
  lemma BelowLeft(u: Ups, u': Ups, gone: set<Node>, child: Node, below: set<Node>)
    requires Below(u', u'.Keys, child, below) && Left(u, gone, u')
    ensures Below(u, u.Keys - gone, child, below)
  {
  }

  /** A new childless node c in front of n's children. */
  lemma LinkTree(k: Kids, u: Ups, n: Node, c: Node)
    requires Tree(k, u) && n in k && c !in k && IsDir(n.kind) && c.depth == n.depth + 1
    ensures Tree(k[n := [c] + k[n]][c := []], u[c := n])
  {
    var k': Kids, u': Ups := k[n := [c] + k[n]][c := []], u[c := n];
    forall m: Node | m in k' ensures Linked(k', u', m) {
      if m != c {
        assert Linked(k, u, m);
        assert u[m] != null ==> k'[u[m]] == if u[m] == n then [c] + k[n] else k[u[m]];
      }
    }
  }

  ghost function AddedKids(k: Kids, n: Node, c: Node): Kids
    requires n in k
  {
    k[n := [c] + k[n]][c := []]
  }

  /** The links after sgfs_fixup_dir of dir. */
  ghost function DotKids(k: Kids, dir: Node, dot: Node, dotdot: Node): Kids
    requires dir in k
  {
    k[dir := [dotdot, dot] + k[dir]][dot := []][dotdot := []]
  }

  ghost function DotUps(u: Ups, dir: Node, dot: Node, dotdot: Node): Ups {
    u[dot := dir][dotdot := dir]
  }

  lemma DotTree(k: Kids, u: Ups, dir: Node, dot: Node, dotdot: Node)
    requires Tree(k, u) && dir in k && IsDir(dir.kind) && dot !in k && dotdot !in k && dot != dotdot
    requires dot.depth == dotdot.depth == dir.depth + 1
    ensures Tree(DotKids(k, dir, dot, dotdot), DotUps(u, dir, dot, dotdot))
  {
    hide Tree;
    LinkTree(k, u, dir, dot);
    var k1: Kids := k[dir := [dot] + k[dir]][dot := []];
    var u1: Ups := u[dot := dir];
    LinkTree(k1, u1, dir, dotdot);
    assert [dotdot] + ([dot] + k[dir]) == [dotdot, dot] + k[dir];
    assert k1[dir := [dotdot] + k1[dir]][dotdot := []] == DotKids(k, dir, dot, dotdot);
  }

  lemma LinkedFacts(k: Kids, u: Ups, n: Node)
    requires Tree(k, u) && n in k
    ensures DistinctNodes(k[n]) && (forall c: Node :: c in k[n] ==> c in k && u[c] == n && c.depth == n.depth + 1 && c != n)
    ensures u[n] != null ==> u[n] in k && n in k[u[n]] && u[n] != n
    ensures !IsDir(n.kind) ==> k[n] == []
  {
    assert Linked(k, u, n);
    if u[n] != null {
      assert Linked(k, u, u[n]);
    }
  }

  lemma ParentsList(k: Kids, u: Ups)
    requires Tree(k, u)
    ensures k.Keys == u.Keys && forall n: Node :: n in k && u[n] != null ==> u[n] in k && n in k[u[n]]
  {
    assert forall n: Node :: n in k ==> Linked(k, u, n);
  }

  /** A directory's list: subdirectories, then the two dot entries, which were added first. */
  ghost predicate Dots(c: seq<Node>) {
    && |c| >= 2 && c[|c| - 1].kind == This && c[|c| - 2].kind == Parent
    && (forall i :: 0 <= i < |c| - 2 ==> c[i].kind == Dir)
  }

  lemma RootTree(r: Node, dot: Node, dotdot: Node)
    requires IsDir(r.kind) && r != dot && r != dotdot && dot != dotdot && dot.depth == dotdot.depth == r.depth + 1
    ensures Tree(map[r := [dotdot, dot], dot := [], dotdot := []], map[r := null, dot := r, dotdot := r])
  {
  }

  lemma DotsCons(c: seq<Node>, x: Node)
    requires Dots(c) && x.kind == Dir
    ensures Dots([x] + c)
  {
  }

  /** The links after sgfs_create_dir. */
  ghost function NewKids(k: Kids, parent: Node, node: Node, dot: Node, dotdot: Node): Kids
    requires parent in k
  {
    k[parent := [node] + k[parent]][node := [dotdot, dot]][dot := []][dotdot := []]
  }

  lemma NewTree(k: Kids, u: Ups, parent: Node, node: Node, dot: Node, dotdot: Node)
    requires Tree(k, u) && parent in k && IsDir(parent.kind) && IsDir(node.kind)
    requires node !in k && dot !in k && dotdot !in k && node != dot && node != dotdot && dot != dotdot
    requires node.depth == parent.depth + 1 && dot.depth == dotdot.depth == node.depth + 1
    ensures Tree(NewKids(k, parent, node, dot, dotdot), DotUps(u[node := parent], node, dot, dotdot))
  {
    hide Tree;
    LinkTree(k, u, parent, node);
    var k1: Kids := AddedKids(k, parent, node);
    var u1: Ups := u[node := parent];
    DotTree(k1, u1, node, dot, dotdot);
    assert [dotdot, dot] + k1[node] == [dotdot, dot];
    assert DotKids(k1, node, dot, dotdot) == NewKids(k, parent, node, dot, dotdot);
  }

  lemma NewLinks(k: Kids, u: Ups, parent: Node, node: Node, dot: Node, dotdot: Node)
    requires k.Keys == u.Keys && parent in k && node !in k && dot !in k && dotdot !in k
    requires node != dot && node != dotdot && dot != dotdot
    ensures var k', u' := NewKids(k, parent, node, dot, dotdot), DotUps(u[node := parent], node, dot, dotdot);
            && k'.Keys == u'.Keys == k.Keys + {node, dot, dotdot}
            && k'[parent] == [node] + k[parent] && k'[node] == [dotdot, dot] && k'[dot] == k'[dotdot] == []
            && u'[node] == parent && u'[dot] == u'[dotdot] == node
            && (forall m: Node :: m in k && m != parent ==> k'[m] == k[m])
            && (forall m: Node :: m in k ==> u'[m] == u[m])
  {
  }

  class Fs {
    var root: Node
    ghost var nodes: set<Node>
    ghost var vdatas: set<Vdata>

    ghost function Children(): Kids
      reads this`nodes, nodes`children
    {
      map n | n in nodes :: n.children
    }

    ghost function Parents(): Ups
      reads this`nodes, nodes`parent
    {
      map n | n in nodes :: n.parent
    }

    // ---------- invariant ----------

    /** The reference count of a node is what refers to it, and a deleted node is kept only for that. */
    ghost predicate Counted(n: Node)
      reads n
    {
      if IsDir(n.kind) then
        && n.refcount == (if n.deleted then 0 else 1) + |n.children| + |n.vnodes| + n.holds
        && (n.kind == Root ==> !n.deleted && n.parent == null)
        && (n.kind == Dir ==> (n.deleted <==> n.parent == null))
        && Dots(n.children)
        && (n.deleted ==> |n.children| > 2 || n.vnodes != [] || n.holds > 0)
      else
        n.refcount == 1 && n.children == [] && n.vnodes == [] && n.holds == 0 && !n.deleted && n.parent != null
    }

    /** Attached vnodes point at the node that lists them, at most one for a mount. */
    ghost predicate Attached(n: Node)
      reads this`vdatas, n`vnodes
    {
      && (forall i :: 0 <= i < |n.vnodes| ==> n.vnodes[i] in vdatas && n.vnodes[i].node == n)
      && (forall i, j :: 0 <= i < j < |n.vnodes| ==> n.vnodes[i].mount != n.vnodes[j].mount)
    }

    ghost predicate Valid()
      reads this, nodes
    {
      && root in nodes && root.kind == Root
      && Tree(Children(), Parents())
      && (forall n: Node :: n in nodes ==> Counted(n))
      && (forall n: Node :: n in nodes ==> Attached(n))
      && (forall v: Vdata :: v in vdatas ==> v.node in nodes && v in v.node.vnodes)
    }

    // ---------- creating ----------

    /** sgfs_init: the root directory with its two dot entries. */
    constructor ()
      ensures Valid() && root.refcount == 3 && vdatas == {}
    {
      var r := new Node(Root, 0);
      var dot, dotdot := FixupDir(r);
      root := r;
      nodes, vdatas := {r, dot, dotdot}, {};
      new;
      RootValid(r, dot, dotdot);
    }

    lemma RootValid(r: Node, dot: Node, dotdot: Node)
      requires root == r && nodes == {r, dot, dotdot} && vdatas == {} && r != dot && r != dotdot && dot != dotdot
      requires r.kind == Root && r.depth == 0 && r.parent == null && r.children == [dotdot, dot] && r.vnodes == []
      requires r.refcount == 3 && !r.deleted && r.holds == 0
      requires dot.kind == This && dotdot.kind == Parent && dot.depth == dotdot.depth == 1
      requires dot.parent == dotdot.parent == r && dot.children == dotdot.children == [] && dot.vnodes == dotdot.vnodes == []
      requires dot.refcount == dotdot.refcount == 1 && !dot.deleted && !dotdot.deleted && dot.holds == dotdot.holds == 0
      ensures Valid()
    {
      hide Tree;
      RootTree(r, dot, dotdot);
      TreeFrom(map[r := [dotdot, dot], dot := [], dotdot := []], map[r := null, dot := r, dotdot := r]);
      assert Counted(r) && Counted(dot) && Counted(dotdot);
    }

    /** sgfs_add_node; the new node goes to the front of the list. */
    static method AddNode(parent: Node, node: Node)
      requires parent != node
      modifies parent`children, parent`refcount, node`parent, node`children, node`vnodes
      ensures node.parent == parent && node.children == [] && node.vnodes == []
      ensures parent.children == [node] + old(parent.children) && parent.refcount == old(parent.refcount) + 1
    {
      node.parent := parent;
      node.children := [];
      node.vnodes := [];
      parent.children := [node] + parent.children;
      parent.refcount := parent.refcount + 1;
    }

    /** sgfs_fixup_dir. */
    static method FixupDir(dir: Node) returns (dot: Node, dotdot: Node)
      requires dir.children == []
      modifies dir`children, dir`refcount
      ensures fresh(dot) && fresh(dotdot) && dot != dotdot && dir.children == [dotdot, dot]
      ensures dir.refcount == old(dir.refcount) + 2
      ensures dot.kind == This && dotdot.kind == Parent && dot.depth == dotdot.depth == dir.depth + 1
      ensures dot.parent == dotdot.parent == dir && dot.children == dotdot.children == [] && dot.vnodes == dotdot.vnodes == []
      ensures dot.refcount == dotdot.refcount == 1 && !dot.deleted && !dotdot.deleted && dot.holds == dotdot.holds == 0
    {
      dot := new Node(This, dir.depth + 1);
      AddNode(dir, dot);
      dotdot := new Node(Parent, dir.depth + 1);
      AddNode(dir, dotdot);
    }

    /** sgfs_create_dir, without the bookkeeping of the proof. */
    method LinkDir(parent: Node) returns (node: Node, dot: Node, dotdot: Node)
      requires Counted(parent) && IsDir(parent.kind)
      modifies parent`children, parent`refcount
      ensures fresh(node) && fresh(dot) && fresh(dotdot) && node != dot && node != dotdot && dot != dotdot
      ensures node.kind == Dir && !node.deleted && node.refcount == 3 && node.holds == 0 && node.vnodes == []
      ensures node.parent == parent && node.children == [dotdot, dot] && node.depth == parent.depth + 1
      ensures parent.children == [node] + old(parent.children) && parent.refcount == old(parent.refcount) + 1
      ensures dot.kind == This && dotdot.kind == Parent && dot.depth == dotdot.depth == node.depth + 1
      ensures dot.parent == dotdot.parent == node && dot.children == dotdot.children == [] && dot.vnodes == dotdot.vnodes == []
      ensures Counted(parent) && Counted(node) && Counted(dot) && Counted(dotdot)
      ensures Attached(node) && Attached(dot) && Attached(dotdot)
    {
      node := new Node(Dir, parent.depth + 1);
      AddNode(parent, node);
      dot, dotdot := FixupDir(node);
      DotsCons(old(parent.children), node);
    }

    /** sgfs_create_dir. */
    method CreateDir(parent: Node) returns (node: Node)
      requires Valid() && parent in nodes && IsDir(parent.kind)
      modifies this`nodes, parent`children, parent`refcount
      ensures Valid() && fresh(node)
      ensures |node.children| == 2 && fresh(node.children[0]) && fresh(node.children[1])
      ensures nodes == old(nodes) + {node, node.children[0], node.children[1]}
      ensures node.kind == Dir && !node.deleted && node.refcount == 3 && node.holds == 0 && node.vnodes == []
      ensures parent.children == [node] + old(parent.children) && parent.refcount == old(parent.refcount) + 1
    {
      hide Tree, Attached, Counted, Dots;
      ghost var k: Kids, u: Ups := Children(), Parents();
      var dot, dotdot;
      node, dot, dotdot := LinkDir(parent);
      nodes := nodes + {node, dot, dotdot};
      assert Tree(Children(), Parents()) by {
        NewTree(k, u, parent, node, dot, dotdot);
        NewLinks(k, u, parent, node, dot, dotdot);
        hide NewKids, DotUps;
        TreeFrom(NewKids(k, parent, node, dot, dotdot), DotUps(u[node := parent], node, dot, dotdot));
      }
      forall x: Node | x in nodes ensures Counted(x) && Attached(x) {
        assert x !in {parent, node, dot, dotdot} ==> old(Counted(x)) && old(Attached(x));
      }
    }

    lemma TreeFrom(k: Kids, u: Ups)
      requires Tree(k, u) && k.Keys == u.Keys == nodes
      requires forall n: Node :: n in nodes ==> n.children == k[n] && n.parent == u[n]
      ensures Tree(Children(), Parents())
    {
      assert Children() == k && Parents() == u;
    }

    lemma CountedFacts(n: Node)
      requires Counted(n) && IsDir(n.kind)
      ensures n.refcount == (if n.deleted then 0 else 1) + |n.children| + |n.vnodes| + n.holds
      ensures |n.children| >= 2 && Dots(n.children)
      ensures n.kind == Root ==> !n.deleted && n.parent == null
      ensures n.kind == Dir ==> (n.deleted <==> n.parent == null)
      ensures n.deleted ==> |n.children| > 2 || n.vnodes != [] || n.holds > 0
    {
    }

    lemma CountedBy(n: Node)
      requires if IsDir(n.kind) then
                 && n.refcount == (if n.deleted then 0 else 1) + |n.children| + |n.vnodes| + n.holds
                 && (n.kind == Root ==> !n.deleted && n.parent == null)
                 && (n.kind == Dir ==> (n.deleted <==> n.parent == null))
                 && Dots(n.children)
                 && (n.deleted ==> |n.children| > 2 || n.vnodes != [] || n.holds > 0)
               else n.refcount == 1 && n.children == [] && n.vnodes == [] && n.holds == 0 && !n.deleted && n.parent != null
      ensures Counted(n)
    {
    }

    // ---------- references ----------

    /** sgnode_addref. */
    method AddRef(n: Node)
      requires Valid() && n in nodes && IsDir(n.kind)
      modifies n`refcount, n`holds
      ensures Valid() && n.refcount == old(n.refcount) + 1 && n.holds == old(n.holds) + 1
    {
      hide Tree, Attached;
      n.refcount := n.refcount + 1;
      n.holds := n.holds + 1;
    }

    /** sgfs_destroy: the node and everything below it is freed and the node unlinked; nothing else
        changes.  `gone` is the subtree: an entry goes with its parent.  `bound` bounds the depth of the tree. */
    method Destroy(node: Node, ghost bound: nat) returns (ghost gone: set<Node>)
      requires Tree(Children(), Parents()) && node in nodes && (forall m: Node :: m in nodes ==> m.depth <= bound)
      modifies this`nodes, nodes`children
      ensures Tree(Children(), Parents()) && nodes == old(nodes) - gone && Below(old(Parents()), old(nodes), node, gone)
      ensures forall x: Node :: x in gone ==> x.depth >= node.depth
      ensures forall x: Node :: x in nodes ==>
                x.children == if x == node.parent then Without(old(x.children), node) else old(x.children)
      decreases bound - node.depth, 2
    {
      hide Tree, Going;
      gone := {};
      LinkedFacts(Children(), Parents(), node);
      if IsDir(node.kind) {
        gone := DestroyChildren(node, bound);
      }
      SubtreeOf(old(Parents()), old(Children()), node, gone);
      Unlink(node);
      gone := gone + {node};
    }

    /** LIST_REMOVE from the parent, if any, and sgnode_free. */
    method Unlink(node: Node)
      requires Tree(Children(), Parents()) && node in nodes && node.children == []
      modifies this`nodes, nodes`children
      ensures Tree(Children(), Parents()) && nodes == old(nodes) - {node}
      ensures forall x: Node :: x in nodes ==>
                x.children == if x == node.parent then Without(old(x.children), node) else old(x.children)
    {
      hide Tree;
      ghost var k: Kids, u: Ups := Children(), Parents();
      UnlinkTree(k, u, node);
      var parent := node.parent;
      if parent != null {
        parent.children := Without(parent.children, node);
      }
      nodes := nodes - {node};
      assert Children() == Unlinked(k, u, node);
      assert Parents() == u - {node};
    }

    /** Its loop over the children. */
    method DestroyChildren(node: Node, ghost bound: nat) returns (ghost gone: set<Node>)
      requires Tree(Children(), Parents()) && node in nodes && (forall m: Node :: m in nodes ==> m.depth <= bound)
      modifies this`nodes, nodes`children
      ensures Tree(Children(), Parents()) && nodes == old(nodes) - gone && node in nodes && node.children == [] && gone <= old(nodes)
      ensures Going(old(Parents()), node, gone, [])
      ensures forall x: Node :: x in gone ==> x.depth > node.depth
      ensures forall x: Node :: x in nodes && x != node ==> x.children == old(x.children)
      decreases bound - node.depth, 1
    {
      hide Tree, Going, Left, Without;
      gone := {};
      NoneGone(Children(), Parents(), node);
      ghost var u: Ups := Parents();
      LeftAll(u);
      while node.children != []
        invariant Tree(Children(), Parents()) && nodes == old(nodes) - gone && node in nodes && gone <= old(nodes)
        invariant Going(u, node, gone, node.children) && Left(u, gone, Parents())
        invariant forall x: Node :: x in gone ==> x.depth > node.depth
        invariant forall x: Node :: x in nodes && x != node ==> x.children == old(x.children)
        decreases |nodes|
      {
        ghost var below := DestroyFirst(node, bound, u, gone);
        gone := gone + below;
      }
    }

    /** One turn: the first child is freed with everything below it. */
    method DestroyFirst(node: Node, ghost bound: nat, ghost u: Ups, ghost gone: set<Node>) returns (ghost below: set<Node>)
      requires Tree(Children(), Parents()) && node in nodes && (forall m: Node :: m in nodes ==> m.depth <= bound)
      requires node.children != [] && Going(u, node, gone, node.children) && Left(u, gone, Parents())
      modifies this`nodes, nodes`children
      ensures Tree(Children(), Parents()) && nodes == old(nodes) - below && node in nodes && below <= old(nodes) && below != {}
      ensures Going(u, node, gone + below, node.children) && Left(u, gone + below, Parents())
      ensures forall x: Node :: x in below ==> x.depth > node.depth
      ensures forall x: Node :: x in nodes && x != node ==> x.children == old(x.children)
      decreases bound - node.depth, 0
    {
      hide Tree, Going, Below, Without, Left;
      LinkedFacts(Children(), Parents(), node);
      var child := node.children[0];
      ghost var kc, left, u' := node.children, nodes, Parents();
      below := Destroy(child, bound);
      assert u'.Keys == left;
      BelowFacts(u', left, child, below);
      LeftFacts(u, gone, u', node);
      BelowLeft(u, u', gone, child, below);
      GoneOn(u, node, gone, kc, child, below);
      LeftOn(u, gone, u', below, Parents());
    }

    /** sgnode_release.  The node is freed exactly when it is deleted and this was the last thing that
        referred to it, and then only it and its dot entries go. */
    method Release(n: Node)
      requires Valid() && n in nodes && n.holds > 0
      modifies this`nodes, nodes`children, n`refcount, n`holds
      ensures Valid()
      ensures var last := old(n.deleted && |n.children| == 2 && n.vnodes == [] && n.holds == 1);
              && (n !in nodes <==> last)
              && nodes == (if last then old(nodes) - {n, old(n.children[0]), old(n.children[1])} else old(nodes))
              && (!last ==> n.refcount == old(n.refcount) - 1 && n.holds == old(n.holds) - 1)
      ensures forall x: Node :: x in nodes ==> x.children == old(x.children)
    {
      hide Tree, Attached, Counted, Dots;
      RootLives();
      CountedFacts(n);
      var seen := n.refcount;
      n.refcount := n.refcount - 1;
      n.holds := n.holds - 1;
      var exp := if IsDir(n.kind) then 3 else 1;
      if seen == exp {
        FreeLeaf(n);
      } else {
        CountedBy(n);
      }
    }

    lemma RootLives()
      requires Valid()
      ensures !root.deleted && root.parent == null
      ensures forall n: Node :: n in nodes && n.holds > 0 ==> IsDir(n.kind)
    {
    }

    /** The last reference to a deleted directory is gone. */
    method FreeLeaf(n: Node)
      requires n in nodes && n != root && n.parent == null && |n.children| == 2 && Dots(n.children) && n.vnodes == []
      requires root in nodes && root.kind == Root && Tree(Children(), Parents())
      requires forall x: Node :: x in nodes ==> (x != n ==> Counted(x)) && Attached(x)
      requires forall v: Vdata :: v in vdatas ==> v.node in nodes && v in v.node.vnodes
      modifies this`nodes, nodes`children
      ensures Valid() && nodes == old(nodes) - {n, old(n.children[0]), old(n.children[1])}
      ensures forall x: Node :: x in nodes ==> x.children == old(x.children)
    {
      hide Tree, Attached, Below;
      ghost var bound := MaxDepth(nodes);
      ghost var k: Kids, u: Ups := Children(), Parents();
      DeletedLeaf(k, u, n);
      assert Counted(k[n][0]) && Counted(k[n][1]) && k.Keys == nodes;
      ghost var gone := Destroy(n, bound);
      SmallSubtree(k, u, n, gone);
      forall x: Node | x in nodes ensures x.children == old(x.children) && Counted(x) && Attached(x) {
        assert old(Counted(x)) && old(Attached(x));
      }
    }

    // ---------- vnodes ----------

    /** sgfs_allocv: the node's vnode for this mount, newly attached if there is none. */
    method Allocv(n: Node, mount: nat) returns (vd: Vdata)
      requires Valid() && n in nodes && IsDir(n.kind)
      modifies this`vdatas, n`vnodes, n`refcount
      ensures Valid() && vd in vdatas && vd in n.vnodes && vd.node == n && vd.mount == mount
      ensures (exists v: Vdata :: v in old(n.vnodes) && v.mount == mount) ==> n.vnodes == old(n.vnodes) && n.refcount == old(n.refcount)
      ensures (forall v: Vdata :: v in old(n.vnodes) ==> v.mount != mount) ==>
                fresh(vd) && n.vnodes == [vd] + old(n.vnodes) && n.refcount == old(n.refcount) + 1
    {
      hide Tree, Dots;
      assert Attached(n);
      var i := 0;
      while i < |n.vnodes|
        invariant i <= |n.vnodes|
        invariant forall j :: 0 <= j < i ==> n.vnodes[j].mount != mount
      {
        if n.vnodes[i].mount == mount {
          return n.vnodes[i];
        }
        i := i + 1;
      }
      vd := AttachNew(n, mount);
    }

    method AttachNew(n: Node, mount: nat) returns (vd: Vdata)
      requires Valid() && n in nodes && IsDir(n.kind)
      requires forall j :: 0 <= j < |n.vnodes| ==> n.vnodes[j].mount != mount
      modifies this`vdatas, n`vnodes, n`refcount
      ensures Valid() && vdatas == old(vdatas) + {vd} && vd.node == n && vd.mount == mount && fresh(vd)
      ensures n.vnodes == [vd] + old(n.vnodes) && n.refcount == old(n.refcount) + 1
    {
      hide Tree, Dots, Counted;
      CountedFacts(n);
      vd := new Vdata(n, mount);
      n.vnodes := [vd] + n.vnodes;
      n.refcount := n.refcount + 1;
      CountedBy(n);
      vdatas := vdatas + {vd};
      forall x: Node | x in nodes ensures Attached(x) && Counted(x) {
        assert old(Attached(x)) && old(Counted(x));
      }
      hide Attached;
      forall v: Vdata | v in vdatas ensures v.node in nodes && v in v.node.vnodes {
        assert v != vd ==> v in old(vdatas) && v in old(v.node.vnodes);
      }
      assert Children() == old(Children()) && Parents() == old(Parents());
    }

    /** sgfs_reclaim: the vnode lets go of its node. */
    method Reclaim(vd: Vdata)
      requires Valid() && vd in vdatas
      modifies this`nodes, this`vdatas, nodes`children, vd.node`vnodes, vd.node`refcount, vd.node`holds
      ensures Valid() && vdatas == old(vdatas) - {vd}
      ensures var n := vd.node;
              n !in nodes <==> old(n.deleted && |n.children| == 2 && n.vnodes == [vd] && n.holds == 0)
    {
      hide Tree, Dots, Without;
      var n := vd.node;
      assert Attached(n) && Counted(n);
      WithoutVdata(n.vnodes, vd);
      n.vnodes := Without(n.vnodes, vd);
      vdatas := vdatas - {vd};
      n.holds := n.holds + 1;
      forall x: Node | x in nodes ensures Attached(x) {
        assert old(Attached(x));
        forall i | 0 <= i < |x.vnodes| ensures x.vnodes[i] in vdatas && x.vnodes[i].node == x {
          assert x.vnodes[i] in x.vnodes;
        }
      }
      Release(n);
    }

    // ---------- directory operations ----------

    /** sgfs_mkdir; `gotVnode` says whether getnewvnode succeeded in sgfs_allocv. */
    method Mkdir(pd: Node, mount: nat, gotVnode: bool) returns (st: Status, node: Node?)
      requires Valid() && pd in nodes
      modifies this`nodes, this`vdatas, nodes`children, pd`refcount
      ensures Valid()
      ensures st == (if IsDir(pd.kind) then Ok else NotDir)
      ensures st != Ok ==> node == null && nodes == old(nodes) && vdatas == old(vdatas)
      ensures st == Ok ==>
                && node != null && fresh(node) && node in nodes && node.kind == Dir && !node.deleted && node.holds == 0
                && |node.vnodes| == (if gotVnode then 1 else 0) && pd.children == [node] + old(pd.children)
    {
      hide Tree, Attached, Counted, Dots;
      if !IsDir(pd.kind) {
        return NotDir, null;
      }
      var pn := CreateDir(pd);
      AddRef(pn);
      if gotVnode {
        var vd := Allocv(pn, mount);
      }
      Release(pn);
      return Ok, pn;
    }

    /** The writes of sgfs_rmdir to links and flags (sgfs.c:1247-1250). */
    method CutLinks(pn: Node, pt: Node)
      requires Tree(Children(), Parents()) && pn in nodes && pt in nodes && pn.parent == pt && pt != pn
      modifies pn`parent, pn`deleted, pn`holds, pt`children, pt`holds
      ensures Tree(Children(), Parents()) && pn.parent == null && pn.deleted && pn.holds == old(pn.holds) + 1
      ensures pt.children == Without(old(pt.children), pn) && pt.holds == old(pt.holds) + 1
    {
      hide Tree;
      ghost var k: Kids, u: Ups := Children(), Parents();
      CutTree(k, u, pn);
      pn.parent := null;
      pn.deleted := true;
      pt.children := Without(pt.children, pn);
      pn.holds, pt.holds := pn.holds + 1, pt.holds + 1;
      TreeFrom(k[pt := Without(k[pt], pn)], u[pn := null]);
    }

    /** The unlinking in sgfs_rmdir; the references to be released count as held. */
    method Detach(pn: Node) returns (pt: Node)
      requires Valid() && pn in nodes && pn.kind == Dir && !pn.deleted
      modifies pn`parent, pn`deleted, pn`holds, nodes`children, nodes`holds
      ensures Valid() && pt == old(pn.parent) && pt in nodes && pt != pn && IsDir(pt.kind)
      ensures pn.deleted && pn.children == old(pn.children) && pn.holds == old(pn.holds) + 1
      ensures pt.children == Without(old(pt.children), pn) && pt.holds == old(pt.holds) + 1 && pn !in pt.children
    {
      hide Tree, Attached, Counted, Dots, IsDir;
      pt := ParentOf(pn);
      CutLinks(pn, pt);
      CountedDeleted(pn);
      CountedBy(pt);
    }

    /** The parent of a directory that is not deleted, and its counts. */
    lemma ParentFacts(pn: Node, pt: Node)
      requires Valid() && pn in nodes && pn.kind == Dir && pn.parent == pt
      ensures pt in nodes && pt != pn && IsDir(pt.kind) && pn in pt.children && DistinctNodes(pt.children)
      ensures Dots(Without(pt.children, pn)) && |Without(pt.children, pn)| == |pt.children| - 1 && pn !in Without(pt.children, pn)
      ensures pt.refcount == (if pt.deleted then 0 else 1) + |pt.children| + |pt.vnodes| + pt.holds
      ensures pt.kind == Root ==> !pt.deleted && pt.parent == null
      ensures pt.kind == Dir ==> (pt.deleted <==> pt.parent == null)
    {
      hide Tree, Linked;
      var k: Kids, u: Ups := Children(), Parents();
      ParentIsDir(k, u, pn);
      LinkedFacts(k, u, pt);
      CountedFacts(pt);
      KeepsDots(pt.children, pn);
      WithoutNode(pt.children, pn);
    }

    method ParentOf(pn: Node) returns (pt: Node)
      requires Valid() && pn in nodes && pn.kind == Dir && !pn.deleted
      ensures pt == pn.parent
      ensures pt in nodes && pt != pn && IsDir(pt.kind) && pn in pt.children
      ensures Dots(Without(pt.children, pn)) && |Without(pt.children, pn)| == |pt.children| - 1 && pn !in Without(pt.children, pn)
      ensures pt.refcount == (if pt.deleted then 0 else 1) + |pt.children| + |pt.vnodes| + pt.holds
      ensures pt.kind == Root ==> !pt.deleted && pt.parent == null
      ensures pt.kind == Dir ==> (pt.deleted <==> pt.parent == null)
      ensures pn.refcount == 1 + |pn.children| + |pn.vnodes| + pn.holds && Dots(pn.children)
    {
      hide Tree, Dots;
      CountedFacts(pn);
      pt := pn.parent;
      ParentFacts(pn, pt);
    }

    lemma CountedDeleted(n: Node)
      requires n.kind == Dir && n.deleted && n.parent == null && Dots(n.children) && n.holds > 0
      requires n.refcount == |n.children| + |n.vnodes| + n.holds
      ensures Counted(n)
    {
    }

    /** sgfs_rmdir. */
    method Rmdir(pn: Node) returns (st: Status)
      requires Valid() && pn in nodes
      modifies this`nodes, pn`parent, pn`deleted, nodes`children, nodes`holds, nodes`refcount
      ensures Valid()
      ensures st == (if pn.kind != Dir then NotDir else if old(pn.deleted) then NoEntry
                     else if old(|pn.children|) > 2 then NotEmpty else Ok)
      ensures st != Ok ==> nodes == old(nodes) && pn.deleted == old(pn.deleted)
      ensures st == Ok ==> pn.deleted && (pn in nodes <==> old(pn.vnodes != [] || pn.holds > 0))
    {
      if pn.kind != Dir {
        return NotDir;
      }
      if pn.deleted {
        return NoEntry;
      }
      assert Counted(pn);
      if |pn.children| > 2 {
        return NotEmpty;
      }
      RemoveEmpty(pn);
      return Ok;
    }

    method RemoveEmpty(pn: Node)
      requires Valid() && pn in nodes && pn.kind == Dir && !pn.deleted && |pn.children| == 2
      modifies this`nodes, pn`parent, pn`deleted, nodes`children, nodes`holds, nodes`refcount
      ensures Valid() && pn.deleted && (pn in nodes <==> old(pn.vnodes != [] || pn.holds > 0))
    {
      hide Tree, Attached, Counted, Dots;
      DeletedLeafOf(pn);
      var pt := Detach(pn);
      Release(pn);
      assert forall i :: 0 <= i < |pt.children| ==> pt.children[i] in pt.children;
      Release(pt);
    }

    /** sgfs_uninit, when no vnode is attached any more: the whole tree of the root is freed. */
    method Uninit() returns (ghost gone: set<Node>)
      requires Valid() && vdatas == {}
      modifies this`nodes, nodes`children
      ensures root !in nodes && nodes == old(nodes) - gone && Below(old(Parents()), old(nodes), root, gone)
    {
      hide Tree, Attached;
      RootLives();
      ghost var bound := MaxDepth(nodes);
      gone := Destroy(root, bound);
    }

    lemma DeletedLeafOf(n: Node)
      requires Valid() && n in nodes && IsDir(n.kind) && |n.children| == 2
      ensures n.children[0] in nodes && n.children[1] in nodes && !IsDir(n.children[0].kind) && !IsDir(n.children[1].kind)
    {
      LinkedFacts(Children(), Parents(), n);
      assert n.children[0] in n.children && n.children[1] in n.children && Counted(n);
    }

    lemma MaxDepth(s: set<Node>) returns (bound: nat)
      ensures forall m: Node :: m in s ==> m.depth <= bound
      decreases |s|
    {
      bound := 0;
      if s != {} {
        var x :| x in s;
        bound := MaxDepth(s - {x});
        if x.depth > bound {
          bound := x.depth;
        }
      }
    }
  }

  lemma DeletedLeaf(k: Kids, u: Ups, n: Node)
    requires Tree(k, u) && n in k && |k[n]| == 2
    ensures k[n][0] in k && k[n][1] in k && u[k[n][0]] == n == u[k[n][1]]
  {
    assert Linked(k, u, n);
    assert k[n][0] in k[n] && k[n][1] in k[n];
  }

  /** Below a directory without subdirectories there are only its dot entries. */
  lemma SmallSubtree(k: Kids, u: Ups, n: Node, gone: set<Node>)
    requires Tree(k, u) && n in k && Below(u, k.Keys, n, gone) && |k[n]| == 2
    requires k[n][0] in k && k[n][1] in k && k[k[n][0]] == [] && k[k[n][1]] == []
    ensures gone == {n, k[n][0], k[n][1]}
  {
    var a, b := k[n][0], k[n][1];
    assert a in k[n] && b in k[n];
    LinkedFacts(k, u, n);
    forall x: Node | x in gone ensures x in {n, a, b} {
      NoStray(k, u, n, gone, a, b, x);
    }
  }

  lemma {:induction false} NoStray(k: Kids, u: Ups, n: Node, gone: set<Node>, a: Node, b: Node, x: Node)
    requires Tree(k, u) && n in k && Below(u, k.Keys, n, gone) && k[n] == [a, b] && a in k && b in k && k[a] == k[b] == []
    requires x in gone
    ensures x == n || x == a || x == b
    decreases x.depth
  {
    if x != n {
      var p := u[x];
      LinkedFacts(k, u, x);
      LinkedFacts(k, u, p);
      NoStray(k, u, n, gone, a, b, p);
    }
  }

  /** Only directories have children. */
  lemma ParentIsDir(k: Kids, u: Ups, n: Node)
    requires Tree(k, u) && n in k && u[n] != null
    ensures u[n] in k && IsDir(u[n].kind) && n in k[u[n]] && u[n] != n
  {
    LinkedFacts(k, u, n);
    assert Linked(k, u, u[n]);
  }

  lemma KeepsDots(c: seq<Node>, x: Node)
    requires Dots(c) && x in c && x.kind == Dir && DistinctNodes(c)
    ensures Dots(Without(c, x)) && |Without(c, x)| == |c| - 1
  {
    WithoutKeepsDots(c, x);
  }

  /** n is taken out of its parent's list and has no parent any more. */
  lemma CutTree(k: Kids, u: Ups, n: Node)
    requires Tree(k, u) && n in k && u[n] != null
    ensures u[n] in k && Tree(k[u[n] := Without(k[u[n]], n)], u[n := null])
  {
    hide Linked;
    ParentIsDir(k, u, n);
    forall m: Node | m in k ensures Linked(k[u[n] := Without(k[u[n]], n)], u[n := null], m) {
      LinkedFacts(k, u, m);
      if u[m] != null {
        LinkedFacts(k, u, u[m]);
      }
      CutLinked(k, u, n, m);
    }
  }

  lemma CutLinked(k: Kids, u: Ups, n: Node, m: Node)
    requires k.Keys == u.Keys && n in k && m in k && u[n] != null && u[n] in k && u[n] != n && Linked(k, u, m) && Linked(k, u, u[n])
    ensures Linked(k[u[n] := Without(k[u[n]], n)], u[n := null], m)
  {
    WithoutNode(k[u[n]], n);
    forall c: Node | c in k[u[n] := Without(k[u[n]], n)][m] ensures c in k[m] && c != n {
      CutKid(k, u, n, m, c);
    }
  }

  lemma CutKid(k: Kids, u: Ups, n: Node, m: Node, c: Node)
    requires k.Keys == u.Keys && n in k && m in k && u[n] != null && u[n] in k && Linked(k, u, m) && Linked(k, u, u[n])
    requires c in k[u[n] := Without(k[u[n]], n)][m]
    ensures c in k[m] && c != n
  {
    WithoutNode(k[u[n]], n);
  }

  lemma NoneGone(k: Kids, u: Ups, node: Node)
    requires Tree(k, u) && node in k
    ensures Going(u, node, {}, k[node])
  {
    ParentsList(k, u);
  }

  lemma SubtreeOf(u: Ups, k: Kids, node: Node, gone: set<Node>)
    requires Tree(k, u) && node in k && gone <= k.Keys
    requires if IsDir(node.kind) then Going(u, node, gone, []) else gone == {}
    ensures Below(u, k.Keys, node, gone + {node})
  {
    ParentsList(k, u);
    LinkedFacts(k, u, node);
  }
}
