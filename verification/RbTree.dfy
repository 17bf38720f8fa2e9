/** The red-black timeline of one queue: tree.h as instantiated by pss.c. */
module RbTree {
  import opened RbShape

  ghost function LinksOf(s: set<Entity>): Links
    reads s`left, s`right, s`parent, s`red
  {
    map n | n in s :: Link(n.left, n.right, n.parent, n.red)
  }

  /** vtime_cmp (pss.c:419-425) on unwrapped virtual times; it is never 0. */
  function VtimeCmp(a: Entity, b: Entity): int
    reads a`vruntime, b`vruntime
  {
    if a.vruntime < b.vruntime then -1 else 1
  }

  ghost predicate InVtimeOrder(s: seq<Entity>)
    reads s`vruntime
  {
    forall i, j :: 0 <= i < j < |s| ==> s[i].vruntime <= s[j].vruntime
  }

  /** se is placed after every entity of equal or smaller virtual time. */
  ghost function InsertByVtime(s: seq<Entity>, se: Entity): seq<Entity>
    reads s`vruntime, se`vruntime
  {
    if s == [] || se.vruntime < s[0].vruntime then [se] + s
    else [s[0]] + InsertByVtime(s[1..], se)
  }

  lemma {:induction false} InsertedBetween(p: seq<Entity>, se: Entity, q: seq<Entity>)
    requires forall i :: 0 <= i < |p| ==> p[i].vruntime <= se.vruntime
    requires forall i :: 0 <= i < |q| ==> se.vruntime < q[i].vruntime
    ensures InsertByVtime(p + q, se) == p + [se] + q
  {
    if p == [] {
      assert p + q == q;
    } else {
      InsertedBetween(p[1..], se, q);
      assert (p + q)[1..] == p[1..] + q;
    }
  }

  /** se belongs into the hole of c. */
  ghost predicate Splits(c: Context, se: Entity)
    reads se`vruntime, Before(c)`vruntime, After(c)`vruntime
  {
    && (forall i :: 0 <= i < |Before(c)| ==> Before(c)[i].vruntime <= se.vruntime)
    && (forall i :: 0 <= i < |After(c)| ==> se.vruntime < After(c)[i].vruntime)
  }

  /** One comparison narrows the hole in the right direction. */
  lemma DescendOrder(c: Context, t: Tree, se: Entity)
    requires t.Node? && InVtimeOrder(InOrder(Plug(c, t))) && Splits(c, se)
    ensures se.vruntime < t.x.vruntime ==> Splits(InLeft(t.x, t.red, t.r, c), se)
    ensures t.x.vruntime <= se.vruntime ==> Splits(InRight(t.l, t.x, t.red, c), se)
  {
    InOrderPlug(c, t);
    AroundOrder(Before(c), InOrder(t.l), t.x, InOrder(t.r), After(c), InOrder(Plug(c, t)));
    if se.vruntime < t.x.vruntime {
      AllAfter(se, [t.x], InOrder(t.r), After(c));
    } else {
      AllBefore(se, Before(c), InOrder(t.l), [t.x]);
    }
  }

  lemma AllBefore(se: Entity, p: seq<Entity>, q: seq<Entity>, r: seq<Entity>)
    requires forall i :: 0 <= i < |p| ==> p[i].vruntime <= se.vruntime
    requires forall i :: 0 <= i < |q| ==> q[i].vruntime <= se.vruntime
    requires forall i :: 0 <= i < |r| ==> r[i].vruntime <= se.vruntime
    ensures forall i :: 0 <= i < |p + q + r| ==> (p + q + r)[i].vruntime <= se.vruntime
  {
  }

  lemma AllAfter(se: Entity, p: seq<Entity>, q: seq<Entity>, r: seq<Entity>)
    requires forall i :: 0 <= i < |p| ==> se.vruntime < p[i].vruntime
    requires forall i :: 0 <= i < |q| ==> se.vruntime < q[i].vruntime
    requires forall i :: 0 <= i < |r| ==> se.vruntime < r[i].vruntime
    ensures forall i :: 0 <= i < |p + q + r| ==> se.vruntime < (p + q + r)[i].vruntime
  {
  }

  /** In a sorted sequence p ++ q ++ [x] ++ r ++ s, q is no later than x and r no earlier. */
  lemma AroundOrder(p: seq<Entity>, q: seq<Entity>, x: Entity, r: seq<Entity>, s: seq<Entity>, c: seq<Entity>)
    requires c == p + (q + [x] + r) + s && InVtimeOrder(c)
    ensures forall i :: 0 <= i < |q| ==> q[i].vruntime <= x.vruntime
    ensures forall i :: 0 <= i < |r| ==> x.vruntime <= r[i].vruntime
  {
    var k := |p| + |q|;
    assert c[k] == x;
    forall i | 0 <= i < |q| ensures q[i].vruntime <= x.vruntime {
      assert c[|p| + i] == q[i];
    }
    forall i | 0 <= i < |r| ensures x.vruntime <= r[i].vruntime {
      assert c[k + 1 + i] == r[i];
    }
  }

  lemma HoleOrder(c: Context, se: Entity)
    ensures InOrder(Plug(c, Leaf)) == Before(c) + After(c)
    ensures InOrder(Plug(c, Node(Leaf, se, true, Leaf))) == Before(c) + [se] + After(c)
  {
    InOrderPlug(c, Leaf);
    InOrderPlug(c, Node(Leaf, se, true, Leaf));
    assert InOrder(Node(Leaf, se, true, Leaf)) == [] + [se] + [] == [se];
    assert Before(c) + [] + After(c) == Before(c) + After(c);
  }

  lemma HoleElems(c: Context, se: Entity, s: set<Entity>, o: seq<Entity>)
    requires o == Before(c) + After(c) && (forall i :: 0 <= i < |o| ==> o[i] in s)
    ensures var o' := Before(c) + [se] + After(c);
            forall i :: 0 <= i < |o'| ==> o'[i] in s + {se}
  {
    var o' := Before(c) + [se] + After(c);
    forall i | 0 <= i < |o'| ensures o'[i] in s + {se} {
      assert i < |Before(c)| ==> o'[i] == o[i];
      assert i > |Before(c)| ==> o'[i] == o[i - 1];
    }
  }

  lemma RemovedAt(c: Context, t: Tree)
    requires t.Node? && Distinct(InOrder(Plug(c, t)))
    ensures Without(InOrder(Plug(c, t)), t.x) == Before(c) + InOrder(t.l) + InOrder(t.r) + After(c)
  {
    InOrderPlug(c, t);
    var p, q := Before(c) + InOrder(t.l), InOrder(t.r) + After(c);
    Reassociate(Before(c), InOrder(t.l), [t.x], InOrder(t.r), After(c));
    NextIs(p, t.x, q, p + [t.x] + q);
    assert forall i :: 0 <= i < |p| ==> (p + [t.x] + q)[i] == p[i];
    WithoutBetween(p, t.x, q);
  }

  /** Hanging se at the hole inserts it by virtual time. */
  lemma PlaceInOrder(c: Context, se: Entity, s: set<Entity>)
    requires Splits(c, se) && InVtimeOrder(InOrder(Plug(c, Leaf)))
    requires forall i :: 0 <= i < |InOrder(Plug(c, Leaf))| ==> InOrder(Plug(c, Leaf))[i] in s
    ensures var o := InsertByVtime(InOrder(Plug(c, Leaf)), se);
            && o == Before(c) + [se] + After(c) && InVtimeOrder(o) && o != []
            && (if Before(c) == [] then o[0] == se else o[0] == InOrder(Plug(c, Leaf))[0])
            && (forall i :: 0 <= i < |o| ==> o[i] in s + {se})
  {
    HoleOrder(c, se);
    InsertedBetween(Before(c), se, After(c));
    OrderedAround(Before(c), se, After(c));
    HoleElems(c, se, s, InOrder(Plug(c, Leaf)));
  }

  /** x is taken out; the others keep their order. */
  ghost function Without(s: seq<Entity>, x: Entity): seq<Entity> {
    if s == [] then [] else if s[0] == x then s[1..] else [s[0]] + Without(s[1..], x)
  }

  function First(s: seq<Entity>): Entity? {
    if s == [] then null else s[0]
  }

  /** Taking x out of a sorted sequence within a. */
  lemma DropInOrder(s: seq<Entity>, x: Entity, a: set<Entity>)
    requires InVtimeOrder(s) && (forall k :: 0 <= k < |s| ==> s[k] in a)
    ensures InVtimeOrder(Without(s, x)) && (forall k :: 0 <= k < |Without(s, x)| ==> Without(s, x)[k] in a)
    ensures First(Without(s, x)) == if s != [] && s[0] == x then First(s[1..]) else First(s)
  {
    WithoutOrder(s, x);
    WithoutIn(s, x, a);
  }

  lemma {:induction false} WithoutBetween(p: seq<Entity>, x: Entity, q: seq<Entity>)
    requires x !in p
    ensures Without(p + [x] + q, x) == p + q
  {
    if p == [] {
      assert p + [x] + q == [x] + q;
      assert p + q == q;
    } else {
      assert (p + [x] + q)[1..] == p[1..] + [x] + q;
      WithoutBetween(p[1..], x, q);
    }
  }

  lemma {:induction false} WithoutIn(s: seq<Entity>, x: Entity, a: set<Entity>)
    requires forall k :: 0 <= k < |s| ==> s[k] in a
    ensures forall k :: 0 <= k < |Without(s, x)| ==> Without(s, x)[k] in a
  {
    if s != [] {
      WithoutIn(s[1..], x, a);
    }
  }

  lemma {:induction false} WithoutAbove(s: seq<Entity>, x: Entity, low: int)
    requires forall k :: 0 <= k < |s| ==> low <= s[k].vruntime
    ensures forall k :: 0 <= k < |Without(s, x)| ==> low <= Without(s, x)[k].vruntime
  {
    if s != [] {
      WithoutAbove(s[1..], x, low);
    }
  }

  lemma {:induction false} WithoutOrder(s: seq<Entity>, x: Entity)
    requires InVtimeOrder(s)
    ensures InVtimeOrder(Without(s, x))
  {
    if s != [] && s[0] != x {
      WithoutOrder(s[1..], x);
      WithoutAbove(s[1..], x, s[0].vruntime);
    }
  }

  lemma OrderedAround(p: seq<Entity>, se: Entity, q: seq<Entity>)
    requires InVtimeOrder(p + q)
    requires forall i :: 0 <= i < |p| ==> p[i].vruntime <= se.vruntime
    requires forall i :: 0 <= i < |q| ==> se.vruntime < q[i].vruntime
    ensures InVtimeOrder(p + [se] + q)
  {
    var s, o := p + [se] + q, p + q;
    assert forall i :: 0 <= i < |s| && i != |p| ==> s[i] == o[if i < |p| then i else i - 1];
  }

  lemma Reassociate(b: seq<Entity>, l: seq<Entity>, x: seq<Entity>, r: seq<Entity>, a: seq<Entity>)
    ensures b + (l + x + r) + a == (b + l) + x + (r + a)
    ensures b + l + r + a == (b + l) + (r + a)
  {
  }

  lemma NextIs(p: seq<Entity>, x: Entity, q: seq<Entity>, c: seq<Entity>)
    requires c == p + [x] + q && Distinct(c)
    ensures forall i :: 0 <= i < |c| && c[i] == x ==> i == |p|
    ensures c[|p|] == x && c[|p| + 1..] == q
  {
    assert c[|p|] == x;
  }

  class Timeline {
    var root: Entity?
    var leftmost: Entity?
    ghost var shape: Tree
    ghost var nodes: set<Entity>

    // ---------- pointer surgery ----------

    /** y is a child of x and b the inner child of y; the pointers around them do not alias. */
    ghost predicate Rotatable(x: Entity, y: Entity, b: Entity?, s: set<Entity>)
      requires x in s
      reads this, s
    {
      var p := x.parent;
      && y in s && x != y && p != x && p != y && b != x && b != y && (b != null ==> b != p && b in s)
      && (p != null ==> p in s && (p.left == x <==> p.right != x))
    }

    /** RB_ROTATE_LEFT (tree.h:340-358). */
    method RelinkLeft(elm: Entity, ghost s: set<Entity>) returns (tmp: Entity)
      requires elm in s && elm.right != null && elm.right in s && Rotatable(elm, elm.right, elm.right.left, s)
      modifies this`root, s`left, s`right, s`parent
      ensures tmp == old(elm.right)
      ensures root == if old(elm.parent) == null then tmp else old(root)
      ensures forall n :: n in s ==>
                n.left == if n == tmp then elm else if n == old(elm.parent) && old(n.left) == elm then tmp else old(n.left)
      ensures forall n :: n in s ==>
                n.right == if n == elm then old(elm.right.left)
                           else if n == old(elm.parent) && old(n.left) != elm then tmp else old(n.right)
      ensures forall n :: n in s ==>
                n.parent == if n == elm then tmp else if n == tmp then old(elm.parent)
                            else if n == old(elm.right.left) then elm else old(n.parent)
    {
      tmp := elm.right;
      elm.right := tmp.left;
      if elm.right != null {
        tmp.left.parent := elm;
      }
      tmp.parent := elm.parent;
      if tmp.parent != null {
        if elm == elm.parent.left {
          elm.parent.left := tmp;
        } else {
          elm.parent.right := tmp;
        }
      } else {
        root := tmp;
      }
      tmp.left := elm;
      elm.parent := tmp;
    }

    /** RB_ROTATE_RIGHT (tree.h:360-378). */
    method RelinkRight(elm: Entity, ghost s: set<Entity>) returns (tmp: Entity)
      requires elm in s && elm.left != null && elm.left in s && Rotatable(elm, elm.left, elm.left.right, s)
      modifies this`root, s`left, s`right, s`parent
      ensures tmp == old(elm.left)
      ensures root == if old(elm.parent) == null then tmp else old(root)
      ensures forall n :: n in s ==>
                n.left == if n == elm then old(elm.left.right)
                          else if n == old(elm.parent) && old(n.left) == elm then tmp else old(n.left)
      ensures forall n :: n in s ==>
                n.right == if n == tmp then elm else if n == old(elm.parent) && old(n.left) != elm then tmp else old(n.right)
      ensures forall n :: n in s ==>
                n.parent == if n == elm then tmp else if n == tmp then old(elm.parent)
                            else if n == old(elm.left.right) then elm else old(n.parent)
    {
      tmp := elm.left;
      elm.left := tmp.right;
      if elm.left != null {
        tmp.right.parent := elm;
      }
      tmp.parent := elm.parent;
      if tmp.parent != null {
        if elm == elm.parent.left {
          elm.parent.left := tmp;
        } else {
          elm.parent.right := tmp;
        }
      } else {
        root := tmp;
      }
      tmp.right := elm;
      elm.parent := tmp;
    }

    // ---------- the same steps on shapes ----------

    /** A colour assignment at the focus. */
    method SetColor(x: Entity, red: bool, ghost s: set<Entity>, ghost c: Context, ghost l: Tree, ghost r: Tree)
      requires x in s && Focus(LinksOf(s), root, c, Node(l, x, x.red, r))
      modifies x`red
      ensures Focus(LinksOf(s), root, c, Node(l, x, red, r)) && x.red == red
    {
      PaintFocus(LinksOf(s), root, c, l, x, x.red, r, red);
      ghost var m := Paint(LinksOf(s), x, red);
      x.red := red;
      assert LinksOf(s) == m;
    }

    method TurnLeft(elm: Entity, ghost s: set<Entity>) returns (tmp: Entity)
      requires elm in s && elm.right != null && elm.right in s && Rotatable(elm, elm.right, elm.right.left, s)
      modifies this`root, s`left, s`right, s`parent
      ensures tmp == old(elm.right)
      ensures root == if old(elm.parent) == null then tmp else old(root)
      ensures LinksOf(s) == RotL(old(LinksOf(s)), elm)
    {
      tmp := RelinkLeft(elm, s);
    }

    method RotateLeft(elm: Entity, ghost s: set<Entity>, ghost c: Context, ghost a: Tree, ghost xr: bool,
                      ghost b: Tree, ghost y: Entity, ghost yr: bool, ghost d: Tree)
      returns (tmp: Entity)
      requires Focus(LinksOf(s), root, c, Node(a, elm, xr, Node(b, y, yr, d)))
      modifies this`root, s`left, s`right, s`parent
      ensures tmp == y && Focus(LinksOf(s), root, c, Node(Node(a, elm, xr, b), y, yr, d))
    {
      ghost var m := LinksOf(s);
      RotLFocus(m, root, c, a, elm, xr, b, y, yr, d);
      TopLinksRight(m, root, c, a, elm, xr, b, y, yr, d);
      tmp := TurnLeft(elm, s);
    }

    method TurnRight(elm: Entity, ghost s: set<Entity>) returns (tmp: Entity)
      requires elm in s && elm.left != null && elm.left in s && Rotatable(elm, elm.left, elm.left.right, s)
      modifies this`root, s`left, s`right, s`parent
      ensures tmp == old(elm.left)
      ensures root == if old(elm.parent) == null then tmp else old(root)
      ensures LinksOf(s) == RotR(old(LinksOf(s)), elm)
    {
      tmp := RelinkRight(elm, s);
    }

    method RotateRight(elm: Entity, ghost s: set<Entity>, ghost c: Context, ghost a: Tree, ghost y: Entity,
                       ghost yr: bool, ghost b: Tree, ghost xr: bool, ghost d: Tree)
      returns (tmp: Entity)
      requires Focus(LinksOf(s), root, c, Node(Node(a, y, yr, b), elm, xr, d))
      modifies this`root, s`left, s`right, s`parent
      ensures tmp == y && Focus(LinksOf(s), root, c, Node(a, y, yr, Node(b, elm, xr, d)))
    {
      ghost var m := LinksOf(s);
      RotRFocus(m, root, c, a, y, yr, b, elm, xr, d);
      TopLinksLeft(m, root, c, a, y, yr, b, elm, xr, d);
      tmp := TurnRight(elm, s);
    }
  
    // ---------- insertion fix-up (tree.h:405-447) ----------

    /** RB_SET_BLACKRED on a red parent and a black grandparent, and the uncle blackened. */
    method PushBlackLeft(parent: Entity, gparent: Entity, tmp: Entity, ghost s: set<Entity>, ghost up: Context,
                         ghost pl: Tree, ghost pr: Tree, ghost ul: Tree, ghost ur: Tree)
      requires Focus(LinksOf(s), root, up, Node(Node(pl, parent, true, pr), gparent, false, Node(ul, tmp, true, ur)))
      modifies s`red
      ensures Focus(LinksOf(s), root, up, Node(Node(pl, parent, false, pr), gparent, true, Node(ul, tmp, false, ur)))
    {
      ghost var p, u := Node(pl, parent, true, pr), Node(ul, tmp, true, ur);
      Refocus(LinksOf(s), root, p, gparent, false, u, up);
      SetColor(tmp, false, s, InRight(p, gparent, false, up), ul, ur);
      ghost var u' := u.(red := false);
      Refocus(LinksOf(s), root, p, gparent, false, u', up);
      SetColor(parent, false, s, InLeft(gparent, false, u', up), pl, pr);
      ghost var p' := p.(red := false);
      Refocus(LinksOf(s), root, p', gparent, false, u', up);
      SetColor(gparent, true, s, up, p', u');
    }
  
    method PushBlackRight(parent: Entity, gparent: Entity, tmp: Entity, ghost s: set<Entity>, ghost up: Context,
                          ghost pl: Tree, ghost pr: Tree, ghost ul: Tree, ghost ur: Tree)
      requires Focus(LinksOf(s), root, up, Node(Node(ul, tmp, true, ur), gparent, false, Node(pl, parent, true, pr)))
      modifies s`red
      ensures Focus(LinksOf(s), root, up, Node(Node(ul, tmp, false, ur), gparent, true, Node(pl, parent, false, pr)))
    {
      ghost var p, u := Node(pl, parent, true, pr), Node(ul, tmp, true, ur);
      Refocus(LinksOf(s), root, u, gparent, false, p, up);
      SetColor(tmp, false, s, InLeft(gparent, false, p, up), ul, ur);
      ghost var u' := u.(red := false);
      Refocus(LinksOf(s), root, u', gparent, false, p, up);
      SetColor(parent, false, s, InRight(u', gparent, false, up), pl, pr);
      ghost var p' := p.(red := false);
      Refocus(LinksOf(s), root, u', gparent, false, p', up);
      SetColor(gparent, true, s, up, u', p');
    }

    /** RB_SET_BLACKRED and the outer rotation that ends the loop (tree.h:426-427). */
    method CloseLeft(parent: Entity, gparent: Entity, ghost s: set<Entity>, ghost up: Context,
                     ghost e: Tree, ghost pr: Tree, ghost u: Tree)
      requires Focus(LinksOf(s), root, up, Node(Node(e, parent, true, pr), gparent, false, u))
      modifies this`root, s`left, s`right, s`parent, s`red
      ensures Focus(LinksOf(s), root, InLeft(parent, false, Node(pr, gparent, true, u), up), e)
    {
      Refocus(LinksOf(s), root, Node(e, parent, true, pr), gparent, false, u, up);
      SetColor(parent, false, s, InLeft(gparent, false, u, up), e, pr);
      Refocus(LinksOf(s), root, Node(e, parent, false, pr), gparent, false, u, up);
      SetColor(gparent, true, s, up, Node(e, parent, false, pr), u);
      var tmp := RotateRight(gparent, s, up, e, parent, false, pr, true, u);
      Refocus(LinksOf(s), root, e, parent, false, Node(pr, gparent, true, u), up);
    }

    method CloseRight(parent: Entity, gparent: Entity, ghost s: set<Entity>, ghost up: Context,
                      ghost u: Tree, ghost pl: Tree, ghost e: Tree)
      requires Focus(LinksOf(s), root, up, Node(u, gparent, false, Node(pl, parent, true, e)))
      modifies this`root, s`left, s`right, s`parent, s`red
      ensures Focus(LinksOf(s), root, InRight(Node(u, gparent, true, pl), parent, false, up), e)
    {
      Refocus(LinksOf(s), root, u, gparent, false, Node(pl, parent, true, e), up);
      SetColor(parent, false, s, InRight(u, gparent, false, up), pl, e);
      Refocus(LinksOf(s), root, u, gparent, false, Node(pl, parent, false, e), up);
      SetColor(gparent, true, s, up, u, Node(pl, parent, false, e));
      var tmp := RotateLeft(gparent, s, up, u, true, pl, parent, false, e);
      Refocus(LinksOf(s), root, Node(u, gparent, true, pl), parent, false, e, up);
    }

    /** Black uncle: one or two rotations close the gap (tree.h:420-427). */
    method InsertRotateLeft(elm0: Entity, parent0: Entity, gparent: Entity,
                            ghost s: set<Entity>, ghost c0: Context, ghost t0: Tree)
      returns (elm: Entity, ghost c: Context, ghost t: Tree)
      requires Focus(LinksOf(s), root, c0, t0) && InsertGap(c0, t0) && t0.x == elm0
      requires !c0.Top? && c0.x == parent0 && c0.red && c0.up.InLeft? && c0.up.x == gparent && !IsRed(c0.up.r)
      modifies this`root, s`left, s`right, s`parent, s`red
      ensures Focus(LinksOf(s), root, c, t) && InsertGap(c, t) && t.x == elm
      ensures Depth(c) < Depth(c0) && !c.Top? && !c.red
      ensures InOrder(Plug(c, t)) == InOrder(Plug(c0, t0))
    {
      RedParent(c0, t0);
      ParentLinks(LinksOf(s), root, c0, t0);
      ghost var up, u := c0.up.up, c0.up.r;
      Refocus(LinksOf(s), root, Up(c0, t0).l, parent0, true, Up(c0, t0).r, c0.up);
      var parent := parent0;
      elm, c, t := elm0, c0, t0;
      if parent.right == elm {
        GapOutward(c.l, parent, t, c.up);
        var tmp := RotateLeft(parent, s, c.up, c.l, true, t.l, elm, true, t.r);
        RotatedOrder(c.up, c.l, parent, true, t.l, elm, true, t.r, true, true);
        tmp, parent, elm := parent, elm, parent;
        c, t := InLeft(parent, true, t.r, c.up), Node(c.l, elm, true, t.l);
        Refocus(LinksOf(s), root, Up(c, t).l, parent, true, Up(c, t).r, c.up);
      }
      Refocus(LinksOf(s), root, Up(c, t), gparent, false, u, up);
      GapClosedLeft(t, parent, c.r, gparent, false, u, up);
      RotatedOrder(up, t, parent, false, c.r, gparent, true, u, true, false);
      CloseLeft(parent, gparent, s, up, t, c.r, u);
      c := InLeft(parent, false, Node(c.r, gparent, true, u), up);
    }

    /** One turn of the loop when the parent is a left child (tree.h:412-427). */
    method InsertStepLeft(elm0: Entity, parent: Entity, gparent: Entity,
                          ghost s: set<Entity>, ghost c0: Context, ghost t0: Tree)
      returns (elm: Entity, ghost c: Context, ghost t: Tree)
      requires Focus(LinksOf(s), root, c0, t0) && InsertGap(c0, t0) && t0.x == elm0
      requires !c0.Top? && c0.x == parent && c0.red && c0.up.InLeft? && c0.up.x == gparent
      modifies this`root, s`left, s`right, s`parent, s`red
      ensures Focus(LinksOf(s), root, c, t) && InsertGap(c, t) && t.x == elm
      ensures Depth(c) < Depth(c0)
      ensures InOrder(Plug(c, t)) == InOrder(Plug(c0, t0))
    {
      RedParent(c0, t0);
      ghost var up, u, p := c0.up.up, c0.up.r, Up(c0, t0);
      Refocus(LinksOf(s), root, p.l, parent, true, p.r, c0.up);
      Refocus(LinksOf(s), root, p, gparent, false, u, up);
      ParentLinks(LinksOf(s), root, up, Node(p, gparent, false, u));
      var tmp := gparent.right;
      if tmp != null && tmp.red {
        assert u.Node? && IsRed(u) && u.x == tmp;
        GapUpLeft(c0, t0, p, u);
        PushBlackLeft(parent, gparent, tmp, s, up, p.l, p.r, u.l, u.r);
        elm, c, t := gparent, up, Node(p.(red := false), gparent, true, u.(red := false));
        SameOrder(up, Node(p, gparent, false, u), t);
      } else {
        elm, c, t := InsertRotateLeft(elm0, parent, gparent, s, c0, t0);
      }
    }

    /** Black uncle: one or two rotations close the gap (tree.h:436-443). */
    method InsertRotateRight(elm0: Entity, parent0: Entity, gparent: Entity,
                            ghost s: set<Entity>, ghost c0: Context, ghost t0: Tree)
      returns (elm: Entity, ghost c: Context, ghost t: Tree)
      requires Focus(LinksOf(s), root, c0, t0) && InsertGap(c0, t0) && t0.x == elm0
      requires !c0.Top? && c0.x == parent0 && c0.red && c0.up.InRight? && c0.up.x == gparent && !IsRed(c0.up.l)
      modifies this`root, s`left, s`right, s`parent, s`red
      ensures Focus(LinksOf(s), root, c, t) && InsertGap(c, t) && t.x == elm
      ensures Depth(c) < Depth(c0) && !c.Top? && !c.red
      ensures InOrder(Plug(c, t)) == InOrder(Plug(c0, t0))
    {
      RedParent(c0, t0);
      ParentLinks(LinksOf(s), root, c0, t0);
      ghost var up, u := c0.up.up, c0.up.l;
      Refocus(LinksOf(s), root, Up(c0, t0).l, parent0, true, Up(c0, t0).r, c0.up);
      var parent := parent0;
      elm, c, t := elm0, c0, t0;
      if parent.left == elm {
        GapInward(c.r, parent, t, c.up);
        var tmp := RotateRight(parent, s, c.up, t.l, elm, true, t.r, true, c.r);
        RotatedOrder(c.up, t.l, elm, true, t.r, parent, true, c.r, true, true);
        tmp, parent, elm := parent, elm, parent;
        c, t := InRight(t.l, parent, true, c.up), Node(t.r, elm, true, c.r);
        Refocus(LinksOf(s), root, Up(c, t).l, parent, true, Up(c, t).r, c.up);
      }
      Refocus(LinksOf(s), root, u, gparent, false, Up(c, t), up);
      GapClosedRight(t, parent, c.l, gparent, false, u, up);
      RotatedOrder(up, u, gparent, false, c.l, parent, true, t, true, false);
      CloseRight(parent, gparent, s, up, u, c.l, t);
      c := InRight(Node(u, gparent, true, c.l), parent, false, up);
    }

    /** One turn of the loop when the parent is a right child (tree.h:428-443). */
    method InsertStepRight(elm0: Entity, parent: Entity, gparent: Entity,
                          ghost s: set<Entity>, ghost c0: Context, ghost t0: Tree)
      returns (elm: Entity, ghost c: Context, ghost t: Tree)
      requires Focus(LinksOf(s), root, c0, t0) && InsertGap(c0, t0) && t0.x == elm0
      requires !c0.Top? && c0.x == parent && c0.red && c0.up.InRight? && c0.up.x == gparent
      modifies this`root, s`left, s`right, s`parent, s`red
      ensures Focus(LinksOf(s), root, c, t) && InsertGap(c, t) && t.x == elm
      ensures Depth(c) < Depth(c0)
      ensures InOrder(Plug(c, t)) == InOrder(Plug(c0, t0))
    {
      RedParent(c0, t0);
      ghost var up, u, p := c0.up.up, c0.up.l, Up(c0, t0);
      Refocus(LinksOf(s), root, p.l, parent, true, p.r, c0.up);
      Refocus(LinksOf(s), root, u, gparent, false, p, up);
      ParentLinks(LinksOf(s), root, up, Node(u, gparent, false, p));
      var tmp := gparent.left;
      if tmp != null && tmp.red {
        assert u.Node? && IsRed(u) && u.x == tmp;
        GapUpRight(c0, t0, p, u);
        PushBlackRight(parent, gparent, tmp, s, up, p.l, p.r, u.l, u.r);
        elm, c, t := gparent, up, Node(u.(red := false), gparent, true, p.(red := false));
        SameOrder(up, Node(u, gparent, false, p), t);
      } else {
        elm, c, t := InsertRotateRight(elm0, parent, gparent, s, c0, t0);
      }
    }

    method InsertStep(elm0: Entity, parent: Entity, ghost s: set<Entity>, ghost c0: Context, ghost t0: Tree)
      returns (elm: Entity, ghost c: Context, ghost t: Tree)
      requires Focus(LinksOf(s), root, c0, t0) && InsertGap(c0, t0) && t0.x == elm0
      requires !c0.Top? && c0.x == parent && c0.red
      modifies this`root, s`left, s`right, s`parent, s`red
      ensures Focus(LinksOf(s), root, c, t) && InsertGap(c, t) && t.x == elm
      ensures Depth(c) < Depth(c0)
      ensures InOrder(Plug(c, t)) == InOrder(Plug(c0, t0))
    {
      GapLinks(LinksOf(s), root, c0, t0);
      var gparent := parent.parent;
      if parent == gparent.left {
        elm, c, t := InsertStepLeft(elm0, parent, gparent, s, c0, t0);
      } else {
        elm, c, t := InsertStepRight(elm0, parent, gparent, s, c0, t0);
      }
    }

    /** RB_INSERT_COLOR (tree.h:405-447). */
    method InsertColor(elm0: Entity, ghost s: set<Entity>, ghost c0: Context, ghost t0: Tree)
      returns (ghost t': Tree)
      requires Focus(LinksOf(s), root, c0, t0) && InsertGap(c0, t0) && t0.x == elm0
      modifies this`root, s`left, s`right, s`parent, s`red
      ensures Focus(LinksOf(s), root, Top, t') && RedBlack(t')
      ensures InOrder(t') == InOrder(Plug(c0, t0))
    {
      var elm := elm0;
      ghost var c, t := c0, t0;
      GapLinks(LinksOf(s), root, c, t);
      var parent := elm.parent;
      while parent != null && parent.red
        invariant Focus(LinksOf(s), root, c, t) && InsertGap(c, t) && t.x == elm
        invariant parent == ParentOf(c) && (parent != null ==> parent in s && parent.red == c.red)
        invariant InOrder(Plug(c, t)) == InOrder(Plug(c0, t0))
        decreases Depth(c)
      {
        elm, c, t := InsertStep(elm, parent, s, c, t);
        GapLinks(LinksOf(s), root, c, t);
        parent := elm.parent;
      }
      GapClosed(LinksOf(s), root, c, t);
      t' := Plug(c, t);
      SetColor(root, false, s, Top, t'.l, t'.r);
      t' := t'.(red := false);
    }

    // ---------- removal fix-up (tree.h:449-525) ----------

    /** A red sibling goes above the parent (tree.h:457-461). */
    method LowerLeft(parent: Entity, tmp: Entity, ghost s: set<Entity>, ghost t: Tree, ghost n: Tree, ghost f: Tree,
                     ghost up: Context)
      requires Focus(LinksOf(s), root, InLeft(parent, false, Node(n, tmp, true, f), up), t)
      modifies this`root, s`left, s`right, s`parent, s`red
      ensures Focus(LinksOf(s), root, InLeft(parent, true, n, InLeft(tmp, false, f, up)), t)
    {
      ghost var w := Node(n, tmp, true, f);
      Refocus(LinksOf(s), root, t, parent, false, w, up);
      SetColor(tmp, false, s, InRight(t, parent, false, up), n, f);
      w := w.(red := false);
      Refocus(LinksOf(s), root, t, parent, false, w, up);
      SetColor(parent, true, s, up, t, w);
      var _ := RotateLeft(parent, s, up, t, true, n, tmp, false, f);
      Refocus(LinksOf(s), root, Node(t, parent, true, n), tmp, false, f, up);
      Refocus(LinksOf(s), root, t, parent, true, n, InLeft(tmp, false, f, up));
    }

    /** A red near child of the sibling goes above it (tree.h:472-478). */
    method SpreadLeft(tmp: Entity, o: Entity, ghost s: set<Entity>, ghost p: Entity, ghost pr: bool, ghost t: Tree,
                      ghost a: Tree, ghost b: Tree, ghost f: Tree, ghost up: Context)
      requires Focus(LinksOf(s), root, InLeft(p, pr, Node(Node(a, o, true, b), tmp, false, f), up), t)
      modifies this`root, s`left, s`right, s`parent, s`red
      ensures Focus(LinksOf(s), root, InLeft(p, pr, Node(a, o, false, Node(b, tmp, true, f)), up), t)
    {
      ghost var c := InRight(t, p, pr, up);
      Refocus(LinksOf(s), root, t, p, pr, Node(Node(a, o, true, b), tmp, false, f), up);
      Refocus(LinksOf(s), root, Node(a, o, true, b), tmp, false, f, c);
      SetColor(o, false, s, InLeft(tmp, false, f, c), a, b);
      Refocus(LinksOf(s), root, Node(a, o, false, b), tmp, false, f, c);
      SetColor(tmp, true, s, c, Node(a, o, false, b), f);
      var _ := RotateRight(tmp, s, c, a, o, false, b, true, f);
      Refocus(LinksOf(s), root, t, p, pr, Node(a, o, false, Node(b, tmp, true, f)), up);
    }

    /** The sibling takes the parent's place and colour (tree.h:480-484). */
    method FillLeft(parent: Entity, tmp: Entity, ghost s: set<Entity>, ghost t: Tree, ghost n: Tree, ghost f: Tree,
                    ghost up: Context)
      requires Focus(LinksOf(s), root, InLeft(parent, parent.red, Node(n, tmp, false, f), up), t) && IsRed(f)
      modifies this`root, s`left, s`right, s`parent, s`red
      ensures Focus(LinksOf(s), root, up, Node(Node(t, parent, false, n), tmp, old(parent.red), f.(red := false)))
    {
      ghost var pr := parent.red;
      ghost var w := Node(n, tmp, false, f);
      ghost var c := InRight(t, parent, pr, up);
      Refocus(LinksOf(s), root, t, parent, pr, w, up);
      ParentLinks(LinksOf(s), root, c, w);
      SetColor(tmp, parent.red, s, c, n, f);
      w := w.(red := pr);
      Refocus(LinksOf(s), root, t, parent, pr, w, up);
      ParentLinks(LinksOf(s), root, up, Node(t, parent, pr, w));
      SetColor(parent, false, s, up, t, w);
      Refocus(LinksOf(s), root, t, parent, false, w, up);
      c := InRight(t, parent, false, up);
      ParentLinks(LinksOf(s), root, c, w);
      Refocus(LinksOf(s), root, n, tmp, pr, f, c);
      ParentLinks(LinksOf(s), root, InRight(n, tmp, pr, c), f);
      if tmp.right != null {
        SetColor(tmp.right, false, s, InRight(n, tmp, pr, c), f.l, f.r);
      }
      ghost var f' := f.(red := false);
      Refocus(LinksOf(s), root, n, tmp, pr, f', c);
      w := Node(n, tmp, pr, f');
      Refocus(LinksOf(s), root, t, parent, false, w, up);
      var _ := RotateLeft(parent, s, up, t, false, n, tmp, pr, f');
    }

    /** A black sibling with a red child: the loop's last turn. */
    method RemoveLastLeft(parent: Entity, tmp0: Entity, ghost s: set<Entity>, ghost c0: Context, ghost t0: Tree,
                          ghost w0: Tree)
      returns (ghost t: Tree)
      requires Focus(LinksOf(s), root, c0, t0) && RemoveGap(c0, t0) && !IsRed(t0)
      requires c0.InLeft? && c0.x == parent && w0 == c0.r && w0.Node? && w0.x == tmp0 && !w0.red
      requires IsRed(w0.l) || IsRed(w0.r)
      modifies this`root, s`left, s`right, s`parent, s`red
      ensures Focus(LinksOf(s), root, Top, t) && RedBlack(t) && InOrder(t) == InOrder(Plug(c0, t0))
    {
      ghost var c, w, up := c0, w0, c0.up;
      SiblingLinksLeft(LinksOf(s), root, c, t0);
      var tmp := tmp0;
      if tmp.right == null || !tmp.right.red {
        var o := tmp.left;
        GapFarLeft(t0, parent, c.red, w.l.l, o, w.l.r, tmp, w.r, up);
        SpreadOrderLeft(t0, parent, c.red, w.l.l, o, w.l.r, tmp, w.r, up);
        SpreadLeft(tmp, o, s, parent, c.red, t0, w.l.l, w.l.r, w.r, up);
        w := Node(w.l.l, o, false, Node(w.l.r, tmp, true, w.r));
        c := InLeft(parent, c.red, w, up);
        SiblingLinksLeft(LinksOf(s), root, c, t0);
        tmp := parent.right;
      }
      GapFilledLeft(t0, parent, c.red, w.l, tmp, w.r, up);
      FillOrderLeft(t0, parent, c.red, w.l, tmp, w.r, up);
      FillLeft(parent, tmp, s, t0, w.l, w.r, up);
      t := Node(Node(t0, parent, false, w.l), tmp, c.red, w.r.(red := false));
      FocusUp(LinksOf(s), root, up, t);
      t := Plug(up, t);
    }

    /** One turn of the loop when the short subtree is a left child (tree.h:455-487). */
    method RemoveStepLeft(parent0: Entity, ghost s: set<Entity>, ghost c0: Context, ghost t0: Tree)
      returns (done: bool, parent: Entity?, elm: Entity?, ghost c: Context, ghost t: Tree)
      requires Focus(LinksOf(s), root, c0, t0) && RemoveGap(c0, t0) && !IsRed(t0)
      requires c0.InLeft? && c0.x == parent0
      modifies this`root, s`left, s`right, s`parent, s`red
      ensures Focus(LinksOf(s), root, c, t) && InOrder(Plug(c, t)) == InOrder(Plug(c0, t0))
      ensures done ==> c.Top? && RedBlack(t) && elm == Root(t)
      ensures !done ==> RemoveGap(c, t) && elm == Root(t) && parent == ParentOf(c) && (Depth(c) < Depth(c0) || IsRed(t))
    {
      parent, c, t := parent0, c0, t0;
      ghost var w := c.r;
      ShortSiblingLeft(t, parent, c.red, w, c.up);
      SiblingLinksLeft(LinksOf(s), root, c, t);
      var tmp := parent.right;
      if tmp.red {
        ghost var n, f, up := w.l, w.r, c.up;
        GapBelowLeft(t, parent, c.red, n, tmp, f, up);
        RotatedOrder(up, t, parent, false, n, tmp, true, f, true, false);
        LowerLeft(parent, tmp, s, t, n, f, up);
        c, w := InLeft(parent, true, n, InLeft(tmp, false, f, up)), n;
        ShortSiblingLeft(t, parent, true, n, c.up);
        SiblingLinksLeft(LinksOf(s), root, c, t);
        tmp := parent.right;
      }
      if (tmp.left == null || !tmp.left.red) && (tmp.right == null || !tmp.right.red) {
        done := false;
        parent, elm, c, t := RemoveRaiseLeft(parent, tmp, s, c, t, w);
      } else {
        t := RemoveLastLeft(parent, tmp, s, c, t, w);
        done, c, elm := true, Top, root;
      }
    }

    /** A black sibling without red children is reddened and the loop moves up (tree.h:466-468). */
    method RemoveRaiseLeft(parent0: Entity, tmp: Entity, ghost s: set<Entity>, ghost c0: Context, ghost t0: Tree,
                           ghost w: Tree)
      returns (parent: Entity?, elm: Entity, ghost c: Context, ghost t: Tree)
      requires Focus(LinksOf(s), root, c0, t0) && RemoveGap(c0, t0) && !IsRed(t0)
      requires c0.InLeft? && c0.x == parent0 && w == c0.r && w.Node? && w.x == tmp && !w.red
      requires !IsRed(w.l) && !IsRed(w.r)
      modifies s`red
      ensures Focus(LinksOf(s), root, c, t) && RemoveGap(c, t) && elm == Root(t) && parent == ParentOf(c)
      ensures c == c0.up && IsRed(t) == c0.red
      ensures InOrder(Plug(c, t)) == InOrder(Plug(c0, t0))
    {
      ghost var pr := c0.red;
      c := c0.up;
      GapAboveLeft(t0, parent0, pr, w, c);
      Refocus(LinksOf(s), root, t0, parent0, pr, w, c);
      SetColor(tmp, true, s, InRight(t0, parent0, pr, c), w.l, w.r);
      ghost var w' := w.(red := true);
      Refocus(LinksOf(s), root, t0, parent0, pr, w', c);
      t := Node(t0, parent0, pr, w');
      SameOrder(c, Node(t0, parent0, pr, w), t);
      ParentLinks(LinksOf(s), root, c, t);
      elm := parent0;
      parent := elm.parent;
    }

    /** A red sibling goes above the parent (tree.h:490-494). */
    method LowerRight(parent: Entity, tmp: Entity, ghost s: set<Entity>, ghost t: Tree, ghost n: Tree, ghost f: Tree,
                     ghost up: Context)
      requires Focus(LinksOf(s), root, InRight(Node(f, tmp, true, n), parent, false, up), t)
      modifies this`root, s`left, s`right, s`parent, s`red
      ensures Focus(LinksOf(s), root, InRight(n, parent, true, InRight(f, tmp, false, up)), t)
    {
      ghost var w := Node(f, tmp, true, n);
      Refocus(LinksOf(s), root, w, parent, false, t, up);
      SetColor(tmp, false, s, InLeft(parent, false, t, up), f, n);
      w := w.(red := false);
      Refocus(LinksOf(s), root, w, parent, false, t, up);
      SetColor(parent, true, s, up, w, t);
      var _ := RotateRight(parent, s, up, f, tmp, false, n, true, t);
      Refocus(LinksOf(s), root, f, tmp, false, Node(n, parent, true, t), up);
      Refocus(LinksOf(s), root, n, parent, true, t, InRight(f, tmp, false, up));
    }

    /** A red near child of the sibling goes above it (tree.h:505-511). */
    method SpreadRight(tmp: Entity, o: Entity, ghost s: set<Entity>, ghost p: Entity, ghost pr: bool, ghost t: Tree,
                      ghost a: Tree, ghost b: Tree, ghost f: Tree, ghost up: Context)
      requires Focus(LinksOf(s), root, InRight(Node(f, tmp, false, Node(b, o, true, a)), p, pr, up), t)
      modifies this`root, s`left, s`right, s`parent, s`red
      ensures Focus(LinksOf(s), root, InRight(Node(Node(f, tmp, true, b), o, false, a), p, pr, up), t)
    {
      ghost var c := InLeft(p, pr, t, up);
      Refocus(LinksOf(s), root, Node(f, tmp, false, Node(b, o, true, a)), p, pr, t, up);
      Refocus(LinksOf(s), root, f, tmp, false, Node(b, o, true, a), c);
      SetColor(o, false, s, InRight(f, tmp, false, c), b, a);
      Refocus(LinksOf(s), root, f, tmp, false, Node(b, o, false, a), c);
      SetColor(tmp, true, s, c, f, Node(b, o, false, a));
      var _ := RotateLeft(tmp, s, c, f, true, b, o, false, a);
      Refocus(LinksOf(s), root, Node(Node(f, tmp, true, b), o, false, a), p, pr, t, up);
    }

    /** The sibling takes the parent's place and colour (tree.h:513-517). */
    method FillRight(parent: Entity, tmp: Entity, ghost s: set<Entity>, ghost t: Tree, ghost n: Tree, ghost f: Tree,
                    ghost up: Context)
      requires Focus(LinksOf(s), root, InRight(Node(f, tmp, false, n), parent, parent.red, up), t) && IsRed(f)
      modifies this`root, s`left, s`right, s`parent, s`red
      ensures Focus(LinksOf(s), root, up, Node(f.(red := false), tmp, old(parent.red), Node(n, parent, false, t)))
    {
      ghost var pr := parent.red;
      ghost var w := Node(f, tmp, false, n);
      ghost var c := InLeft(parent, pr, t, up);
      Refocus(LinksOf(s), root, w, parent, pr, t, up);
      ParentLinks(LinksOf(s), root, c, w);
      SetColor(tmp, parent.red, s, c, f, n);
      w := w.(red := pr);
      Refocus(LinksOf(s), root, w, parent, pr, t, up);
      ParentLinks(LinksOf(s), root, up, Node(w, parent, pr, t));
      SetColor(parent, false, s, up, w, t);
      Refocus(LinksOf(s), root, w, parent, false, t, up);
      c := InLeft(parent, false, t, up);
      ParentLinks(LinksOf(s), root, c, w);
      Refocus(LinksOf(s), root, f, tmp, pr, n, c);
      ParentLinks(LinksOf(s), root, InLeft(tmp, pr, n, c), f);
      if tmp.left != null {
        SetColor(tmp.left, false, s, InLeft(tmp, pr, n, c), f.l, f.r);
      }
      ghost var f' := f.(red := false);
      Refocus(LinksOf(s), root, f', tmp, pr, n, c);
      w := Node(f', tmp, pr, n);
      Refocus(LinksOf(s), root, w, parent, false, t, up);
      var _ := RotateRight(parent, s, up, f', tmp, pr, n, false, t);
    }

    /** A black sibling with a red child: the loop's last turn. */
    method RemoveLastRight(parent: Entity, tmp0: Entity, ghost s: set<Entity>, ghost c0: Context, ghost t0: Tree,
                          ghost w0: Tree)
      returns (ghost t: Tree)
      requires Focus(LinksOf(s), root, c0, t0) && RemoveGap(c0, t0) && !IsRed(t0)
      requires c0.InRight? && c0.x == parent && w0 == c0.l && w0.Node? && w0.x == tmp0 && !w0.red
      requires IsRed(w0.l) || IsRed(w0.r)
      modifies this`root, s`left, s`right, s`parent, s`red
      ensures Focus(LinksOf(s), root, Top, t) && RedBlack(t) && InOrder(t) == InOrder(Plug(c0, t0))
    {
      ghost var c, w, up := c0, w0, c0.up;
      SiblingLinksRight(LinksOf(s), root, c, t0);
      var tmp := tmp0;
      if tmp.left == null || !tmp.left.red {
        var o := tmp.right;
        GapFarRight(t0, parent, c.red, w.r.r, o, w.r.l, tmp, w.l, up);
        SpreadOrderRight(t0, parent, c.red, w.r.r, o, w.r.l, tmp, w.l, up);
        SpreadRight(tmp, o, s, parent, c.red, t0, w.r.r, w.r.l, w.l, up);
        w := Node(Node(w.l, tmp, true, w.r.l), o, false, w.r.r);
        c := InRight(w, parent, c.red, up);
        SiblingLinksRight(LinksOf(s), root, c, t0);
        tmp := parent.left;
      }
      GapFilledRight(t0, parent, c.red, w.r, tmp, w.l, up);
      FillOrderRight(t0, parent, c.red, w.r, tmp, w.l, up);
      FillRight(parent, tmp, s, t0, w.r, w.l, up);
      t := Node(w.l.(red := false), tmp, c.red, Node(w.r, parent, false, t0));
      FocusUp(LinksOf(s), root, up, t);
      t := Plug(up, t);
    }

    /** One turn of the loop when the short subtree is a right child (tree.h:488-520). */
    method RemoveStepRight(parent0: Entity, ghost s: set<Entity>, ghost c0: Context, ghost t0: Tree)
      returns (done: bool, parent: Entity?, elm: Entity?, ghost c: Context, ghost t: Tree)
      requires Focus(LinksOf(s), root, c0, t0) && RemoveGap(c0, t0) && !IsRed(t0)
      requires c0.InRight? && c0.x == parent0
      modifies this`root, s`left, s`right, s`parent, s`red
      ensures Focus(LinksOf(s), root, c, t) && InOrder(Plug(c, t)) == InOrder(Plug(c0, t0))
      ensures done ==> c.Top? && RedBlack(t) && elm == Root(t)
      ensures !done ==> RemoveGap(c, t) && elm == Root(t) && parent == ParentOf(c) && (Depth(c) < Depth(c0) || IsRed(t))
    {
      parent, c, t := parent0, c0, t0;
      ghost var w := c.l;
      ShortSiblingRight(t, parent, c.red, w, c.up);
      SiblingLinksRight(LinksOf(s), root, c, t);
      var tmp := parent.left;
      if tmp.red {
        ghost var n, f, up := w.r, w.l, c.up;
        GapBelowRight(t, parent, c.red, n, tmp, f, up);
        RotatedOrder(up, f, tmp, false, n, parent, true, t, true, false);
        LowerRight(parent, tmp, s, t, n, f, up);
        c, w := InRight(n, parent, true, InRight(f, tmp, false, up)), n;
        ShortSiblingRight(t, parent, true, n, c.up);
        SiblingLinksRight(LinksOf(s), root, c, t);
        tmp := parent.left;
      }
      if (tmp.left == null || !tmp.left.red) && (tmp.right == null || !tmp.right.red) {
        done := false;
        parent, elm, c, t := RemoveRaiseRight(parent, tmp, s, c, t, w);
      } else {
        t := RemoveLastRight(parent, tmp, s, c, t, w);
        done, c, elm := true, Top, root;
      }
    }

    /** A black sibling without red children is reddened and the loop moves up (tree.h:499-501). */
    method RemoveRaiseRight(parent0: Entity, tmp: Entity, ghost s: set<Entity>, ghost c0: Context, ghost t0: Tree,
                           ghost w: Tree)
      returns (parent: Entity?, elm: Entity, ghost c: Context, ghost t: Tree)
      requires Focus(LinksOf(s), root, c0, t0) && RemoveGap(c0, t0) && !IsRed(t0)
      requires c0.InRight? && c0.x == parent0 && w == c0.l && w.Node? && w.x == tmp && !w.red
      requires !IsRed(w.l) && !IsRed(w.r)
      modifies s`red
      ensures Focus(LinksOf(s), root, c, t) && RemoveGap(c, t) && elm == Root(t) && parent == ParentOf(c)
      ensures c == c0.up && IsRed(t) == c0.red
      ensures InOrder(Plug(c, t)) == InOrder(Plug(c0, t0))
    {
      ghost var pr := c0.red;
      c := c0.up;
      GapAboveRight(t0, parent0, pr, w, c);
      Refocus(LinksOf(s), root, w, parent0, pr, t0, c);
      SetColor(tmp, true, s, InLeft(parent0, pr, t0, c), w.l, w.r);
      ghost var w' := w.(red := true);
      Refocus(LinksOf(s), root, w', parent0, pr, t0, c);
      t := Node(w', parent0, pr, t0);
      SameOrder(c, Node(w, parent0, pr, t0), t);
      ParentLinks(LinksOf(s), root, c, t);
      elm := parent0;
      parent := elm.parent;
    }

    // ---------- removal (tree.h:527-592) ----------

    method RemoveStep(parent0: Entity, elm0: Entity?, ghost s: set<Entity>, ghost c0: Context, ghost t0: Tree)
      returns (done: bool, parent: Entity?, elm: Entity?, ghost c: Context, ghost t: Tree)
      requires Focus(LinksOf(s), root, c0, t0) && RemoveGap(c0, t0) && !IsRed(t0)
      requires !c0.Top? && c0.x == parent0 && elm0 == Root(t0)
      modifies this`root, s`left, s`right, s`parent, s`red
      ensures Focus(LinksOf(s), root, c, t) && InOrder(Plug(c, t)) == InOrder(Plug(c0, t0))
      ensures done ==> c.Top? && RedBlack(t) && elm == Root(t)
      ensures !done ==> RemoveGap(c, t) && elm == Root(t) && parent == ParentOf(c) && (Depth(c) < Depth(c0) || IsRed(t))
    {
      FocusReads(LinksOf(s), root, c0, t0);
      if c0.InRight? {
        ShortSiblingRight(t0, parent0, c0.red, c0.l, c0.up);
      }
      if parent0.left == elm0 {
        done, parent, elm, c, t := RemoveStepLeft(parent0, s, c0, t0);
      } else {
        done, parent, elm, c, t := RemoveStepRight(parent0, s, c0, t0);
      }
    }

    /** RB_REMOVE_COLOR. */
    method RemoveColor(parent0: Entity?, elm0: Entity?, ghost s: set<Entity>, ghost c0: Context, ghost t0: Tree)
      returns (ghost t': Tree)
      requires Focus(LinksOf(s), root, c0, t0) && RemoveGap(c0, t0)
      requires parent0 == ParentOf(c0) && elm0 == Root(t0)
      modifies this`root, s`left, s`right, s`parent, s`red
      ensures Focus(LinksOf(s), root, Top, t') && RedBlack(t') && InOrder(t') == InOrder(Plug(c0, t0))
    {
      var parent, elm := parent0, elm0;
      ghost var c, t := c0, t0;
      var done := false;
      FocusReads(LinksOf(s), root, c, t);
      while !done && (elm == null || !elm.red) && elm != root
        invariant Focus(LinksOf(s), root, c, t) && InOrder(Plug(c, t)) == InOrder(Plug(c0, t0))
        invariant done ==> c.Top? && RedBlack(t) && elm == Root(t)
        invariant !done ==> RemoveGap(c, t) && elm == Root(t) && parent == ParentOf(c)
        invariant (c.Top? <==> elm == root) && (t.Node? ==> t.x in s && t.x.red == t.red)
        decreases !done, if IsRed(t) then 0 else 1, Depth(c)
      {
        done, parent, elm, c, t := RemoveStep(parent, elm, s, c, t);
        FocusReads(LinksOf(s), root, c, t);
      }
      t' := FinishRemove(elm, done, s, c, t);
    }

    /** RB_COLOR(elm) = RB_BLACK at the end of the loop (tree.h:523-524). */
    method FinishRemove(elm: Entity?, ghost done: bool, ghost s: set<Entity>, ghost c: Context, ghost t: Tree)
      returns (ghost t': Tree)
      requires Focus(LinksOf(s), root, c, t) && elm == Root(t)
      requires if done then c.Top? && RedBlack(t) else RemoveGap(c, t) && (IsRed(t) || c.Top?)
      modifies s`red
      ensures Focus(LinksOf(s), root, Top, t') && RedBlack(t') && InOrder(t') == InOrder(Plug(c, t))
    {
      t' := Plug(c, Blacken(t));
      if !done {
        RemoveGapDone(c, t);
      }
      SameOrder(c, t, Blacken(t));
      if elm != null {
        ParentLinks(LinksOf(s), root, c, t);
        SetColor(elm, false, s, c, t.l, t.r);
      }
      FocusUp(LinksOf(s), root, c, Blacken(t));
    }

    /** The parent's pointer to an entity is redirected to its only child (tree.h:544-553 and 578-587). */
    method Bypass(x: Entity, child: Entity?, parent: Entity?, ghost s: set<Entity>, ghost c: Context,
                  ghost l: Tree, ghost xr: bool, ghost r: Tree)
      requires Focus(LinksOf(s), root, c, Node(l, x, xr, r))
      requires (l.Leaf? && child == Root(r)) || (r.Leaf? && child == Root(l))
      requires parent == ParentOf(c)
      modifies this`root, s`left, s`right, s`parent
      ensures Focus(LinksOf(s - {x}), root, c, if l.Leaf? then r else l)
      ensures x.left == old(x.left) && x.right == old(x.right) && x.parent == old(x.parent) && x.red == old(x.red)
    {
      ghost var m, root0, ct := LinksOf(s), root, if l.Leaf? then r else l;
      BypassReads(m, root, c, l, x, xr, r, ct);
      BypassLinks(x, child, parent, s, c, ct);
      BypassFocus(m, LinksOf(s - {x}), root0, c, l, x, xr, r, ct);
    }

    method BypassLinks(x: Entity, child: Entity?, parent: Entity?, ghost s: set<Entity>, ghost c: Context, ghost ct: Tree)
      requires x in s && child == Root(ct) && parent == ParentOf(c) && x != parent && x != child
      requires child != null ==> child in s && child != parent
      requires parent != null ==> parent in s && (parent.left == x <==> c.InLeft?)
      modifies this`root, s`left, s`right, s`parent
      ensures Bypassed(old(LinksOf(s)), LinksOf(s - {x}), c, x, ct)
      ensures root == NewRoot(old(root), c, child)
      ensures x.left == old(x.left) && x.right == old(x.right) && x.parent == old(x.parent)
    {
      Unhook(x, child, parent);
    }

    method Unhook(x: Entity, child: Entity?, parent: Entity?)
      requires child != x && parent != x && (child != null ==> child != parent)
      modifies this`root, if child == null then {} else {child}`parent
      modifies if parent == null then {} else {parent}`left, if parent == null then {} else {parent}`right
      ensures child != null ==> child.parent == parent
      ensures parent == null ==> root == child
      ensures parent != null ==> root == old(root)
      ensures parent != null && old(parent.left) == x ==> parent.left == child && parent.right == old(parent.right)
      ensures parent != null && old(parent.left) != x ==> parent.right == child && parent.left == old(parent.left)
    {
      if child != null {
        child.parent := parent;
      }
      if parent != null {
        if parent.left == x {
          parent.left := child;
        } else {
          parent.right := child;
        }
      } else {
        root := child;
      }
    }

    /** The entity y takes over the links of x: (elm)->field = (old)->field and what follows (tree.h:556-567). */
    method TakePlace(y: Entity, x: Entity, ghost s: set<Entity>, ghost c: Context, ghost l: Tree, ghost xr: bool,
                     ghost r: Tree)
      requires y !in s && Focus(LinksOf(s), root, c, Node(l, x, xr, r)) && l.Node?
      modifies this`root, s`left, s`right, s`parent, y`left, y`right, y`parent, y`red
      ensures Focus(LinksOf(s - {x} + {y}), root, c, Node(l, y, xr, r))
    {
      ghost var m, root0 := LinksOf(s), root;
      ReplaceReads(m, root, c, l, x, xr, r);
      TakeLinks(y, x, s, c, l, r);
      ReplaceFocus(m, LinksOf(s - {x} + {y}), root0, c, l, x, xr, r, y);
    }

    method TakeLinks(y: Entity, x: Entity, ghost s: set<Entity>, ghost c: Context, ghost l: Tree, ghost r: Tree)
      requires x in s && y !in s && l.Node? && x.left == l.x && x.right == Root(r) && x.parent == ParentOf(c)
      requires l.x in s && (r.Node? ==> r.x in s && r.x != l.x)
      requires ParentOf(c) != x && ParentOf(c) != l.x && (r.Node? ==> ParentOf(c) != r.x)
      requires x != l.x && x != Root(r)
      requires !c.Top? ==> c.x in s && (c.x.left == x <==> c.InLeft?)
      modifies this`root, s`left, s`right, s`parent, y`left, y`right, y`parent, y`red
      ensures Replaced(old(LinksOf(s)), LinksOf(s - {x} + {y}), c, x, y, l, r)
      ensures root == NewRoot(old(root), c, y)
    {
      Takeover(y, x);
    }

    method Takeover(y: Entity, x: Entity)
      requires x.left != null && x != y && x.left != y && x.right != y && x.parent != y
      requires x.left != x && x.right != x && x.parent != x && x.left != x.right
      requires x.parent != x.left && (x.right != null ==> x.parent != x.right)
      modifies this`root, y`left, y`right, y`parent, y`red
      modifies x.left`parent, if x.right == null then {} else {x.right}`parent
      modifies if x.parent == null then {} else {x.parent}`left, if x.parent == null then {} else {x.parent}`right
      ensures y.left == old(x.left) && y.right == old(x.right) && y.parent == old(x.parent) && y.red == old(x.red)
      ensures old(x.left).parent == y && (old(x.right) != null ==> old(x.right).parent == y)
      ensures old(x.parent) == null ==> root == y
      ensures old(x.parent) != null ==> root == old(root)
      ensures old(x.parent) != null && old(x.parent.left) == x ==>
                old(x.parent).left == y && old(x.parent).right == old(x.parent.right)
      ensures old(x.parent) != null && old(x.parent.left) != x ==>
                old(x.parent).right == y && old(x.parent).left == old(x.parent.left)
    {
      y.left, y.right, y.parent, y.red := x.left, x.right, x.parent, x.red;
      if x.parent != null {
        if x.parent.left == x {
          x.parent.left := y;
        } else {
          x.parent.right := y;
        }
      } else {
        root := y;
      }
      x.left.parent := y;
      if x.right != null {
        x.right.parent := y;
      }
    }

    /** RB_REMOVE of an entity with two children: its successor is bypassed and takes its place (tree.h:537-574). */
    method RemoveInner(x: Entity, ghost s: set<Entity>, ghost c: Context, ghost t: Tree)
      returns (color: bool, parent: Entity, child: Entity?, ghost c': Context, ghost t': Tree)
      requires Focus(LinksOf(s), root, c, t) && t.Node? && t.x == x && RedBlack(Plug(c, t))
      requires t.l.Node? && t.r.Node?
      modifies this`root, s`left, s`right, s`parent, s`red
      ensures Focus(LinksOf(s - {x}), root, c', t') && child == Root(t') && parent == ParentOf(c')
      ensures color ==> RedBlack(Plug(c', t'))
      ensures !color ==> RemoveGap(c', t')
      ensures InOrder(Plug(c', t')) == Before(c) + InOrder(t.l) + InOrder(t.r) + After(c)
    {
      var elm;
      ghost var d, y;
      elm, child, parent, color, d, y := DetachSuccessor(x, s, c, t);
      TakePlaceBelow(elm, x, s - {elm}, c, t.l, t.red, d, y.r);
      SwapSets(s, x, elm);
      SpliceGap(c, t, d, y);
      c', t' := Inside(d, InRight(t.l, elm, t.red, c)), y.r;
    }

    /** The successor is found and bypassed (tree.h:538-555). */
    method DetachSuccessor(x: Entity, ghost s: set<Entity>, ghost c: Context, ghost t: Tree)
      returns (elm: Entity, child: Entity?, parent: Entity, color: bool, ghost d: Context, ghost y: Tree)
      requires Focus(LinksOf(s), root, c, t) && t.Node? && t.x == x && t.r.Node?
      modifies this`root, s`left, s`right, s`parent
      ensures Plug(d, y) == t.r && Leftmost(d) && y.Node? && y.l.Leaf? && y.x == elm && elm in s && elm != x && x in s
      ensures Focus(LinksOf(s - {elm}), root, Inside(d, InRight(t.l, x, t.red, c)), y.r)
      ensures child == Root(y.r) && color == y.red && parent == if d.Top? then elm else d.x
    {
      elm, d, y := Successor(x, s, c, t);
      child, parent, color := elm.right, elm.parent, elm.red;
      Bypass(elm, child, parent, s, Inside(d, InRight(t.l, x, t.red, c)), Leaf, y.red, y.r);
      SuccessorElsewhere(c, t, d, y);
      if elm.parent == x {
        parent := elm;
      }
    }

    method TakePlaceBelow(y: Entity, x: Entity, ghost s: set<Entity>, ghost c: Context, ghost l: Tree, ghost xr: bool,
                          ghost d: Context, ghost t: Tree)
      requires y !in s && l.Node? && Focus(LinksOf(s), root, Inside(d, InRight(l, x, xr, c)), t)
      modifies this`root, s`left, s`right, s`parent, y`left, y`right, y`parent, y`red
      ensures Focus(LinksOf(s - {x} + {y}), root, Inside(d, InRight(l, y, xr, c)), t)
    {
      FocusDown(LinksOf(s), root, d, InRight(l, x, xr, c), t);
      ghost var r := Plug(d, t);
      Refocus(LinksOf(s), root, l, x, xr, r, c);
      TakePlace(y, x, s, c, l, xr, r);
      Refocus(LinksOf(s - {x} + {y}), root, l, y, xr, r, c);
      FocusDown(LinksOf(s - {x} + {y}), root, d, InRight(l, y, xr, c), t);
    }

    /** The leftmost entity of the right subtree (tree.h:538-540). */
    method Successor(x: Entity, ghost s: set<Entity>, ghost c: Context, ghost t: Tree)
      returns (elm: Entity, ghost d: Context, ghost y: Tree)
      requires Focus(LinksOf(s), root, c, t) && t.Node? && t.x == x && t.r.Node?
      ensures Plug(d, y) == t.r && Leftmost(d) && y.Node? && y.l.Leaf? && y.x == elm && elm in s && elm != x
      ensures Focus(LinksOf(s), root, Inside(d, InRight(t.l, x, t.red, c)), y)
      ensures elm.left == null && elm.right == Root(y.r) && elm.red == y.red
      ensures elm.parent == ParentOf(Inside(d, InRight(t.l, x, t.red, c)))
    {
      hide Focus, Separated, Elems, CtxElems, InOrder;
      Refocus(LinksOf(s), root, t.l, x, t.red, t.r, c);
      ParentLinks(LinksOf(s), root, c, t);
      elm := x.right;
      d, y := Top, t.r;
      ghost var cx := InRight(t.l, x, t.red, c);
      ParentLinks(LinksOf(s), root, cx, y);
      while elm.left != null
        invariant Plug(d, y) == t.r && Leftmost(d) && y.Node? && y.x == elm && elm in s
        invariant Focus(LinksOf(s), root, cx, y) && cx == Inside(d, InRight(t.l, x, t.red, c))
        invariant elm.left == Root(y.l) && elm.right == Root(y.r) && elm.red == y.red && elm.parent == ParentOf(cx)
        decreases y
      {
        elm := elm.left;
        Refocus(LinksOf(s), root, y.l, y.x, y.red, y.r, cx);
        cx := InLeft(y.x, y.red, y.r, cx);
        d, y := InLeft(y.x, y.red, y.r, d), y.l;
        ParentLinks(LinksOf(s), root, cx, y);
      }
      FocusDown(LinksOf(s), root, d, InRight(t.l, x, t.red, c), y);
      Refocus(LinksOf(s), root, t.l, x, t.red, t.r, c);
      FocusSeparated(LinksOf(s), root, c, t);
      SuccessorElsewhere(c, t, d, y);
    }

    /** RB_REMOVE of an entity with at most one child (tree.h:532-535 and 576-587). */
    method RemoveOuter(x: Entity, ghost s: set<Entity>, ghost c: Context, ghost t: Tree)
      returns (color: bool, parent: Entity?, child: Entity?, ghost c': Context, ghost t': Tree)
      requires Focus(LinksOf(s), root, c, t) && t.Node? && t.x == x && RedBlack(Plug(c, t))
      requires t.l.Leaf? || t.r.Leaf?
      modifies this`root, s`left, s`right, s`parent, s`red
      ensures Focus(LinksOf(s - {x}), root, c', t') && child == Root(t') && parent == ParentOf(c')
      ensures color ==> RedBlack(Plug(c', t'))
      ensures !color ==> RemoveGap(c', t')
      ensures InOrder(Plug(c', t')) == Before(c) + InOrder(t.l) + InOrder(t.r) + After(c)
    {
      ParentLinks(LinksOf(s), root, c, t);
      if x.left == null {
        child := x.right;
      } else {
        child := x.left;
      }
      parent, color := x.parent, x.red;
      c', t' := c, if t.l.Leaf? then t.r else t.l;
      UnlinkGap(c, t.l, x, t.red, t.r, t');
      Bypass(x, child, parent, s, c, t.l, t.red, t.r);
      InOrderPlug(c, t');
      OneChild(Before(c), InOrder(t.l), InOrder(t.r), After(c), InOrder(t'));
    }

    /** RB_REMOVE (tree.h:527-592). */
    method Remove(x: Entity, ghost s: set<Entity>, ghost c: Context, ghost t: Tree) returns (ghost t': Tree)
      requires Focus(LinksOf(s), root, c, t) && t.Node? && t.x == x && RedBlack(Plug(c, t))
      modifies this`root, s`left, s`right, s`parent, s`red
      ensures Focus(LinksOf(s - {x}), root, Top, t') && RedBlack(t')
      ensures InOrder(t') == Before(c) + InOrder(t.l) + InOrder(t.r) + After(c)
    {
      ParentLinks(LinksOf(s), root, c, t);
      var child, parent, color;
      ghost var c';
      if x.left == null || x.right == null {
        color, parent, child, c', t' := RemoveOuter(x, s, c, t);
      } else {
        color, parent, child, c', t' := RemoveInner(x, s, c, t);
      }
      if color {
        FocusUp(LinksOf(s - {x}), root, c', t');
        t' := Plug(c', t');
      } else {
        t' := RemoveColor(parent, child, s - {x}, c', t');
      }
    }

    // ---------- the timeline of a queue (pss.c:662-728) ----------

    ghost function Contents(): seq<Entity>
      reads `shape
    {
      InOrder(shape)
    }

    ghost predicate Linked()
      reads `root, `shape, `nodes, nodes`left, nodes`right, nodes`parent, nodes`red
    {
      && nodes == Elems(shape)
      && (forall i :: 0 <= i < |Contents()| ==> Contents()[i] in nodes)
      && Focus(LinksOf(nodes), root, Top, shape)
      && RedBlack(shape)
    }

    ghost predicate Valid()
      reads this, nodes
    {
      && Linked()
      && (forall e :: e in nodes ==> e.onSfq)
      && InVtimeOrder(Contents())
      && leftmost == First(Contents())
    }

    /** RB_INIT (tree.h:304-306). */
    constructor ()
      ensures Valid() && Contents() == []
    {
      root, leftmost, shape, nodes := null, null, Leaf, {};
    }

    /** The descent of __enqueue_entity: the empty pointer at which se belongs (pss.c:674-684). */
    method Descend(se: Entity)
      returns (parent: Entity?, comp: int, first: bool, ghost c: Context)
      requires Linked() && InVtimeOrder(Contents())
      ensures Focus(LinksOf(nodes), root, c, Leaf) && Plug(c, Leaf) == shape
      ensures parent == ParentOf(c) && (parent != null ==> (comp < 0 <==> c.InLeft?))
      ensures (first <==> Before(c) == []) && Splits(c, se)
    {
      var tmp := root;
      parent, comp, first := null, 0, true;
      c := Top;
      ghost var t := shape;
      ghost var m := LinksOf(nodes);
      RootAbove(m, root, c, t);
      while tmp != null
        invariant Focus(m, root, c, t) && Plug(c, t) == shape && tmp == Root(t)
        invariant parent == ParentOf(c) && (parent != null ==> (comp < 0 <==> c.InLeft?))
        invariant first <==> Before(c) == []
        invariant Splits(c, se) && InVtimeOrder(InOrder(shape))
        decreases t
      {
        FocusReads(m, root, c, t);
        ParentLinks(m, root, c, t);
        Refocus(m, root, t.l, t.x, t.red, t.r, c);
        DescendOrder(c, t, se);
        parent := tmp;
        comp := VtimeCmp(se, tmp);
        if comp < 0 {
          tmp := tmp.left;
          c, t := InLeft(t.x, t.red, t.r, c), t.l;
        } else {
          tmp := tmp.right;
          first := false;
          c, t := InRight(t.l, t.x, t.red, c), t.r;
        }
      }
    }

    /** RB_SET and the assignment to the parent's pointer or to the root (pss.c:685-693). */
    method Attach(se: Entity, parent: Entity?, comp: int, ghost s: set<Entity>, ghost c: Context)
      requires Focus(LinksOf(s), root, c, Leaf) && se !in s
      requires parent == ParentOf(c) && (parent != null ==> (comp < 0 <==> c.InLeft?))
      modifies this`root, s`left, s`right, se`left, se`right, se`parent, se`red
      ensures Focus(LinksOf(s + {se}), root, c, Node(Leaf, se, true, Leaf))
    {
      ghost var m, root0 := LinksOf(s), root;
      FocusReads(m, root, c, Leaf);
      se.parent, se.left, se.right, se.red := parent, null, null, true;
      if parent != null {
        if comp < 0 {
          parent.left := se;
        } else {
          parent.right := se;
        }
      } else {
        root := se;
      }
      AttachFocus(m, LinksOf(s + {se}), root0, c, se);
    }

    ghost method Settle(t: Tree, s: set<Entity>)
      requires Focus(LinksOf(s), root, Top, t) && RedBlack(t)
      modifies `shape, `nodes
      ensures Linked() && shape == t && nodes == s
    {
      FocusFacts(LinksOf(s), root, t);
      shape, nodes := t, s;
    }

    /** se is hung at the pointer found by the descent and the colours are restored (pss.c:685-694). */
    method Hang(se: Entity, parent: Entity?, comp: int, ghost c: Context)
      requires Linked() && se !in nodes && Plug(c, Leaf) == shape && Focus(LinksOf(nodes), root, c, Leaf)
      requires parent == ParentOf(c) && (parent != null ==> (comp < 0 <==> c.InLeft?))
      modifies this`root, this`shape, this`nodes, nodes`left, nodes`right, nodes`parent, nodes`red
      modifies se`left, se`right, se`parent, se`red
      ensures Linked() && nodes == old(nodes) + {se}
      ensures Contents() == Before(c) + [se] + After(c)
    {
      hide Focus, RedBlack;
      ghost var t, leaf := Leaf, Node(Leaf, se, true, Leaf);
      Attach(se, parent, comp, nodes, c);
      AttachGap(c, se);
      t := InsertColor(se, nodes + {se}, c, leaf);
      HoleOrder(c, se);
      Settle(t, nodes + {se});
    }

    /** __enqueue_entity (pss.c:665-702). */
    method Enqueue(se: Entity)
      requires Valid() && se !in nodes && !se.onSfq
      modifies this, nodes`left, nodes`right, nodes`parent, nodes`red
      modifies se`left, se`right, se`parent, se`red, se`onSfq
      ensures Valid() && nodes == old(nodes) + {se}
      ensures Contents() == old(InsertByVtime(Contents(), se))
    {
      hide Focus, RedBlack, Splits, InsertByVtime, InOrder, Before, After, Plug, Elems;
      var parent, comp, first;
      ghost var c;
      parent, comp, first, c := Descend(se);
      ghost var o := InsertByVtime(Contents(), se);
      PlaceInOrder(c, se, nodes);
      HoleOrder(c, se);
      Hang(se, parent, comp, c);
      assert InVtimeOrder(o);
      CacheLeftmost(se, first);
    }

    /** leftmost and SEF_ONSFQ follow the insertion (pss.c:696-701). */
    method CacheLeftmost(se: Entity, first: bool)
      requires Linked() && se in nodes && InVtimeOrder(Contents()) && Contents() != []
      requires forall e :: e in nodes && e != se ==> e.onSfq
      requires if first then Contents()[0] == se else leftmost == Contents()[0]
      modifies `leftmost, se`onSfq
      ensures Valid()
    {
      if first {
        leftmost := se;
      }
      se.onSfq := true;
    }

    /** RB_NEXT (tree.h:665-684). */
    method Next(x: Entity) returns (elm: Entity?)
      requires Linked() && x in nodes
      ensures forall i :: 0 <= i < |Contents()| && Contents()[i] == x ==>
                elm == First(Contents()[i + 1..])
    {
      ghost var s := nodes;
      ghost var c, t := Locate(shape, x);
      FocusDown(LinksOf(s), root, c, Top, t);
      InsideTop(c);
      ParentLinks(LinksOf(s), root, c, t);
      InOrderDistinct(shape);
      InOrderPlug(c, t);
      Reassociate(Before(c), InOrder(t.l), [x], InOrder(t.r), After(c));
      NextIs(Before(c) + InOrder(t.l), x, InOrder(t.r) + After(c), InOrder(shape));
      if x.right != null {
        elm := NextBelow(x, s, c, t);
      } else {
        elm := NextAbove(x, s, c, t);
        assert InOrder(t.r) + After(c) == After(c);
      }
    }

    /** With a right subtree the successor is its leftmost entity (tree.h:668-671). */
    method NextBelow(x: Entity, ghost s: set<Entity>, ghost c: Context, ghost t: Tree) returns (elm: Entity)
      requires Focus(LinksOf(s), root, c, t) && t.Node? && t.x == x && t.r.Node?
      ensures InOrder(t.r) != [] && elm == First(InOrder(t.r))
    {
      ghost var d, y;
      elm, d, y := Successor(x, s, c, t);
      InOrderPlug(d, y);
      LeftmostBefore(d);
    }

    /** Without a right subtree the successor is the nearest entity that has x to its left (tree.h:673-681). */
    method NextAbove(x: Entity, ghost s: set<Entity>, ghost c0: Context, ghost t0: Tree) returns (elm: Entity?)
      requires Focus(LinksOf(s), root, c0, t0) && t0.Node? && t0.x == x
      ensures elm == First(After(c0))
    {
      elm := x;
      ghost var c, t := c0, t0;
      ParentLinks(LinksOf(s), root, c, t);
      if elm.parent != null && elm == elm.parent.left {
        elm := elm.parent;
      } else {
        while elm.parent != null && elm == elm.parent.right
          invariant Focus(LinksOf(s), root, c, t) && t.Node? && t.x == elm && elm in s
          invariant elm.parent == ParentOf(c) && After(c) == After(c0)
          invariant c.InRight? ==> c.x in s && c.x.right == elm
          invariant c.InLeft? ==> c.x in s && c.x.right != elm
          decreases Depth(c)
        {
          Refocus(LinksOf(s), root, Up(c, t).l, c.x, c.red, Up(c, t).r, c.up);
          elm := elm.parent;
          c, t := c.up, Up(c, t);
          ParentLinks(LinksOf(s), root, c, t);
        }
        elm := elm.parent;
      }
    }

    /** The tree part of __dequeue_entity (pss.c:714). */
    method RemoveNode(se: Entity)
      requires Linked() && se in nodes
      modifies `root, `shape, `nodes, nodes`left, nodes`right, nodes`parent, nodes`red
      ensures Linked() && nodes == old(nodes) - {se}
      ensures Contents() == Without(old(Contents()), se)
    {
      hide Focus, RedBlack;
      ghost var c, t := Locate(shape, se);
      FocusDown(LinksOf(nodes), root, c, Top, t);
      InsideTop(c);
      FocusFacts(LinksOf(nodes), root, shape);
      RemovedAt(c, t);
      t := Remove(se, nodes, c, t);
      Settle(t, nodes - {se});
    }

    /** __dequeue_entity (pss.c:707-716). */
    method Dequeue(se: Entity)
      requires Valid() && se in nodes
      modifies this, nodes`left, nodes`right, nodes`parent, nodes`red, se`onSfq
      ensures Valid() && nodes == old(nodes) - {se}
      ensures Contents() == Without(old(Contents()), se)
    {
      hide Focus, RedBlack;
      ghost var o := Contents();
      ghost var o' := Without(o, se);
      FocusFacts(LinksOf(nodes), root, shape);
      DropInOrder(o, se, nodes);
      ghost var i := ElemAt(shape, se);
      assert leftmost == o[0];
      if leftmost == se {
        var next := Next(se);
        assert Contents() == o && Contents()[0] == se && next == First(o[1..]);
        leftmost := next;
      }
      assert leftmost == First(o');
      RemoveNode(se);
      assert InVtimeOrder(o');
      ClearFlag(se);
    }

    method ClearFlag(se: Entity)
      requires Linked() && se !in nodes && InVtimeOrder(Contents())
      requires forall e :: e in nodes ==> e.onSfq
      requires leftmost == First(Contents())
      modifies se`onSfq
      ensures Valid()
    {
      se.onSfq := false;
    }
  }
}
