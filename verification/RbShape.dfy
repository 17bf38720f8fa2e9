/** Red-black trees over linked entities, as values (tree.h:304-378).

    The heap of the timeline is read as a map from entities to their four link
    fields.  `Tree` is the shape those links spell out and `Context` the path from
    the root down to a pointer inside it, so that the source's loops, which hold a
    pointer somewhere in the middle of the tree, can say what surrounds it.  The
    methods of `Timeline` change the heap; the lemmas here say what each change
    does to the shape. */
module RbShape {

  /** The part of struct sched_entity (sched.h:156-172) that the timeline uses. */
  class Entity {
    var vruntime: int
    var onSfq: bool       // SEF_ONSFQ
    var left: Entity?
    var right: Entity?
    var parent: Entity?
    var red: bool
  }

  datatype Link = Link(left: Entity?, right: Entity?, parent: Entity?, red: bool)
  type Links = map<Entity, Link>

  datatype Tree = Leaf | Node(l: Tree, x: Entity, red: bool, r: Tree)

  /** A tree with one subtree cut out: `InLeft` when the hole is x's left child. */
  datatype Context =
    | Top
    | InLeft(x: Entity, red: bool, r: Tree, up: Context)
    | InRight(l: Tree, x: Entity, red: bool, up: Context)

  ghost function Plug(c: Context, t: Tree): Tree
    decreases c
  {
    match c
    case Top => t
    case InLeft(x, red, r, up) => Plug(up, Node(t, x, red, r))
    case InRight(l, x, red, up) => Plug(up, Node(l, x, red, t))
  }

  // ---------- contents ----------

  ghost function InOrder(t: Tree): seq<Entity> {
    match t
    case Leaf => []
    case Node(l, x, _, r) => InOrder(l) + [x] + InOrder(r)
  }

  /** What a context puts before and after its hole. */
  ghost function Before(c: Context): seq<Entity> {
    match c
    case Top => []
    case InLeft(_, _, _, up) => Before(up)
    case InRight(l, x, _, up) => Before(up) + InOrder(l) + [x]
  }

  ghost function After(c: Context): seq<Entity> {
    match c
    case Top => []
    case InLeft(x, _, r, up) => [x] + InOrder(r) + After(up)
    case InRight(_, _, _, up) => After(up)
  }

  lemma Regroup(p: seq<Entity>, q: seq<Entity>, r: seq<Entity>, s: seq<Entity>, t: seq<Entity>)
    ensures p + (q + r + s) + t == p + q + (r + s + t) == (p + q + r) + s + t
    ensures p + (q + r + s) == p + q + r + s
  {
  }

  lemma {:induction false} InOrderPlug(c: Context, t: Tree)
    ensures InOrder(Plug(c, t)) == Before(c) + InOrder(t) + After(c)
    decreases c
  {
    match c
    case Top =>
    case InLeft(x, red, r, up) =>
      InOrderPlug(up, Node(t, x, red, r));
      Regroup(Before(up), InOrder(t), [x], InOrder(r), After(up));
    case InRight(l, x, red, up) =>
      InOrderPlug(up, Node(l, x, red, t));
      Regroup(Before(up), InOrder(l), [x], InOrder(t), After(up));
  }

  // ---------- membership and separation ----------

  ghost function Elems(t: Tree): set<Entity> {
    match t
    case Leaf => {}
    case Node(l, x, _, r) => Elems(l) + {x} + Elems(r)
  }

  ghost function CtxElems(c: Context): set<Entity> {
    match c
    case Top => {}
    case InLeft(x, _, r, up) => {x} + Elems(r) + CtxElems(up)
    case InRight(l, x, _, up) => {x} + Elems(l) + CtxElems(up)
  }

  /** No entity occurs twice. */
  ghost predicate Separate(t: Tree) {
    match t
    case Leaf => true
    case Node(l, x, _, r) =>
      x !in Elems(l) && x !in Elems(r) && Elems(l) !! Elems(r) && Separate(l) && Separate(r)
  }

  ghost predicate CtxSeparate(c: Context) {
    match c
    case Top => true
    case InLeft(x, _, r, up) =>
      x !in Elems(r) && x !in CtxElems(up) && Elems(r) !! CtxElems(up) && Separate(r) && CtxSeparate(up)
    case InRight(l, x, _, up) =>
      x !in Elems(l) && x !in CtxElems(up) && Elems(l) !! CtxElems(up) && Separate(l) && CtxSeparate(up)
  }

  ghost predicate Separated(c: Context, t: Tree) {
    Separate(t) && CtxSeparate(c) && Elems(t) !! CtxElems(c)
  }

  // ---------- what the links spell out ----------

  ghost function Root(t: Tree): Entity? {
    if t.Leaf? then null else t.x
  }

  ghost function ParentOf(c: Context): Entity? {
    if c.Top? then null else c.x
  }

  /** The subtree below a child pointer of p, read off the links, is t. */
  ghost predicate Spells(m: Links, p: Entity?, t: Tree)
    decreases t
  {
    match t
    case Leaf => true
    case Node(l, x, red, r) =>
      && x in m && m[x] == Link(Root(l), Root(r), p, red)
      && Spells(m, x, l) && Spells(m, x, r)
  }

  /** Everything around the pointer `hole`, read off the links up to the root, is c. */
  ghost predicate CtxSpells(m: Links, root: Entity?, hole: Entity?, c: Context)
    decreases c
  {
    match c
    case Top => root == hole
    case InLeft(x, red, r, up) =>
      && x in m && m[x] == Link(hole, Root(r), ParentOf(up), red)
      && Spells(m, x, r) && CtxSpells(m, root, x, up)
    case InRight(l, x, red, up) =>
      && x in m && m[x] == Link(Root(l), hole, ParentOf(up), red)
      && Spells(m, x, l) && CtxSpells(m, root, x, up)
  }

  /** The links m with this root spell exactly the tree t in the context c. */
  ghost predicate Focus(m: Links, root: Entity?, c: Context, t: Tree) {
    && Separated(c, t)
    && m.Keys == Elems(t) + CtxElems(c)
    && Spells(m, ParentOf(c), t)
    && CtxSpells(m, root, Root(t), c)
  }

  lemma {:induction false} SpellsFrame(m: Links, m': Links, p: Entity?, t: Tree)
    requires Spells(m, p, t)
    requires forall e :: e in Elems(t) ==> e in m' && (e in m ==> m'[e] == m[e])
    ensures Spells(m', p, t)
    decreases t
  {
    match t
    case Leaf =>
    case Node(l, x, _, r) =>
      SpellsFrame(m, m', x, l);
      SpellsFrame(m, m', x, r);
  }

  /** Only the parent link of the subtree's root has changed. */
  lemma SpellsReparent(m: Links, m': Links, p: Entity?, p': Entity?, t: Tree)
    requires Spells(m, p, t) && Separate(t)
    requires forall e :: e in Elems(t) ==> e in m'
    requires forall e :: e in Elems(t) && e in m ==> m'[e] == if e == Root(t) then m[e].(parent := p') else m[e]
    ensures Spells(m', p', t)
  {
    if t.Node? {
      SpellsFrame(m, m', t.x, t.l);
      SpellsFrame(m, m', t.x, t.r);
    }
  }

  lemma {:induction false} CtxSpellsFrame(m: Links, m': Links, root: Entity?, hole: Entity?, c: Context)
    requires CtxSpells(m, root, hole, c)
    requires forall e :: e in CtxElems(c) ==> e in m' && (e in m ==> m'[e] == m[e])
    ensures CtxSpells(m', root, hole, c)
    decreases c
  {
    match c
    case Top =>
    case InLeft(x, _, r, up) =>
      SpellsFrame(m, m', x, r);
      CtxSpellsFrame(m, m', root, x, up);
    case InRight(l, x, _, up) =>
      SpellsFrame(m, m', x, l);
      CtxSpellsFrame(m, m', root, x, up);
  }

  /** The child (or root) pointer that was `hole` now is `hole'`; nothing else above has changed. */
  ghost function Redirect(m: Links, c: Context, hole': Entity?): Links
    requires c.Top? || c.x in m
  {
    match c
    case Top => m
    case InLeft(x, _, _, _) => m[x := m[x].(left := hole')]
    case InRight(_, x, _, _) => m[x := m[x].(right := hole')]
  }

  ghost function NewRoot(root: Entity?, c: Context, hole': Entity?): Entity? {
    if c.Top? then hole' else root
  }

  lemma CtxSpellsRedirect(m: Links, m': Links, root: Entity?, hole: Entity?, hole': Entity?, c: Context)
    requires CtxSpells(m, root, hole, c) && CtxSeparate(c)
    requires forall e :: e in CtxElems(c) ==> e in m'
    requires forall e :: e in CtxElems(c) && e in m ==> m'[e] == Redirect(m, c, hole')[e]
    ensures CtxSpells(m', NewRoot(root, c, hole'), hole', c)
  {
    match c
    case Top =>
    case InLeft(x, _, r, up) =>
      SpellsFrame(m, m', x, r);
      CtxSpellsFrame(m, m', root, x, up);
    case InRight(l, x, _, up) =>
      SpellsFrame(m, m', x, l);
      CtxSpellsFrame(m, m', root, x, up);
  }

  // ---------- moving the focus ----------

  lemma {:induction false} FocusUp(m: Links, root: Entity?, c: Context, t: Tree)
    requires Focus(m, root, c, t)
    ensures Focus(m, root, Top, Plug(c, t))
    decreases c
  {
    match c
    case Top =>
    case InLeft(x, red, r, up) => FocusUp(m, root, up, Node(t, x, red, r));
    case InRight(l, x, red, up) => FocusUp(m, root, up, Node(l, x, red, t));
  }

  // ---------- balance ----------

  ghost predicate IsRed(t: Tree) {
    t.Node? && t.red
  }

  ghost function BlackHeight(t: Tree): nat {
    if t.Leaf? then 0 else BlackHeight(t.l) + if t.red then 0 else 1
  }

  ghost predicate Balanced(t: Tree) {
    t.Node? ==> BlackHeight(t.l) == BlackHeight(t.r) && Balanced(t.l) && Balanced(t.r)
  }

  ghost predicate NoRedRed(t: Tree) {
    t.Node? ==> (t.red ==> !IsRed(t.l) && !IsRed(t.r)) && NoRedRed(t.l) && NoRedRed(t.r)
  }

  /** The three conditions of tree.h:51-56, with a black root. */
  ghost predicate RedBlack(t: Tree) {
    Balanced(t) && NoRedRed(t) && !IsRed(t)
  }

  /** c is red-black around any subtree of black height h, black-rooted unless `red`. */
  ghost predicate Fits(c: Context, h: int, red: bool) {
    match c
    case Top => !red
    case InLeft(_, xred, r, up) =>
      && Balanced(r) && NoRedRed(r) && BlackHeight(r) == h
      && (xred ==> !red && !IsRed(r))
      && Fits(up, h + (if xred then 0 else 1), xred)
    case InRight(l, _, xred, up) =>
      && Balanced(l) && NoRedRed(l) && BlackHeight(l) == h
      && (xred ==> !red && !IsRed(l))
      && Fits(up, h + (if xred then 0 else 1), xred)
  }

  lemma {:induction false} FitsPlug(c: Context, t: Tree)
    ensures RedBlack(Plug(c, t)) <==>
              Balanced(t) && NoRedRed(t) && Fits(c, BlackHeight(t), IsRed(t))
    decreases c
  {
    match c
    case Top =>
    case InLeft(x, red, r, up) => FitsPlug(up, Node(t, x, red, r));
    case InRight(l, x, red, up) => FitsPlug(up, Node(l, x, red, t));
  }

  // ---------- rotations ----------

  /** The links after RB_ROTATE_LEFT(x) (tree.h:340-358). */
  ghost function RotL(m: Links, x: Entity): Links
    requires x in m && m[x].right != null && m[x].right in m
  {
    var y := m[x].right;
    var b, p := m[y].left, m[x].parent;
    map n | n in m ::
      Link(if n == y then x else if n == p && m[n].left == x then y else m[n].left,
           if n == x then b else if n == p && m[n].left != x then y else m[n].right,
           if n == x then y else if n == y then p else if n == b then x else m[n].parent,
           m[n].red)
  }

  /** The links after RB_ROTATE_RIGHT(x) (tree.h:360-378). */
  ghost function RotR(m: Links, x: Entity): Links
    requires x in m && m[x].left != null && m[x].left in m
  {
    var y := m[x].left;
    var b, p := m[y].right, m[x].parent;
    map n | n in m ::
      Link(if n == x then b else if n == p && m[n].left == x then y else m[n].left,
           if n == y then x else if n == p && m[n].left != x then y else m[n].right,
           if n == x then y else if n == y then p else if n == b then x else m[n].parent,
           m[n].red)
  }

  /** a, x, b, y, d are the parts of a subtree with two entities at its top, in order. */
  ghost predicate Apart(a: Tree, x: Entity, b: Tree, y: Entity, d: Tree, c: Context) {
    && Separate(a) && Separate(b) && Separate(d) && CtxSeparate(c)
    && Elems(a) !! Elems(b) && Elems(a) !! Elems(d) && Elems(b) !! Elems(d)
    && Elems(a) !! CtxElems(c) && Elems(b) !! CtxElems(c) && Elems(d) !! CtxElems(c)
    && x != y
    && x !in Elems(a) && x !in Elems(b) && x !in Elems(d) && x !in CtxElems(c)
    && y !in Elems(a) && y !in Elems(b) && y !in Elems(d) && y !in CtxElems(c)
  }

  lemma SeparateLeftDeep(a: Tree, x: Entity, xr: bool, b: Tree, y: Entity, yr: bool, d: Tree, c: Context)
    ensures Separated(c, Node(Node(a, x, xr, b), y, yr, d)) <==> Apart(a, x, b, y, d, c)
    ensures Elems(Node(Node(a, x, xr, b), y, yr, d)) == Elems(a) + {x} + Elems(b) + {y} + Elems(d)
  {
    assert Separate(Node(a, x, xr, b)) <==>
           x !in Elems(a) && x !in Elems(b) && Elems(a) !! Elems(b) && Separate(a) && Separate(b);
    assert Elems(Node(a, x, xr, b)) == Elems(a) + {x} + Elems(b);
  }

  lemma SeparateRightDeep(a: Tree, x: Entity, xr: bool, b: Tree, y: Entity, yr: bool, d: Tree, c: Context)
    ensures Separated(c, Node(a, x, xr, Node(b, y, yr, d))) <==> Apart(a, x, b, y, d, c)
    ensures Elems(Node(a, x, xr, Node(b, y, yr, d))) == Elems(a) + {x} + Elems(b) + {y} + Elems(d)
  {
    assert Separate(Node(b, y, yr, d)) <==>
           y !in Elems(b) && y !in Elems(d) && Elems(b) !! Elems(d) && Separate(b) && Separate(d);
    assert Elems(Node(b, y, yr, d)) == Elems(b) + {y} + Elems(d);
  }

  lemma RotLFocus(m: Links, root: Entity?, c: Context, a: Tree, x: Entity, xr: bool,
                  b: Tree, y: Entity, yr: bool, d: Tree)
    requires Focus(m, root, c, Node(a, x, xr, Node(b, y, yr, d)))
    ensures x in m && m[x].right == y && y in m
    ensures Focus(RotL(m, x), NewRoot(root, c, y), c, Node(Node(a, x, xr, b), y, yr, d))
  {
    SeparateRightDeep(a, x, xr, b, y, yr, d, c);
    SeparateLeftDeep(a, x, xr, b, y, yr, d, c);
    assert Spells(m, x, Node(b, y, yr, d));
    RotLSpells(m, root, c, a, x, xr, b, y, yr, d);
  }

  lemma RotRFocus(m: Links, root: Entity?, c: Context, a: Tree, y: Entity, yr: bool,
                  b: Tree, x: Entity, xr: bool, d: Tree)
    requires Focus(m, root, c, Node(Node(a, y, yr, b), x, xr, d))
    ensures x in m && m[x].left == y && y in m
    ensures Focus(RotR(m, x), NewRoot(root, c, y), c, Node(a, y, yr, Node(b, x, xr, d)))
  {
    SeparateRightDeep(a, y, yr, b, x, xr, d, c);
    SeparateLeftDeep(a, y, yr, b, x, xr, d, c);
    assert Spells(m, x, Node(a, y, yr, b));
    RotRSpells(m, root, c, a, y, yr, b, x, xr, d);
  }

  lemma RootWithin(t: Tree)
    ensures Root(t) != null ==> Root(t) in Elems(t)
  {
  }

  lemma ParentWithin(c: Context)
    ensures ParentOf(c) != null ==> ParentOf(c) in CtxElems(c)
  {
  }

  /** A subtree that contains none of the four entities a rotation relinks is still there. */
  lemma RotLFar(m: Links, x: Entity, p: Entity?, t: Tree)
    requires x in m && m[x].right != null && m[x].right in m && Elems(t) <= m.Keys
    requires Elems(t) !! {x, m[x].right} && m[x].parent !in Elems(t) && m[m[x].right].left !in Elems(t)
    requires Spells(m, p, t)
    ensures Spells(RotL(m, x), p, t)
  {
    SpellsFrame(m, RotL(m, x), p, t);
  }

  lemma RotRFar(m: Links, x: Entity, p: Entity?, t: Tree)
    requires x in m && m[x].left != null && m[x].left in m && Elems(t) <= m.Keys
    requires Elems(t) !! {x, m[x].left} && m[x].parent !in Elems(t) && m[m[x].left].right !in Elems(t)
    requires Spells(m, p, t)
    ensures Spells(RotR(m, x), p, t)
  {
    SpellsFrame(m, RotR(m, x), p, t);
  }

  /** The inner grandchild subtree has moved under x. */
  lemma RotLNear(m: Links, x: Entity, y: Entity, t: Tree)
    requires x in m && m[x].right == y && y in m && Elems(t) <= m.Keys
    requires Elems(t) !! {x, y} && m[x].parent !in Elems(t) && m[y].left == Root(t)
    requires Spells(m, y, t) && Separate(t)
    ensures Spells(RotL(m, x), x, t)
  {
    SpellsReparent(m, RotL(m, x), y, x, t);
  }

  lemma RotLAround(m: Links, root: Entity?, x: Entity, y: Entity, c: Context)
    requires x in m && m[x].right == y && y in m && CtxElems(c) <= m.Keys
    requires CtxElems(c) !! {x, y} && m[x].parent == ParentOf(c) && m[y].left !in CtxElems(c)
    requires CtxSpells(m, root, x, c) && CtxSeparate(c)
    ensures CtxSpells(RotL(m, x), NewRoot(root, c, y), y, c)
  {
    CtxSpellsRedirect(m, RotL(m, x), root, x, y, c);
  }

  lemma RotLSpells(m: Links, root: Entity?, c: Context, a: Tree, x: Entity, xr: bool,
                   b: Tree, y: Entity, yr: bool, d: Tree)
    requires Apart(a, x, b, y, d, c)
    requires m.Keys == Elems(a) + {x} + Elems(b) + {y} + Elems(d) + CtxElems(c)
    requires m[x] == Link(Root(a), y, ParentOf(c), xr) && m[y] == Link(Root(b), Root(d), x, yr)
    requires Spells(m, x, a) && Spells(m, y, b) && Spells(m, y, d) && CtxSpells(m, root, x, c)
    ensures var m' := RotL(m, x);
            && Spells(m', ParentOf(c), Node(Node(a, x, xr, b), y, yr, d))
            && CtxSpells(m', NewRoot(root, c, y), y, c)
  {
    hide Elems, CtxElems, Separate, CtxSeparate;
    var m' := RotL(m, x);
    RootWithin(b);
    ParentWithin(c);
    RotLFar(m, x, x, a);
    RotLFar(m, x, y, d);
    RotLNear(m, x, y, b);
    RotLAround(m, root, x, y, c);
  }

  /** The inner grandchild subtree has moved under x. */
  lemma RotRNear(m: Links, x: Entity, y: Entity, t: Tree)
    requires x in m && m[x].left == y && y in m && Elems(t) <= m.Keys
    requires Elems(t) !! {x, y} && m[x].parent !in Elems(t) && m[y].right == Root(t)
    requires Spells(m, y, t) && Separate(t)
    ensures Spells(RotR(m, x), x, t)
  {
    SpellsReparent(m, RotR(m, x), y, x, t);
  }

  lemma RotRAround(m: Links, root: Entity?, x: Entity, y: Entity, c: Context)
    requires x in m && m[x].left == y && y in m && CtxElems(c) <= m.Keys
    requires CtxElems(c) !! {x, y} && m[x].parent == ParentOf(c) && m[y].right !in CtxElems(c)
    requires CtxSpells(m, root, x, c) && CtxSeparate(c)
    ensures CtxSpells(RotR(m, x), NewRoot(root, c, y), y, c)
  {
    CtxSpellsRedirect(m, RotR(m, x), root, x, y, c);
  }

  lemma RotRSpells(m: Links, root: Entity?, c: Context, a: Tree, y: Entity, yr: bool,
                   b: Tree, x: Entity, xr: bool, d: Tree)
    requires Apart(a, y, b, x, d, c)
    requires m.Keys == Elems(a) + {y} + Elems(b) + {x} + Elems(d) + CtxElems(c)
    requires m[x] == Link(y, Root(d), ParentOf(c), xr) && m[y] == Link(Root(a), Root(b), x, yr)
    requires Spells(m, y, a) && Spells(m, y, b) && Spells(m, x, d) && CtxSpells(m, root, x, c)
    ensures var m' := RotR(m, x);
            && Spells(m', ParentOf(c), Node(a, y, yr, Node(b, x, xr, d)))
            && CtxSpells(m', NewRoot(root, c, y), y, c)
  {
    hide Elems, CtxElems, Separate, CtxSeparate;
    var m' := RotR(m, x);
    RootWithin(b);
    ParentWithin(c);
    RotRFar(m, x, y, a);
    RotRFar(m, x, x, d);
    RotRNear(m, x, y, b);
    RotRAround(m, root, x, y, c);
  }

  /** What stands around an entity, part by part. */
  ghost predicate Around(m: Links, root: Entity?, c: Context, l: Tree, x: Entity, xr: bool, r: Tree) {
    && Separate(l) && Separate(r) && CtxSeparate(c)
    && Elems(l) !! Elems(r) && Elems(l) !! CtxElems(c) && Elems(r) !! CtxElems(c)
    && x !in Elems(l) && x !in Elems(r) && x !in CtxElems(c)
    && m.Keys == Elems(l) + {x} + Elems(r) + CtxElems(c)
    && x in m && m[x] == Link(Root(l), Root(r), ParentOf(c), xr)
    && Spells(m, x, l) && Spells(m, x, r) && CtxSpells(m, root, x, c)
  }

  lemma FocusNode(m: Links, root: Entity?, c: Context, l: Tree, x: Entity, xr: bool, r: Tree)
    ensures Focus(m, root, c, Node(l, x, xr, r)) <==> Around(m, root, c, l, x, xr, r)
  {
  }

  // ---------- recolouring and refocusing ----------

  ghost function Paint(m: Links, x: Entity, red: bool): Links
    requires x in m
  {
    m[x := m[x].(red := red)]
  }

  lemma PaintFocus(m: Links, root: Entity?, c: Context, l: Tree, x: Entity, xr: bool, r: Tree, red: bool)
    requires Focus(m, root, c, Node(l, x, xr, r))
    ensures x in m && Focus(Paint(m, x, red), root, c, Node(l, x, red, r))
  {
    var m' := Paint(m, x, red);
    FocusNode(m, root, c, l, x, xr, r);
    PaintSpells(m, root, c, l, x, xr, r, red);
    FocusNode(m', root, c, l, x, red, r);
  }

  lemma PaintSpells(m: Links, root: Entity?, c: Context, l: Tree, x: Entity, xr: bool, r: Tree, red: bool)
    requires Around(m, root, c, l, x, xr, r)
    ensures Around(Paint(m, x, red), root, c, l, x, red, r)
  {
    hide Elems, CtxElems, Separate, CtxSeparate, Spells, CtxSpells;
    var m' := Paint(m, x, red);
    SpellsFrame(m, m', x, l);
    SpellsFrame(m, m', x, r);
    CtxSpellsFrame(m, m', root, x, c);
  }

  /** A focus can be read from the entity above or from the one below. */
  lemma Refocus(m: Links, root: Entity?, l: Tree, x: Entity, red: bool, r: Tree, up: Context)
    ensures Focus(m, root, up, Node(l, x, red, r)) <==> Focus(m, root, InLeft(x, red, r, up), l)
    ensures Focus(m, root, up, Node(l, x, red, r)) <==> Focus(m, root, InRight(l, x, red, up), r)
  {
    FocusNode(m, root, up, l, x, red, r);
    assert Around(m, root, up, l, x, red, r) <==> Focus(m, root, InLeft(x, red, r, up), l);
    assert Around(m, root, up, l, x, red, r) <==> Focus(m, root, InRight(l, x, red, up), r);
  }

  // ---------- what the pointers around a focus are ----------

  /** The pointer that a context's top entity keeps to its hole, and only that one. */
  lemma ParentLinks(m: Links, root: Entity?, c: Context, t: Tree)
    requires Focus(m, root, c, t) && t.Node?
    ensures t.x in m && m[t.x].left == Root(t.l) && m[t.x].right == Root(t.r)
    ensures m[t.x].parent == ParentOf(c) && m[t.x].red == t.red
    ensures c.Top? ==> root == t.x
    ensures c.InLeft? ==> c.x in m && c.x != t.x && m[c.x].left == t.x && m[c.x].right != t.x
    ensures c.InRight? ==> c.x in m && c.x != t.x && m[c.x].right == t.x && m[c.x].left != t.x
    ensures ParentOf(c) !in Elems(t)
  {
    assert t.x in Elems(t);
    if c.InLeft? {
      assert c.x in CtxElems(c) && (c.r.Node? ==> c.r.x in Elems(c.r) && Elems(c.r) <= CtxElems(c));
    } else if c.InRight? {
      assert c.x in CtxElems(c) && (c.l.Node? ==> c.l.x in Elems(c.l) && Elems(c.l) <= CtxElems(c));
    }
  }

  lemma TopLinksRight(m: Links, root: Entity?, c: Context, a: Tree, x: Entity, xr: bool,
                      b: Tree, y: Entity, yr: bool, d: Tree)
    requires Focus(m, root, c, Node(a, x, xr, Node(b, y, yr, d)))
    ensures x in m && y in m && x != y
    ensures m[x].right == y && m[y].left == Root(b) && Root(b) != x && Root(b) != y
    ensures b.Node? ==> b.x in m && b.x != ParentOf(c)
    ensures m[x].parent == ParentOf(c) && ParentOf(c) != x && ParentOf(c) != y
    ensures c.Top? ==> root == x
    ensures !c.Top? ==> c.x in m && (m[c.x].left == x <==> m[c.x].right != x)
  {
    var t := Node(a, x, xr, Node(b, y, yr, d));
    ParentLinks(m, root, c, t);
    SeparateRightDeep(a, x, xr, b, y, yr, d, c);
    assert Spells(m, x, Node(b, y, yr, d));
    assert b.Node? ==> b.x in Elems(b) && Elems(b) <= Elems(t);
  }

  lemma TopLinksLeft(m: Links, root: Entity?, c: Context, a: Tree, y: Entity, yr: bool,
                     b: Tree, x: Entity, xr: bool, d: Tree)
    requires Focus(m, root, c, Node(Node(a, y, yr, b), x, xr, d))
    ensures x in m && y in m && x != y
    ensures m[x].left == y && m[y].right == Root(b) && Root(b) != x && Root(b) != y
    ensures b.Node? ==> b.x in m && b.x != ParentOf(c)
    ensures m[x].parent == ParentOf(c) && ParentOf(c) != x && ParentOf(c) != y
    ensures c.Top? ==> root == x
    ensures !c.Top? ==> c.x in m && (m[c.x].left == x <==> m[c.x].right != x)
  {
    var t := Node(Node(a, y, yr, b), x, xr, d);
    ParentLinks(m, root, c, t);
    SeparateLeftDeep(a, y, yr, b, x, xr, d, c);
    assert Spells(m, x, Node(a, y, yr, b));
    assert b.Node? ==> b.x in Elems(b) && Elems(b) <= Elems(t);
  }

  // ---------- insertion: what the fix-up loop keeps ----------

  /** One level of `Plug`. */
  ghost function Up(c: Context, t: Tree): Tree
    requires !c.Top?
  {
    if c.InLeft? then Node(t, c.x, c.red, c.r) else Node(c.l, c.x, c.red, t)
  }

  ghost function Depth(c: Context): nat {
    if c.Top? then 0 else 1 + Depth(c.up)
  }

  /** The tree is red-black except that the red entity at the focus may have a red parent. */
  ghost predicate InsertGap(c: Context, t: Tree) {
    t.Node? && t.red && Balanced(t) && NoRedRed(t) && Fits(c, BlackHeight(t), false)
  }

  /** A red parent is not the root, and its own parent is black. */
  lemma RedParent(c: Context, t: Tree)
    requires InsertGap(c, t) && !c.Top? && c.red
    ensures !c.up.Top? && !c.up.red
    ensures Balanced(Up(c, t)) && Fits(c.up, BlackHeight(t), true)
  {
    assert Fits(c.up, BlackHeight(t), true);
  }

  /** Recolouring moves the gap two levels up (tree.h:414-419 and 430-435). */
  lemma GapUpLeft(c: Context, t: Tree, p: Tree, u: Tree)
    requires InsertGap(c, t) && !c.Top? && c.red && c.up.InLeft? && p == Up(c, t) && u == c.up.r
    requires IsRed(u)
    ensures InsertGap(c.up.up, Node(p.(red := false), c.up.x, true, u.(red := false)))
  {
    RedParent(c, t);
  }

  lemma GapUpRight(c: Context, t: Tree, p: Tree, u: Tree)
    requires InsertGap(c, t) && !c.Top? && c.red && c.up.InRight? && p == Up(c, t) && u == c.up.l
    requires IsRed(u)
    ensures InsertGap(c.up.up, Node(u.(red := false), c.up.x, true, p.(red := false)))
  {
    RedParent(c, t);
  }

  /** With a black uncle one rotation closes the gap (tree.h:426-427 and 442-443). */
  lemma GapClosedLeft(e: Tree, p: Entity, s: Tree, g: Entity, gr: bool, u: Tree, up: Context)
    requires InsertGap(InLeft(p, true, s, InLeft(g, gr, u, up)), e) && !IsRed(u)
    ensures !gr && InsertGap(InLeft(p, false, Node(s, g, true, u), up), e)
  {
    assert Fits(InLeft(g, gr, u, up), BlackHeight(e), true);
    assert Balanced(Node(s, g, true, u)) && NoRedRed(Node(s, g, true, u));
    assert BlackHeight(Node(s, g, true, u)) == BlackHeight(e);
  }

  lemma GapClosedRight(e: Tree, p: Entity, s: Tree, g: Entity, gr: bool, u: Tree, up: Context)
    requires InsertGap(InRight(s, p, true, InRight(u, g, gr, up)), e) && !IsRed(u)
    ensures !gr && InsertGap(InRight(Node(u, g, true, s), p, false, up), e)
  {
    assert Fits(InRight(u, g, gr, up), BlackHeight(e), true);
    assert Balanced(Node(u, g, true, s)) && NoRedRed(Node(u, g, true, s));
    assert BlackHeight(Node(u, g, true, s)) == BlackHeight(e);
  }

  /** An inner red grandchild is first rotated outward (tree.h:420-425 and 436-441). */
  lemma GapOutward(a: Tree, p: Entity, e: Tree, up: Context)
    requires InsertGap(InRight(a, p, true, up), e)
    ensures InsertGap(InLeft(e.x, true, e.r, up), Node(a, p, true, e.l))
  {
  }

  lemma GapInward(a: Tree, p: Entity, e: Tree, up: Context)
    requires InsertGap(InLeft(p, true, a, up), e)
    ensures InsertGap(InRight(e.l, e.x, true, up), Node(e.r, p, true, a))
  {
  }

  /** When the loop ends, blackening the root leaves a red-black tree. */
  lemma GapDone(c: Context, t: Tree)
    requires InsertGap(c, t) && (c.Top? || !c.red)
    ensures c.Top? ==> RedBlack(t.(red := false))
    ensures !c.Top? ==> RedBlack(Plug(c, t))
  {
    FitsPlug(c, t);
  }

  lemma SameOrder(c: Context, t: Tree, t': Tree)
    requires InOrder(t) == InOrder(t')
    ensures InOrder(Plug(c, t)) == InOrder(Plug(c, t'))
  {
    InOrderPlug(c, t);
    InOrderPlug(c, t');
  }

  /** A rotation, with whatever colours, leaves the order of the whole tree alone. */
  lemma RotatedOrder(c: Context, a: Tree, x: Entity, xr: bool, b: Tree, y: Entity, yr: bool, d: Tree,
                     xr': bool, yr': bool)
    ensures InOrder(Plug(c, Node(a, x, xr, Node(b, y, yr, d)))) == InOrder(Plug(c, Node(Node(a, x, xr', b), y, yr', d)))
  {
    Regroup(InOrder(a) + [x], InOrder(b), [y], InOrder(d), []);
    SameOrder(c, Node(a, x, xr, Node(b, y, yr, d)), Node(Node(a, x, xr', b), y, yr', d));
  }

  /** What the loop reads from the entity at the focus and, under a red parent, from its grandparent. */
  lemma GapLinks(m: Links, root: Entity?, c: Context, t: Tree)
    requires Focus(m, root, c, t) && InsertGap(c, t)
    ensures t.x in m && m[t.x].parent == ParentOf(c)
    ensures !c.Top? ==> c.x in m && m[c.x].red == c.red
    ensures !c.Top? && c.red ==>
              && !c.up.Top? && m[c.x].parent == c.up.x && c.up.x in m
              && (m[c.up.x].left == c.x <==> c.up.InLeft?)
  {
    ParentLinks(m, root, c, t);
    if !c.Top? && c.red {
      RedParent(c, t);
      Refocus(m, root, Up(c, t).l, c.x, true, Up(c, t).r, c.up);
      ParentLinks(m, root, c.up, Up(c, t));
    }
  }

  /** The loop has ended; seen from the root. */
  lemma GapClosed(m: Links, root: Entity?, c: Context, t: Tree)
    requires Focus(m, root, c, t) && InsertGap(c, t) && (c.Top? || !c.red)
    ensures Focus(m, root, Top, Plug(c, t)) && Plug(c, t).Node? && root == Plug(c, t).x
    ensures RedBlack(Plug(c, t).(red := false))
  {
    FocusUp(m, root, c, t);
    PlugNode(c, t);
    GapDone(c, t);
  }

  lemma {:induction false} PlugNode(c: Context, t: Tree)
    requires t.Node?
    ensures Plug(c, t).Node?
    decreases c
  {
    if !c.Top? {
      PlugNode(c.up, Up(c, t));
    }
  }

  // ---------- removal: what the fix-up loop keeps ----------

  ghost function Blacken(t: Tree): Tree {
    if t.Leaf? then t else t.(red := false)
  }

  /** The subtree at the focus is one black entity short; its root, if red, is about to be blackened. */
  ghost predicate RemoveGap(c: Context, t: Tree) {
    Balanced(t) && NoRedRed(Blacken(t)) && Fits(c, BlackHeight(t) + 1, false)
  }

  lemma FitsBlack(c: Context, h: int)
    ensures Fits(c, h, true) ==> Fits(c, h, false)
  {
  }

  /** The loop ends at a red entity or at the root (tree.h:453-454, 523-524). */
  lemma RemoveGapDone(c: Context, t: Tree)
    requires RemoveGap(c, t) && (IsRed(t) || c.Top?)
    ensures RedBlack(Plug(c, Blacken(t)))
  {
    FitsPlug(c, Blacken(t));
  }

  // When the short subtree is a left child: n is the sibling's nearer child, f its farther one.

  lemma ShortSiblingLeft(t: Tree, p: Entity, pr: bool, w: Tree, up: Context)
    requires RemoveGap(InLeft(p, pr, w, up), t)
    ensures w.Node? && (w.red ==> !pr && w.l.Node? && w.r.Node? && !IsRed(w.l) && !IsRed(w.r))
  {
    assert Balanced(w) && NoRedRed(w) && BlackHeight(w) == BlackHeight(t) + 1;
  }

  /** A red sibling is rotated above the parent (tree.h:457-461). */
  lemma GapBelowLeft(t: Tree, p: Entity, pr: bool, n: Tree, w: Entity, f: Tree, up: Context)
    requires RemoveGap(InLeft(p, pr, Node(n, w, true, f), up), t)
    ensures !pr && RemoveGap(InLeft(p, true, n, InLeft(w, false, f, up)), t)
  {
    assert Balanced(Node(n, w, true, f)) && NoRedRed(Node(n, w, true, f));
    assert Fits(InLeft(w, false, f, up), BlackHeight(t) + 1, true);
  }

  /** A sibling without red children is reddened and the gap moves up (tree.h:462-468). */
  lemma GapAboveLeft(t: Tree, p: Entity, pr: bool, w: Tree, up: Context)
    requires RemoveGap(InLeft(p, pr, w, up), t) && !IsRed(t)
    requires w.Node? && !w.red && !IsRed(w.l) && !IsRed(w.r)
    ensures RemoveGap(up, Node(t, p, pr, w.(red := true)))
  {
    var w', u := w.(red := true), Node(t, p, pr, w.(red := true));
    assert Balanced(w) && NoRedRed(w);
    assert Balanced(w') && NoRedRed(w') && BlackHeight(w') == BlackHeight(t);
    assert BlackHeight(u) == BlackHeight(t) + (if pr then 0 else 1);
    FitsBlack(up, BlackHeight(u) + 1);
  }

  /** A red child on the near side is rotated to the far side (tree.h:470-479). */
  lemma GapFarLeft(t: Tree, p: Entity, pr: bool, a: Tree, o: Entity, b: Tree, w: Entity, f: Tree, up: Context)
    requires RemoveGap(InLeft(p, pr, Node(Node(a, o, true, b), w, false, f), up), t) && !IsRed(f)
    ensures RemoveGap(InLeft(p, pr, Node(a, o, false, Node(b, w, true, f)), up), t)
  {
    assert Balanced(Node(Node(a, o, true, b), w, false, f)) && NoRedRed(Node(Node(a, o, true, b), w, false, f));
    assert Balanced(Node(a, o, true, b)) && NoRedRed(Node(a, o, true, b));
    assert Balanced(Node(b, w, true, f)) && NoRedRed(Node(b, w, true, f));
    assert Balanced(Node(a, o, false, Node(b, w, true, f)));
    assert BlackHeight(Node(a, o, false, Node(b, w, true, f))) == BlackHeight(t) + 1;
  }

  /** With a red far child one rotation fills the gap (tree.h:480-484). */
  lemma GapFilledLeft(t: Tree, p: Entity, pr: bool, n: Tree, w: Entity, f: Tree, up: Context)
    requires RemoveGap(InLeft(p, pr, Node(n, w, false, f), up), t) && !IsRed(t) && IsRed(f)
    ensures RedBlack(Plug(up, Node(Node(t, p, false, n), w, pr, f.(red := false))))
  {
    assert Balanced(Node(n, w, false, f)) && NoRedRed(Node(n, w, false, f));
    var u := Node(Node(t, p, false, n), w, pr, f.(red := false));
    assert Balanced(f) && NoRedRed(f);
    assert Balanced(f.(red := false)) && NoRedRed(f.(red := false)) && BlackHeight(f.(red := false)) == BlackHeight(t) + 1;
    assert BlackHeight(u) == BlackHeight(t) + 1 + (if pr then 0 else 1);
    assert Balanced(Node(t, p, false, n)) && NoRedRed(Node(t, p, false, n));
    FitsPlug(up, u);
  }

  // When the short subtree is a right child: n is the sibling's nearer child, f its farther one.

  lemma ShortSiblingRight(t: Tree, p: Entity, pr: bool, w: Tree, up: Context)
    requires RemoveGap(InRight(w, p, pr, up), t)
    ensures w.Node? && (w.red ==> !pr && w.l.Node? && w.r.Node? && !IsRed(w.l) && !IsRed(w.r))
  {
    assert Balanced(w) && NoRedRed(w) && BlackHeight(w) == BlackHeight(t) + 1;
  }

  /** A red sibling is rotated above the parent (tree.h:490-494). */
  lemma GapBelowRight(t: Tree, p: Entity, pr: bool, n: Tree, w: Entity, f: Tree, up: Context)
    requires RemoveGap(InRight(Node(f, w, true, n), p, pr, up), t)
    ensures !pr && RemoveGap(InRight(n, p, true, InRight(f, w, false, up)), t)
  {
    assert Balanced(Node(f, w, true, n)) && NoRedRed(Node(f, w, true, n));
    assert Fits(InRight(f, w, false, up), BlackHeight(t) + 1, true);
  }

  /** A sibling without red children is reddened and the gap moves up (tree.h:495-501). */
  lemma GapAboveRight(t: Tree, p: Entity, pr: bool, w: Tree, up: Context)
    requires RemoveGap(InRight(w, p, pr, up), t) && !IsRed(t)
    requires w.Node? && !w.red && !IsRed(w.l) && !IsRed(w.r)
    ensures RemoveGap(up, Node(w.(red := true), p, pr, t))
  {
    var w', u := w.(red := true), Node(w.(red := true), p, pr, t);
    assert Balanced(w) && NoRedRed(w);
    assert Balanced(w') && NoRedRed(w') && BlackHeight(w') == BlackHeight(t);
    assert BlackHeight(u) == BlackHeight(t) + (if pr then 0 else 1);
    FitsBlack(up, BlackHeight(u) + 1);
  }

  /** A red child on the near side is rotated to the far side (tree.h:503-512). */
  lemma GapFarRight(t: Tree, p: Entity, pr: bool, a: Tree, o: Entity, b: Tree, w: Entity, f: Tree, up: Context)
    requires RemoveGap(InRight(Node(f, w, false, Node(b, o, true, a)), p, pr, up), t) && !IsRed(f)
    ensures RemoveGap(InRight(Node(Node(f, w, true, b), o, false, a), p, pr, up), t)
  {
    assert Balanced(Node(f, w, false, Node(b, o, true, a))) && NoRedRed(Node(f, w, false, Node(b, o, true, a)));
    assert Balanced(Node(b, o, true, a)) && NoRedRed(Node(b, o, true, a));
    assert Balanced(Node(f, w, true, b)) && NoRedRed(Node(f, w, true, b));
    assert Balanced(Node(Node(f, w, true, b), o, false, a));
    assert BlackHeight(Node(Node(f, w, true, b), o, false, a)) == BlackHeight(t) + 1;
  }

  /** With a red far child one rotation fills the gap (tree.h:513-517). */
  lemma GapFilledRight(t: Tree, p: Entity, pr: bool, n: Tree, w: Entity, f: Tree, up: Context)
    requires RemoveGap(InRight(Node(f, w, false, n), p, pr, up), t) && !IsRed(t) && IsRed(f)
    ensures RedBlack(Plug(up, Node(f.(red := false), w, pr, Node(n, p, false, t))))
  {
    assert Balanced(Node(f, w, false, n)) && NoRedRed(Node(f, w, false, n));
    var u := Node(f.(red := false), w, pr, Node(n, p, false, t));
    assert Balanced(f) && NoRedRed(f);
    assert Balanced(f.(red := false)) && NoRedRed(f.(red := false)) && BlackHeight(f.(red := false)) == BlackHeight(t) + 1;
    assert BlackHeight(u) == BlackHeight(t) + 1 + (if pr then 0 else 1);
    assert Balanced(Node(n, p, false, t)) && NoRedRed(Node(n, p, false, t));
    FitsPlug(up, u);
  }

  // ---------- removal: reading the links, keeping the order ----------

  lemma SiblingLinksLeft(m: Links, root: Entity?, c: Context, t: Tree)
    requires Focus(m, root, c, t) && c.InLeft? && c.r.Node?
    ensures var w := c.r;
            && c.x in m && m[c.x].red == c.red && m[c.x].right == w.x
            && w.x in m && m[w.x].red == w.red && m[w.x].left == Root(w.l) && m[w.x].right == Root(w.r)
            && (w.l.Node? ==> w.l.x in m && m[w.l.x].red == w.l.red)
            && (w.r.Node? ==> w.r.x in m && m[w.r.x].red == w.r.red)
  {
    assert Spells(m, c.x, c.r);
    assert Spells(m, c.r.x, c.r.l) && Spells(m, c.r.x, c.r.r);
  }

  lemma SpreadOrderLeft(t: Tree, p: Entity, pr: bool, a: Tree, o: Entity, b: Tree, w: Entity, f: Tree, up: Context)
    ensures InOrder(Plug(InLeft(p, pr, Node(Node(a, o, true, b), w, false, f), up), t))
         == InOrder(Plug(InLeft(p, pr, Node(a, o, false, Node(b, w, true, f)), up), t))
  {
    RotatedOrder(Top, a, o, false, b, w, true, f, true, false);
    SameOrder(up, Node(t, p, pr, Node(Node(a, o, true, b), w, false, f)),
              Node(t, p, pr, Node(a, o, false, Node(b, w, true, f))));
  }

  lemma FillOrderLeft(t: Tree, p: Entity, pr: bool, n: Tree, w: Entity, f: Tree, up: Context)
    requires f.Node?
    ensures InOrder(Plug(InLeft(p, pr, Node(n, w, false, f), up), t))
         == InOrder(Plug(up, Node(Node(t, p, false, n), w, pr, f.(red := false))))
  {
    RotatedOrder(up, t, p, pr, n, w, false, f, false, pr);
    SameOrder(up, Node(Node(t, p, false, n), w, pr, f), Node(Node(t, p, false, n), w, pr, f.(red := false)));
  }

  lemma SiblingLinksRight(m: Links, root: Entity?, c: Context, t: Tree)
    requires Focus(m, root, c, t) && c.InRight? && c.l.Node?
    ensures var w := c.l;
            && c.x in m && m[c.x].red == c.red && m[c.x].left == w.x
            && w.x in m && m[w.x].red == w.red && m[w.x].left == Root(w.l) && m[w.x].right == Root(w.r)
            && (w.l.Node? ==> w.l.x in m && m[w.l.x].red == w.l.red)
            && (w.r.Node? ==> w.r.x in m && m[w.r.x].red == w.r.red)
  {
    assert Spells(m, c.x, c.l);
    assert Spells(m, c.l.x, c.l.l) && Spells(m, c.l.x, c.l.r);
  }

  lemma SpreadOrderRight(t: Tree, p: Entity, pr: bool, a: Tree, o: Entity, b: Tree, w: Entity, f: Tree, up: Context)
    ensures InOrder(Plug(InRight(Node(f, w, false, Node(b, o, true, a)), p, pr, up), t))
         == InOrder(Plug(InRight(Node(Node(f, w, true, b), o, false, a), p, pr, up), t))
  {
    RotatedOrder(Top, f, w, false, b, o, true, a, true, false);
    SameOrder(up, Node(Node(f, w, false, Node(b, o, true, a)), p, pr, t),
              Node(Node(Node(f, w, true, b), o, false, a), p, pr, t));
  }

  lemma FillOrderRight(t: Tree, p: Entity, pr: bool, n: Tree, w: Entity, f: Tree, up: Context)
    requires f.Node?
    ensures InOrder(Plug(InRight(Node(f, w, false, n), p, pr, up), t))
         == InOrder(Plug(up, Node(f.(red := false), w, pr, Node(n, p, false, t))))
  {
    RotatedOrder(up, f, w, pr, n, p, false, t, false, pr);
    SameOrder(up, Node(f, w, pr, Node(n, p, false, t)), Node(f.(red := false), w, pr, Node(n, p, false, t)));
  }

  // ---------- unlinking an entity ----------

  /** x, which lacks a child, is bypassed: its parent and its child point at each other. */
  ghost predicate Bypassed(m: Links, m': Links, c: Context, x: Entity, child: Tree)
    requires c.Top? || c.x in m
  {
    && m'.Keys == m.Keys - {x}
    && (forall e :: e in m' ==>
          m'[e] == if e == Root(child) then m[e].(parent := ParentOf(c)) else Redirect(m, c, Root(child))[e])
  }

  lemma BypassFocus(m: Links, m': Links, root: Entity?, c: Context, l: Tree, x: Entity, xr: bool, r: Tree, child: Tree)
    requires Focus(m, root, c, Node(l, x, xr, r))
    requires (l.Leaf? && child == r) || (r.Leaf? && child == l)
    requires c.Top? || c.x in m
    requires Bypassed(m, m', c, x, child)
    ensures Focus(m', NewRoot(root, c, Root(child)), c, child)
  {
    assert child.Node? ==> child.x in Elems(child);
    assert !c.Top? ==> c.x in CtxElems(c);
    assert Spells(m, x, child);
    SpellsReparent(m, m', x, ParentOf(c), child);
    CtxSpellsRedirect(m, m', root, x, Root(child), c);
  }

  /** y, from outside, has taken over the links of x. */
  ghost predicate Replaced(m: Links, m': Links, c: Context, x: Entity, y: Entity, l: Tree, r: Tree)
    requires x in m && (c.Top? || c.x in m)
  {
    && m'.Keys == m.Keys - {x} + {y}
    && m'[y] == m[x]
    && (forall e :: e in m' && e != y ==>
          m'[e] == if e == Root(l) || e == Root(r) then m[e].(parent := y) else Redirect(m, c, y)[e])
  }

  lemma ReplaceFocus(m: Links, m': Links, root: Entity?, c: Context, l: Tree, x: Entity, xr: bool, r: Tree, y: Entity)
    requires Focus(m, root, c, Node(l, x, xr, r)) && y !in m
    requires c.Top? || c.x in m
    requires Replaced(m, m', c, x, y, l, r)
    ensures Focus(m', NewRoot(root, c, y), c, Node(l, y, xr, r))
  {
    FocusNode(m, root, c, l, x, xr, r);
    ReplaceSpells(m, m', root, c, l, x, xr, r, y);
    FocusNode(m', NewRoot(root, c, y), c, l, y, xr, r);
  }

  lemma ReplaceSpells(m: Links, m': Links, root: Entity?, c: Context, l: Tree, x: Entity, xr: bool, r: Tree, y: Entity)
    requires Around(m, root, c, l, x, xr, r) && y !in m
    requires c.Top? || c.x in m
    requires Replaced(m, m', c, x, y, l, r)
    ensures Around(m', NewRoot(root, c, y), c, l, y, xr, r)
  {
    hide Elems, CtxElems, Separate, CtxSeparate, Spells, CtxSpells;
    RootWithin(l);
    RootWithin(r);
    ParentWithin(c);
    SpellsReparent(m, m', x, y, l);
    SpellsReparent(m, m', x, y, r);
    CtxSpellsRedirect(m, m', root, x, y, c);
  }

  /** Contexts compose: c inside d. */
  ghost function Inside(c: Context, d: Context): Context {
    match c
    case Top => d
    case InLeft(x, red, r, up) => InLeft(x, red, r, Inside(up, d))
    case InRight(l, x, red, up) => InRight(l, x, red, Inside(up, d))
  }

  lemma {:induction false} PlugInside(c: Context, d: Context, t: Tree)
    ensures Plug(Inside(c, d), t) == Plug(d, Plug(c, t))
    decreases c
  {
    if !c.Top? {
      PlugInside(c.up, d, Up(c, t));
    }
  }

  /** A focus may be read from above a path or from its lower end. */
  lemma {:induction false} FocusDown(m: Links, root: Entity?, c: Context, d: Context, t: Tree)
    ensures Focus(m, root, d, Plug(c, t)) <==> Focus(m, root, Inside(c, d), t)
    decreases c
  {
    match c
    case Top =>
    case InLeft(x, red, r, up) =>
      FocusDown(m, root, up, d, Node(t, x, red, r));
      Refocus(m, root, t, x, red, r, Inside(up, d));
    case InRight(l, x, red, up) =>
      FocusDown(m, root, up, d, Node(l, x, red, t));
      Refocus(m, root, l, x, red, t, Inside(up, d));
  }

  /** A path of left children only, as the search for a successor walks it. */
  ghost predicate Leftmost(c: Context) {
    c.Top? || (c.InLeft? && Leftmost(c.up))
  }

  lemma {:induction false} LeftmostBefore(c: Context)
    requires Leftmost(c)
    ensures Before(c) == []
  {
    if !c.Top? {
      LeftmostBefore(c.up);
    }
  }

  /** What is left of a red-black tree around an unlinked entity with at most one child. */
  lemma UnlinkGap(c: Context, l: Tree, x: Entity, xr: bool, r: Tree, child: Tree)
    requires RedBlack(Plug(c, Node(l, x, xr, r)))
    requires (l.Leaf? && child == r) || (r.Leaf? && child == l)
    ensures xr ==> RedBlack(Plug(c, child))
    ensures !xr ==> RemoveGap(c, child)
  {
    FitsPlug(c, Node(l, x, xr, r));
    UnlinkFits(c, l, x, xr, r, child);
    if xr {
      FitsPlug(c, child);
    }
  }

  lemma UnlinkFits(c: Context, l: Tree, x: Entity, xr: bool, r: Tree, child: Tree)
    requires Balanced(Node(l, x, xr, r)) && NoRedRed(Node(l, x, xr, r))
    requires (l.Leaf? && child == r) || (r.Leaf? && child == l)
    requires Fits(c, BlackHeight(l) + (if xr then 0 else 1), xr)
    ensures xr ==> child.Leaf? && Fits(c, 0, false)
    ensures !xr ==> RemoveGap(c, child)
  {
    assert BlackHeight(child) == 0 && Balanced(child) && NoRedRed(child);
    NoRedRedBlacken(child);
    FitsBlack(c, 0);
  }

  lemma NoRedRedBlacken(t: Tree)
    ensures NoRedRed(t) ==> NoRedRed(Blacken(t))
  {
  }

  /** Whether the invariants hold does not depend on which entity sits at a place. */
  lemma {:induction false} FitsRename(c: Context, d: Context, l: Tree, x: Entity, y: Entity, xr: bool, h: int, red: bool)
    ensures Fits(Inside(c, InRight(l, x, xr, d)), h, red) <==> Fits(Inside(c, InRight(l, y, xr, d)), h, red)
    decreases c
  {
    if !c.Top? {
      FitsRename(c.up, d, l, x, y, xr, h + (if c.red then 0 else 1), c.red);
    }
  }

  /** The root is the pointer at the focus only when nothing is above it. */
  lemma {:induction false} RootAbove(m: Links, root: Entity?, c: Context, t: Tree)
    requires Focus(m, root, c, t)
    ensures !c.Top? ==> root != null && root in CtxElems(c) && root != Root(t)
    ensures c.Top? ==> root == Root(t)
    decreases c
  {
    if !c.Top? {
      assert Root(t) != null ==> Root(t) in Elems(t);
      Refocus(m, root, Up(c, t).l, c.x, c.red, Up(c, t).r, c.up);
      RootAbove(m, root, c.up, Up(c, t));
      assert c.up.Top? ==> root == c.x;
    }
  }

  // ---------- attaching a new leaf ----------

  /** se, from outside, has been hung red and childless at the empty pointer under c. */
  ghost predicate Attached(m: Links, m': Links, c: Context, se: Entity)
    requires c.Top? || c.x in m
  {
    && m'.Keys == m.Keys + {se}
    && m'[se] == Link(null, null, ParentOf(c), true)
    && (forall e :: e in m' && e != se ==> m'[e] == Redirect(m, c, se)[e])
  }

  lemma AttachFocus(m: Links, m': Links, root: Entity?, c: Context, se: Entity)
    requires Focus(m, root, c, Leaf) && se !in m
    requires c.Top? || c.x in m
    requires Attached(m, m', c, se)
    ensures Focus(m', NewRoot(root, c, se), c, Node(Leaf, se, true, Leaf))
  {
    CtxSpellsRedirect(m, m', root, null, se, c);
  }

  lemma AttachGap(c: Context, se: Entity)
    requires RedBlack(Plug(c, Leaf))
    ensures InsertGap(c, Node(Leaf, se, true, Leaf))
  {
    FitsPlug(c, Leaf);
  }

  // ---------- finding an entity ----------

  lemma {:induction false} Locate(t: Tree, e: Entity) returns (c: Context, s: Tree)
    requires e in Elems(t)
    ensures Plug(c, s) == t && s.Node? && s.x == e
  {
    if t.x == e {
      return Top, t;
    } else if e in Elems(t.l) {
      c, s := Locate(t.l, e);
      PlugInside(c, InLeft(t.x, t.red, t.r, Top), s);
      c := Inside(c, InLeft(t.x, t.red, t.r, Top));
    } else {
      c, s := Locate(t.r, e);
      PlugInside(c, InRight(t.l, t.x, t.red, Top), s);
      c := Inside(c, InRight(t.l, t.x, t.red, Top));
    }
  }

  lemma {:induction false} InOrderElems(t: Tree)
    ensures forall i :: 0 <= i < |InOrder(t)| ==> InOrder(t)[i] in Elems(t)
  {
    if t.Node? {
      InOrderElems(t.l);
      InOrderElems(t.r);
    }
  }

  lemma {:induction false} ElemAt(t: Tree, e: Entity) returns (i: nat)
    requires e in Elems(t)
    ensures i < |InOrder(t)| && InOrder(t)[i] == e
  {
    if t.x == e {
      i := |InOrder(t.l)|;
    } else if e in Elems(t.l) {
      i := ElemAt(t.l, e);
    } else {
      i := ElemAt(t.r, e);
      i := |InOrder(t.l)| + 1 + i;
    }
  }

  ghost predicate Distinct(s: seq<Entity>) {
    forall i, j :: 0 <= i < j < |s| ==> s[i] != s[j]
  }

  lemma {:induction false} InOrderDistinct(t: Tree)
    requires Separate(t)
    ensures Distinct(InOrder(t))
  {
    if t.Node? {
      InOrderDistinct(t.l);
      InOrderDistinct(t.r);
      InOrderElems(t.l);
      InOrderElems(t.r);
      var p, q, s := InOrder(t.l), InOrder(t.r), InOrder(t);
      forall i, j | 0 <= i < j < |s| ensures s[i] != s[j] {
        assert i < |p| ==> s[i] == p[i] && s[i] in Elems(t.l);
        assert j > |p| ==> s[j] == q[j - |p| - 1] && s[j] in Elems(t.r);
      }
    }
  }

  lemma FocusFacts(m: Links, root: Entity?, t: Tree)
    requires Focus(m, root, Top, t)
    ensures m.Keys == Elems(t) && Separate(t) && Distinct(InOrder(t))
    ensures forall i :: 0 <= i < |InOrder(t)| ==> InOrder(t)[i] in m
  {
    InOrderElems(t);
    InOrderDistinct(t);
  }

  lemma {:induction false} LeftmostInside(c: Context, d: Context)
    requires Leftmost(c)
    ensures Before(Inside(c, d)) == Before(d) && After(Inside(c, d)) == After(c) + After(d)
    decreases c
  {
    if !c.Top? {
      LeftmostInside(c.up, d);
    }
  }

  // ---------- the height bound (tree.h:58-59) ----------

  ghost function Height(t: Tree): nat {
    if t.Leaf? then 0 else 1 + if Height(t.l) < Height(t.r) then Height(t.r) else Height(t.l)
  }

  function Pow2(n: nat): nat {
    if n == 0 then 1 else 2 * Pow2(n - 1)
  }

  lemma {:induction false} SizeFromBlackHeight(t: Tree)
    requires Balanced(t)
    ensures Pow2(BlackHeight(t)) <= |InOrder(t)| + 1
  {
    if t.Node? {
      SizeFromBlackHeight(t.l);
      SizeFromBlackHeight(t.r);
    }
  }

  lemma {:induction false} HeightFromBlackHeight(t: Tree)
    requires Balanced(t) && NoRedRed(t)
    ensures Height(t) <= 2 * BlackHeight(t) + if IsRed(t) then 1 else 0
  {
    if t.Node? {
      HeightFromBlackHeight(t.l);
      HeightFromBlackHeight(t.r);
    }
  }

  lemma {:induction false} Pow2Monotone(a: nat, b: nat)
    requires a <= b
    ensures Pow2(a) <= Pow2(b)
    decreases b
  {
    if a < b {
      Pow2Monotone(a, b - 1);
    }
  }

  lemma {:induction false} Pow2Double(a: nat)
    ensures Pow2(2 * a) == Pow2(a) * Pow2(a)
  {
    if a > 0 {
      Pow2Double(a - 1);
      assert Pow2(2 * a) == 2 * Pow2(2 * a - 1) == 4 * Pow2(2 * (a - 1));
      assert Pow2(a) * Pow2(a) == (2 * Pow2(a - 1)) * (2 * Pow2(a - 1)) == 4 * (Pow2(a - 1) * Pow2(a - 1));
    }
  }

  lemma SquareMonotone(a: nat, b: nat)
    requires a <= b
    ensures a * a <= b * b
  {
  }

  /** A tree of n entities is at most 2 lg(n + 1) high. */
  lemma HeightBound(t: Tree)
    requires RedBlack(t)
    ensures Pow2(Height(t)) <= (|InOrder(t)| + 1) * (|InOrder(t)| + 1)
  {
    SizeFromBlackHeight(t);
    HeightFromBlackHeight(t);
    Pow2Monotone(Height(t), 2 * BlackHeight(t));
    Pow2Double(BlackHeight(t));
    SquareMonotone(Pow2(BlackHeight(t)), |InOrder(t)| + 1);
  }

  // ---------- what removal reads from the links ----------

  lemma FocusReads(m: Links, root: Entity?, c: Context, t: Tree)
    requires Focus(m, root, c, t)
    ensures c.Top? <==> Root(t) == root
    ensures t.Node? ==> t.x in m && m[t.x].red == t.red
    ensures c.InLeft? ==> c.x in m && m[c.x].left == Root(t)
    ensures c.InRight? ==> c.x in m && m[c.x].left == Root(c.l) && (Root(c.l) == Root(t) ==> t.Leaf? && c.l.Leaf?)
  {
    RootAbove(m, root, c, t);
    assert t.Node? ==> t.x in Elems(t);
    assert c.InRight? && c.l.Node? ==> c.l.x in Elems(c.l) && Elems(c.l) <= CtxElems(c);
  }

  lemma ReplaceReads(m: Links, root: Entity?, c: Context, l: Tree, x: Entity, xr: bool, r: Tree)
    requires Focus(m, root, c, Node(l, x, xr, r)) && l.Node?
    ensures x in m && m[x].left == l.x && m[x].right == Root(r) && m[x].parent == ParentOf(c)
    ensures l.x in m && (r.Node? ==> r.x in m && r.x != l.x)
    ensures ParentOf(c) != x && ParentOf(c) != l.x && (r.Node? ==> ParentOf(c) != r.x)
    ensures x != l.x && x != Root(r)
    ensures !c.Top? ==> c.x in m && (m[c.x].left == x <==> c.InLeft?)
  {
    ParentLinks(m, root, c, Node(l, x, xr, r));
    assert l.x in Elems(l) && (r.Node? ==> r.x in Elems(r));
  }

  lemma SuccessorElsewhere(c: Context, t: Tree, d: Context, y: Tree)
    requires Separated(c, t) && t.Node? && Plug(d, y) == t.r && y.Node?
    ensures y.x != t.x && (!d.Top? ==> d.x != t.x)
  {
    PlugElems(d, y);
    assert !d.Top? ==> d.x in CtxElems(d);
  }

  lemma FocusSeparated(m: Links, root: Entity?, c: Context, t: Tree)
    requires Focus(m, root, c, t)
    ensures Separated(c, t)
  {
  }

  lemma SwapSets(s: set<Entity>, x: Entity, y: Entity)
    requires x in s && y in s && x != y
    ensures s - {y} - {x} + {y} == s - {x}
  {
  }

  lemma {:induction false} PlugElems(c: Context, t: Tree)
    ensures Elems(Plug(c, t)) == Elems(t) + CtxElems(c)
    decreases c
  {
    if !c.Top? {
      PlugElems(c.up, Up(c, t));
    }
  }

  /** Unlinking the successor y of t's root and moving it to the root: colours and order. */
  lemma SpliceGap(c: Context, t: Tree, d: Context, y: Tree)
    requires t.Node? && RedBlack(Plug(c, t))
    requires Plug(d, y) == t.r && Leftmost(d) && y.Node? && y.l.Leaf?
    ensures var c' := Inside(d, InRight(t.l, y.x, t.red, c));
            && (y.red ==> RedBlack(Plug(c', y.r)))
            && (!y.red ==> RemoveGap(c', y.r))
            && InOrder(Plug(c', y.r)) == Before(c) + InOrder(t.l) + InOrder(t.r) + After(c)
  {
    var c1 := InRight(t.l, t.x, t.red, c);
    assert Plug(Inside(d, c1), y) == Plug(c, t) by {
      PlugInside(d, c1, y);
      assert Plug(c1, t.r) == Plug(c, Node(t.l, t.x, t.red, t.r));
    }
    UnlinkGap(Inside(d, c1), y.l, y.x, y.red, y.r, y.r);
    RenameGap(c, t.l, t.x, y.x, t.red, d, y.r);
    SpliceOrder(c, t, d, y);
  }

  lemma RenameGap(c: Context, l: Tree, x: Entity, x': Entity, xr: bool, d: Context, t: Tree)
    ensures var cx, cx' := Inside(d, InRight(l, x, xr, c)), Inside(d, InRight(l, x', xr, c));
            && (RedBlack(Plug(cx, t)) <==> RedBlack(Plug(cx', t)))
            && (RemoveGap(cx, t) <==> RemoveGap(cx', t))
  {
    FitsRename(d, c, l, x, x', xr, BlackHeight(t), IsRed(t));
    FitsRename(d, c, l, x, x', xr, BlackHeight(t) + 1, false);
    FitsPlug(Inside(d, InRight(l, x, xr, c)), t);
    FitsPlug(Inside(d, InRight(l, x', xr, c)), t);
  }

  lemma Resplice(bc: seq<Entity>, l: seq<Entity>, y: seq<Entity>, q: seq<Entity>, ad: seq<Entity>, ac: seq<Entity>)
    ensures (bc + l + y) + q + (ad + ac) == bc + l + ([] + ([] + y + q) + ad) + ac
  {
    assert [] + ([] + y + q) + ad == y + q + ad;
  }

  lemma SpliceOrder(c: Context, t: Tree, d: Context, y: Tree)
    requires t.Node? && Plug(d, y) == t.r && Leftmost(d) && y.Node? && y.l.Leaf?
    ensures var c' := Inside(d, InRight(t.l, y.x, t.red, c));
            InOrder(Plug(c', y.r)) == Before(c) + InOrder(t.l) + InOrder(t.r) + After(c)
  {
    var c1 := InRight(t.l, y.x, t.red, c);
    InOrderPlug(Inside(d, c1), y.r);
    LeftmostInside(d, c1);
    InOrderPlug(d, y);
    LeftmostBefore(d);
    assert InOrder(y) == InOrder(y.l) + [y.x] + InOrder(y.r) && InOrder(y.l) == [];
    Resplice(Before(c), InOrder(t.l), [y.x], InOrder(y.r), After(d), After(c));
  }

  lemma OneChild(b: seq<Entity>, l: seq<Entity>, r: seq<Entity>, a: seq<Entity>, child: seq<Entity>)
    requires (l == [] && child == r) || (r == [] && child == l)
    ensures b + child + a == b + l + r + a
  {
  }

  lemma BypassReads(m: Links, root: Entity?, c: Context, l: Tree, x: Entity, xr: bool, r: Tree, child: Tree)
    requires Focus(m, root, c, Node(l, x, xr, r))
    requires (l.Leaf? && child == r) || (r.Leaf? && child == l)
    ensures x in m && x != ParentOf(c) && x != Root(child)
    ensures child.Node? ==> child.x in m && child.x != ParentOf(c)
    ensures c.InLeft? ==> c.x in m && m[c.x].left == x
    ensures c.InRight? ==> c.x in m && m[c.x].left != x
  {
    ParentLinks(m, root, c, Node(l, x, xr, r));
    assert child.Node? ==> child.x in Elems(child);
    assert Spells(m, x, child);
  }

  lemma {:induction false} InsideTop(c: Context)
    ensures Inside(c, Top) == c
    decreases c
  {
    if !c.Top? {
      InsideTop(c.up);
    }
  }
}
