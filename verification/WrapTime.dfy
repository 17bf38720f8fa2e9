/** 64-bit wrap-around time (pss.c:419-433, 730-744; sched.h:490-500).

    Virtual times and clocks are unsigned 64-bit words that wrap.  The other modules
    keep them as unbounded integers; the lemmas here say that the words and the
    integers agree as long as the values compared lie less than 2^63 apart. */
module WrapTime {
  import RbTree
  import RbShape

  const TWO_63: int := 0x8000_0000_0000_0000
  const TWO_64: int := 0x1_0000_0000_0000_0000

  type Word = x: int | 0 <= x < TWO_64

  /** The word that stores an unbounded value. */
  function Wrap(x: int): Word {
    x % TWO_64
  }

  function Sub(a: Word, b: Word): Word {
    (a - b) % TWO_64
  }

  function Add(a: Word, b: Word): Word {
    (a + b) % TWO_64
  }

  /** (int64_t)x */
  function Signed(x: Word): int {
    if x < TWO_63 then x else x - TWO_64
  }

  /** vtime_cmp (pss.c:419-425). */
  function VtimeCmp(a: Word, b: Word): int {
    if Signed(Sub(a, b)) < 0 then -1 else 1
  }

  /** entity_before (pss.c:427-431). */
  predicate EntityBefore(a: Word, b: Word) {
    VtimeCmp(a, b) < 0
  }

  function MaxVruntime(v: Word, vruntime: Word): Word {
    if Signed(Sub(vruntime, v)) > 0 then vruntime else v
  }

  function MinVruntime(v: Word, vruntime: Word): Word {
    if Signed(Sub(vruntime, v)) < 0 then vruntime else v
  }

  function WrapMin64(x: Word, y: Word): Word {
    if Signed(Sub(x, y)) < 0 then x else y
  }

  function WrapMax64(x: Word, y: Word): Word {
    if Signed(Sub(x, y)) > 0 then x else y
  }

  function Min(a: int, b: int): int {
    if a < b then a else b
  }

  function Max(a: int, b: int): int {
    if a > b then a else b
  }

  predicate Near(a: int, b: int) {
    -TWO_63 <= a - b < TWO_63
  }

  // ---------- words and integers ----------

  lemma WrapAdd(a: int, b: int)
    ensures Wrap(a + b) == Add(Wrap(a), Wrap(b))
    ensures Wrap(a - b) == Sub(Wrap(a), Wrap(b))
  {
    var qa, qb := a / TWO_64, b / TWO_64;
    assert a + b == (Wrap(a) + Wrap(b)) + (qa + qb) * TWO_64;
    assert a - b == (Wrap(a) - Wrap(b)) + (qa - qb) * TWO_64;
    ModShift(Wrap(a) + Wrap(b), qa + qb);
    ModShift(Wrap(a) - Wrap(b), qa - qb);
  }

  lemma ModShift(x: int, k: int)
    ensures (x + k * TWO_64) % TWO_64 == x % TWO_64
  {
    var q := x / TWO_64;
    assert x + k * TWO_64 == (q + k) * TWO_64 + x % TWO_64;
    ModUnique(x + k * TWO_64, q + k, x % TWO_64);
  }

  lemma ModUnique(x: int, q: int, r: int)
    requires 0 <= r < TWO_64 && x == q * TWO_64 + r
    ensures x % TWO_64 == r
  {
    var q', r' := x / TWO_64, x % TWO_64;
    assert (q - q') * TWO_64 == r' - r;
  }

  /** Within half the range the signed difference of two words is the integer difference. */
  lemma SignedDifference(a: int, b: int)
    requires Near(a, b)
    ensures Signed(Sub(Wrap(a), Wrap(b))) == a - b
  {
    WrapAdd(a, b);
  }

  /** So the comparisons and clamps on words are those on integers. */
  lemma WordsAgree(a: int, b: int)
    requires Near(a, b) && Near(b, a)
    ensures VtimeCmp(Wrap(a), Wrap(b)) == if a < b then -1 else 1
    ensures MaxVruntime(Wrap(a), Wrap(b)) == WrapMax64(Wrap(a), Wrap(b)) == Wrap(Max(a, b))
    ensures MinVruntime(Wrap(a), Wrap(b)) == WrapMin64(Wrap(a), Wrap(b)) == Wrap(Min(a, b))
  {
    SignedDifference(a, b);
    SignedDifference(b, a);
  }

  /** The order that the timeline compares by is the word order of the stored virtual times. */
  lemma TimelineCompares(a: RbShape.Entity, b: RbShape.Entity)
    requires Near(a.vruntime, b.vruntime) && Near(b.vruntime, a.vruntime)
    ensures RbTree.VtimeCmp(a, b) == VtimeCmp(Wrap(a.vruntime), Wrap(b.vruntime))
  {
    WordsAgree(a.vruntime, b.vruntime);
  }

  // ---------- when the comparison is an order ----------

  /** The distance from base up to x, going round the ring. */
  function Ahead(base: Word, x: Word): Word {
    Sub(x, base)
  }

  predicate InWindow(base: Word, x: Word) {
    Ahead(base, x) < TWO_63
  }

  /** On words less than half the ring ahead of some base, the comparison is the order of the distances. */
  lemma WindowOrder(base: Word, a: Word, b: Word)
    requires InWindow(base, a) && InWindow(base, b)
    ensures EntityBefore(a, b) <==> Ahead(base, a) < Ahead(base, b)
    ensures Ahead(base, a) == Ahead(base, b) ==> a == b
  {
    var da, db := Ahead(base, a), Ahead(base, b);
    WrapAdd(a, base);
    WrapAdd(b, base);
    WrapAdd(base, da);
    WrapAdd(base, db);
    assert Wrap(base + da) == a by { AheadBack(base, a); }
    assert Wrap(base + db) == b by { AheadBack(base, b); }
    SignedDifference(base + da, base + db);
  }

  lemma AheadBack(base: Word, x: Word)
    ensures Wrap(base + Ahead(base, x)) == x
  {
  }

  /** A strict total order on the window. */
  lemma StrictOrderInWindow(base: Word, a: Word, b: Word, c: Word)
    requires InWindow(base, a) && InWindow(base, b) && InWindow(base, c)
    ensures !EntityBefore(a, a)
    ensures EntityBefore(a, b) && EntityBefore(b, c) ==> EntityBefore(a, c)
    ensures a != b ==> (EntityBefore(a, b) <==> !EntityBefore(b, a))
  {
    WindowOrder(base, a, a);
    WindowOrder(base, a, b);
    WindowOrder(base, b, a);
    WindowOrder(base, b, c);
    WindowOrder(base, a, c);
  }

  /** Without the window it is none: three words spread over the ring form a cycle. */
  lemma NoOrderOnTheRing()
    ensures var a, b, c: Word := 0, 0x5555_5555_5555_5555, 0xAAAA_AAAA_AAAA_AAAA;
            EntityBefore(a, b) && EntityBefore(b, c) && EntityBefore(c, a)
  {
  }

  /** What the timeline needs of the comparison: any two different entries are ordered, one way
      only, and the order is transitive. */
  ghost predicate StrictTotalOrder(s: set<Word>) {
    && (forall a: Word :: a in s ==> !EntityBefore(a, a))
    && (forall a: Word, b: Word :: a in s && b in s && a != b ==> (EntityBefore(a, b) <==> !EntityBefore(b, a)))
    && (forall a: Word, b: Word, c: Word :: a in s && b in s && c in s && EntityBefore(a, b) && EntityBefore(b, c) ==>
          EntityBefore(a, c))
  }

  /** A word of s from which all of s is less than half the ring ahead. */
  ghost predicate IsBase(s: set<Word>, base: Word) {
    base in s && forall x: Word :: x in s ==> InWindow(base, x)
  }

  lemma BaseOrders(s: set<Word>, base: Word)
    requires IsBase(s, base)
    ensures StrictTotalOrder(s)
  {
    forall a: Word, b: Word, c: Word | a in s && b in s && c in s
      ensures !EntityBefore(a, a) && (a != b ==> (EntityBefore(a, b) <==> !EntityBefore(b, a)))
      ensures EntityBefore(a, b) && EntityBefore(b, c) ==> EntityBefore(a, c)
    {
      StrictOrderInWindow(base, a, b, c);
    }
  }

  /** A finite set that the comparison orders has a least word. */
  lemma {:induction false} LeastOf(s: set<Word>) returns (least: Word)
    requires s != {} && StrictTotalOrder(s)
    ensures least in s && forall x: Word :: x in s && x != least ==> EntityBefore(least, x)
    decreases |s|
  {
    hide EntityBefore;
    var x: Word :| x in s;
    if s == {x} {
      least := x;
    } else {
      var rest := s - {x};
      assert rest != {} by {
        assert s == rest + {x};
      }
      var y := LeastOf(rest);
      least := if EntityBefore(x, y) then x else y;
    }
  }

  /** vtime_cmp is a strict total order on exactly those sets of stored times that fit in less than
      half the ring, seen from one of them. */
  lemma OrderIffWindow(s: set<Word>)
    requires s != {}
    ensures StrictTotalOrder(s) <==> exists base: Word :: IsBase(s, base)
  {
    if StrictTotalOrder(s) {
      var least := LeastOf(s);
      forall x: Word | x in s ensures InWindow(least, x) {
        if x != least {
          assert EntityBefore(least, x) && !EntityBefore(x, least);
        }
      }
      assert IsBase(s, least);
    }
    if base: Word :| IsBase(s, base) {
      BaseOrders(s, base);
    }
  }
}
