/** Weighted scaling of execution time (pss.c:77-105, 335-417, 783-789).

    scale_by_weight computes delta * weight / lw->weight with a memoised 32-bit
    inverse instead of a division.  All arithmetic is on 64-bit unsigned words and
    wraps; the bounds below say how far the result is from the exact quotient as
    long as no product overflows. */
module FixedPoint {
  const TWO_15: int := 0x8000
  const TWO_16: int := 0x1_0000
  const TWO_31: int := 0x8000_0000
  const TWO_32: int := 0x1_0000_0000   // WMULT_CONST
  const TWO_64: int := 0x1_0000_0000_0000_0000
  const LONG_MAX: int := 0x7FFF_FFFF_FFFF_FFFF
  const NICE_0_WEIGHT: nat := 1024

  function Min(a: nat, b: nat): nat {
    if a < b then a else b
  }

  function Mul64(a: nat, b: nat): nat {
    (a * b) % TWO_64
  }

  /** RSR(x, 16) and RSR(x, 32): round and shift right (pss.c:346). */
  function Rsr16(x: nat): nat {
    ((x + TWO_15) % TWO_64) / TWO_16
  }

  function Rsr32(x: nat): nat {
    ((x + TWO_31) % TWO_64) / TWO_32
  }

  /** The inverse that is stored for a weight (pss.c:359-368). */
  function Inverse(w: nat): nat {
    if w >= TWO_32 then 1 else if w == 0 then TWO_32 else TWO_32 / w
  }

  /** What scale_by_weight returns for a load of weight w with inverse inv (pss.c:351-381). */
  function ScaleWith(delta: nat, weight: nat, inv: nat): nat {
    var tmp := Mul64(delta, weight);
    var r := if tmp > TWO_32 then Rsr16(Mul64(Rsr16(tmp), inv)) else Rsr32(Mul64(tmp, inv));
    Min(r, LONG_MAX)
  }

  function Scale(delta: nat, weight: nat, w: nat): nat {
    ScaleWith(delta, weight, Inverse(w))
  }

  /** scale_delta (pss.c:783-789). */
  function ScaleDelta(delta: nat, w: nat): nat {
    if w == NICE_0_WEIGHT then delta else Scale(delta, NICE_0_WEIGHT, w)
  }

  /** struct load_weight (sched.h:147-150). */
  class LoadWeight {
    var weight: nat
    var invWeight: nat

    /** The memo is empty or right. */
    ghost predicate Valid()
      reads this
    {
      invWeight == 0 || invWeight == Inverse(weight)
    }

    constructor (w: nat)
      ensures Valid() && weight == w
    {
      weight, invWeight := w, 0;
    }

    /** scale_by_weight (pss.c:351-381). */
    method ScaleByWeight(delta: nat, w: nat) returns (r: nat)
      requires Valid()
      modifies `invWeight
      ensures Valid() && r == Scale(delta, w, weight)
    {
      var tmp := Mul64(delta, w);
      if invWeight == 0 {
        if weight >= TWO_32 {
          invWeight := 1;
        } else if weight == 0 {
          invWeight := TWO_32;
        } else {
          invWeight := TWO_32 / weight;
        }
      }
      if tmp > TWO_32 {
        tmp := Rsr16(Mul64(Rsr16(tmp), invWeight));
      } else {
        tmp := Rsr32(Mul64(tmp, invWeight));
      }
      r := Min(tmp, LONG_MAX);
    }

    method Add(inc: nat)
      modifies this
      ensures Valid() && weight == old(weight) + inc
    {
      weight, invWeight := weight + inc, 0;
    }

    method Sub(dec: nat)
      requires dec <= weight
      modifies this
      ensures Valid() && weight == old(weight) - dec
    {
      weight, invWeight := weight - dec, 0;
    }

    method Set(w: nat)
      modifies this
      ensures Valid() && weight == w
    {
      weight, invWeight := w, 0;
    }
  }

  // ---------- distance from the exact quotient ----------

  /** No 64-bit product or sum wraps and the result stays below LONG_MAX. */
  predicate Fits(delta: nat, weight: nat, w: nat) {
    var t := delta * weight;
    && t + TWO_15 < TWO_64
    && (t > TWO_32 ==> ((t + TWO_15) / TWO_16) * Inverse(w) + TWO_15 < TWO_64)
  }

  lemma InverseBounds(w: nat)
    requires 2 <= w < TWO_32
    ensures var inv := Inverse(w);
            1 <= inv <= TWO_31 && inv * w <= TWO_32 < inv * w + w
  {
  }

  /** A product that stays below 2^63 is rounded and shifted without wrapping. */
  lemma ShiftSmall(p: nat)
    requires p <= TWO_32 * TWO_31
    ensures p % TWO_64 == p && Rsr32(p) == (p + TWO_31) / TWO_32
    ensures (p + TWO_31) / TWO_32 <= TWO_31
  {
    assert p + TWO_31 < TWO_32 * (TWO_31 + 1);
  }

  lemma ScaleSmall(t: nat, inv: nat)
    requires t <= TWO_32 && inv <= TWO_31
    ensures Mul64(t, inv) == t * inv && Rsr32(t * inv) == (t * inv + TWO_31) / TWO_32
    ensures (t * inv + TWO_31) / TWO_32 <= TWO_31
  {
    hide Rsr32;
    MulMonotone(t, TWO_32, inv);
    ShiftSmall(t * inv);
  }

  lemma ScaleUnfold(delta: nat, weight: nat, w: nat)
    requires 2 <= w < TWO_32 && Fits(delta, weight, w)
    ensures var t, inv := delta * weight, Inverse(w);
            Scale(delta, weight, w) ==
              if t > TWO_32 then ((t + TWO_15) / TWO_16 * inv + TWO_15) / TWO_16 else (t * inv + TWO_31) / TWO_32
  {
    InverseBounds(w);
    var t, inv := delta * weight, Inverse(w);
    assert Mul64(delta, weight) == t;
    if t <= TWO_32 {
      ScaleSmall(t, inv);
    } else {
      ScaleLarge(t, inv);
    }
  }

  lemma ScaleLarge(t: nat, inv: nat)
    requires t + TWO_15 < TWO_64
    requires ((t + TWO_15) / TWO_16) * inv + TWO_15 < TWO_64
    ensures var p := (t + TWO_15) / TWO_16 * inv;
            Rsr16(t) == (t + TWO_15) / TWO_16 && Mul64(Rsr16(t), inv) == p && Rsr16(p) == (p + TWO_15) / TWO_16
    ensures ((t + TWO_15) / TWO_16 * inv + TWO_15) / TWO_16 < LONG_MAX
  {
    var p := (t + TWO_15) / TWO_16 * inv;
    assert (p + TWO_15) / TWO_16 <= TWO_64 / TWO_16;
  }

  /** r = floor((a * inv + 2^15) / 2^16) with a = floor((t + 2^15) / 2^16), times w. */
  lemma LargeUpper(t: nat, w: nat, inv: nat, a: nat, r: nat)
    requires inv * w <= TWO_32 && a * TWO_16 <= t + TWO_15 && r * TWO_16 <= a * inv + TWO_15
    ensures r * w <= t + TWO_15 + w
  {
    assert (r * TWO_16) * w <= (a * inv + TWO_15) * w;
    assert a * (inv * w) <= a * TWO_32;
    assert a * inv * w == a * (inv * w);
    assert r * w * TWO_16 <= (t + TWO_15) * TWO_16 + TWO_15 * w;
  }

  lemma LargeLower(t: nat, w: nat, inv: nat, a: nat, r: nat)
    requires TWO_32 < inv * w + w && t + TWO_15 < a * TWO_16 + TWO_16 && a * inv + TWO_15 < r * TWO_16 + TWO_16
    requires a * TWO_16 <= t + TWO_15
    ensures r * w * TWO_32 + t * w + TWO_15 * TWO_32 + w * TWO_32 >= t * TWO_32
  {
    assert r * TWO_16 >= a * inv - TWO_15;
    assert (r * TWO_16) * w >= (a * inv - TWO_15) * w;
    assert (a * inv - TWO_15) * w == a * (inv * w) - TWO_15 * w;
    assert a * (inv * w) >= a * (TWO_32 - w);
    assert r * w * TWO_16 >= a * TWO_32 - a * w - TWO_15 * w;
    assert r * w * TWO_16 * TWO_16 >= (a * TWO_32 - a * w - TWO_15 * w) * TWO_16;
    assert (a * TWO_16) * w <= (t + TWO_15) * w;
    assert (a * TWO_16) * TWO_32 >= (t - TWO_15) * TWO_32;
  }

  lemma SmallUpper(t: nat, w: nat, inv: nat, r: nat)
    requires inv * w <= TWO_32 && r * TWO_32 <= t * inv + TWO_31
    ensures r * w <= t + w
  {
    assert (r * TWO_32) * w <= (t * inv + TWO_31) * w;
    assert t * inv * w == t * (inv * w) <= t * TWO_32;
    assert r * w * TWO_32 <= t * TWO_32 + TWO_31 * w;
  }

  lemma SmallLower(t: nat, w: nat, inv: nat, r: nat)
    requires TWO_32 < inv * w + w && t * inv + TWO_31 < r * TWO_32 + TWO_32
    ensures r * w * TWO_32 + t * w + w * TWO_32 >= t * TWO_32
  {
    assert (r * TWO_32 + TWO_31) * w >= (t * inv) * w;
    assert t * inv * w == t * (inv * w);
    assert t * (inv * w) >= t * (TWO_32 - w);
  }

  /** With t = delta * weight the result is at most t/w + 2^15/w + 1 and at least
      t/w - t/2^32 - 2^15/w - 1, both multiplied out. */
  lemma ScaleBounds(delta: nat, weight: nat, w: nat)
    requires 2 <= w < TWO_32 && Fits(delta, weight, w)
    ensures var t, r := delta * weight, Scale(delta, weight, w);
            && r * w <= t + TWO_15 + w
            && r * w * TWO_32 + t * w + TWO_15 * TWO_32 + w * TWO_32 >= t * TWO_32
  {
    var t, inv, r := delta * weight, Inverse(w), Scale(delta, weight, w);
    InverseBounds(w);
    ScaleUnfold(delta, weight, w);
    if t > TWO_32 {
      var a := (t + TWO_15) / TWO_16;
      LargeUpper(t, w, inv, a, r);
      LargeLower(t, w, inv, a, r);
    } else {
      SmallUpper(t, w, inv, r);
      SmallLower(t, w, inv, r);
    }
  }

  // ---------- monotonicity across the two rounding regimes ----------

  lemma DivMonotone(x: nat, y: nat, d: nat)
    requires x <= y && d > 0
    ensures x / d <= y / d
  {
    if x / d > y / d {
      MulMonotone(y / d + 1, x / d, d);
    }
  }

  lemma MulMonotone(x: nat, y: nat, k: nat)
    requires x <= y
    ensures x * k <= y * k
  {
  }

  /** More execution time never scales to less, also when the larger amount is
      computed in two steps and the smaller in one. */
  lemma ScaleMonotone(delta: nat, delta': nat, weight: nat, w: nat)
    requires delta <= delta' && 2 <= w < TWO_32
    requires Fits(delta, weight, w) && Fits(delta', weight, w)
    ensures Scale(delta, weight, w) <= Scale(delta', weight, w)
  {
    var t, t', inv := delta * weight, delta' * weight, Inverse(w);
    InverseBounds(w);
    MulMonotone(delta, delta', weight);
    ScaleUnfold(delta, weight, w);
    ScaleUnfold(delta', weight, w);
    if t > TWO_32 {
      DivMonotone(t + TWO_15, t' + TWO_15, TWO_16);
      var a, a' := (t + TWO_15) / TWO_16, (t' + TWO_15) / TWO_16;
      MulMonotone(a, a', inv);
      DivMonotone(a * inv + TWO_15, a' * inv + TWO_15, TWO_16);
    } else if t' > TWO_32 {
      CrossRegimes(t, t', inv);
    } else {
      MulMonotone(t, t', inv);
      DivMonotone(t * inv + TWO_31, t' * inv + TWO_31, TWO_32);
    }
  }

  /** Both regimes give inv at 2^32. */
  lemma CrossRegimes(t: nat, t': nat, inv: nat)
    requires t <= TWO_32 < t'
    ensures (t * inv + TWO_31) / TWO_32 <= inv <= ((t' + TWO_15) / TWO_16 * inv + TWO_15) / TWO_16
  {
    MulMonotone(t, TWO_32, inv);
    DivMonotone(t * inv + TWO_31, TWO_32 * inv + TWO_31, TWO_32);
    assert (TWO_32 * inv + TWO_31) / TWO_32 == inv;
    DivMonotone(TWO_32 + TWO_15, t' + TWO_15, TWO_16);
    var a := (t' + TWO_15) / TWO_16;
    MulMonotone(TWO_16, a, inv);
    DivMonotone(TWO_16 * inv + TWO_15, a * inv + TWO_15, TWO_16);
    assert (TWO_16 * inv + TWO_15) / TWO_16 == inv;
  }

  // ---------- scale_delta ----------

  /** g is the virtual time for d units of execution at weight w: d itself at the default weight,
      otherwise d * 1024 / w up to the rounding of ScaleBounds. */
  predicate Worth(d: nat, w: nat, g: int) {
    var t := d * NICE_0_WEIGHT;
    && (w == NICE_0_WEIGHT ==> g == d)
    && (2 <= w < TWO_32 && Fits(d, NICE_0_WEIGHT, w) ==>
          && g * w <= t + TWO_15 + w
          && g * w * TWO_32 + t * w + TWO_15 * TWO_32 + w * TWO_32 >= t * TWO_32)
  }

  lemma ScaleDeltaWorth(d: nat, w: nat)
    ensures Worth(d, w, ScaleDelta(d, w))
  {
    if w != NICE_0_WEIGHT && 2 <= w < TWO_32 && Fits(d, NICE_0_WEIGHT, w) {
      hide Scale, Fits;
      ScaleBounds(d, NICE_0_WEIGHT, w);
    }
  }

  /** The quotient of ScaleUnfold as a function of the inverse. */
  function Quotient(t: nat, inv: nat): nat {
    if t > TWO_32 then ((t + TWO_15) / TWO_16 * inv + TWO_15) / TWO_16 else (t * inv + TWO_31) / TWO_32
  }

  lemma QuotientMonotone(t: nat, inv: nat, inv': nat)
    requires inv <= inv'
    ensures Quotient(t, inv) <= Quotient(t, inv')
  {
    if t > TWO_32 {
      var a := (t + TWO_15) / TWO_16;
      MulMonotone(inv, inv', a);
      DivMonotone(a * inv + TWO_15, a * inv' + TWO_15, TWO_16);
    } else {
      MulMonotone(inv, inv', t);
      DivMonotone(t * inv + TWO_31, t * inv' + TWO_31, TWO_32);
    }
  }

  /** The inverses of 1023 and 1025 lie on either side of what would give d itself. */
  lemma QuotientAround(d: nat, inv: nat)
    ensures inv >= 4198404 ==> Quotient(d * NICE_0_WEIGHT, inv) >= d
    ensures inv <= 4190211 ==> Quotient(d * NICE_0_WEIGHT, inv) <= d
  {
    var t := d * NICE_0_WEIGHT;
    if inv >= 4198404 {
      QuotientMonotone(t, 4198404, inv);
    }
    if inv <= 4190211 {
      QuotientMonotone(t, inv, 4190211);
    }
  }

  lemma InverseMonotone(w: nat, w': nat)
    requires 2 <= w <= w' < TWO_32
    ensures Inverse(w') <= Inverse(w)
  {
    hide Inverse;
    InverseBounds(w);
    InverseBounds(w');
    var inv, inv' := Inverse(w), Inverse(w');
    if inv' > inv {
      MulMonotone(inv + 1, inv', w);
      MulMonotone(w, w', inv');
    }
  }

  lemma InverseAround(w: nat)
    requires 2 <= w < TWO_32
    ensures w < NICE_0_WEIGHT ==> Inverse(w) >= 4198404
    ensures w > NICE_0_WEIGHT ==> Inverse(w) <= 4190211
  {
    assert Inverse(1023) == 4198404 && Inverse(1025) == 4190211;
    hide Inverse;
    if w < NICE_0_WEIGHT {
      InverseMonotone(w, 1023);
    }
    if w > NICE_0_WEIGHT {
      InverseMonotone(1025, w);
    }
  }

  lemma FitsHeavier(delta: nat, weight: nat, w: nat, w': nat)
    requires 2 <= w <= w' < TWO_32 && Fits(delta, weight, w)
    ensures Fits(delta, weight, w')
  {
    InverseMonotone(w, w');
    MulMonotone(Inverse(w'), Inverse(w), (delta * weight + TWO_15) / TWO_16);
  }

  /** For the same execution time a heavier entity gains no more virtual time than a lighter one,
      also where one of them has the default weight and is not scaled at all. */
  lemma HeavierGainsNoMore(d: nat, w: nat, w': nat)
    requires 2 <= w <= w' < TWO_32 && Fits(d, NICE_0_WEIGHT, w)
    ensures ScaleDelta(d, w') <= ScaleDelta(d, w)
  {
    hide Fits, Scale, Quotient, Inverse;
    var t := d * NICE_0_WEIGHT;
    FitsHeavier(d, NICE_0_WEIGHT, w, w');
    ScaleQuotient(d, w);
    ScaleQuotient(d, w');
    InverseMonotone(w, w');
    InverseAround(w);
    InverseAround(w');
    QuotientMonotone(t, Inverse(w'), Inverse(w));
    QuotientAround(d, Inverse(w));
    QuotientAround(d, Inverse(w'));
  }

  lemma ScaleQuotient(d: nat, w: nat)
    requires 2 <= w < TWO_32 && Fits(d, NICE_0_WEIGHT, w)
    ensures Scale(d, NICE_0_WEIGHT, w) == Quotient(d * NICE_0_WEIGHT, Inverse(w))
  {
    hide Fits, Scale;
    ScaleUnfold(d, NICE_0_WEIGHT, w);
  }

  /** And more execution time is never worth less. */
  lemma LongerGainsNoLess(d: nat, d': nat, w: nat)
    requires d <= d' && 2 <= w < TWO_32 && Fits(d, NICE_0_WEIGHT, w) && Fits(d', NICE_0_WEIGHT, w)
    ensures ScaleDelta(d, w) <= ScaleDelta(d', w)
  {
    hide Fits, Scale;
    ScaleMonotone(d, d', NICE_0_WEIGHT, w);
  }

  // ---------- the nice tables ----------

  /** prio_to_weight and prio_to_wmult, nice -20 to 20 (pss.c:83-105). */
  const PRIO_TO_WEIGHT: seq<nat> := [
    88818, 71054, 56843, 45475, 36380, 29104, 23283, 18626, 14901, 11921,
    9537, 7629, 6104, 4883, 3906, 3125, 2500, 2000, 1600, 1280, 1024,
    819, 655, 524, 419, 336, 268, 215, 172, 137, 110,
    88, 70, 56, 45, 36, 29, 23, 18, 15, 12]

  const PRIO_TO_WMULT: seq<nat> := [
    48356, 60446, 75558, 94446, 118058, 147573, 184467, 230589, 288233, 360285,
    450347, 562979, 703631, 879575, 1099582, 1374389, 1717986, 2147483, 2684354, 3355443, 4194304,
    5244160, 6557201, 8196502, 10250518, 12782640, 16025997, 19976592, 24970740, 31350126, 39045157,
    48806446, 61356675, 76695844, 95443717, 119304647, 148102320, 186737708, 238609294, 286331153, 357913941]

  const IDLEPRIO_WEIGHT: nat := 3
  const IDLEPRIO_WMULT: nat := 1431655765

  /** The inverses that set_thread_weight preloads are the ones scale_by_weight would compute. */
  lemma TableInverses()
    ensures |PRIO_TO_WEIGHT| == |PRIO_TO_WMULT| == 41
    ensures forall i :: 0 <= i < 41 ==> PRIO_TO_WMULT[i] == Inverse(PRIO_TO_WEIGHT[i])
    ensures IDLEPRIO_WMULT == Inverse(IDLEPRIO_WEIGHT)
  {
  }
}
