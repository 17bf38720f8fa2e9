/** Decayed per-CPU load averages (sched.c:169-243). */
module CpuLoad {
  const CPU_LOAD_IDX_MAX: nat := 5
  const DECAY_SHIFT: nat := 7
  const TWO_64: nat := 0x1_0000_0000_0000_0000

  const DECAY_TO_ZERO_TICKS: seq<nat> := [0, 8, 32, 64, 128]

  /** Row i, column j: 128 * ((2^i - 1) / 2^i)^(2^j), rounded down. */
  const POWER_OF_2_DECAY_FACTORS: seq<seq<nat>> := [
    [0, 0, 0, 0, 0, 0, 0, 0],
    [64, 32, 8, 0, 0, 0, 0, 0],
    [96, 72, 40, 12, 1, 0, 0, 0],
    [112, 98, 75, 43, 15, 1, 0, 0],
    [120, 112, 98, 76, 45, 16, 2, 0]]

  function Factor(idx: nat, j: nat): nat
    requires idx < CPU_LOAD_IDX_MAX && j <= DECAY_SHIFT
  {
    POWER_OF_2_DECAY_FACTORS[idx][j]
  }

  function Pow(b: nat, n: nat): nat {
    if n == 0 then 1 else b * Pow(b, n - 1)
  }

  function Pow2(n: nat): (r: nat)
    ensures r > 0
  {
    if n == 0 then 1 else 2 * Pow2(n - 1)
  }

  /** What one bit of `missed`, standing for 2^j updates, leaves of the load. */
  function KeepBit(load: nat, bit: nat, idx: nat, j: nat): nat
    requires idx < CPU_LOAD_IDX_MAX && j <= 7
  {
    if bit == 1 then load * Factor(idx, j) / 128 else load
  }

  /** What the loop computes from the bits of `missed`, the lowest of which stands for 2^j updates. */
  function DecayBits(load: nat, missed: nat, idx: nat, j: nat): nat
    requires idx < CPU_LOAD_IDX_MAX && j <= 7 && missed < Pow2(7 - j)
    decreases missed
  {
    if missed == 0 then load
    else
      SevenBits(missed, j);
      DecayBits(KeepBit(load, missed % 2, idx, j), missed / 2, idx, j + 1)
  }

  lemma SevenBits(missed: nat, j: nat)
    requires j <= 7 && 0 < missed < Pow2(7 - j)
    ensures j < 7 && missed / 2 < Pow2(7 - (j + 1))
  {
  }

  function Decay(load: nat, missed: nat, idx: nat): nat
    requires 1 <= idx < CPU_LOAD_IDX_MAX
  {
    if missed == 0 then load
    else if missed >= DECAY_TO_ZERO_TICKS[idx] then 0
    else if idx == 1 then load / Pow2(missed)
    else
      assert Pow2(7) == 128;
      DecayBits(load, missed, idx, 0)
  }

  /** decay_cpu_load_missed (sched.c:191-212). */
  method DecayCpuLoadMissed(load0: nat, missed0: nat, idx: nat) returns (r: nat)
    requires 1 <= idx < CPU_LOAD_IDX_MAX
    ensures r == Decay(load0, missed0, idx)
    ensures r * Pow(Pow2(idx), missed0) <= load0 * Pow(Pow2(idx) - 1, missed0)
  {
    hide Pow;
    DecayBound(load0, missed0, idx);
    if missed0 == 0 {
      return load0;
    }
    if missed0 >= DECAY_TO_ZERO_TICKS[idx] {
      return 0;
    }
    if idx == 1 {
      return load0 / Pow2(missed0);
    }
    assert Pow2(7) == 128;
    var load: nat, missed: nat, j: nat := load0, missed0, 0;
    while missed != 0
      invariant j <= 7 && missed < Pow2(7 - j)
      invariant DecayBits(load, missed, idx, j) == DecayBits(load0, missed0, idx, 0)
      decreases missed
    {
      SevenBits(missed, j);
      if missed % 2 == 1 {
        load := load * POWER_OF_2_DECAY_FACTORS[idx][j] / 128;
      }
      missed := missed / 2;
      j := j + 1;
    }
    r := load;
  }

  // ---------- the table underestimates the exact decay ----------

  lemma {:induction false} PowAdd(b: nat, m: nat, n: nat)
    ensures Pow(b, m + n) == Pow(b, m) * Pow(b, n)
  {
    if m > 0 {
      PowAdd(b, m - 1, n);
      assert Pow(b, m + n) == b * (Pow(b, m - 1) * Pow(b, n)) == (b * Pow(b, m - 1)) * Pow(b, n);
    }
  }

  lemma PowZero(b: nat)
    ensures Pow(b, 0) == 1
  {
  }

  lemma PowDouble(b: nat, n: nat)
    ensures Pow(b, 2 * n) == Pow(b, n) * Pow(b, n)
  {
    PowAdd(b, n, n);
  }

  lemma Square(b: nat, n: nat, v: nat)
    requires Pow(b, n) == v
    ensures Pow(b, 2 * n) == v * v
  {
    PowDouble(b, n);
  }

  lemma PowersOf4()
    ensures Pow(4, 1) == 4
    ensures Pow(4, 2) == 16
    ensures Pow(4, 4) == 256
    ensures Pow(4, 8) == 65536
    ensures Pow(4, 16) == 4294967296
    ensures Pow(4, 32) == 18446744073709551616
    ensures Pow(4, 64) == 340282366920938463463374607431768211456
  {
    assert Pow(4, 1) == 4 * Pow(4, 0);
    Square(4, 1, 4);
    Square(4, 2, 16);
    Square(4, 4, 256);
    Square(4, 8, 65536);
    Square(4, 16, 4294967296);
    Square(4, 32, 18446744073709551616);
  }

  lemma PowersOf3()
    ensures Pow(3, 1) == 3
    ensures Pow(3, 2) == 9
    ensures Pow(3, 4) == 81
    ensures Pow(3, 8) == 6561
    ensures Pow(3, 16) == 43046721
    ensures Pow(3, 32) == 1853020188851841
    ensures Pow(3, 64) == 3433683820292512484657849089281
  {
    assert Pow(3, 1) == 3 * Pow(3, 0);
    Square(3, 1, 3);
    Square(3, 2, 9);
    Square(3, 4, 81);
    Square(3, 8, 6561);
    Square(3, 16, 43046721);
    Square(3, 32, 1853020188851841);
  }

  lemma PowersOf8()
    ensures Pow(8, 1) == 8
    ensures Pow(8, 2) == 64
    ensures Pow(8, 4) == 4096
    ensures Pow(8, 8) == 16777216
    ensures Pow(8, 16) == 281474976710656
    ensures Pow(8, 32) == 79228162514264337593543950336
    ensures Pow(8, 64) == 6277101735386680763835789423207666416102355444464034512896
  {
    assert Pow(8, 1) == 8 * Pow(8, 0);
    Square(8, 1, 8);
    Square(8, 2, 64);
    Square(8, 4, 4096);
    Square(8, 8, 16777216);
    Square(8, 16, 281474976710656);
    Square(8, 32, 79228162514264337593543950336);
  }

  lemma PowersOf7()
    ensures Pow(7, 1) == 7
    ensures Pow(7, 2) == 49
    ensures Pow(7, 4) == 2401
    ensures Pow(7, 8) == 5764801
    ensures Pow(7, 16) == 33232930569601
    ensures Pow(7, 32) == 1104427674243920646305299201
    ensures Pow(7, 64) == 1219760487635835700138573862562971820755615294131238401
  {
    assert Pow(7, 1) == 7 * Pow(7, 0);
    Square(7, 1, 7);
    Square(7, 2, 49);
    Square(7, 4, 2401);
    Square(7, 8, 5764801);
    Square(7, 16, 33232930569601);
    Square(7, 32, 1104427674243920646305299201);
  }

  lemma PowersOf16()
    ensures Pow(16, 1) == 16
    ensures Pow(16, 2) == 256
    ensures Pow(16, 4) == 65536
    ensures Pow(16, 8) == 4294967296
    ensures Pow(16, 16) == 18446744073709551616
    ensures Pow(16, 32) == 340282366920938463463374607431768211456
    ensures Pow(16, 64) == 115792089237316195423570985008687907853269984665640564039457584007913129639936
  {
    assert Pow(16, 1) == 16 * Pow(16, 0);
    Square(16, 1, 16);
    Square(16, 2, 256);
    Square(16, 4, 65536);
    Square(16, 8, 4294967296);
    Square(16, 16, 18446744073709551616);
    Square(16, 32, 340282366920938463463374607431768211456);
  }

  lemma PowersOf15()
    ensures Pow(15, 1) == 15
    ensures Pow(15, 2) == 225
    ensures Pow(15, 4) == 50625
    ensures Pow(15, 8) == 2562890625
    ensures Pow(15, 16) == 6568408355712890625
    ensures Pow(15, 32) == 43143988327398919500410556793212890625
    ensures Pow(15, 64) == 1861403728794734215467410604755702820123364205073812627233564853668212890625
  {
    assert Pow(15, 1) == 15 * Pow(15, 0);
    Square(15, 1, 15);
    Square(15, 2, 225);
    Square(15, 4, 50625);
    Square(15, 8, 2562890625);
    Square(15, 16, 6568408355712890625);
    Square(15, 32, 43143988327398919500410556793212890625);
  }

  /** Every entry is the exact power of (2^idx - 1) / 2^idx in 128ths, rounded down. */
  lemma TableBelow(idx: nat, j: nat)
    requires 2 <= idx < CPU_LOAD_IDX_MAX && j < 7
    ensures Factor(idx, j) * Pow(Pow2(idx), Pow2(j)) <= 128 * Pow(Pow2(idx) - 1, Pow2(j))
                                                       < (Factor(idx, j) + 1) * Pow(Pow2(idx), Pow2(j))
  {
    SmallPowers(j);
    assert Pow2(2) == 4 && Pow2(3) == 8 && Pow2(4) == 16;
    hide Pow, Pow2, Factor;
    if idx == 2 {
      TableBelow2(j);
    } else if idx == 3 {
      TableBelow3(j);
    } else {
      TableBelow4(j);
    }
  }

  lemma SmallPowers(j: nat)
    requires j < 7
    ensures Pow2(j) == [1, 2, 4, 8, 16, 32, 64][j]
  {
    assert Pow2(0) == 1 && Pow2(1) == 2 && Pow2(2) == 4 && Pow2(3) == 8;
    assert Pow2(4) == 16 && Pow2(5) == 32 && Pow2(6) == 64;
  }

  lemma TableBelow2(j: nat)
    requires j < 7
    ensures Factor(2, j) * Pow(4, [1, 2, 4, 8, 16, 32, 64][j]) <= 128 * Pow(3, [1, 2, 4, 8, 16, 32, 64][j])
    ensures 128 * Pow(3, [1, 2, 4, 8, 16, 32, 64][j]) < (Factor(2, j) + 1) * Pow(4, [1, 2, 4, 8, 16, 32, 64][j])
  {
    PowersOf4();
    PowersOf3();
  }

  lemma TableBelow3(j: nat)
    requires j < 7
    ensures Factor(3, j) * Pow(8, [1, 2, 4, 8, 16, 32, 64][j]) <= 128 * Pow(7, [1, 2, 4, 8, 16, 32, 64][j])
    ensures 128 * Pow(7, [1, 2, 4, 8, 16, 32, 64][j]) < (Factor(3, j) + 1) * Pow(8, [1, 2, 4, 8, 16, 32, 64][j])
  {
    PowersOf8();
    PowersOf7();
  }

  lemma TableBelow4(j: nat)
    requires j < 7
    ensures Factor(4, j) * Pow(16, [1, 2, 4, 8, 16, 32, 64][j]) <= 128 * Pow(15, [1, 2, 4, 8, 16, 32, 64][j])
    ensures 128 * Pow(15, [1, 2, 4, 8, 16, 32, 64][j]) < (Factor(4, j) + 1) * Pow(16, [1, 2, 4, 8, 16, 32, 64][j])
  {
    PowersOf16();
    PowersOf15();
  }

  /** One factor: load' = load * f / 128 with f * b <= 128 * a. */
  lemma FactorBound(load: nat, f: nat, a: nat, b: nat)
    requires f * b <= 128 * a
    ensures (load * f / 128) * b <= load * a
  {
    var q := load * f / 128;
    assert q * 128 <= load * f;
    assert (q * 128) * b <= (load * f) * b;
    assert (load * f) * b == load * (f * b) <= load * (128 * a);
    assert (q * b) * 128 <= (load * a) * 128;
  }

  lemma ChainBound(r: nat, mid: nat, load: nat, a1: nat, b1: nat, a2: nat, b2: nat)
    requires mid * b1 <= load * a1 && r * b2 <= mid * a2
    ensures r * (b1 * b2) <= load * (a1 * a2)
  {
    assert (r * b2) * b1 <= (mid * a2) * b1;
    assert (mid * b1) * a2 <= (load * a1) * a2;
    assert r * (b1 * b2) == (r * b2) * b1;
    assert (mid * a2) * b1 == (mid * b1) * a2;
    assert load * (a1 * a2) == (load * a1) * a2;
  }

  lemma {:induction false} DecayBitsBound(load: nat, missed: nat, idx: nat, j: nat)
    requires 2 <= idx < CPU_LOAD_IDX_MAX && j <= 7 && missed < Pow2(7 - j)
    ensures DecayBits(load, missed, idx, j) * Pow(Pow2(idx), missed * Pow2(j))
         <= load * Pow(Pow2(idx) - 1, missed * Pow2(j))
    decreases missed
  {
    hide Pow, KeepBit;
    var a, b := Pow2(idx) - 1, Pow2(idx);
    if missed == 0 {
      assert missed * Pow2(j) == 0;
      PowZero(a);
      PowZero(b);
    } else {
      SevenBits(missed, j);
      var rest, one := missed / 2 * Pow2(j + 1), missed % 2 * Pow2(j);
      var mid := KeepBit(load, missed % 2, idx, j);
      DecayBitsBound(mid, missed / 2, idx, j + 1);
      SplitBits(missed, j);
      PowAdd(a, one, rest);
      PowAdd(b, one, rest);
      BitBound(load, missed % 2, idx, j);
      ChainBound(DecayBits(load, missed, idx, j), mid, load, Pow(a, one), Pow(b, one), Pow(a, rest), Pow(b, rest));
    }
  }

  lemma SplitBits(missed: nat, j: nat)
    ensures missed * Pow2(j) == missed % 2 * Pow2(j) + missed / 2 * Pow2(j + 1)
  {
    var p := Pow2(j);
    assert Pow2(j + 1) == 2 * p;
    assert (missed % 2 + 2 * (missed / 2)) * p == missed % 2 * p + missed / 2 * (2 * p);
  }

  lemma BitBound(load: nat, bit: nat, idx: nat, j: nat)
    requires 2 <= idx < CPU_LOAD_IDX_MAX && j < 7 && bit < 2
    ensures KeepBit(load, bit, idx, j) * Pow(Pow2(idx), bit * Pow2(j))
         <= load * Pow(Pow2(idx) - 1, bit * Pow2(j))
  {
    if bit == 1 {
      TableBelow(idx, j);
      FactorBound(load, Factor(idx, j), Pow(Pow2(idx) - 1, Pow2(j)), Pow(Pow2(idx), Pow2(j)));
      assert bit * Pow2(j) == Pow2(j);
    } else {
      assert bit * Pow2(j) == 0;
    }
  }

  lemma {:induction false} PowOne(n: nat)
    ensures Pow(1, n) == 1
  {
    if n > 0 {
      PowOne(n - 1);
    }
  }

  lemma {:induction false} PowIsPow2(n: nat)
    ensures Pow(2, n) == Pow2(n)
  {
    if n > 0 {
      PowIsPow2(n - 1);
    }
  }

  /** Missing n updates never leaves more than load * ((2^idx - 1) / 2^idx)^n. */
  lemma DecayBound(load: nat, missed: nat, idx: nat)
    requires 1 <= idx < CPU_LOAD_IDX_MAX
    ensures Decay(load, missed, idx) * Pow(Pow2(idx), missed) <= load * Pow(Pow2(idx) - 1, missed)
  {
    hide Pow, DecayBits;
    if missed == 0 {
      PowZero(Pow2(idx));
      PowZero(Pow2(idx) - 1);
    } else if missed >= DECAY_TO_ZERO_TICKS[idx] {
      assert Decay(load, missed, idx) == 0;
    } else if idx == 1 {
      HalvingBound(load, missed);
    } else {
      assert Pow2(7) == 128 && Pow2(0) == 1;
      DecayBitsBound(load, missed, idx, 0);
      assert missed * Pow2(0) == missed;
    }
  }

  lemma HalvingBound(load: nat, missed: nat)
    ensures load / Pow2(missed) * Pow(Pow2(1), missed) <= load * Pow(Pow2(1) - 1, missed)
  {
    hide Pow;
    assert Pow2(1) == 2;
    PowOne(missed);
    PowIsPow2(missed);
    FloorBelow(load, Pow2(missed));
  }

  lemma FloorBelow(load: nat, d: nat)
    requires d > 0
    ensures load / d * d <= load
  {
  }

  // ---------- and leaves no less than that, up to rounding ----------

  /** How many bits of n are set: how many factors the loop applies. */
  function Ones(n: nat): nat {
    if n == 0 then 0 else n % 2 + Ones(n / 2)
  }

  lemma MulBoth(x: nat, y: nat, u: nat, v: nat)
    requires x <= y && u <= v
    ensures x * u <= y * v
  {
    assert x * u <= y * u <= y * v;
  }

  lemma {:induction false} PowLess(a: nat, b: nat, n: nat)
    requires a <= b
    ensures Pow(a, n) <= Pow(b, n)
  {
    if n > 0 {
      PowLess(a, b, n - 1);
      MulBoth(a, b, Pow(a, n - 1), Pow(b, n - 1));
    }
  }

  /** One factor loses at most one, and one 128th of the load. */
  lemma FactorLoses(load: nat, f: nat, a: nat, b: nat)
    requires 128 * a <= (f + 1) * b
    ensures (128 * (load * f / 128 + 1) + load) * b >= 128 * (load * a)
  {
    var q := load * f / 128;
    assert load * f <= 128 * (q + 1);
    assert (load * f) * b <= (128 * (q + 1)) * b;
    assert load * ((f + 1) * b) == (load * f) * b + load * b;
    assert load * (128 * a) <= load * ((f + 1) * b);
  }

  lemma Regroup(x: nat, y: nat, a: nat, b: nat)
    ensures (x * b) * a + (y * a) * b == (x + y) * (a * b)
    ensures ((x + y) * a) * b == (x * b) * a + (y * a) * b
    ensures (x * a) * b == x * (a * b)
  {
    assert (x * b) * a == x * (a * b);
    assert (y * a) * b == y * (a * b);
  }

  /** Two factors, one after the other: x is left of 128 * mid, u + y of 128 * load. */
  lemma ChainStep(x: nat, y: nat, u: nat, z: nat, t: nat, a2: nat, b1: nat, b2: nat)
    requires a2 <= b2 && t <= (u + y) * b1 && u * a2 <= x * b2 && x + y <= z
    ensures t * a2 <= z * (b1 * b2)
  {
    MulBoth(t, (u + y) * b1, a2, a2);
    Regroup(u, y, b1, a2);
    MulBoth(u * a2, x * b2, b1, b1);
    MulBoth(y * b1, y * b1, a2, b2);
    Regroup(x, y, b1, b2);
    MulBoth(x + y, z, b1 * b2, b1 * b2);
  }

  /** Of load * a / b at most k, and k 128ths of the load, are missing in r. */
  predicate Loses(r: nat, k: nat, load: nat, a: nat, b: nat) {
    (128 * (r + k) + k * load) * b >= 128 * (load * a)
  }

  lemma ChainLoses(r: nat, mid: nat, load: nat, c: nat, k: nat, a1: nat, b1: nat, a2: nat, b2: nat)
    requires mid <= load && a2 <= b2 && Loses(mid, c, load, a1, b1) && Loses(r, k, mid, a2, b2)
    ensures Loses(r, c + k, load, a1 * a2, b1 * b2)
  {
    var x, y, z := 128 * (r + k) + k * mid, 128 * c + c * load, 128 * (r + (c + k)) + (c + k) * load;
    LossesAdd(r, mid, load, c, k);
    ChainStep(x, y, 128 * mid, z, 128 * (load * a1), a2, b1, b2);
    Regroup(load, 0, a1, a2);
  }

  lemma LossesAdd(r: nat, mid: nat, load: nat, c: nat, k: nat)
    requires mid <= load
    ensures (128 * (r + k) + k * mid) + (128 * c + c * load) <= 128 * (r + (c + k)) + (c + k) * load
    ensures 128 * (mid + c) + c * load == 128 * mid + (128 * c + c * load)
  {
    MulBoth(mid, load, k, k);
    assert (c + k) * load == c * load + k * load;
  }

  lemma KeepBitLess(load: nat, bit: nat, idx: nat, j: nat)
    requires idx < CPU_LOAD_IDX_MAX && j <= 7
    ensures KeepBit(load, bit, idx, j) <= load
  {
    if bit == 1 {
      assert Factor(idx, j) <= 128;
      assert load * Factor(idx, j) <= load * 128;
    }
  }

  lemma {:induction false} DecayBitsLoses(load: nat, missed: nat, idx: nat, j: nat)
    requires 2 <= idx < CPU_LOAD_IDX_MAX && j <= 7 && missed < Pow2(7 - j)
    ensures Loses(DecayBits(load, missed, idx, j), Ones(missed), load, Pow(Pow2(idx) - 1, missed * Pow2(j)), Pow(Pow2(idx), missed * Pow2(j)))
    decreases missed
  {
    hide Pow, KeepBit, Loses;
    var a, b := Pow2(idx) - 1, Pow2(idx);
    if missed == 0 {
      assert missed * Pow2(j) == 0;
      PowZero(a);
      PowZero(b);
      NoLoss(load);
    } else {
      SevenBits(missed, j);
      var mid := KeepBit(load, missed % 2, idx, j);
      DecayBitsLoses(mid, missed / 2, idx, j + 1);
      KeepBitLess(load, missed % 2, idx, j);
      BitLoses(load, missed % 2, idx, j);
      BitsLose(DecayBits(load, missed, idx, j), mid, load, missed, idx, j);
    }
  }

  /** What the lowest bit loses and what the others lose. */
  lemma BitsLose(r: nat, mid: nat, load: nat, missed: nat, idx: nat, j: nat)
    requires mid <= load && missed > 0
    requires Loses(mid, missed % 2, load, Pow(Pow2(idx) - 1, missed % 2 * Pow2(j)), Pow(Pow2(idx), missed % 2 * Pow2(j)))
    requires Loses(r, Ones(missed / 2), mid, Pow(Pow2(idx) - 1, missed / 2 * Pow2(j + 1)), Pow(Pow2(idx), missed / 2 * Pow2(j + 1)))
    ensures Loses(r, Ones(missed), load, Pow(Pow2(idx) - 1, missed * Pow2(j)), Pow(Pow2(idx), missed * Pow2(j)))
  {
    hide Pow, Pow2, Loses;
    var a, b, rest, one := Pow2(idx) - 1, Pow2(idx), missed / 2 * Pow2(j + 1), missed % 2 * Pow2(j);
    SplitBits(missed, j);
    PowAdd(a, one, rest);
    PowAdd(b, one, rest);
    PowLess(a, b, rest);
    ChainLoses(r, mid, load, missed % 2, Ones(missed / 2), Pow(a, one), Pow(b, one), Pow(a, rest), Pow(b, rest));
  }

  lemma NoLoss(load: nat)
    ensures Loses(load, 0, load, 1, 1)
  {
  }

  lemma BitLoses(load: nat, bit: nat, idx: nat, j: nat)
    requires 2 <= idx < CPU_LOAD_IDX_MAX && j < 7 && bit < 2
    ensures Loses(KeepBit(load, bit, idx, j), bit, load, Pow(Pow2(idx) - 1, bit * Pow2(j)), Pow(Pow2(idx), bit * Pow2(j)))
  {
    hide Pow;
    if bit == 1 {
      TableBelow(idx, j);
      FactorLoses(load, Factor(idx, j), Pow(Pow2(idx) - 1, Pow2(j)), Pow(Pow2(idx), Pow2(j)));
      assert bit * Pow2(j) == Pow2(j);
    } else {
      assert bit * Pow2(j) == 0;
      PowZero(Pow2(idx) - 1);
      PowZero(Pow2(idx));
    }
  }

  /** What is left after DECAY_TO_ZERO_TICKS updates is less than one 128th. */
  lemma ZeroTicks(idx: nat, missed: nat)
    requires 1 <= idx < CPU_LOAD_IDX_MAX && missed >= DECAY_TO_ZERO_TICKS[idx]
    ensures 128 * Pow(Pow2(idx) - 1, missed) <= Pow(Pow2(idx), missed)
  {
    hide Pow;
    var a, b, n := Pow2(idx) - 1, Pow2(idx), DECAY_TO_ZERO_TICKS[idx];
    ZeroTicksAt(idx);
    PowAdd(a, n, missed - n);
    PowAdd(b, n, missed - n);
    PowLess(a, b, missed - n);
    MulBoth(128 * Pow(a, n), Pow(b, n), Pow(a, missed - n), Pow(b, missed - n));
    assert 128 * Pow(a, n) * Pow(a, missed - n) == 128 * (Pow(a, n) * Pow(a, missed - n));
  }

  lemma ZeroTicksAt(idx: nat)
    requires 1 <= idx < CPU_LOAD_IDX_MAX
    ensures 128 * Pow(Pow2(idx) - 1, DECAY_TO_ZERO_TICKS[idx]) <= Pow(Pow2(idx), DECAY_TO_ZERO_TICKS[idx])
  {
    hide Pow;
    assert Pow2(1) == 2 && Pow2(2) == 4 && Pow2(3) == 8 && Pow2(4) == 16;
    if idx == 1 {
      PowOne(8);
      PowIsPow2(8);
      assert Pow2(8) == 256;
    } else if idx == 2 {
      PowersOf4();
      PowersOf3();
    } else if idx == 3 {
      PowersOf8();
      PowersOf7();
    } else {
      PowersOf16();
      PowersOf15();
      PowDouble(16, 64);
      PowDouble(15, 64);
      MulBoth(12 * Pow(15, 64), Pow(16, 64), 12 * Pow(15, 64), Pow(16, 64));
      assert 12 * Pow(15, 64) * (12 * Pow(15, 64)) == 144 * (Pow(15, 64) * Pow(15, 64));
    }
  }

  lemma {:induction false} SomeBit(n: nat)
    requires n > 0
    ensures Ones(n) > 0
  {
    if n % 2 == 0 {
      SomeBit(n / 2);
    }
  }

  /** And missing n updates never leaves less than load * ((2^idx - 1) / 2^idx)^n but for one, and one
      128th of the load, per set bit of n. */
  lemma DecayLoses(load: nat, missed: nat, idx: nat)
    requires 1 <= idx < CPU_LOAD_IDX_MAX
    ensures Loses(Decay(load, missed, idx), Ones(missed), load, Pow(Pow2(idx) - 1, missed), Pow(Pow2(idx), missed))
  {
    hide Pow, DecayBits, Ones, Loses;
    if missed == 0 {
      PowZero(Pow2(idx));
      PowZero(Pow2(idx) - 1);
      NoLoss(load);
      assert Ones(0) == 0 by { NoBits(); }
    } else if missed >= DECAY_TO_ZERO_TICKS[idx] {
      SomeBit(missed);
      ZeroTicks(idx, missed);
      NothingLeft(load, Ones(missed), Pow(Pow2(idx) - 1, missed), Pow(Pow2(idx), missed));
    } else if idx == 1 {
      SomeBit(missed);
      HalvingLoses(load, missed, Ones(missed), load / Pow2(missed));
    } else {
      assert Pow2(7) == 128 && Pow2(0) == 1;
      DecayBitsLoses(load, missed, idx, 0);
      assert missed * Pow2(0) == missed;
    }
  }

  lemma NoBits()
    ensures Ones(0) == 0
  {
  }

  lemma NothingLeft(load: nat, k: nat, a: nat, b: nat)
    requires k > 0 && 128 * a <= b
    ensures Loses(0, k, load, a, b)
  {
    MulBoth(load, load, 128 * a, b);
    MulBoth(1, k, load, load);
    MulBoth(load, 128 * k + k * load, b, b);
    Regroup(load, 0, 128, a);
  }

  lemma HalvingLoses(load: nat, missed: nat, k: nat, r: nat)
    requires k > 0 && r == load / Pow2(missed)
    ensures Loses(r, k, load, Pow(Pow2(1) - 1, missed), Pow(Pow2(1), missed))
  {
    hide Pow;
    assert Pow2(1) == 2;
    PowOne(missed);
    PowIsPow2(missed);
    HalfLost(load, Pow2(missed), k, r);
  }

  lemma HalfLost(load: nat, d: nat, k: nat, q: nat)
    requires d > 0 && k > 0 && q == load / d
    ensures Loses(q, k, load, 1, d)
  {
    assert load < d * (q + 1);
    MulBoth(q + 1, q + k, d, d);
    MulBoth(128 * (q + k), 128 * (q + k) + k * load, d, d);
    Regroup(128, 0, q + k, d);
  }

  // ---------- one update ----------

  /** The average of scale - 1 parts of the old value and one of the new, rounded toward the new. */
  function Blend(base: nat, cur: nat, scale: nat): nat
    requires scale > 0
  {
    var less: nat := scale - 1;
    var whole: nat := base * less + (if cur > base then cur + less else cur);
    whole / scale
  }

  /** pending_updates - 1 on an unsigned word. */
  function MissedUpdates(pending: nat): nat {
    (pending + TWO_64 - 1) % TWO_64
  }

  /** The new value of cpu_load[i] (sched.c:222-235). */
  function Updated(old_: nat, cur: nat, pending: nat, i: nat): nat
    requires 1 <= i < CPU_LOAD_IDX_MAX
  {
    Blend(Decay(old_, MissedUpdates(pending), i), cur, Pow2(i))
  }

  /** What counts of the old value with `pending` updates due: one of them is the present one, and with
      none due the word wraps and nothing is left. */
  function Base(old_: nat, pending: nat, i: nat): nat
    requires 1 <= i < CPU_LOAD_IDX_MAX
  {
    if pending == 0 then 0 else Decay(old_, pending - 1, i)
  }

  lemma MissedIs(old_: nat, pending: nat, i: nat)
    requires 1 <= i < CPU_LOAD_IDX_MAX && pending < TWO_64
    ensures Decay(old_, MissedUpdates(pending), i) == Base(old_, pending, i)
  {
    MissedUpdatesIs(pending);
    hide Pow2, DecayBits, MissedUpdates;
    if pending == 0 {
      assert Decay(old_, TWO_64 - 1, i) == 0;
    }
  }

  lemma MissedUpdatesIs(pending: nat)
    requires pending < TWO_64
    ensures MissedUpdates(pending) == if pending == 0 then TWO_64 - 1 else pending - 1
  {
  }

  /** The new average is the mean of what counts of the old value and the load with weights 1 - 1/2^i
      and 1/2^i, rounded toward the load. */
  lemma UpdatedIsMean(old_: nat, cur: nat, pending: nat, i: nat)
    requires 1 <= i < CPU_LOAD_IDX_MAX && pending < TWO_64
    ensures var base, scale, r := Base(old_, pending, i), Pow2(i), Updated(old_, cur, pending, i);
            var whole := base * (scale - 1) + cur;
            if cur > base then whole <= scale * r < whole + scale else whole - scale < scale * r <= whole
  {
    hide Decay, MissedUpdates, Base;
    MissedIs(old_, pending, i);
    var base, scale := Base(old_, pending, i), Pow2(i);
    var less: nat := scale - 1;
    FloorAround(base * less + (if cur > base then cur + less else cur), scale);
  }

  lemma FloorAround(x: nat, d: nat)
    requires d > 0
    ensures x - d < d * (x / d) <= x
  {
  }

  /** __update_cpu_load (sched.c:214-236). */
  method UpdateCpuLoad(cpuLoad: array<nat>, curLoad: nat, pending: nat)
    requires cpuLoad.Length == CPU_LOAD_IDX_MAX
    modifies cpuLoad
    ensures cpuLoad[0] == curLoad
    ensures forall i :: 1 <= i < CPU_LOAD_IDX_MAX ==> cpuLoad[i] == Updated(old(cpuLoad[i]), curLoad, pending, i)
  {
    hide Decay, Pow, MissedUpdates;
    cpuLoad[0] := curLoad;
    var i, scale := 1, 2;
    while i < CPU_LOAD_IDX_MAX
      invariant 1 <= i <= CPU_LOAD_IDX_MAX && scale == Pow2(i)
      invariant cpuLoad[0] == curLoad
      invariant forall k :: 1 <= k < i ==> cpuLoad[k] == Updated(old(cpuLoad[k]), curLoad, pending, k)
      invariant forall k :: i <= k < CPU_LOAD_IDX_MAX ==> cpuLoad[k] == old(cpuLoad[k])
    {
      var oldLoad := DecayCpuLoadMissed(cpuLoad[i], MissedUpdates(pending), i);
      var newLoad := curLoad;
      if newLoad > oldLoad {
        newLoad := newLoad + scale - 1;
      }
      cpuLoad[i] := (oldLoad * (scale - 1) + newLoad) / scale;
      i := i + 1;
      scale := scale + scale;
    }
  }

  // ---------- a constant load ----------

  function Distance(a: nat, b: nat): nat {
    if a < b then b - a else a - b
  }

  /** With one pending update and a constant load the average moves strictly
      toward the load and never past it. */
  lemma UpdateApproaches(old_: nat, cur: nat, i: nat)
    requires 1 <= i < CPU_LOAD_IDX_MAX
    ensures var new_ := Updated(old_, cur, 1, i);
            && (old_ <= cur ==> old_ <= new_ <= cur)
            && (old_ >= cur ==> cur <= new_ <= old_)
            && (old_ != cur ==> Distance(new_, cur) < Distance(old_, cur))
  {
    assert Pow2(1) == 2 && Pow2(2) == 4 && Pow2(3) == 8 && Pow2(4) == 16;
    assert MissedUpdates(1) == 0;
  }

  function Iterate(old_: nat, cur: nat, i: nat, times: nat): nat
    requires 1 <= i < CPU_LOAD_IDX_MAX
    decreases times
  {
    if times == 0 then old_ else Iterate(Updated(old_, cur, 1, i), cur, i, times - 1)
  }

  /** So after at most |old - load| updates the average equals the load, and stays there. */
  lemma {:induction false} UpdateConverges(old_: nat, cur: nat, i: nat, times: nat)
    requires 1 <= i < CPU_LOAD_IDX_MAX && times >= Distance(old_, cur)
    ensures Iterate(old_, cur, i, times) == cur
    decreases times
  {
    if times > 0 {
      UpdateApproaches(old_, cur, i);
      UpdateConverges(Updated(old_, cur, 1, i), cur, i, times - 1);
    }
  }
}
