/** Wall-clock slices of the entities of one queue (pss.c:52-57, 118-129, 791-811). */
module Slices {
  import opened FixedPoint

  /** The tunables behind sched_period; the defaults are 6 ms, 0.75 ms and 8. */
  datatype Tunables = Tunables(latency: nat, minGranularity: nat, nrLatency: nat)

  function SchedPeriod(p: Tunables, nrRunning: nat): nat {
    if nrRunning > p.nrLatency then p.minGranularity * nrRunning else p.latency
  }

  /** One level of the walk in sched_slice: the entity's weight and its queue's load. */
  datatype Level = Level(weight: nat, load: nat)

  /** sched_slice from the entity's own level up to the root, for a joined entity. */
  function SchedSlice(slice: nat, path: seq<Level>): nat
    decreases path
  {
    if path == [] then slice
    else hide Scale; SchedSlice(Scale(slice, path[0].weight, path[0].load), path[1..])
  }

  function Sum(s: seq<nat>): nat {
    if s == [] then 0 else s[0] + Sum(s[1..])
  }

  /** The slices of all entities of a queue with these weights and total load;
      `up` are the levels of the group that owns the queue. */
  function AllSlices(slice: nat, weights: seq<nat>, load: nat, up: seq<Level>): (r: seq<nat>)
    ensures |r| == |weights|
    ensures forall i :: 0 <= i < |r| ==> r[i] == SchedSlice(slice, [Level(weights[i], load)] + up)
  {
    seq(|weights|, i requires 0 <= i < |weights| => SchedSlice(slice, [Level(weights[i], load)] + up))
  }

  /** What rounding can add per entity at one level. */
  function Rounding(load: nat): nat
    requires load > 0
  {
    TWO_15 / load + 2
  }

  /** The loads are in the range of the inverse, no weight exceeds its load, and nothing overflows. */
  predicate PathFits(slice: nat, path: seq<Level>)
    decreases path
  {
    hide Scale, Fits;
    path != [] ==>
      && 2 <= path[0].load < TWO_32 && path[0].weight <= path[0].load
      && Fits(slice, path[0].weight, path[0].load)
      && PathFits(Scale(slice, path[0].weight, path[0].load), path[1..])
  }

  lemma RoundingCovers(load: nat)
    requires load > 0
    ensures load * Rounding(load) >= TWO_15 + load
  {
    assert TWO_15 < load * (TWO_15 / load) + load;
    assert load * (TWO_15 / load + 2) == load * (TWO_15 / load) + load + load;
  }

  lemma CancelFactor(a: nat, b: nat, k: nat)
    requires k > 0 && a * k <= b * k
    ensures a <= b
  {
    if a > b {
      MulMonotone(b + 1, a, k);
    }
  }

  lemma AddMember(r: nat, w: nat, rs: nat, ws: nat, slice: nat, load: nat, n: nat, k: nat)
    requires r * load <= slice * w + k && rs * load <= slice * ws + n * k
    ensures (r + rs) * load <= slice * (w + ws) + (n + 1) * k
  {
  }

  lemma DivideByLoad(total: nat, slice: nat, load: nat, n: nat, k: nat, rounding: nat)
    requires load > 0 && total * load <= slice * load + n * k && k <= load * rounding
    ensures total <= slice + n * rounding
  {
    assert n * k <= n * (load * rounding) == (n * rounding) * load;
    assert total * load <= (slice + n * rounding) * load;
    CancelFactor(total, slice + n * rounding, load);
  }

  /** One level of one queue, weights w_i summing to at most `load`: multiplied out by the load. */
  lemma {:induction false} QueueBound(slice: nat, weights: seq<nat>, load: nat)
    requires 2 <= load < TWO_32
    requires forall i :: 0 <= i < |weights| ==> Fits(slice, weights[i], load)
    ensures Sum(Level0(slice, weights, load)) * load <= slice * Sum(weights) + |weights| * (TWO_15 + load)
  {
    hide Scale, Fits;
    if weights != [] {
      var w := weights[0];
      ScaleBounds(slice, w, load);
      QueueBound(slice, weights[1..], load);
      var r, rest := Scale(slice, w, load), Sum(Level0(slice, weights[1..], load));
      AddMember(r, w, rest, Sum(weights[1..]), slice, load, |weights[1..]|, TWO_15 + load);
    }
  }

  function Level0(slice: nat, weights: seq<nat>, load: nat): (r: seq<nat>)
    ensures |r| == |weights|
    ensures forall i :: 0 <= i < |r| ==> r[i] == Scale(slice, weights[i], load)
  {
    if weights == [] then [] else [Scale(slice, weights[0], load)] + Level0(slice, weights[1..], load)
  }

  // ---------- one level further up ----------

  /** What a group of this slice can lose to rounding at one level: its own rounding, and the error
      of the 32-bit inverse. */
  function Loss(slice: nat, l: Level): nat
    requires l.load > 0
  {
    Ceil32(slice * l.weight) + Rounding(l.load)
  }

  function Ceil32(t: nat): (r: nat)
    ensures t <= r * TWO_32
  {
    t / TWO_32 + 1
  }

  /** The entities of one queue on their way up: what they get of `slices`. */
  function LevelAll(slices: seq<nat>, l: Level): (r: seq<nat>)
    ensures |r| == |slices|
    ensures forall i :: 0 <= i < |r| ==> r[i] == Scale(slices[i], l.weight, l.load)
  {
    if slices == [] then [] else [Scale(slices[0], l.weight, l.load)] + LevelAll(slices[1..], l)
  }

  lemma {:induction false} LevelSum(slices: seq<nat>, l: Level)
    requires 2 <= l.load < TWO_32
    requires forall i :: 0 <= i < |slices| ==> Fits(slices[i], l.weight, l.load)
    ensures Sum(LevelAll(slices, l)) * l.load <= Sum(slices) * l.weight + |slices| * (TWO_15 + l.load)
  {
    hide Scale, Fits;
    if slices != [] {
      ScaleBounds(slices[0], l.weight, l.load);
      LevelSum(slices[1..], l);
      var r, rest, n, k := Scale(slices[0], l.weight, l.load), Sum(LevelAll(slices[1..], l)), |slices[1..]|, TWO_15 + l.load;
      AddSlice(r, rest, slices[0], Sum(slices[1..]), l.weight, l.load, n, k);
    }
  }

  lemma AddSlice(r: nat, rs: nat, x: nat, xs: nat, w: nat, load: nat, n: nat, k: nat)
    requires r * load <= x * w + k && rs * load <= xs * w + n * k
    ensures (r + rs) * load <= (x + xs) * w + (n + 1) * k
  {
  }

  /** If the slices of a queue exceed their group's by at most `extra`, then what they become one
      level up exceeds what the group's becomes by not much more. */
  lemma LevelBound(slices: seq<nat>, slice: nat, extra: nat, l: Level)
    requires 2 <= l.load < TWO_32 && l.weight <= l.load && Sum(slices) <= slice + extra
    requires Fits(slice, l.weight, l.load) && (forall i :: 0 <= i < |slices| ==> Fits(slices[i], l.weight, l.load))
    ensures Sum(LevelAll(slices, l)) <=
              Scale(slice, l.weight, l.load) + extra + |slices| * Rounding(l.load) + Loss(slice, l)
  {
    hide Scale, Fits, Rounding, Ceil32, LevelAll;
    var total, r, n := Sum(LevelAll(slices, l)), Scale(slice, l.weight, l.load), |slices|;
    LevelSum(slices, l);
    ScaleBounds(slice, l.weight, l.load);
    RoundingCovers(l.load);
    LevelArithmetic(total, Sum(slices), slice, extra, l.weight, l.load, r, n, Rounding(l.load), Ceil32(slice * l.weight));
  }

  lemma LevelArithmetic(total: nat, sum: nat, slice: nat, extra: nat, w: nat, load: nat, r: nat, n: nat, rounding: nat, inv: nat)
    requires w <= load && 2 <= load && sum <= slice + extra && TWO_15 + load <= load * rounding
    requires total * load <= sum * w + n * (TWO_15 + load) && slice * w <= inv * TWO_32
    requires r * load * TWO_32 + slice * w * load + TWO_15 * TWO_32 + load * TWO_32 >= slice * w * TWO_32
    ensures total <= r + extra + n * rounding + (inv + rounding)
  {
    WeightedSum(sum, slice, extra, w, load);
    GroupShare(slice * w, inv, load, r * load);
    Roundings(n, load, rounding);
    LevelQuotient(total, sum * w, slice * w, extra, load, r, n * (TWO_15 + load), n * rounding, rounding, inv);
  }

  lemma LevelQuotient(total: nat, sum: nat, t: nat, extra: nat, load: nat, r: nat, k: nat, c: nat, rounding: nat, inv: nat)
    requires load > 0 && total * load <= sum + k && sum <= t + extra * load && k <= c * load
    requires t <= r * load + inv * load + TWO_15 + load && TWO_15 + load <= load * rounding
    ensures total <= r + extra + c + (inv + rounding)
  {
    Expand(r, extra, c, inv, rounding, load);
    CancelFactor(total, r + extra + c + (inv + rounding), load);
  }

  lemma WeightedSum(sum: nat, slice: nat, extra: nat, w: nat, load: nat)
    requires w <= load && sum <= slice + extra
    ensures sum * w <= slice * w + extra * load
  {
    MulMonotone(sum, slice + extra, w);
    MulMonotone(w, load, extra);
    assert (slice + extra) * w == slice * w + extra * w;
  }

  lemma GroupShare(t: nat, inv: nat, load: nat, share: nat)
    requires t <= inv * TWO_32
    requires share * TWO_32 + t * load + TWO_15 * TWO_32 + load * TWO_32 >= t * TWO_32
    ensures t <= share + inv * load + TWO_15 + load
  {
    MulMonotone(t, inv * TWO_32, load);
    assert (inv * TWO_32) * load == (inv * load) * TWO_32;
  }

  lemma Roundings(n: nat, load: nat, rounding: nat)
    requires TWO_15 + load <= load * rounding
    ensures n * (TWO_15 + load) <= (n * rounding) * load
  {
    MulMonotone(TWO_15 + load, load * rounding, n);
    assert n * (load * rounding) == (n * rounding) * load;
  }

  lemma Expand(a: nat, b: nat, c: nat, d: nat, e: nat, k: nat)
    ensures (a + b + c + (d + e)) * k == a * k + b * k + c * k + d * k + e * k
  {
  }

  // ---------- one entity's slice ----------

  /** The product of the weights along a path, and of the loads. */
  function Nums(path: seq<Level>): nat {
    if path == [] then 1 else path[0].weight * Nums(path[1..])
  }

  function Dens(path: seq<Level>): nat {
    if path == [] then 1 else path[0].load * Dens(path[1..])
  }

  /** What rounding can add to a slice along a path. */
  function Gained(path: seq<Level>): nat
    requires forall i :: 0 <= i < |path| ==> path[i].load > 0
  {
    if path == [] then 0 else hide Rounding; Rounding(path[0].load) + Gained(path[1..])
  }

  /** What rounding and the 32-bit inverses can take from it. */
  function Lost(slice: nat, path: seq<Level>): nat
    requires forall i :: 0 <= i < |path| ==> path[i].load > 0
    decreases path
  {
    if path == [] then 0
    else hide Scale, Loss; Loss(slice, path[0]) + Lost(Scale(slice, path[0].weight, path[0].load), path[1..])
  }

  /** r is slice * num / den but for at most `more` above and `less` below. */
  predicate Around(r: nat, slice: nat, num: nat, den: nat, more: nat, less: nat) {
    r * den <= slice * num + more * den && slice * num <= (r + less) * den
  }

  /** One level: r is within a rounding of slice * w / load. */
  lemma LevelShare(slice: nat, l: Level)
    requires 2 <= l.load < TWO_32 && Fits(slice, l.weight, l.load)
    ensures Around(Scale(slice, l.weight, l.load), slice, l.weight, l.load, Rounding(l.load), Loss(slice, l))
  {
    hide Scale, Fits, Rounding, Ceil32;
    var t, r := slice * l.weight, Scale(slice, l.weight, l.load);
    ScaleBounds(slice, l.weight, l.load);
    RoundingCovers(l.load);
    GroupShare(t, Ceil32(t), l.load, r * l.load);
    Expand(r, Ceil32(t), Rounding(l.load), 0, 0, l.load);
  }

  lemma MulBoth(x: nat, y: nat, u: nat, v: nat)
    requires x <= y && u <= v
    ensures x * u <= y * v
  {
    assert x * u <= y * u <= y * v;
  }

  /** Two such quotients, one after the other. */
  lemma AroundBoth(s: nat, r: nat, slice: nat, w: nat, load: nat, n: nat, d: nat, more: nat, less: nat, more': nat, less': nat)
    requires n <= d && Around(r, slice, w, load, more, less) && Around(s, r, n, d, more', less')
    ensures Around(s, slice, w * n, load * d, more + more', less + less')
  {
    AroundAbove(s, r, slice, w, load, n, d, more, more');
    AroundBelow(s, r, slice, w, load, n, d, less, less');
  }

  lemma AroundAbove(s: nat, r: nat, slice: nat, w: nat, load: nat, n: nat, d: nat, more: nat, more': nat)
    requires n <= d && r * load <= slice * w + more * load && s * d <= r * n + more' * d
    ensures s * (load * d) <= slice * (w * n) + (more + more') * (load * d)
  {
    MulBoth(s * d, r * n + more' * d, load, load);
    MulBoth(r * load, slice * w + more * load, n, n);
    MulBoth(more * load, more * load, n, d);
    Regroup(s, 0, d, load);
    Regroup(r, more', n, load);
    Regroup(more, more', load, d);
    Regroup(slice, 0, w, n);
    assert (r * n + more' * d) * load == (r * n) * load + (more' * d) * load;
    assert (slice * w + more * load) * n == (slice * w) * n + (more * load) * n;
    assert (r * n) * load == (r * load) * n;
    assert (s * d) * load == s * (load * d);
    assert (more' * d) * load == (more' * load) * d;
  }

  lemma AroundBelow(s: nat, r: nat, slice: nat, w: nat, load: nat, n: nat, d: nat, less: nat, less': nat)
    requires n <= d && slice * w <= (r + less) * load && r * n <= (s + less') * d
    ensures slice * (w * n) <= (s + (less + less')) * (load * d)
  {
    MulBoth(slice * w, (r + less) * load, n, n);
    MulBoth(r * n, (s + less') * d, load, load);
    MulBoth(less * load, less * load, n, d);
    Regroup(slice, 0, w, n);
    Regroup(r, less, load, n);
    Regroup(s + less', less, load, d);
    assert (r * load) * n == (r * n) * load;
    assert ((s + less') * d) * load == ((s + less') * load) * d;
  }

  lemma Regroup(x: nat, y: nat, a: nat, b: nat)
    ensures ((x + y) * a) * b == (x * a) * b + (y * a) * b
    ensures ((x + y) * a) * b == (x + y) * (a * b)
    ensures (x * a) * b == x * (a * b)
  {
  }

  lemma {:induction false} NumsWithin(slice: nat, path: seq<Level>)
    requires PathFits(slice, path)
    ensures Nums(path) <= Dens(path)
    ensures forall i :: 0 <= i < |path| ==> path[i].load > 0
    decreases path
  {
    hide Scale, Fits;
    if path != [] {
      NumsWithin(Scale(slice, path[0].weight, path[0].load), path[1..]);
      MulBoth(path[0].weight, path[0].load, Nums(path[1..]), Dens(path[1..]));
    }
  }

  /** An entity's slice is the period times its share of the load at every level up to the root, but
      for rounding. */
  lemma {:induction false} SliceIsShare(slice: nat, path: seq<Level>)
    requires PathFits(slice, path)
    requires forall i :: 0 <= i < |path| ==> path[i].load > 0
    ensures Around(SchedSlice(slice, path), slice, Nums(path), Dens(path), Gained(path), Lost(slice, path))
    decreases path
  {
    hide Scale, Fits, Rounding, Loss, Around;
    if path == [] {
      AroundSelf(slice);
    } else {
      var l, rest := path[0], path[1..];
      var r := Scale(slice, l.weight, l.load);
      LevelShare(slice, l);
      SliceIsShare(r, rest);
      NumsWithin(r, rest);
      AroundBoth(SchedSlice(r, rest), r, slice, l.weight, l.load, Nums(rest), Dens(rest),
                 Rounding(l.load), Loss(slice, l), Gained(rest), Lost(r, rest));
    }
  }

  lemma AroundSelf(slice: nat)
    ensures Around(slice, slice, 1, 1, 0, 0)
  {
  }

  /** A period gives every entity of the queue its minimum granularity, if sched_latency does so for
      sched_nr_latency of them; up to that number it is sched_latency itself. */
  lemma PeriodCovers(p: Tunables, nrRunning: nat)
    ensures nrRunning <= p.nrLatency ==> SchedPeriod(p, nrRunning) == p.latency
    ensures p.minGranularity * p.nrLatency <= p.latency ==> SchedPeriod(p, nrRunning) >= p.minGranularity * nrRunning
    ensures nrRunning > p.nrLatency ==> SchedPeriod(p, nrRunning) == nrRunning * p.minGranularity
  {
    if nrRunning <= p.nrLatency {
      MulBoth(p.minGranularity, p.minGranularity, nrRunning, p.nrLatency);
    }
  }

  // ---------- all levels ----------

  /** How far the slices of n entities may exceed their group's, all the way up. */
  function Slack(slice: nat, n: nat, extra: nat, up: seq<Level>): nat
    requires forall i :: 0 <= i < |up| ==> up[i].load > 0
    decreases up
  {
    if up == [] then extra
    else
      hide Scale, Loss, Rounding;
      Slack(Scale(slice, up[0].weight, up[0].load), n, extra + n * Rounding(up[0].load) + Loss(slice, up[0]), up[1..])
  }

  /** What all entities of a queue make of their slices on the rest of the way up. */
  function UpAll(slices: seq<nat>, up: seq<Level>): (r: seq<nat>)
    ensures |r| == |slices|
    ensures forall i :: 0 <= i < |r| ==> r[i] == SchedSlice(slices[i], up)
  {
    if slices == [] then [] else [SchedSlice(slices[0], up)] + UpAll(slices[1..], up)
  }

  lemma {:induction false} UpSum(slices: seq<nat>, slice: nat, extra: nat, up: seq<Level>)
    requires forall i :: 0 <= i < |up| ==> up[i].load > 0
    requires PathFits(slice, up) && (forall i :: 0 <= i < |slices| ==> PathFits(slices[i], up))
    requires Sum(slices) <= slice + extra
    ensures Sum(UpAll(slices, up)) <= SchedSlice(slice, up) + Slack(slice, |slices|, extra, up)
    decreases up
  {
    hide Scale, Fits, Loss, Rounding;
    if up == [] {
      assert UpAll(slices, up) == slices;
    } else {
      var next := LevelAll(slices, up[0]);
      assert slices != [] ==> PathFits(slices[0], up);
      forall i | 0 <= i < |slices| ensures Fits(slices[i], up[0].weight, up[0].load) && PathFits(next[i], up[1..]) {
        assert PathFits(slices[i], up);
      }
      LevelBound(slices, slice, extra, up[0]);
      UpSum(next, Scale(slice, up[0].weight, up[0].load), extra + |slices| * Rounding(up[0].load) + Loss(slice, up[0]), up[1..]);
      assert UpAll(slices, up) == UpAll(next, up[1..]);
    }
  }

  /** The slices of all entities of a queue exceed what their group gets out of the same slice by at
      most a rounding term per entity and level; at the root, where there is no group, they exceed
      the slice itself by no more. */
  lemma SlicesFillGroup(slice: nat, weights: seq<nat>, up: seq<Level>)
    requires 2 <= Sum(weights) < TWO_32 && PathFits(slice, up)
    requires forall i :: 0 <= i < |up| ==> up[i].load > 0
    requires forall i :: 0 <= i < |weights| ==> PathFits(slice, [Level(weights[i], Sum(weights))] + up)
    ensures Sum(AllSlices(slice, weights, Sum(weights), up))
         <= SchedSlice(slice, up) + Slack(slice, |weights|, |weights| * Rounding(Sum(weights)), up)
  {
    hide Scale, Fits, Rounding;
    var load, n := Sum(weights), |weights|;
    var own := Level0(slice, weights, load);
    forall i | 0 <= i < n ensures Fits(slice, weights[i], load) && PathFits(own[i], up) {
      var path := [Level(weights[i], load)] + up;
      assert path[1..] == up && PathFits(slice, path);
    }
    QueueBound(slice, weights, load);
    RoundingCovers(load);
    DivideByLoad(Sum(own), slice, load, n, TWO_15 + load, Rounding(load));
    UpSum(own, slice, n * Rounding(load), up);
    forall i | 0 <= i < n ensures AllSlices(slice, weights, load, up)[i] == UpAll(own, up)[i] {
      assert ([Level(weights[i], load)] + up)[1..] == up;
    }
    assert AllSlices(slice, weights, load, up) == UpAll(own, up);
  }

  /** The period of a queue of the root is shared out once, up to rounding. */
  lemma SlicesFillPeriod(p: Tunables, weights: seq<nat>)
    requires 2 <= Sum(weights) < TWO_32
    requires forall i :: 0 <= i < |weights| ==> PathFits(SchedPeriod(p, |weights|), [Level(weights[i], Sum(weights))])
    ensures Sum(AllSlices(SchedPeriod(p, |weights|), weights, Sum(weights), []))
         <= SchedPeriod(p, |weights|) + |weights| * Rounding(Sum(weights))
  {
    hide SchedPeriod, Rounding, Scale, Fits;
    forall i | 0 <= i < |weights| ensures PathFits(SchedPeriod(p, |weights|), [Level(weights[i], Sum(weights))] + []) {
      assert [Level(weights[i], Sum(weights))] + [] == [Level(weights[i], Sum(weights))];
    }
    SlicesFillGroup(SchedPeriod(p, |weights|), weights, []);
  }
}
