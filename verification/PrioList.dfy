/** The two-level priority list (prio_list.c, sched.h:253-256).

    Threads of equal priority hang in a bucket; the first of them, the bucket head, carries the
    bucket and stands in the top-level list.  Flattened, the list is a stable priority queue.  The
    TAILQ macros are part of the kernel: a tail queue is a sequence, and the link that
    TAILQ_PREV follows is kept as qprev. */
module PrioList {

  /** The fields of struct td_sched and its thread that the list uses. */
  class TdSched {
    var tdPriority: int          // td_priority
    var prio: int                // saved when the thread is added
    var qhead: seq<TdSched>
    var qprev: TdSched?
  }

  // ---------- the specification: one stable queue ----------

  /** x goes behind all entries of equal or smaller priority. */
  ghost function InsertByPrio(s: seq<TdSched>, x: TdSched): seq<TdSched>
    reads s`prio, x`prio
  {
    if s == [] || x.prio < s[0].prio then [x] + s else [s[0]] + InsertByPrio(s[1..], x)
  }

  function Without(s: seq<TdSched>, x: TdSched): seq<TdSched> {
    if s == [] then [] else if s[0] == x then s[1..] else [s[0]] + Without(s[1..], x)
  }

  ghost predicate InPrioOrder(s: seq<TdSched>)
    reads s`prio
  {
    forall i, j :: 0 <= i < j < |s| ==> s[i].prio <= s[j].prio
  }

  ghost function Concat(b: seq<seq<TdSched>>): seq<TdSched> {
    if b == [] then [] else b[0] + Concat(b[1..])
  }

  // ---------- lemmas on sequences ----------

  lemma {:induction false} ConcatSplit(b: seq<seq<TdSched>>, c: seq<seq<TdSched>>)
    ensures Concat(b + c) == Concat(b) + Concat(c)
  {
    if b == [] {
      assert b + c == c;
    } else {
      assert (b + c)[1..] == b[1..] + c;
      ConcatSplit(b[1..], c);
    }
  }

  lemma ConcatOne(x: seq<TdSched>)
    ensures Concat([x]) == x
  {
    assert Concat([x]) == x + Concat([]);
  }

  /** Everything in the concatenation is in some bucket. */
  lemma {:induction false} ConcatElem(b: seq<seq<TdSched>>, k: nat) returns (i: nat, j: nat)
    requires k < |Concat(b)|
    ensures i < |b| && j < |b[i]| && Concat(b)[k] == b[i][j]
  {
    if k < |b[0]| {
      i, j := 0, k;
    } else {
      i, j := ConcatElem(b[1..], k - |b[0]|);
      i := i + 1;
    }
  }

  lemma {:induction false} ElemConcat(b: seq<seq<TdSched>>, i: nat, j: nat)
    requires i < |b| && j < |b[i]|
    ensures b[i][j] in Concat(b)
  {
    if i > 0 {
      ElemConcat(b[1..], i - 1, j);
    }
  }

  lemma {:induction false} InsertedBetween(p: seq<TdSched>, x: TdSched, q: seq<TdSched>)
    requires forall k :: 0 <= k < |p| ==> p[k].prio <= x.prio
    requires forall k :: 0 <= k < |q| ==> x.prio < q[k].prio
    ensures InsertByPrio(p + q, x) == p + [x] + q
  {
    if p == [] {
      assert p + q == q;
    } else {
      assert (p + q)[1..] == p[1..] + q;
      InsertedBetween(p[1..], x, q);
    }
  }

  lemma {:induction false} WithoutBetween(p: seq<TdSched>, x: TdSched, q: seq<TdSched>)
    requires x !in p
    ensures Without(p + [x] + q, x) == p + q
  {
    if p == [] {
      assert p + [x] + q == [x] + q;
    } else {
      assert (p + [x] + q)[1..] == p[1..] + [x] + q;
      WithoutBetween(p[1..], x, q);
    }
  }

  /** The i-th bucket in the middle of the whole. */
  lemma Around(b: seq<seq<TdSched>>, i: nat)
    requires i < |b|
    ensures Concat(b) == Concat(b[..i]) + b[i] + Concat(b[i + 1..])
  {
    Cut(b, i);
    ConcatThree(b[..i], b[i], b[i + 1..]);
  }

  lemma Cut(b: seq<seq<TdSched>>, i: nat)
    requires i < |b|
    ensures b == b[..i] + [b[i]] + b[i + 1..]
  {
  }

  lemma ConcatThree(p: seq<seq<TdSched>>, m: seq<TdSched>, q: seq<seq<TdSched>>)
    ensures Concat(p + [m] + q) == Concat(p) + m + Concat(q)
  {
    hide Concat;
    ConcatSplit(p + [m], q);
    ConcatSplit(p, [m]);
    ConcatOne(m);
  }

  // ---------- tail queues ----------

  /** TAILQ_INSERT_BEFORE. */
  function InsertBefore(s: seq<TdSched>, at: TdSched, x: TdSched): seq<TdSched> {
    if s == [] || s[0] == at then [x] + s else [s[0]] + InsertBefore(s[1..], at, x)
  }

  lemma {:induction false} WithoutAt(s: seq<TdSched>, i: nat)
    requires i < |s| && (forall j, k :: 0 <= j < k < |s| ==> s[j] != s[k])
    ensures Without(s, s[i]) == s[..i] + s[i + 1..]
  {
    assert s == s[..i] + [s[i]] + s[i + 1..];
    WithoutBetween(s[..i], s[i], s[i + 1..]);
  }

  /** Inserting x before an entry and removing the entry puts x in its place. */
  lemma {:induction false} Replaced(s: seq<TdSched>, i: nat, x: TdSched)
    requires i < |s| && x !in s && (forall j, k :: 0 <= j < k < |s| ==> s[j] != s[k])
    ensures Without(InsertBefore(s, s[i], x), s[i]) == s[i := x]
  {
    if i == 0 {
      assert ([x] + s)[1..] == s;
      WithoutAt(s, 0);
    } else {
      assert s[0] != s[i];
      assert forall j, k :: 0 <= j < k < |s[1..]| ==> s[1..][j] != s[1..][k];
      Replaced(s[1..], i - 1, x);
      assert ([s[0]] + InsertBefore(s[1..], s[i], x))[1..] == InsertBefore(s[1..], s[i], x);
    }
  }

  // ---------- two levels ----------

  /** The buckets b belong to the heads h and hold exactly the threads of m. */
  ghost predicate Shape(h: seq<TdSched>, b: seq<seq<TdSched>>, m: set<TdSched>) {
    && |b| == |h|
    && (forall i :: 0 <= i < |b| ==> b[i] != [] && b[i][0] == h[i])
    && (forall i, k :: 0 <= i < |b| && 0 <= k < |b[i]| ==> b[i][k] in m)
    && (forall x :: x in m ==> x in Concat(b))
  }

  ghost function Before(b: seq<TdSched>, k: nat): TdSched?
    requires k < |b|
  {
    if k == 0 then null else b[k - 1]
  }

  /** One bucket: carried by its head, of one priority, linked backwards, without repetition. */
  ghost predicate Bucket(h: TdSched, b: seq<TdSched>)
    reads h`qhead, h`prio, b`prio, b`qprev
  {
    && h.qhead == b
    && (forall k :: 0 <= k < |b| ==> b[k].prio == h.prio)
    && (forall k {:trigger b[k].qprev} :: 0 <= k < |b| ==> b[k].qprev == Before(b, k))
    && (forall k, l :: 0 <= k < l < |b| ==> b[k] != b[l])
  }

  ghost predicate Rising(h: seq<TdSched>)
    reads h`prio
  {
    forall i, j :: 0 <= i < j < |h| ==> h[i].prio < h[j].prio
  }

  lemma RisingInsert(h: seq<TdSched>, i: nat, x: TdSched)
    requires Rising(h) && i <= |h| && (forall j :: 0 <= j < i ==> h[j].prio < x.prio)
    requires i < |h| ==> x.prio < h[i].prio
    ensures Rising(h[..i] + [x] + h[i..])
  {
  }

  lemma ShapeReplace(h: seq<TdSched>, b: seq<seq<TdSched>>, m: set<TdSched>, i: nat, x: TdSched, c: seq<TdSched>)
    requires Shape(h, b, m) && i < |b| && x !in Concat(b[..i]) && x !in Concat(b[i + 1..]) && x !in c
    requires forall y :: y in b[i] && y != x ==> y in c
    requires forall y :: y in c ==> y in b[i]
    ensures c != [] ==> Shape(h[i := c[0]], b[i := c], m - {x})
    ensures c == [] ==> Shape(h[..i] + h[i + 1..], b[..i] + b[i + 1..], m - {x})
    ensures Concat(b) == Concat(b[..i]) + b[i] + Concat(b[i + 1..])
    ensures Concat(if c != [] then b[i := c] else b[..i] + b[i + 1..]) == Concat(b[..i]) + c + Concat(b[i + 1..])
  {
    hide Concat;
    var p, q := b[..i], b[i + 1..];
    Around(b, i);
    forall j, k | 0 <= j < |b| && j != i && 0 <= k < |b[j]| ensures b[j][k] in m - {x} {
      if j < i {
        ElemConcat(p, j, k);
        assert p[j] == b[j];
      } else {
        ElemConcat(q, j - i - 1, k);
        assert q[j - i - 1] == b[j];
      }
    }
    if c != [] {
      var d := b[i := c];
      Around(d, i);
      assert d[..i] == p && d[i + 1..] == q;
      forall k | 0 <= k < |c| ensures c[k] in m - {x} {
        assert c[k] in c;
        var l :| 0 <= l < |b[i]| && b[i][l] == c[k];
      }
      forall y | y in m - {x} ensures y in Concat(d) {
        assert y in Concat(p) || y in b[i] || y in Concat(q);
      }
    } else {
      ConcatSplit(p, q);
      var d, g: seq<TdSched> := p + q, h[..i] + h[i + 1..];
      forall j: nat | j < |d| ensures d[j] != [] && d[j][0] == g[j] && forall k :: 0 <= k < |d[j]| ==> d[j][k] in m - {x} {
        var l := if j < i then j else j + 1;
        assert d[j] == b[l] && g[j] == h[l];
      }
      forall y | y in m - {x} ensures y in Concat(d) {
        assert y in Concat(p) || y in b[i] || y in Concat(q);
      }
    }
  }

  lemma BucketWithout(h: TdSched, b: seq<TdSched>, k: nat)
    requires Bucket(h, b) && k < |b|
    ensures var c := b[..k] + b[k + 1..];
            && b[k] !in c && b[k] !in b[..k] && b == b[..k] + [b[k]] + b[k + 1..]
            && (forall y :: y in b && y != b[k] ==> y in c) && (forall y :: y in c ==> y in b && y.prio == h.prio)
            && (forall l, n :: 0 <= l < n < |c| ==> c[l] != c[n])
  {
    var c := b[..k] + b[k + 1..];
    forall y | y in b && y != b[k] ensures y in c {
      var l :| 0 <= l < |b| && b[l] == y;
      assert c[if l < k then l else l - 1] == y;
    }
    assert forall l: nat :: l < |c| ==> c[l] == b[if l < k then l else l + 1];
  }

  lemma Links(h: TdSched, b: seq<TdSched>)
    requires Bucket(h, b)
    ensures forall k {:trigger b[k].qprev} :: 0 <= k < |b| ==> b[k].qprev == Before(b, k)
    ensures forall k, l :: 0 <= k < l < |b| ==> b[k] != b[l]
  {
  }

  /** The successor of the removed entry has taken over its link. */
  lemma Relinked(b: seq<TdSched>, pos: nat)
    requires pos < |b|
    requires forall k {:trigger b[k].qprev} :: 0 <= k < |b| && k != pos + 1 ==> b[k].qprev == Before(b, k)
    requires pos + 1 < |b| ==> b[pos + 1].qprev == Before(b, pos)
    ensures var c := b[..pos] + b[pos + 1..];
            forall k {:trigger c[k].qprev} :: 0 <= k < |c| ==> c[k].qprev == Before(c, k)
  {
    var c := b[..pos] + b[pos + 1..];
    forall k | 0 <= k < |c| ensures c[k].qprev == Before(c, k) {
      var l := if k < pos then k else k + 1;
      assert c[k] == b[l] && b[l].qprev == b[l].qprev;
    }
  }

  lemma BucketHead(h: TdSched, b: seq<TdSched>)
    requires Bucket(h, b)
    ensures h.qhead == b
  {
  }

  /** Entries of a bucket other than its head stand nowhere in the top-level list. */
  lemma HeadsElsewhere(h: seq<TdSched>, i: nat, x: TdSched)
    requires Rising(h) && i < |h| && x != h[i] && x.prio == h[i].prio
    ensures x !in h
  {
  }

  lemma RisingSame(h: seq<TdSched>, i: nat, x: TdSched)
    requires Rising(h) && i < |h| && x.prio == h[i].prio
    ensures Rising(h[i := x])
  {
  }

  lemma RisingDrop(h: seq<TdSched>, i: nat)
    requires Rising(h) && i < |h|
    ensures Rising(h[..i] + h[i + 1..])
    ensures forall j, k :: 0 <= j < k < |h| ==> h[j] != h[k]
  {
  }

  lemma SingleBucket(x: TdSched)
    requires x.qhead == [x] && x.qprev == null
    ensures Bucket(x, [x])
  {
  }

  lemma ShapeSize(h: seq<TdSched>, b: seq<seq<TdSched>>, m: set<TdSched>)
    requires Shape(h, b, m)
    ensures |b| == |h| && (forall i :: 0 <= i < |b| ==> b[i] != [] && b[i][0] == h[i] && h[i] in b[i])
  {
  }

  lemma ShapeAppend(h: seq<TdSched>, b: seq<seq<TdSched>>, m: set<TdSched>, i: nat, x: TdSched)
    requires Shape(h, b, m) && i < |b|
    ensures Shape(h, b[i := b[i] + [x]], m + {x})
    ensures Concat(b[i := b[i] + [x]]) == Concat(b[..i + 1]) + [x] + Concat(b[i + 1..])
  {
    var c := b[i := b[i] + [x]];
    Around(b, i);
    Around(c, i);
    assert c[..i] == b[..i] && c[i + 1..] == b[i + 1..];
    assert b[..i + 1] == b[..i] + [b[i]];
    ConcatSplit(b[..i], [b[i]]);
    ConcatOne(b[i]);
    assert Concat(c) == Concat(b[..i]) + b[i] + [x] + Concat(b[i + 1..]);
  }

  lemma ConcatInsert(b: seq<seq<TdSched>>, i: nat, x: TdSched)
    requires i <= |b|
    ensures Concat(b[..i] + [[x]] + b[i..]) == Concat(b[..i]) + [x] + Concat(b[i..])
    ensures Concat(b) == Concat(b[..i]) + Concat(b[i..])
  {
    hide Concat;
    ConcatThree(b[..i], [x], b[i..]);
    assert b == b[..i] + b[i..];
    ConcatSplit(b[..i], b[i..]);
  }

  lemma ShapeInsert(h: seq<TdSched>, b: seq<seq<TdSched>>, m: set<TdSched>, i: nat, x: TdSched)
    requires Shape(h, b, m) && i <= |b|
    ensures Shape(h[..i] + [x] + h[i..], b[..i] + [[x]] + b[i..], m + {x})
    ensures Concat(b[..i] + [[x]] + b[i..]) == Concat(b[..i]) + [x] + Concat(b[i..])
  {
    hide Concat;
    var c, g, p, q := b[..i] + [[x]] + b[i..], h[..i] + [x] + h[i..], Concat(b[..i]), Concat(b[i..]);
    ConcatInsert(b, i, x);
    forall j | 0 <= j < |c| ensures c[j] != [] && c[j][0] == g[j] && forall k :: 0 <= k < |c[j]| ==> c[j][k] in m + {x} {
      if j < i {
        assert c[j] == b[j];
      } else if j > i {
        assert c[j] == b[j - 1];
      }
    }
    forall y | y in m + {x} ensures y in Concat(c) {
      assert y in p || y == x || y in q;
    }
  }

  class List {
    var head: seq<TdSched>
    ghost var buckets: seq<seq<TdSched>>
    ghost var members: set<TdSched>

    /** The threads on the list, in the order in which they will be taken. */
    ghost function Contents(): seq<TdSched>
      reads this`buckets
    {
      Concat(buckets)
    }

    /** Buckets are in order, and priorities rise from bucket to bucket. */
    ghost predicate Valid()
      reads this, members
    {
      && Shape(head, buckets, members)
      && (forall i :: 0 <= i < |head| ==> head[i] in members)
      && (forall i, x :: 0 <= i < |buckets| && x in buckets[i] ==> x in members)
      && (forall i :: 0 <= i < |head| ==> Bucket(head[i], buckets[i]))
      && Rising(head)
    }

    /** prio_list_init. */
    constructor ()
      ensures Valid() && Contents() == [] && members == {}
    {
      head, buckets, members := [], [], {};
    }

    /** prio_list_empty. */
    method Empty() returns (r: bool)
      requires Valid()
      ensures r <==> Contents() == []
    {
      r := head == [];
      if head != [] {
        ElemConcat(buckets, 0, 0);
      }
    }

    /** The flattened list is sorted by saved priority. */
    lemma Sorted()
      requires Valid()
      ensures InPrioOrder(Contents())
    {
      SortedFrom(0);
      assert buckets[0..] == buckets;
    }

    lemma {:induction false} SortedFrom(n: nat)
      requires Valid() && n <= |buckets|
      ensures InPrioOrder(Concat(buckets[n..]))
      ensures n < |head| ==> forall k :: 0 <= k < |Concat(buckets[n..])| ==> head[n].prio <= Concat(buckets[n..])[k].prio
      decreases |buckets| - n
    {
      if n < |buckets| {
        SortedFrom(n + 1);
        var rest := Concat(buckets[n + 1..]);
        assert buckets[n..][1..] == buckets[n + 1..];
        assert Concat(buckets[n..]) == buckets[n] + rest;
        forall k | 0 <= k < |rest| ensures head[n].prio <= rest[k].prio {
          var i, j := ConcatElem(buckets[n + 1..], k);
          assert rest[k] == buckets[n + 1 + i][j];
        }
      }
    }

    /** prio_list_first: the oldest thread of least priority. */
    method First() returns (ts: TdSched?)
      requires Valid()
      ensures ts == null <==> Contents() == []
      ensures ts != null ==> ts == Contents()[0] && forall x :: x in Contents() ==> x in members && ts.prio <= x.prio
    {
      if head == [] {
        return null;
      }
      ts := head[0];
      assert Concat(buckets) == buckets[0] + Concat(buckets[1..]);
      Sorted();
      ghost var c := Contents();
      forall x | x in c ensures x in members && ts.prio <= x.prio {
        var k :| 0 <= k < |c| && c[k] == x;
        var i, j := ConcatElem(buckets, k);
      }
    }

    /** Priorities on either side of bucket i. */
    lemma Sides(i: nat, x: int)
      requires Valid() && i <= |head|
      requires forall j :: 0 <= j < i ==> head[j] in members && head[j].prio <= x
      requires i < |head| ==> x < head[i].prio
      ensures forall k :: 0 <= k < |Concat(buckets[..i])| ==> Concat(buckets[..i])[k].prio <= x
      ensures forall k :: 0 <= k < |Concat(buckets[i..])| ==> x < Concat(buckets[i..])[k].prio
      ensures Concat(buckets) == Concat(buckets[..i]) + Concat(buckets[i..])
    {
      var p, q := buckets[..i], buckets[i..];
      assert buckets == p + q;
      ConcatSplit(p, q);
      forall k | 0 <= k < |Concat(p)| ensures Concat(p)[k].prio <= x {
        var a, b := ConcatElem(p, k);
        assert p[a][b] == buckets[a][b];
      }
      forall k | 0 <= k < |Concat(q)| ensures x < Concat(q)[k].prio {
        var a, b := ConcatElem(q, k);
        assert q[a][b] == buckets[i + a][b];
        assert head[i + a].prio >= head[i].prio;
      }
    }

    /** ts becomes the last of bucket i. */
    method AddToBucket(i: nat, ts: TdSched)
      requires Valid() && ts !in members && i < |head| && head[i].prio == ts.prio
      modifies this`buckets, this`members, members`qhead, ts`qprev
      ensures Valid() && members == old(members) + {ts}
      ensures Contents() == InsertByPrio(old(Contents()), ts)
    {
      hide Concat, Shape;
      ShapeSize(head, buckets, members);
      Sides(i + 1, ts.prio);
      InsertedBetween(Concat(buckets[..i + 1]), ts, Concat(buckets[i + 1..]));
      ShapeAppend(head, buckets, members, i, ts);
      var ts2 := head[i];
      ts.qprev := ts2.qhead[|ts2.qhead| - 1];
      ts2.qhead := ts2.qhead + [ts];
      ghost var b0 := buckets;
      buckets := buckets[i := buckets[i] + [ts]];
      members := members + {ts};
      forall j | 0 <= j < |head|
        ensures head[j] in members && (forall x :: x in buckets[j] ==> x in members) && Bucket(head[j], buckets[j])
      {
        assert old(Bucket(head[j], b0[j]));
        if j == i {
          assert forall k :: 0 <= k < |b0[i]| ==> b0[i][k] in b0[i];
        }
      }
    }

    /** ts becomes a bucket of its own before bucket i. */
    method AddBucket(i: nat, ts: TdSched)
      requires Valid() && ts !in members && i <= |head|
      requires forall j :: 0 <= j < i ==> head[j].prio < ts.prio
      requires i < |head| ==> ts.prio < head[i].prio
      modifies this, ts`qhead, ts`qprev
      ensures Valid() && members == old(members) + {ts}
      ensures Contents() == InsertByPrio(old(Contents()), ts)
    {
      hide Concat, Shape, Bucket, Rising;
      ShapeSize(head, buckets, members);
      RisingInsert(head, i, ts);
      Sides(i, ts.prio);
      InsertedBetween(Concat(buckets[..i]), ts, Concat(buckets[i..]));
      ShapeInsert(head, buckets, members, i, ts);
      head := head[..i] + [ts] + head[i..];
      ts.qhead := [ts];
      ts.qprev := null;
      buckets := buckets[..i] + [[ts]] + buckets[i..];
      members := members + {ts};
      SingleBucket(ts);
      forall j | 0 <= j < |head|
        ensures head[j] in members && (forall x :: x in buckets[j] ==> x in members) && Bucket(head[j], buckets[j])
      {
        if j != i {
          ghost var l := if j < i then j else j - 1;
          assert head[j] == old(head[l]) && buckets[j] == old(buckets[l]);
          assert old(Bucket(head[l], buckets[l]));
        }
      }
    }

    /** prio_list_add. */
    method Add(ts: TdSched)
      requires Valid() && ts !in members
      modifies this, members`qhead, ts`prio, ts`qhead, ts`qprev
      ensures Valid() && members == old(members) + {ts} && ts.prio == ts.tdPriority
      ensures Contents() == InsertByPrio(old(Contents()), ts)
    {
      ts.prio := ts.tdPriority;
      ts.qhead := [];
      var i := 0;
      while i < |head|
        invariant i <= |head| && Valid() && head == old(head) && buckets == old(buckets) && members == old(members)
        invariant forall j :: 0 <= j < i ==> head[j].prio < ts.prio
      {
        var ts2 := head[i];
        if ts2.prio == ts.prio {
          AddToBucket(i, ts);
          return;
        } else if ts2.prio > ts.prio {
          break;
        }
        i := i + 1;
      }
      AddBucket(i, ts);
    }

    /** Where a thread hangs. */
    lemma Locate(ts: TdSched) returns (i: nat, k: nat)
      requires Valid() && ts in members
      ensures i < |buckets| && k < |buckets[i]| && buckets[i][k] == ts
      ensures ts !in Concat(buckets[..i]) && ts !in Concat(buckets[i + 1..])
    {
      var n :| 0 <= n < |Concat(buckets)| && Concat(buckets)[n] == ts;
      i, k := ConcatElem(buckets, n);
      assert ts.prio == head[i].prio;
      var p, q := Concat(buckets[..i]), Concat(buckets[i + 1..]);
      forall a | 0 <= a < |p| ensures p[a] != ts {
        var j, l := ConcatElem(buckets[..i], a);
        assert buckets[j][l].prio == head[j].prio < head[i].prio;
      }
      forall a | 0 <= a < |q| ensures q[a] != ts {
        var j, l := ConcatElem(buckets[i + 1..], a);
        assert buckets[i + 1 + j][l].prio == head[i + 1 + j].prio > head[i].prio;
      }
    }

    /** Without the k-th thread of bucket i. */
    lemma LeavesContents(i: nat, k: nat)
      requires Valid() && i < |buckets| && k < |buckets[i]|
      requires buckets[i][k] !in Concat(buckets[..i])
      ensures var b := buckets[i];
              Without(Contents(), b[k]) == Concat(buckets[..i]) + (b[..k] + b[k + 1..]) + Concat(buckets[i + 1..])
    {
      hide Concat, Without;
      var b := buckets[i];
      var p, q := Concat(buckets[..i]), Concat(buckets[i + 1..]);
      Around(buckets, i);
      assert Bucket(head[i], b);
      BucketWithout(head[i], b, k);
      WithoutBetween(p + b[..k], b[k], b[k + 1..] + q);
      assert Contents() == (p + b[..k]) + [b[k]] + (b[k + 1..] + q);
      assert (p + b[..k]) + (b[k + 1..] + q) == p + (b[..k] + b[k + 1..]) + q;
    }

    /** Buckets share no threads. */
    lemma Apart(i: nat)
      requires Valid() && i < |buckets|
      ensures forall j, x :: 0 <= j < |buckets| && x in buckets[j] && x in buckets[i] ==> j == i
      ensures forall j :: 0 <= j < |head| && j != i ==> head[j] != head[i]
    {
      forall j, x | 0 <= j < |buckets| && x in buckets[j] && x in buckets[i] ensures j == i {
        assert Bucket(head[i], buckets[i]) && Bucket(head[j], buckets[j]);
        assert x.prio == head[i].prio == head[j].prio;
      }
    }

    /** The loop of prio_list_del: back along TAILQ_PREV to the head of the bucket; `pos` counts the steps. */
    method FindHead(ts: TdSched, ghost i: nat, ghost k: nat) returns (h: TdSched, pos: nat)
      requires Valid() && i < |buckets| && k < |buckets[i]| && buckets[i][k] == ts
      ensures h == head[i] && pos == k
    {
      hide Concat, Shape;
      ShapeSize(head, buckets, members);
      h, pos := ts, 0;
      ghost var b := buckets[i];
      assert Bucket(head[i], b) && b[k].qprev == Before(b, k);
      while h.qprev != null
        invariant pos <= k && h == b[k - pos]
        invariant h.qprev == Before(b, k - pos)
        decreases k - pos
      {
        h := h.qprev;
        pos := pos + 1;
        assert b[k - pos].qprev == Before(b, k - pos);
      }
    }

    /** TAILQ_REMOVE(&h->qhead, ts, qlink), ts being at pos. */
    method TailqRemove(h: TdSched, pos: nat)
      requires Bucket(h, h.qhead) && pos < |h.qhead|
      requires h in members && forall x :: x in h.qhead ==> x in members
      modifies h`qhead, (set x | x in h.qhead)`qprev
      ensures h.qhead == old(h.qhead[..pos] + h.qhead[pos + 1..])
      ensures forall k {:trigger h.qhead[k].qprev} :: 0 <= k < |h.qhead| ==> h.qhead[k].qprev == Before(h.qhead, k)
    {
      hide Bucket;
      ghost var b := h.qhead;
      var ts := h.qhead[pos];
      Links(h, b);
      if pos + 1 < |h.qhead| {
        h.qhead[pos + 1].qprev := ts.qprev;
      }
      h.qhead := h.qhead[..pos] + h.qhead[pos + 1..];
      Relinked(b, pos);
    }

    /** ts has been taken out of bucket i, whose threads are now c; the top level does not know yet. */
    ghost predicate Removing(i: nat, c: seq<TdSched>, ts: TdSched)
      reads this, members
    {
      && Shape(head, buckets, members) && i < |head| == |buckets| && ts in members
      && (forall j :: 0 <= j < |head| ==> head[j] in members)
      && (forall j, x :: 0 <= j < |buckets| && x in buckets[j] ==> x in members)
      && Rising(head)
      && (forall j :: 0 <= j < |head| && j != i ==> Bucket(head[j], buckets[j]) && head[j] != head[i] && ts !in buckets[j])
      && head[i].qhead == c && ts !in c
      && (forall x :: x in c ==> x in members && x in buckets[i] && x.prio == head[i].prio)
      && (forall l {:trigger c[l].qprev} :: 0 <= l < |c| ==> c[l].qprev == Before(c, l))
      && (forall l, n :: 0 <= l < n < |c| ==> c[l] != c[n])
      && (c == [] ==> Shape(head[..i] + head[i + 1..], buckets[..i] + buckets[i + 1..], members - {ts}))
      && (c != [] ==> Shape(head[i := c[0]], buckets[i := c], members - {ts}))
    }

    /** The bucket has become empty: it leaves the top level. */
    method DropBucket(h: TdSched, ts: TdSched, ghost i: nat)
      requires Removing(i, [], ts) && h == head[i]
      modifies this
      ensures Valid() && members == old(members) - {ts} && buckets == old(buckets[..i] + buckets[i + 1..])
    {
      hide Shape, Rising, Bucket;
      ShapeSize(head, buckets, members);
      RisingDrop(head, i);
      WithoutAt(head, i);
      head := Without(head, h);
      buckets := buckets[..i] + buckets[i + 1..];
      members := members - {ts};
      forall j | 0 <= j < |head|
        ensures head[j] in members && (forall x :: x in buckets[j] ==> x in members) && Bucket(head[j], buckets[j])
      {
        ghost var l := if j < i then j else j + 1;
        assert head[j] == old(head[l]) && buckets[j] == old(buckets[l]);
        assert old(Bucket(head[l], buckets[l]));
      }
    }

    /** The head has left: it hands its bucket, and its place, to the next thread. */
    method HandOver(h: TdSched, ghost i: nat, ghost c: seq<TdSched>)
      requires c != [] && Removing(i, c, h) && h == head[i]
      modifies this, members`qhead
      ensures Valid() && members == old(members) - {h} && buckets == old(buckets[i := c])
    {
      hide Shape, Rising;
      assert c[0] in c;
      var next := h.qhead[0];
      HeadsElsewhere(head, i, next);
      RisingSame(head, i, next);
      RisingDrop(head, i);
      Replaced(head, i, next);
      h.qhead, next.qhead := next.qhead, h.qhead;
      head := InsertBefore(head, h, next);
      head := Without(head, h);
      buckets := buckets[i := c];
      members := members - {h};
    }

    method Shrink(ts: TdSched, ghost i: nat, ghost c: seq<TdSched>)
      requires c != [] && Removing(i, c, ts) && c[0] == head[i]
      modifies this`buckets, this`members
      ensures Valid() && members == old(members) - {ts} && buckets == old(buckets[i := c])
    {
      hide Shape, Rising;
      ShapeSize(head, buckets, members);
      assert head[i := c[0]] == head && c[0] in c;
      buckets := buckets[i := c];
      members := members - {ts};
    }

    /** prio_list_del. */
    method Del(ts: TdSched)
      requires Valid() && ts in members
      modifies this, members`qhead, members`qprev
      ensures Valid() && members == old(members) - {ts}
      ensures Contents() == Without(old(Contents()), ts)
    {
      hide Concat, Shape, Rising, Bucket;
      ShapeSize(head, buckets, members);
      ghost var i, k := Locate(ts);
      var h, pos := FindHead(ts, i, k);
      ghost var b := buckets[i];
      ghost var c := b[..k] + b[k + 1..];
      BucketHead(h, b);
      BucketWithout(h, b, k);
      ShapeReplace(head, buckets, members, i, ts, c);
      LeavesContents(i, k);
      Apart(i);
      assert ts in b;
      TailqRemove(h, pos);
      assert forall j :: 0 <= j < |head| && j != i ==> Bucket(head[j], buckets[j]);
      assert forall x :: x in c ==> x in members && x in buckets[i] && x.prio == head[i].prio;
      assert Removing(i, c, ts);
      if h.qhead == [] {
        DropBucket(h, ts, i);
      } else if ts == h {
        HandOver(h, i, c);
      } else {
        Shrink(ts, i, c);
      }
    }
  }
}
