/**
 How far the cached clamp of a runqueue can lie above the largest active clamp.
 Bucket widths are rounded and the last bucket takes what is left of the
 capacity: for some bucket counts that is more than a nominal width.
 */
module UclampWidth {
  import opened Uclamp

  /** Values of one bucket always differ by less than the nominal bucket width. */
  ghost predicate NominalWidth(buckets: nat)
    requires BucketsOk(buckets)
  {
    forall v: nat, w: nat :: v <= CAPACITY && w <= CAPACITY && BucketId(buckets, v) == BucketId(buckets, w) ==>
      v - w < Delta(buckets)
  }

  /** The last bucket stays within the nominal width exactly when the buckets together reach past full capacity. */
  lemma NominalWidthIff(buckets: nat)
    requires BucketsOk(buckets)
    ensures NominalWidth(buckets) <==> CAPACITY < Delta(buckets) * buckets
  {
    var d := Delta(buckets);
    DeltaPositive(buckets);
    assert d * buckets == d * (buckets - 1) + d;
    if CAPACITY < d * buckets {
      forall v: nat, w: nat | v <= CAPACITY && w <= CAPACITY && BucketId(buckets, v) == BucketId(buckets, w)
        ensures v - w < d
      {
        BucketWidth(buckets, v, w);
      }
    } else {
      LastBucketSpread(buckets);
    }
  }

  /** Where they do not, full capacity and the last bucket's first value are a nominal width or more apart. */
  lemma LastBucketSpread(buckets: nat)
    requires BucketsOk(buckets) && Delta(buckets) * buckets <= CAPACITY
    ensures var w := Delta(buckets) * (buckets - 1);
      0 <= w <= CAPACITY && BucketId(buckets, w) == BucketId(buckets, CAPACITY) == buckets - 1
        && CAPACITY - w >= Delta(buckets)
  {
    var d := Delta(buckets);
    var w := d * (buckets - 1);
    DeltaPositive(buckets);
    assert d * buckets == w + d;
    MulDiv(d, buckets - 1);
    MulDiv(d, buckets);
    DivMonotone(d * buckets, CAPACITY, d);
  }

  lemma MulDiv(d: nat, q: nat)
    requires d > 0
    ensures d * q / d == q
  {
    var k := q - d * q / d;
    assert d * q == d * (d * q / d) + d * q % d;
    assert 0 <= d * k < d;
    Multiples(d, k);
  }

  lemma Multiples(d: nat, k: int)
    requires d > 0
    ensures k >= 1 ==> d * k >= d
    ensures k <= -1 ==> d * k + d <= 0
  {
    assert d * k == d * (k - 1) + d && d * k == d * (k + 1) - d;
  }

  /** The cached clamp is less than a nominal width above some active task's clamp. */
  ghost predicate Covered(clamps: Clamps, value: nat, width: nat)
  {
    exists t :: t in clamps && value - clamps[t] < width
  }

  /** ... whatever the history that led to these buckets. */
  ghost predicate Tight(buckets: nat)
    requires BucketsOk(buckets)
  {
    forall clamps: Clamps, bs: seq<Bucket>, value: nat ::
      BucketsAgree(buckets, clamps, bs) && CacheOk(bs, value) && clamps != map[] ==>
        Covered(clamps, value, Delta(buckets))
  }

  lemma CoveredWithin(buckets: nat, clamps: Clamps, bs: seq<Bucket>, value: nat)
    requires BucketsOk(buckets) && CAPACITY < Delta(buckets) * buckets
    requires BucketsAgree(buckets, clamps, bs) && CacheOk(bs, value) && clamps != map[]
    ensures Covered(clamps, value, Delta(buckets))
  {
    var t := CacheRefinesMax(buckets, clamps, bs, value);
    assert Delta(buckets) * buckets == Delta(buckets) * (buckets - 1) + Delta(buckets);
    assert value - clamps[t] < Delta(buckets);
  }

  /** The promise of less than one bucket width holds exactly for these bucket counts. */
  lemma TightIff(buckets: nat)
    requires BucketsOk(buckets)
    ensures Tight(buckets) <==> CAPACITY < Delta(buckets) * buckets
  {
    if CAPACITY < Delta(buckets) * buckets {
      forall clamps: Clamps, bs: seq<Bucket>, value: nat |
        BucketsAgree(buckets, clamps, bs) && CacheOk(bs, value) && clamps != map[]
        ensures Covered(clamps, value, Delta(buckets))
      {
        CoveredWithin(buckets, clamps, bs, value);
      }
    } else {
      Overshoot(buckets);
      LastBucketSpread(buckets);
      var clamps: Clamps := map[1 := Delta(buckets) * (buckets - 1)];
      assert 1 in clamps;
      assert CacheOk(Overshot(buckets), CAPACITY) && !Covered(clamps, CAPACITY, Delta(buckets));
    }
  }

  /** All buckets empty but the last, which holds one task and remembers full capacity. */
  function Overshot(buckets: nat): (bs: seq<Bucket>)
    requires BucketsOk(buckets)
    ensures |bs| == buckets
  {
    seq(buckets, b => if b == buckets - 1 then Bucket(1, CAPACITY) else Bucket(0, 0))
  }

  /** Enqueue a task at full capacity and one at the foot of the last bucket, dequeue the first: the cache stays at
      the top. */
  lemma Overshoot(buckets: nat)
    requires BucketsOk(buckets) && Delta(buckets) * buckets <= CAPACITY
    ensures var w := Delta(buckets) * (buckets - 1);
      w >= 0 && BucketsAgree(buckets, map[1 := w], Overshot(buckets)) && CacheOk(Overshot(buckets), CAPACITY)
  {
    var w := Delta(buckets) * (buckets - 1);
    var last := buckets - 1;
    LastBucketSpread(buckets);
    var none: Clamps := map[];
    var empty := seq(buckets, b => Bucket(0, 0));
    forall b | 0 <= b < buckets ensures BucketOk(buckets, none, b, empty[b]) {
      assert InBucket(buckets, none, b) == {};
    }
    JoinBuckets(buckets, none, empty, 0, CAPACITY);
    JoinCache(buckets, none, empty, 0, CAPACITY);
    var one := empty[last := Joined(empty[last], CAPACITY)];
    JoinBuckets(buckets, map[0 := CAPACITY], one, 1, w);
    JoinCache(buckets, map[0 := CAPACITY], one, CAPACITY, w);
    var both := map[0 := CAPACITY][1 := w];
    var two := one[last := Joined(one[last], w)];
    LeaveBuckets(buckets, both, two, 0);
    LeaveCache(buckets, both, two, CAPACITY, 0);
    assert both - {0} == map[1 := w];
    assert two[last := two[last].(tasks := two[last].tasks - 1)] == Overshot(buckets);
  }

  /** Twenty buckets of width 51, one active task at 969: the cached clamp stays at 1024, 55 above it. */
  lemma OvershootAtTwenty()
    ensures Delta(20) == 51 && BucketsAgree(20, map[1 := 969], Overshot(20)) && CacheOk(Overshot(20), CAPACITY)
    ensures CAPACITY - 969 >= Delta(20) && !Tight(20)
  {
    Overshoot(20);
    TightIff(20);
  }
}
