/**
 Utilization clamps of a runqueue: bucket reference counts that cache the
 maximum clamp of the runnable tasks, one aggregate per clamp (min and max),
 with the idle flag the two share.

 A task is in `clamps` exactly while its uclamp entry is active; the value there
 is its effective clamp, fixed when it was enqueued or last refreshed.
 */
module Uclamp {

  const CAPACITY: nat := 1024   // SCHED_CAPACITY_SCALE

  type TaskId = nat
  type Clamps = map<TaskId, nat>

  datatype ClampId = Min | Max

  datatype Bucket = Bucket(tasks: nat, value: nat)

  /** UCLAMP_BUCKET_DELTA: DIV_ROUND_CLOSEST(SCHED_CAPACITY_SCALE, buckets) */
  function Delta(buckets: nat): nat
    requires buckets > 0
  {
    (CAPACITY + buckets / 2) / buckets
  }

  /** Any bucket count a build could configure: at least one, none narrower than a unit of capacity. */
  predicate BucketsOk(buckets: nat) { 1 <= buckets <= CAPACITY }

  lemma DeltaPositive(buckets: nat)
    requires BucketsOk(buckets)
    ensures Delta(buckets) >= 1
  {
    DivMonotone(buckets, CAPACITY + buckets / 2, buckets);
  }

  function BucketId(buckets: nat, value: nat): (b: nat)
    requires BucketsOk(buckets)
    ensures b < buckets
  {
    DeltaPositive(buckets);
    var b := value / Delta(buckets);
    if b < buckets then b else buckets - 1
  }

  function None(id: ClampId): nat { if id == Min then 0 else CAPACITY }

  lemma MulMonotone(d: nat, x: nat, y: nat)
    requires x <= y
    ensures d * x <= d * y
  {
  }

  lemma DivMonotone(a: nat, b: nat, d: nat)
    requires d > 0 && a <= b
    ensures a / d <= b / d
  {
    var p, q := a / d, b / d;
    assert b == d * q + b % d && a == d * p + a % d;
    assert d * (q + 1) == d * q + d;
    if p >= q + 1 { MulMonotone(d, q + 1, p); }
  }

  /** A higher bucket holds only higher values. */
  lemma BucketMonotone(buckets: nat, v: nat, w: nat)
    requires BucketsOk(buckets)
    ensures v <= w ==> BucketId(buckets, v) <= BucketId(buckets, w)
    ensures BucketId(buckets, v) < BucketId(buckets, w) ==> v < w
  {
    DeltaPositive(buckets);
    if v <= w { DivMonotone(v, w, Delta(buckets)); } else { DivMonotone(w, v, Delta(buckets)); }
  }

  /** Two values of one bucket differ by less than its width; the last bucket also takes the rounding rest. */
  lemma BucketWidth(buckets: nat, v: nat, w: nat)
    requires BucketsOk(buckets) && BucketId(buckets, v) == BucketId(buckets, w) && v <= CAPACITY && w <= CAPACITY
    ensures BucketId(buckets, v) < buckets - 1 ==> v - w < Delta(buckets)
    ensures BucketId(buckets, v) == buckets - 1 ==> v - w <= CAPACITY - Delta(buckets) * (buckets - 1)
  {
    var d := Delta(buckets);
    DeltaPositive(buckets);
    if BucketId(buckets, v) < buckets - 1 {
      SameQuotient(d, v, w);
    } else {
      QuotientAtLeast(d, buckets - 1, w);
    }
  }

  lemma SameQuotient(d: nat, v: nat, w: nat)
    requires d > 0 && v / d == w / d
    ensures v - w < d
  {
    assert v == d * (v / d) + v % d && w == d * (w / d) + w % d;
  }

  lemma QuotientAtLeast(d: nat, k: nat, w: nat)
    requires d > 0 && k <= w / d
    ensures d * k <= w
  {
    assert w == d * (w / d) + w % d;
    MulMonotone(d, k, w / d);
  }

  /** The active tasks whose clamp falls into bucket b. */
  function InBucket(buckets: nat, clamps: Clamps, b: nat): set<TaskId>
    requires BucketsOk(buckets)
  {
    set t | t in clamps && BucketId(buckets, clamps[t]) == b
  }

  lemma InBucketAdd(buckets: nat, clamps: Clamps, t: TaskId, v: nat, b: nat)
    requires BucketsOk(buckets) && t !in clamps
    ensures |InBucket(buckets, clamps[t := v], b)|
         == |InBucket(buckets, clamps, b)| + if BucketId(buckets, v) == b then 1 else 0
  {
    var now := InBucket(buckets, clamps[t := v], b);
    if BucketId(buckets, v) == b {
      assert now == InBucket(buckets, clamps, b) + {t};
    } else {
      assert now == InBucket(buckets, clamps, b);
    }
  }

  lemma InBucketRemove(buckets: nat, clamps: Clamps, t: TaskId, b: nat)
    requires BucketsOk(buckets) && t in clamps
    ensures |InBucket(buckets, clamps - {t}, b)|
         == |InBucket(buckets, clamps, b)| - if BucketId(buckets, clamps[t]) == b then 1 else 0
  {
    var now := InBucket(buckets, clamps - {t}, b);
    if BucketId(buckets, clamps[t]) == b {
      assert now == InBucket(buckets, clamps, b) - {t};
    } else {
      assert now == InBucket(buckets, clamps, b);
    }
  }

  /** Bucket b of the runqueue: its count is exact, its value is of the bucket and covers every task in it. */
  ghost predicate BucketOk(buckets: nat, clamps: Clamps, b: nat, k: Bucket)
    requires BucketsOk(buckets)
  {
    && k.tasks == |InBucket(buckets, clamps, b)|
    && (k.tasks > 0 ==> BucketId(buckets, k.value) == b && k.value <= CAPACITY)
    && (forall t :: t in InBucket(buckets, clamps, b) ==> clamps[t] <= k.value)
  }

  ghost predicate BucketsAgree(buckets: nat, clamps: Clamps, bs: seq<Bucket>)
    requires BucketsOk(buckets)
  {
    && |bs| == buckets && (forall t :: t in clamps ==> clamps[t] <= CAPACITY)
    && forall b :: 0 <= b < buckets ==> BucketOk(buckets, clamps, b, bs[b])
  }

  /** b is the topmost bucket with tasks. */
  predicate Topmost(bs: seq<Bucket>, b: nat)
  {
    b < |bs| && bs[b].tasks > 0 && forall c :: b < c < |bs| ==> bs[c].tasks == 0
  }

  /** The cached clamp of the runqueue: the topmost non-empty bucket's value. */
  ghost predicate CacheOk(bs: seq<Bucket>, value: nat)
  {
    forall b: nat :: Topmost(bs, b) ==> value == bs[b].value
  }

  lemma {:induction false} TopmostExists(bs: seq<Bucket>, n: nat) returns (b: nat)
    requires n <= |bs| && forall c :: n <= c < |bs| ==> bs[c].tasks == 0
    requires exists c :: 0 <= c < |bs| && bs[c].tasks > 0
    ensures Topmost(bs, b)
    decreases n
  {
    if n > 0 && bs[n - 1].tasks == 0 {
      b := TopmostExists(bs, n - 1);
    } else {
      b := n - 1;
    }
  }

  lemma EmptyBuckets(buckets: nat, clamps: Clamps, bs: seq<Bucket>)
    requires BucketsOk(buckets) && BucketsAgree(buckets, clamps, bs) && clamps == map[]
    ensures forall b :: 0 <= b < |bs| ==> bs[b].tasks == 0
  {
    forall b | 0 <= b < |bs| ensures bs[b].tasks == 0 {
      assert BucketOk(buckets, clamps, b, bs[b]);
      assert InBucket(buckets, clamps, b) == {};
    }
  }

  lemma TaskCounted(buckets: nat, clamps: Clamps, bs: seq<Bucket>, t: TaskId)
    requires BucketsOk(buckets) && BucketsAgree(buckets, clamps, bs) && t in clamps
    ensures bs[BucketId(buckets, clamps[t])].tasks > 0 && clamps[t] <= bs[BucketId(buckets, clamps[t])].value
  {
    var b := BucketId(buckets, clamps[t]);
    assert BucketOk(buckets, clamps, b, bs[b]) && t in InBucket(buckets, clamps, b);
  }

  lemma EmptyClamps(buckets: nat, clamps: Clamps, bs: seq<Bucket>)
    requires BucketsOk(buckets) && BucketsAgree(buckets, clamps, bs) && forall b :: 0 <= b < |bs| ==> bs[b].tasks == 0
    ensures clamps == map[]
  {
    forall t | t in clamps ensures false { TaskCounted(buckets, clamps, bs, t); }
  }

  lemma NonEmpty(buckets: nat, clamps: Clamps, bs: seq<Bucket>, b: nat)
    requires BucketsOk(buckets) && BucketsAgree(buckets, clamps, bs) && b < |bs| && bs[b].tasks > 0
    ensures clamps != map[]
  {
    assert BucketOk(buckets, clamps, b, bs[b]);
    var t :| t in InBucket(buckets, clamps, b);
    assert t in clamps;
  }

  /** A bucket with one more task of clamp v. */
  function Joined(k: Bucket, v: nat): Bucket
  {
    Bucket(k.tasks + 1, if k.tasks + 1 == 1 || v > k.value then v else k.value)
  }

  lemma JoinBuckets(buckets: nat, clamps: Clamps, bs: seq<Bucket>, t: TaskId, v: nat)
    requires BucketsOk(buckets) && BucketsAgree(buckets, clamps, bs) && t !in clamps && v <= CAPACITY
    ensures var b := BucketId(buckets, v); BucketsAgree(buckets, clamps[t := v], bs[b := Joined(bs[b], v)])
  {
    var b := BucketId(buckets, v);
    var bs' := bs[b := Joined(bs[b], v)];
    forall c | 0 <= c < buckets ensures BucketOk(buckets, clamps[t := v], c, bs'[c]) {
      assert BucketOk(buckets, clamps, c, bs[c]);
      InBucketAdd(buckets, clamps, t, v, c);
      if bs[c].tasks == 0 { assert InBucket(buckets, clamps, c) == {}; }
    }
  }

  /** After a join the cached clamp is the larger of the old one and the task's own. */
  lemma JoinCache(buckets: nat, clamps: Clamps, bs: seq<Bucket>, value: nat, v: nat)
    requires BucketsOk(buckets) && BucketsAgree(buckets, clamps, bs) && CacheOk(bs, value)
    requires clamps == map[] ==> value <= v
    ensures var b := BucketId(buckets, v); CacheOk(bs[b := Joined(bs[b], v)], if v > value then v else value)
  {
    var b := BucketId(buckets, v);
    var bs' := bs[b := Joined(bs[b], v)];
    assert BucketOk(buckets, clamps, b, bs[b]);
    if exists c :: 0 <= c < |bs| && bs[c].tasks > 0 {
      var top := TopmostExists(bs, |bs|);
      assert BucketOk(buckets, clamps, top, bs[top]);
      BucketMonotone(buckets, v, bs[top].value);
      BucketMonotone(buckets, bs[top].value, v);
      assert Topmost(bs', if b > top then b else top);
    } else {
      assert Topmost(bs', b);
      if t :| t in clamps {
        var c := BucketId(buckets, clamps[t]);
        assert t in InBucket(buckets, clamps, c);
        assert BucketOk(buckets, clamps, c, bs[c]);
      }
    }
  }

  lemma LeaveBuckets(buckets: nat, clamps: Clamps, bs: seq<Bucket>, t: TaskId)
    requires BucketsOk(buckets) && BucketsAgree(buckets, clamps, bs) && t in clamps
    ensures var b := BucketId(buckets, clamps[t]);
      bs[b].tasks > 0 && BucketsAgree(buckets, clamps - {t}, bs[b := bs[b].(tasks := bs[b].tasks - 1)])
  {
    var b := BucketId(buckets, clamps[t]);
    assert BucketOk(buckets, clamps, b, bs[b]);
    assert t in InBucket(buckets, clamps, b);
    var bs' := bs[b := bs[b].(tasks := bs[b].tasks - 1)];
    forall c | 0 <= c < buckets ensures BucketOk(buckets, clamps - {t}, c, bs'[c]) {
      assert BucketOk(buckets, clamps, c, bs[c]);
      InBucketRemove(buckets, clamps, t, c);
    }
  }

  /** The last task of a bucket leaves: the bucket was not above the cached clamp, and equals it only at the top. */
  lemma LeaveCache(buckets: nat, clamps: Clamps, bs: seq<Bucket>, value: nat, t: TaskId)
    requires BucketsOk(buckets) && BucketsAgree(buckets, clamps, bs) && CacheOk(bs, value) && t in clamps
    ensures var b := BucketId(buckets, clamps[t]);
      && bs[b].tasks > 0 && bs[b].value <= value
      && (bs[b].tasks > 1 || bs[b].value < value ==> CacheOk(bs[b := bs[b].(tasks := bs[b].tasks - 1)], value))
  {
    var b := BucketId(buckets, clamps[t]);
    LeaveBuckets(buckets, clamps, bs, t);
    var bs' := bs[b := bs[b].(tasks := bs[b].tasks - 1)];
    var top := TopmostExists(bs, |bs|);
    assert BucketOk(buckets, clamps, top, bs[top]) && BucketOk(buckets, clamps, b, bs[b]);
    BucketMonotone(buckets, bs[top].value, bs[b].value);
    if bs[b].tasks > 1 || bs[b].value < value {
      assert Topmost(bs', top);
    }
  }

  ghost predicate Occupied(bs: seq<Bucket>) { exists b :: 0 <= b < |bs| && bs[b].tasks > 0 }

  lemma OccupiedIff(buckets: nat, clamps: Clamps, bs: seq<Bucket>)
    requires BucketsOk(buckets) && BucketsAgree(buckets, clamps, bs)
    ensures Occupied(bs) <==> clamps != map[]
  {
    if b :| 0 <= b < |bs| && bs[b].tasks > 0 {
      NonEmpty(buckets, clamps, bs, b);
    } else {
      EmptyClamps(buckets, clamps, bs);
    }
  }

  /** All that a dequeue has to know about the buckets it leaves behind. */
  lemma Left(buckets: nat, clamps: Clamps, bs: seq<Bucket>, value: nat, t: TaskId)
    requires BucketsOk(buckets) && BucketsAgree(buckets, clamps, bs) && CacheOk(bs, value) && t in clamps
    ensures var b := BucketId(buckets, clamps[t]);
      && bs[b].tasks > 0 && bs[b].value <= value
      && var bs' := bs[b := bs[b].(tasks := bs[b].tasks - 1)];
         && BucketsAgree(buckets, clamps - {t}, bs')
         && (Occupied(bs') <==> clamps - {t} != map[])
         && (bs[b].tasks > 1 || bs[b].value < value ==> CacheOk(bs', value) && Occupied(bs'))
  {
    var b := BucketId(buckets, clamps[t]);
    LeaveBuckets(buckets, clamps, bs, t);
    LeaveCache(buckets, clamps, bs, value, t);
    var bs' := bs[b := bs[b].(tasks := bs[b].tasks - 1)];
    OccupiedIff(buckets, clamps - {t}, bs');
    if bs[b].tasks > 1 {
      assert bs'[b].tasks > 0;
    } else if bs[b].value < value {
      var top := TopmostExists(bs, |bs|);
      assert bs'[top].tasks > 0;
    }
  }

  /** The cached clamp covers every active task and exceeds the true maximum by less than its bucket's width. */
  lemma CacheRefinesMax(buckets: nat, clamps: Clamps, bs: seq<Bucket>, value: nat) returns (t: TaskId)
    requires BucketsOk(buckets) && BucketsAgree(buckets, clamps, bs) && CacheOk(bs, value) && clamps != map[]
    ensures forall u :: u in clamps ==> clamps[u] <= value
    ensures t in clamps && BucketId(buckets, clamps[t]) == BucketId(buckets, value)
    ensures value - clamps[t] <= if BucketId(buckets, value) < buckets - 1 then Delta(buckets) - 1
                                 else CAPACITY - Delta(buckets) * (buckets - 1)
  {
    OccupiedIff(buckets, clamps, bs);
    var top := TopmostExists(bs, |bs|);
    assert BucketOk(buckets, clamps, top, bs[top]);
    t :| t in InBucket(buckets, clamps, top);
    BucketWidth(buckets, value, clamps[t]);
    forall u | u in clamps ensures clamps[u] <= value {
      TaskCounted(buckets, clamps, bs, u);
      BucketMonotone(buckets, value, clamps[u]);
    }
  }

  /** The aggregate of one clamp id. */
  class ClampRq {
    const id: ClampId
    const buckets: nat
    const bucket: array<Bucket>
    var value: nat
    var clamps: Clamps

    ghost predicate Valid()
      reads this, bucket
    {
      && BucketsOk(buckets) && bucket.Length == buckets
      && BucketsAgree(buckets, clamps, bucket[..]) && CacheOk(bucket[..], value)
    }

    /** init_uclamp_rq() */
    constructor (id: ClampId, buckets: nat)
      requires BucketsOk(buckets)
      ensures Valid() && this.id == id && this.buckets == buckets && clamps == map[] && value == None(id)
        && fresh(bucket)
    {
      this.id := id;
      this.buckets := buckets;
      bucket := new Bucket[buckets](_ => Bucket(0, 0));
      value := None(id);
      clamps := map[];
      new;
      forall b | 0 <= b < buckets ensures BucketOk(buckets, map[], b, bucket[..][b]) {
        assert InBucket(buckets, map[], b) == {};
      }
    }

    /** uclamp_rq_max_value(): scan down for the topmost bucket with tasks. */
    method MaxValue(last: nat) returns (v: nat, found: bool)
      requires Valid0()
      ensures found <==> Occupied(bucket[..])
      ensures found ==> CacheOk(bucket[..], v)
      ensures !found ==> v == if id == Max then last else 0
    {
      var b: nat := bucket.Length;
      while b > 0
        invariant b <= bucket.Length && forall c :: b <= c < bucket.Length ==> bucket[c].tasks == 0
      {
        b := b - 1;
        if bucket[b].tasks > 0 {
          assert Topmost(bucket[..], b) && bucket[..][b].tasks > 0;
          return bucket[b].value, true;
        }
      }
      return if id == Max then last else None(Min), false;
    }

    ghost predicate Valid0()
      reads this, bucket
    {
      BucketsOk(buckets) && bucket.Length == buckets && BucketsAgree(buckets, clamps, bucket[..])
    }

    /** uclamp_rq_inc_id() with effective clamp v; `reset` is the runqueue's idle flag. */
    method Inc(t: TaskId, v: nat, reset: bool)
      requires Valid() && t !in clamps && v <= CAPACITY
      requires if reset then clamps == map[] else (clamps == map[] ==> value <= v)
      modifies this, bucket
      ensures Valid() && clamps == old(clamps)[t := v]
      ensures value == if reset || v > old(value) then v else old(value)
    {
      ghost var bs := bucket[..];
      var b := BucketId(buckets, v);
      JoinBuckets(buckets, clamps, bs, t, v);
      var base := if reset then v else value;
      if reset { EmptyBuckets(buckets, clamps, bs); }
      JoinCache(buckets, clamps, bs, base, v);
      clamps := clamps[t := v];
      bucket[b] := bucket[b].(tasks := bucket[b].tasks + 1);
      if reset {
        value := v;
      }
      if bucket[b].tasks == 1 || v > bucket[b].value {
        bucket[b] := bucket[b].(value := v);
      }
      if v > value {
        value := v;
      }
      assert bucket[b] == Joined(bs[b], v);
      assert forall c :: 0 <= c < bucket.Length && c != b ==> bucket[c] == bs[c];
      assert bucket[..] == bs[b := Joined(bs[b], v)];
    }

    /** uclamp_rq_dec_id(): neither warning fires; `idle` tells that the last active task left. */
    method Dec(t: TaskId) returns (idle: bool, warned: bool)
      requires Valid()
      modifies this, bucket
      ensures Valid() && !warned && clamps == old(clamps) - {t}
      ensures idle <==> t in old(clamps) && clamps == map[]
      ensures idle ==> value == if id == Max then old(clamps)[t] else 0
      ensures t !in old(clamps) ==> value == old(value)
    {
      if t !in clamps {
        return false, false;
      }
      ghost var bs := bucket[..];
      var v := clamps[t];
      var b := BucketId(buckets, v);
      Left(buckets, clamps, bs, value, t);
      idle := false;
      warned := bucket[b].tasks == 0;
      if bucket[b].tasks > 0 {
        bucket[b] := bucket[b].(tasks := bucket[b].tasks - 1);
      }
      clamps := clamps - {t};
      assert bucket[..] == bs[b := bs[b].(tasks := bs[b].tasks - 1)];
      if bucket[b].tasks > 0 {
        return;
      }
      warned := warned || bucket[b].value > value;
      if bucket[b].value >= value {
        var found;
        value, found := MaxValue(v);
        idle := !found;
      }
    }
  }

  /** Both aggregates of a runqueue and the idle flag they share. */
  class Rq {
    const min: ClampRq
    const max: ClampRq
    var idle: bool   // UCLAMP_FLAG_IDLE

    ghost predicate Valid()
      reads this, min, max, min.bucket, max.bucket
    {
      && min != max && min.bucket != max.bucket && min.Valid() && max.Valid() && min.id == Min && max.id == Max
      && min.clamps.Keys == max.clamps.Keys
      && (idle <==> max.clamps == map[]) && (min.clamps == map[] ==> min.value == 0)
    }

    constructor (buckets: nat)
      requires BucketsOk(buckets)
      ensures Valid() && idle && min.clamps == max.clamps == map[] && min.value == 0 && max.value == CAPACITY
      ensures fresh(min) && fresh(max) && fresh(min.bucket) && fresh(max.bucket)
    {
      min := new ClampRq(Min, buckets);
      max := new ClampRq(Max, buckets);
      idle := true;
    }

    /** uclamp_rq_inc(): the task's effective clamps become active, unless clamps are not in use. */
    method Enqueue(t: TaskId, lo: nat, hi: nat, used: bool)
      requires Valid() && t !in min.clamps && lo <= CAPACITY && hi <= CAPACITY
      modifies this, min, max, min.bucket, max.bucket
      ensures Valid()
      ensures used ==> min.clamps == old(min.clamps)[t := lo] && max.clamps == old(max.clamps)[t := hi]
      ensures used && old(idle) ==> min.value == lo && max.value == hi
      ensures !used ==> min.clamps == old(min.clamps) && max.clamps == old(max.clamps)
                        && min.value == old(min.value) && max.value == old(max.value) && idle == old(idle)
    {
      if !used {
        return;
      }
      min.Inc(t, lo, idle);
      max.Inc(t, hi, idle);
      if idle {
        idle := false;
      }
    }

    /** uclamp_rq_dec(): when the last task leaves, MIN drops to 0 and MAX keeps that task's clamp. */
    method Dequeue(t: TaskId, used: bool) returns (warned: bool)
      requires Valid()
      modifies this, min, max, min.bucket, max.bucket
      ensures Valid() && !warned
      ensures used ==> min.clamps == old(min.clamps) - {t} && max.clamps == old(max.clamps) - {t}
      ensures used && t in old(max.clamps) && idle ==> min.value == 0 && max.value == old(max.clamps)[t]
      ensures used && t !in old(max.clamps) ==>
        min.value == old(min.value) && max.value == old(max.value) && idle == old(idle)
      ensures !used ==> min.clamps == old(min.clamps) && max.clamps == old(max.clamps)
                        && min.value == old(min.value) && max.value == old(max.value) && idle == old(idle)
    {
      warned := false;
      if !used {
        return;
      }
      var e, w := min.Dec(t);
      var f, x := max.Dec(t);
      warned := w || x;
      if f {
        idle := true;
      }
    }

    /** uclamp_rq_reinc_id() for MIN: count the task again under a new clamp. */
    method ReincMin(t: TaskId, lo: nat) returns (warned: bool)
      requires Valid() && t in min.clamps && lo <= CAPACITY
      modifies min, min.bucket
      ensures Valid() && !warned && min.clamps == old(min.clamps)[t := lo]
    {
      var e;
      e, warned := min.Dec(t);
      min.Inc(t, lo, idle);
      assert min.clamps == old(min.clamps)[t := lo];
    }

    /** uclamp_rq_reinc_id() for MAX, which also clears an idle flag raised on the way. */
    method ReincMax(t: TaskId, hi: nat) returns (warned: bool)
      requires Valid() && t in max.clamps && hi <= CAPACITY
      modifies this, max, max.bucket
      ensures Valid() && !warned && !idle && max.clamps == old(max.clamps)[t := hi]
    {
      var f;
      f, warned := max.Dec(t);
      if f {
        idle := true;
      }
      max.Inc(t, hi, idle);
      if idle {
        idle := false;
      }
      assert max.clamps == old(max.clamps)[t := hi];
    }

    /** uclamp_update_active(): an active task is counted again under new effective clamps, an inactive one is left. */
    method UpdateActive(t: TaskId, lo: nat, hi: nat) returns (warned: bool)
      requires Valid() && lo <= CAPACITY && hi <= CAPACITY
      modifies this, min, max, min.bucket, max.bucket
      ensures Valid() && !warned && idle == old(idle)
      ensures t in old(min.clamps) ==> min.clamps == old(min.clamps)[t := lo] && max.clamps == old(max.clamps)[t := hi]
      ensures t !in old(min.clamps) ==> min.clamps == old(min.clamps) && max.clamps == old(max.clamps)
                                        && min.value == old(min.value) && max.value == old(max.value)
    {
      warned := false;
      if t in min.clamps {
        warned := ReincMin(t, lo);
      }
      if t in max.clamps {
        var w := ReincMax(t, hi);
        warned := warned || w;
      }
    }
  }
}
