/** Utilization clamping: each runqueue keeps, per clamp, a few buckets that count its runnable tasks
    by clamp value, and from them a clamp for the whole runqueue. */
module Uclamp {

  const SCALE: nat := 1024

  lemma MulOrder(a: nat, b: nat, d: nat)
    requires a <= b
    ensures a * d <= b * d
  {}

  lemma DivIsDivision(a: nat, d: nat)
    requires d > 0
    ensures a / d * d <= a < a / d * d + d
  {}

  lemma DivOrder(v: nat, w: nat, d: nat)
    requires d > 0 && v <= w
    ensures v / d <= w / d
    ensures v / d == w / d ==> w - v < d
  {
    DivIsDivision(v, d);
    DivIsDivision(w, d);
    if w / d < v / d { MulOrder(w / d + 1, v / d, d); }
  }

  /** DIV_ROUND_CLOSEST(SCHED_CAPACITY_SCALE, UCLAMP_BUCKETS) */
  function Delta(n: nat): nat
    requires n > 0
  {
    (SCALE + n / 2) / n
  }

  /** The width of a bucket is the whole number closest to the n-th part of the scale. */
  lemma DeltaIsClosest(n: nat)
    requires n > 0
    ensures 2 * (n * Delta(n) - SCALE) <= n && 2 * (SCALE - n * Delta(n)) <= n
  {
    DivIsDivision(SCALE + n / 2, n);
  }

  /** The bucket counts for which the width of a bucket does not round to zero. */
  predicate Buckets(n: nat) { n > 0 && Delta(n) > 0 }

  function BucketId(v: nat, n: nat): (b: nat)
    requires Buckets(n)
    ensures b < n
  {
    if v / Delta(n) < n - 1 then v / Delta(n) else n - 1
  }

  /** How many clamp values fall into bucket b; the last one takes all that is left of the scale. */
  function Width(b: nat, n: nat): int
    requires Buckets(n) && b < n
  {
    if b < n - 1 then Delta(n) else SCALE + 1 - (n - 1) * Delta(n)
  }

  lemma BucketOrder(v: nat, w: nat, n: nat)
    requires Buckets(n) && BucketId(v, n) < BucketId(w, n)
    ensures v < w
  {
    if v >= w { DivOrder(w, v, Delta(n)); }
  }

  lemma SameBucket(v: nat, w: nat, n: nat)
    requires Buckets(n) && BucketId(v, n) == BucketId(w, n) && v <= w <= SCALE
    ensures w - v < Width(BucketId(w, n), n)
  {
    DivOrder(v, w, Delta(n));
    if BucketId(w, n) == n - 1 {
      DivIsDivision(v, Delta(n));
      MulOrder(n - 1, v / Delta(n), Delta(n));
    }
  }

  /** The tasks whose clamp falls into bucket b. */
  ghost function Members(active: map<int, nat>, b: nat, n: nat): set<int>
    requires Buckets(n)
  {
    set p | p in active && BucketId(active[p], n) == b
  }

  lemma MembersAdd(active: map<int, nat>, p: int, v: nat, b: nat, n: nat)
    requires Buckets(n) && p !in active
    ensures |Members(active[p := v], b, n)| == |Members(active, b, n)| + if BucketId(v, n) == b then 1 else 0
  {
    assert Members(active[p := v], b, n) == Members(active, b, n) + if BucketId(v, n) == b then {p} else {};
  }

  lemma MembersRemove(active: map<int, nat>, p: int, b: nat, n: nat)
    requires Buckets(n) && p in active
    ensures |Members(active - {p}, b, n)| == |Members(active, b, n)| - if BucketId(active[p], n) == b then 1 else 0
  {
    assert Members(active - {p}, b, n) == Members(active, b, n) - if BucketId(active[p], n) == b then {p} else {};
  }

  datatype Bucket = Bucket(tasks: nat, value: nat)

  lemma Member<T>(s: set<T>) returns (p: T)
    requires s != {}
    ensures p in s
  {
    p :| p in s;
  }

  // ---------------------------------------------------------------- what the buckets mean

  /** Each bucket counts the active tasks that fall into it. */
  ghost predicate Counts(bs: seq<Bucket>, active: map<int, nat>) {
    Buckets(|bs|) && forall b :: 0 <= b < |bs| ==> bs[b].tasks == |Members(active, b, |bs|)|
  }

  /** The value of a bucket in use is the largest of those seen in it since it was last empty. */
  ghost predicate Peak(bucket: Bucket, seen: set<int>, b: nat, n: nat)
    requires Buckets(n)
  {
    bucket.tasks > 0 ==> bucket.value in seen && forall v :: v in seen ==> InBucket(v, b, n) && v <= bucket.value
  }

  predicate InBucket(v: int, b: nat, n: nat)
    requires Buckets(n)
  {
    0 <= v <= SCALE && BucketId(v, n) == b
  }

  ghost predicate Peaks(bs: seq<Bucket>, seen: seq<set<int>>) {
    && Buckets(|bs|) && |seen| == |bs|
    && forall b :: 0 <= b < |bs| ==> Peak(bs[b], seen[b], b, |bs|)
  }

  ghost predicate AllSeen(bs: seq<Bucket>, seen: seq<set<int>>, active: map<int, nat>) {
    && Buckets(|bs|) && |seen| == |bs|
    && forall p :: p in active ==> active[p] in seen[BucketId(active[p], |bs|)]
  }

  /** Bucket b is the highest one in use. */
  predicate Highest(bs: seq<Bucket>, b: int) {
    0 <= b < |bs| && bs[b].tasks > 0 && forall c :: b < c < |bs| ==> bs[c].tasks == 0
  }

  /** `value` is that of the highest bucket in use. */
  ghost predicate Top(bs: seq<Bucket>, value: nat) {
    && Buckets(|bs|)
    && Highest(bs, BucketId(value, |bs|)) && bs[BucketId(value, |bs|)].value == value
  }

  lemma InUse(bs: seq<Bucket>, active: map<int, nat>, p: int)
    requires Counts(bs, active) && p in active
    ensures bs[BucketId(active[p], |bs|)].tasks > 0
  {
    assert p in Members(active, BucketId(active[p], |bs|), |bs|);
  }

  lemma Unused(bs: seq<Bucket>, active: map<int, nat>, b: nat)
    requires Counts(bs, active) && b < |bs| && bs[b].tasks > 0
    ensures exists p :: p in active && BucketId(active[p], |bs|) == b
  {
    var p := Member(Members(active, b, |bs|));
  }

  ghost predicate LargestOf(active: map<int, nat>, p: int)
    requires p in active
  {
    forall q :: q in active ==> active[q] <= active[p]
  }

  /** The runqueue's clamp covers every active task, is in the bucket of the largest of them, and so
      exceeds it by less than the width of that bucket. */
  lemma ClampCoversTightly(bs: seq<Bucket>, seen: seq<set<int>>, active: map<int, nat>, value: nat)
    requires Counts(bs, active) && Peaks(bs, seen) && AllSeen(bs, seen, active) && Top(bs, value)
    ensures forall p :: p in active ==> active[p] <= value
    ensures exists p :: p in active && LargestOf(active, p)
              && BucketId(active[p], |bs|) == BucketId(value, |bs|)
              && value - active[p] < Width(BucketId(value, |bs|), |bs|)
  {
    var n, top := |bs|, BucketId(value, |bs|);
    forall p | p in active ensures active[p] <= value && BucketId(active[p], n) <= top {
      InUse(bs, active, p);
      if BucketId(active[p], n) < top { BucketOrder(active[p], value, n); }
    }
    Unused(bs, active, top);
    var q :| q in active && BucketId(active[q], n) == top;
    var p := Largest(active, active.Keys, q);
    if BucketId(active[p], n) < top { BucketOrder(active[p], active[q], n); }
    SameBucket(active[p], value, n);
  }

  lemma {:induction false} Largest(active: map<int, nat>, keys: set<int>, q: int) returns (p: int)
    requires keys <= active.Keys && q in keys
    ensures p in keys && forall r :: r in keys ==> active[r] <= active[p]
    decreases keys
  {
    if keys == {q} {
      p := q;
    } else {
      var r := Member(keys - {q});
      p := Largest(active, keys - {r}, q);
      assert forall x :: x in keys ==> x == r || x in keys - {r};
      if active[r] > active[p] { p := r; }
    }
  }

  /** When every task seen in the highest bucket since it was last empty asked for the same clamp,
      the runqueue's clamp is exactly the largest one. */
  lemma ClampIsExact(bs: seq<Bucket>, seen: seq<set<int>>, active: map<int, nat>, value: nat, v: nat)
    requires Counts(bs, active) && Peaks(bs, seen) && AllSeen(bs, seen, active) && Top(bs, value)
    requires seen[BucketId(value, |bs|)] == {v}
    ensures value == v && exists p :: p in active && active[p] == value
  {
    ClampCoversTightly(bs, seen, active, value);
  }

  /** A bucket whose active tasks all ask for v shows exactly v if and only if no task that was
      counted in it since it was last empty asked for more. */
  lemma BucketIsExact(bs: seq<Bucket>, seen: seq<set<int>>, active: map<int, nat>, b: nat, v: nat)
    requires Counts(bs, active) && Peaks(bs, seen) && AllSeen(bs, seen, active) && b < |bs| && bs[b].tasks > 0
    requires forall p :: p in active && BucketId(active[p], |bs|) == b ==> active[p] == v
    ensures bs[b].value == v <==> forall x :: x in seen[b] ==> x <= v
  {
    Unused(bs, active, b);
    assert Peak(bs[b], seen[b], b, |bs|);
  }

  /** So equal requests of the runnable tasks are not enough: with five buckets, a task with clamp 100
      stays boosted to 110 after a task with clamp 110 came and went. */
  lemma BoostOutlivesItsTask()
    ensures Buckets(5)
    ensures var bs := Added(Added(seq(5, _ => Bucket(0, 0)), 100), 110);
      bs[0].tasks == 2 && BucketId(110, 5) == 0 == BucketId(100, 5) && Removed(bs, 110)[0] == Bucket(1, 110)
  {
    assert Delta(5) == 205;
  }

  /** uclamp_rq_dec_id() never finds an active task's bucket empty, nor a bucket in use whose value
      exceeds the runqueue's clamp. */
  lemma NoWarnings(bs: seq<Bucket>, seen: seq<set<int>>, active: map<int, nat>, value: nat, p: int)
    requires Counts(bs, active) && Peaks(bs, seen) && Top(bs, value) && p in active
    ensures var b := bs[BucketId(active[p], |bs|)]; b.tasks > 0 && b.value <= value
  {
    InUse(bs, active, p);
    var b, top := BucketId(active[p], |bs|), BucketId(value, |bs|);
    if b < top { BucketOrder(bs[b].value, value, |bs|); }
  }

  // ---------------------------------------------------------------- one clamp of a runqueue

  /** struct uclamp_rq, with the clamp of each task whose active flag is set. */
  class ClampRq {
    const isMax: bool
    const bucket: array<Bucket>
    var value: nat
    var active: map<int, nat>
    /** Per bucket, the clamps of the tasks added since it was last empty. */
    ghost var seen: seq<set<int>>

    ghost predicate Valid()
      reads this, bucket
    {
      && Counts(bucket[..], active) && Peaks(bucket[..], seen) && AllSeen(bucket[..], seen, active)
      && (active != map[] ==> Top(bucket[..], value))
      && (active == map[] && !isMax ==> value == 0)
    }

    constructor (isMax: bool, n: nat)
      requires Buckets(n)
      ensures Valid() && fresh(bucket) && this.isMax == isMax && active == map[] && bucket.Length == n
      ensures value == if isMax then SCALE else 0
    {
      this.isMax := isMax;
      bucket := new Bucket[n](_ => Bucket(0, 0));
      value := if isMax then SCALE else 0;
      active := map[];
      seen := seq(n, _ => {});
      new;
      assert forall b: nat :: Members(map[], b, n) == {};
    }

    /** One more task with clamp v in its bucket. */
    method CountIn(v: nat)
      requires Buckets(bucket.Length)
      modifies bucket
      ensures bucket[..] == Added(old(bucket[..]), v)
    {
      var b := BucketId(v, bucket.Length);
      bucket[b] := bucket[b].(tasks := bucket[b].tasks + 1);
      if bucket[b].tasks == 1 || v > bucket[b].value {
        bucket[b] := bucket[b].(value := v);
      }
    }

    /** uclamp_rq_inc_id(): task p arrives with effective clamp v; `idle` is UCLAMP_FLAG_IDLE. */
    method Inc(p: int, v: nat, idle: bool)
      requires Valid() && p !in active && v <= SCALE
      requires idle ==> active == map[]
      requires isMax && active == map[] ==> idle
      modifies this`value, this`active, this`seen, bucket
      ensures Valid() && active == old(active)[p := v] && active.Keys == old(active).Keys + {p}
      ensures seen == SeenAfter(old(bucket[..]), old(seen), v)
      ensures idle ==> value == v
    {
      AddKeeps(bucket[..], seen, active, p, v, if idle then v else value);
      KeysAdd(active, p, v);
      seen := SeenAfter(bucket[..], seen, v);
      CountIn(v);
      active := active[p := v];
      if idle {
        value := v;
      }
      if v > value {
        value := v;
      }
    }

    /** uclamp_rq_max_value(): the value of the highest bucket in use; None when there is none. */
    method MaxValue() returns (found: bool, v: nat)
      requires Buckets(bucket.Length)
      ensures found ==> exists b :: Highest(bucket[..], b) && v == bucket[b].value
      ensures !found ==> forall c :: 0 <= c < bucket.Length ==> bucket[c].tasks == 0
    {
      var b := bucket.Length - 1;
      while b >= 0
        invariant -1 <= b < bucket.Length
        invariant forall c :: b < c < bucket.Length ==> bucket[c].tasks == 0
      {
        if bucket[b].tasks > 0 {
          assert Highest(bucket[..], b);
          return true, bucket[b].value;
        }
        b := b - 1;
      }
      found, v := false, 0;
    }

    /** uclamp_rq_dec_id(): task p leaves; `idled` says that UCLAMP_FLAG_IDLE has to be set. */
    method Dec(p: int) returns (idled: bool)
      requires Valid()
      modifies this`value, this`active, bucket
      ensures Valid() && active == old(active) - {p}
      ensures idled <==> isMax && p in old(active) && active == map[]
      ensures idled ==> value == old(active)[p]
      ensures p !in old(active) ==> value == old(value)
    {
      idled := false;
      if p !in active {
        assert active - {p} == active;
        return;
      }
      ghost var bs, was := bucket[..], active;
      var v := active[p];
      var b := BucketId(v, bucket.Length);
      InUse(bs, active, p);
      bucket[b] := bucket[b].(tasks := bucket[b].tasks - 1);
      active := active - {p};
      ghost var cs := bucket[..];
      assert cs == Removed(bs, v);
      RemoveKeeps(bs, seen, was, p);
      if bucket[b].tasks == 0 && bucket[b].value >= value {
        var found, w := MaxValue();
        FoundIffActive(cs, active, found);
        if found {
          value := w;
          NewTop(cs, seen, value);
        } else {
          idled := isMax;
          value := if isMax then v else 0;
        }
      } else {
        StillTop(bs, was, p, value);
      }
    }

    /** uclamp_rq_reinc_id(): the clamp of an active task changes, through a moment in which the task
        is not counted; takes and returns UCLAMP_FLAG_IDLE. */
    method Reinc(p: int, v: nat, idle: bool) returns (idle': bool)
      requires Valid() && v <= SCALE
      requires idle ==> active == map[]
      modifies this`value, this`active, this`seen, bucket
      ensures Valid() && idle' == idle
      ensures active == if p in old(active) then old(active)[p := v] else old(active)
      ensures p !in old(active) ==> value == old(value)
    {
      idle' := idle;
      if p !in active {
        return;
      }
      PutBack(active, p, v);
      var idled := Dec(p);
      if idled {
        idle' := true;
      }
      Inc(p, v, idle');
      if isMax && idle' {
        idle' := false;
      }
    }
  }

  lemma KeysAdd(active: map<int, nat>, p: int, v: nat)
    ensures active[p := v].Keys == active.Keys + {p} && active[p := v] != map[]
  {
    assert p in active[p := v];
  }

  lemma Absent(active: map<int, nat>, p: int)
    ensures p !in active ==> active - {p} == active
    ensures (active - {p}).Keys == active.Keys - {p}
  {}

  lemma PutBack(active: map<int, nat>, p: int, v: nat)
    ensures (active - {p})[p := v] == active[p := v]
  {}

  /** What the arrival of a task with clamp v leaves in its bucket. */
  function Added(bs: seq<Bucket>, v: nat): seq<Bucket>
    requires Buckets(|bs|)
  {
    var b := BucketId(v, |bs|);
    bs[b := Bucket(bs[b].tasks + 1, if bs[b].tasks == 0 || v > bs[b].value then v else bs[b].value)]
  }

  function Removed(bs: seq<Bucket>, v: nat): seq<Bucket>
    requires Buckets(|bs|) && bs[BucketId(v, |bs|)].tasks > 0
  {
    var b := BucketId(v, |bs|);
    bs[b := Bucket(bs[b].tasks - 1, bs[b].value)]
  }

  ghost function SeenAfter(bs: seq<Bucket>, seen: seq<set<int>>, v: nat): seq<set<int>>
    requires Buckets(|bs|) && |seen| == |bs|
  {
    var b := BucketId(v, |bs|);
    seen[b := {v} + if bs[b].tasks == 0 then {} else seen[b]]
  }

  lemma AddKeepsCounts(bs: seq<Bucket>, active: map<int, nat>, p: int, v: nat)
    requires Counts(bs, active) && p !in active
    ensures Counts(Added(bs, v), active[p := v])
  {
    forall c | 0 <= c < |bs| ensures Added(bs, v)[c].tasks == |Members(active[p := v], c, |bs|)| {
      MembersAdd(active, p, v, c, |bs|);
    }
  }

  lemma AddKeepsPeaks(bs: seq<Bucket>, seen: seq<set<int>>, v: nat)
    requires Peaks(bs, seen) && v <= SCALE
    ensures Peaks(Added(bs, v), SeenAfter(bs, seen, v))
  {
    var b := BucketId(v, |bs|);
    assert Peak(bs[b], seen[b], b, |bs|);
    forall c | 0 <= c < |bs| ensures Peak(Added(bs, v)[c], SeenAfter(bs, seen, v)[c], c, |bs|) {
      if c != b { assert Peak(bs[c], seen[c], c, |bs|); }
    }
  }

  lemma AddKeepsSeen(bs: seq<Bucket>, seen: seq<set<int>>, active: map<int, nat>, p: int, v: nat)
    requires Counts(bs, active) && AllSeen(bs, seen, active) && p !in active
    ensures AllSeen(Added(bs, v), SeenAfter(bs, seen, v), active[p := v])
  {
    var now := active[p := v];
    forall q | q in now ensures now[q] in SeenAfter(bs, seen, v)[BucketId(now[q], |bs|)] {
      if q != p { InUse(bs, active, q); }
    }
  }

  lemma AddKeepsTop(bs: seq<Bucket>, seen: seq<set<int>>, active: map<int, nat>, before: nat, v: nat)
    requires Counts(bs, active) && Peaks(bs, seen)
    requires active == map[] ==> before <= v
    requires active != map[] ==> Top(bs, before)
    ensures Top(Added(bs, v), if v > before then v else before)
  {
    var n, b, t := |bs|, BucketId(v, |bs|), BucketId(before, |bs|);
    if active == map[] {
      forall c | 0 <= c < n ensures bs[c].tasks == 0 {
        assert Members(active, c, n) == {};
      }
    } else {
      if b < t { BucketOrder(v, before, n); }
      if t < b { BucketOrder(before, v, n); }
    }
  }

  lemma AddKeeps(bs: seq<Bucket>, seen: seq<set<int>>, active: map<int, nat>, p: int, v: nat, value: nat)
    requires Counts(bs, active) && Peaks(bs, seen) && AllSeen(bs, seen, active) && p !in active && v <= SCALE
    requires active == map[] ==> value <= v
    requires active != map[] ==> Top(bs, value)
    ensures var cs, after, now := Added(bs, v), SeenAfter(bs, seen, v), active[p := v];
      && Counts(cs, now) && Peaks(cs, after) && AllSeen(cs, after, now)
      && Top(cs, if v > value then v else value)
  {
    AddKeepsCounts(bs, active, p, v);
    AddKeepsPeaks(bs, seen, v);
    AddKeepsSeen(bs, seen, active, p, v);
    AddKeepsTop(bs, seen, active, value, v);
  }

  lemma RemoveKeeps(bs: seq<Bucket>, seen: seq<set<int>>, active: map<int, nat>, p: int)
    requires Counts(bs, active) && Peaks(bs, seen) && AllSeen(bs, seen, active) && p in active
    requires bs[BucketId(active[p], |bs|)].tasks > 0
    ensures var cs := Removed(bs, active[p]);
      Counts(cs, active - {p}) && Peaks(cs, seen) && AllSeen(cs, seen, active - {p})
  {
    var n, cs, rest := |bs|, Removed(bs, active[p]), active - {p};
    forall c | 0 <= c < n ensures cs[c].tasks == |Members(rest, c, n)| {
      MembersRemove(active, p, c, n);
    }
    forall b | 0 <= b < n ensures Peak(cs[b], seen[b], b, n) {
      assert Peak(bs[b], seen[b], b, n);
    }
    forall q | q in rest ensures rest[q] in seen[BucketId(rest[q], n)] {
      assert rest[q] == active[q];
    }
  }

  lemma FoundIffActive(bs: seq<Bucket>, active: map<int, nat>, found: bool)
    requires Counts(bs, active)
    requires found ==> exists c :: Highest(bs, c)
    requires !found ==> forall c :: 0 <= c < |bs| ==> bs[c].tasks == 0
    ensures found <==> active != map[]
  {
    if active != map[] {
      assert active.Keys != {};
      var p := Member(active.Keys);
      InUse(bs, active, p);
    }
    if found {
      var c :| Highest(bs, c);
      Unused(bs, active, c);
    }
  }

  lemma NewTop(bs: seq<Bucket>, seen: seq<set<int>>, value: nat)
    requires Peaks(bs, seen) && exists b :: Highest(bs, b) && value == bs[b].value
    ensures Top(bs, value)
  {
    var b :| Highest(bs, b) && value == bs[b].value;
    assert value in seen[b];
  }

  /** Taking a task out of a bucket other than the highest one, or one of several, changes nothing at
      the top. */
  lemma StillTop(bs: seq<Bucket>, active: map<int, nat>, p: int, value: nat)
    requires Counts(bs, active) && Top(bs, value) && p in active && bs[BucketId(active[p], |bs|)].tasks > 0
    requires Counts(Removed(bs, active[p]), active - {p})
    requires var c := Removed(bs, active[p])[BucketId(active[p], |bs|)]; c.tasks > 0 || c.value < value
    ensures Top(Removed(bs, active[p]), value) && active - {p} != map[]
  {
    Unused(Removed(bs, active[p]), active - {p}, BucketId(value, |bs|));
  }

  // ---------------------------------------------------------------- the runqueue

  /** The clamps of one runqueue; `idle` is UCLAMP_FLAG_IDLE and `used` the key sched_uclamp_used. */
  class Rq {
    const min: ClampRq
    const max: ClampRq
    var idle: bool
    var used: bool

    /** Both clamps count the same tasks, and the flag says whether there are none. */
    ghost predicate Valid()
      reads this, min, max, min.bucket, max.bucket
    {
      && min != max && min.bucket != max.bucket && !min.isMax && max.isMax
      && min.Valid() && max.Valid()
      && min.active.Keys == max.active.Keys
      && (idle <==> max.active.Keys == {})
    }

    constructor (n: nat)
      requires Buckets(n)
      ensures Valid() && fresh(min) && fresh(max) && fresh(min.bucket) && fresh(max.bucket)
      ensures idle && !used && min.active == map[] == max.active && min.value == 0 && max.value == SCALE
    {
      min := new ClampRq(false, n);
      max := new ClampRq(true, n);
      idle, used := true, false;
    }

    /** The first use of a clamp by user space; tasks already queued stay uncounted. */
    method Enable()
      requires Valid()
      modifies this`used
      ensures Valid() && used
    {
      used := true;
    }

    /** Both clamps of an arriving task are counted, and the idle flag is cleared. */
    method IncBoth(p: int, vmin: nat, vmax: nat)
      requires Valid() && p !in min.active && vmin <= SCALE && vmax <= SCALE
      modifies this`idle, min, max, min.bucket, max.bucket
      ensures Valid() && !idle
      ensures min.active == old(min.active)[p := vmin] && max.active == old(max.active)[p := vmax]
      ensures old(idle) ==> min.value == vmin && max.value == vmax
    {
      min.Inc(p, vmin, idle);
      max.Inc(p, vmax, idle);
      if idle {
        idle := false;
      }
    }

    /** uclamp_rq_inc() at the enqueue of task p. */
    method Inc(p: int, classEnabled: bool, vmin: nat, vmax: nat)
      requires Valid() && p !in min.active && vmin <= SCALE && vmax <= SCALE
      modifies this`idle, min, max, min.bucket, max.bucket
      ensures Valid()
      ensures !used || !classEnabled ==>
        min.active == old(min.active) && max.active == old(max.active) && idle == old(idle)
        && min.value == old(min.value) && max.value == old(max.value)
      ensures used && classEnabled ==>
        min.active == old(min.active)[p := vmin] && max.active == old(max.active)[p := vmax] && !idle
      ensures used && classEnabled && old(idle) ==> min.value == vmin && max.value == vmax
    {
      if !used || !classEnabled {
        return;
      }
      IncBoth(p, vmin, vmax);
    }

    /** uclamp_rq_dec() at the dequeue of task p: nothing happens when p was enqueued before the key
        was switched on; when the last task leaves, the max clamp retains its value. */
    method Dec(p: int, classEnabled: bool)
      requires Valid()
      modifies this`idle, min, max, min.bucket, max.bucket
      ensures Valid()
      ensures !used || !classEnabled || p !in old(min.active) ==>
        min.active == old(min.active) && max.active == old(max.active) && idle == old(idle)
        && min.value == old(min.value) && max.value == old(max.value)
      ensures used && classEnabled ==>
        min.active == old(min.active) - {p} && max.active == old(max.active) - {p}
      ensures used && classEnabled && !old(idle) && idle ==> min.value == 0 && max.value == old(max.active)[p]
    {
      if !used || !classEnabled {
        return;
      }
      Absent(min.active, p);
      Absent(max.active, p);
      var ignored := min.Dec(p);
      var idled := max.Dec(p);
      if idled {
        idle := true;
      }
    }

    /** uclamp_update_active(): the clamps of a task are changed where it is, through a moment in
        which it is not counted. */
    method Reinc(p: int, vmin: nat, vmax: nat)
      requires Valid() && vmin <= SCALE && vmax <= SCALE
      modifies this`idle, min, max, min.bucket, max.bucket
      ensures Valid() && idle == old(idle)
      ensures p in old(min.active) ==>
        min.active == old(min.active)[p := vmin] && max.active == old(max.active)[p := vmax]
      ensures p !in old(min.active) ==>
        min.active == old(min.active) && max.active == old(max.active)
        && min.value == old(min.value) && max.value == old(max.value)
    {
      idle := min.Reinc(p, vmin, idle);
      idle := max.Reinc(p, vmax, idle);
    }
  }

  /** After any sequence of operations on a runqueue with an active task: each clamp is at least the
      largest of the active tasks' and exceeds it by less than its bucket's width. */
  lemma RunqueueClamps(rq: Rq)
    requires rq.Valid() && !rq.idle
    ensures Tight(rq.min) && Tight(rq.max)
  {
    ClampCoversTightly(rq.min.bucket[..], rq.min.seen, rq.min.active, rq.min.value);
    ClampCoversTightly(rq.max.bucket[..], rq.max.seen, rq.max.active, rq.max.value);
  }

  ghost predicate Tight(c: ClampRq)
    reads c, c.bucket
  {
    && Buckets(c.bucket.Length)
    && exists p :: p in c.active && LargestOf(c.active, p) && c.active[p] <= c.value
         && c.value - c.active[p] < Width(BucketId(c.value, c.bucket.Length), c.bucket.Length)
  }
}
