/** The fixed-window rate limiter (backend/src/auth/rateLimit.js). */
module RateLimit {
  import opened Options

  type Key = nat

  datatype Bucket = Bucket(count: nat, resetAt: int)

  type Buckets = map<Key, Bucket>

  /** A request that a limiter sees, with that limiter's window and maximum; or the sweep timer. */
  datatype Op =
    | Request(key: Option<Key>, windowMs: int, max: nat, now: int)
    | Sweep(now: int)

  /** The bucket after a hit. */
  function Hit(m: Buckets, key: Key, windowMs: int, now: int): Bucket {
    if key !in m || now >= m[key].resetAt then Bucket(1, now + windowMs)
    else Bucket(m[key].count + 1, m[key].resetAt)
  }

  function SweepBuckets(m: Buckets, now: int): Buckets {
    map key | key in m && now < m[key].resetAt :: m[key]
  }

  function Step(m: Buckets, op: Op): Buckets {
    match op
    case Request(key, w, _, now) => if key.None? then m else m[key.value := Hit(m, key.value, w, now)]
    case Sweep(now) => SweepBuckets(m, now)
  }

  /** The answer to a request: let through, or refused with a time to wait. */
  datatype Answer = Next | TooMany(retryAfterMs: int)

  function Answered(m: Buckets, key: Option<Key>, windowMs: int, max: nat, now: int): Answer {
    if key.None? then Next
    else
      var b := Hit(m, key.value, windowMs, now);
      if b.count > max then TooMany(b.resetAt - now) else Next
  }

  function Answers(m: Buckets, ops: seq<Op>): seq<Answer>
    decreases ops
  {
    if ops == [] then []
    else
      (match ops[0]
       case Request(key, w, max, now) => [Answered(m, key, w, max, now)]
       case Sweep(_) => [])
      + Answers(Step(m, ops[0]), ops[1..])
  }

  predicate Monotone(ops: seq<Op>) {
    forall i, j | 0 <= i < j < |ops| :: ops[i].now <= ops[j].now
  }

  // ---------------------------------------------------------------------------------------
  // The sweep is invisible.
  // ---------------------------------------------------------------------------------------

  function WithoutSweeps(ops: seq<Op>): seq<Op> {
    if ops == [] then []
    else (if ops[0].Sweep? then [] else [ops[0]]) + WithoutSweeps(ops[1..])
  }

  /** Which buckets sweeps have removed since the last request of their key, and when each would have ended. */
  function Removed(m: Buckets, gone: map<Key, int>, op: Op): map<Key, int> {
    match op
    case Request(key, _, _, _) => if key.None? then gone else gone - {key.value}
    case Sweep(now) => gone + map key | key in m && now >= m[key].resetAt :: m[key].resetAt
  }

  /** No request reads a time before the end of a bucket of its key that a sweep has removed. */
  predicate NeverEarly(m: Buckets, gone: map<Key, int>, ops: seq<Op>)
    decreases ops
  {
    ops != [] ==>
      var op := ops[0];
      && (op.Request? && op.key.Some? && op.key.value in gone ==> gone[op.key.value] <= op.now)
      && NeverEarly(Step(m, op), Removed(m, gone, op), ops[1..])
  }

  /** The buckets that the requests find or open, one for each request with a key. */
  function Hits(m: Buckets, ops: seq<Op>): seq<Bucket>
    decreases ops
  {
    if ops == [] then []
    else
      (if ops[0].Request? && ops[0].key.Some? then [Hit(m, ops[0].key.value, ops[0].windowMs, ops[0].now)] else [])
      + Hits(Step(m, ops[0]), ops[1..])
  }

  predicate Positive(m: Buckets) {
    forall k | k in m :: m[k].count >= 1
  }

  /** A sweep shows in the next request of a key exactly if it removed a bucket that is live when that request comes. */
  lemma SweepShowsExactly(m: Buckets, swept: int, key: Key, windowMs: int, now: int)
    requires Positive(m)
    ensures Hit(SweepBuckets(m, swept), key, windowMs, now) == Hit(m, key, windowMs, now)
      <==> !(key in m && now < m[key].resetAt <= swept)
  {
  }

  /** `swept` is `full` without the buckets recorded in `gone`. */
  predicate Lacks(swept: Buckets, full: Buckets, gone: map<Key, int>) {
    && (forall k | k in swept :: k in full && full[k] == swept[k])
    && gone.Keys == full.Keys - swept.Keys
    && (forall k | k in gone :: gone[k] == full[k].resetAt)
  }

  lemma LacksSweep(swept: Buckets, full: Buckets, gone: map<Key, int>, now: int)
    requires Lacks(swept, full, gone)
    ensures Lacks(SweepBuckets(swept, now), full, Removed(swept, gone, Sweep(now)))
  {
  }

  /** A request of a key whose bucket is not early to miss goes alike on both sides. */
  lemma LacksRequest(swept: Buckets, full: Buckets, gone: map<Key, int>, op: Op)
    requires Lacks(swept, full, gone) && op.Request?
    requires op.key.Some? && op.key.value in gone ==> gone[op.key.value] <= op.now
    ensures Lacks(Step(swept, op), Step(full, op), Removed(swept, gone, op))
    ensures Answered(swept, op.key, op.windowMs, op.max, op.now) == Answered(full, op.key, op.windowMs, op.max, op.now)
    ensures op.key.Some? ==> Hit(swept, op.key.value, op.windowMs, op.now) == Hit(full, op.key.value, op.windowMs, op.now)
  {
  }

  lemma {:induction false} SweepsFrom(swept: Buckets, full: Buckets, gone: map<Key, int>, ops: seq<Op>)
    requires Lacks(swept, full, gone) && NeverEarly(swept, gone, ops)
    ensures Answers(swept, ops) == Answers(full, WithoutSweeps(ops))
    decreases ops
  {
    if ops != [] {
      var op, rest := ops[0], ops[1..];
      if op.Request? {
        LacksRequest(swept, full, gone, op);
        SweepsFrom(Step(swept, op), Step(full, op), Removed(swept, gone, op), rest);
        assert ([op] + WithoutSweeps(rest))[1..] == WithoutSweeps(rest);
      } else {
        LacksSweep(swept, full, gone, op.now);
        SweepsFrom(Step(swept, op), full, Removed(swept, gone, op), rest);
        assert [] + WithoutSweeps(rest) == WithoutSweeps(rest);
      }
    }
  }

  /** Sweeps change no answer, whatever the clock does, if no request comes before the end of a removed bucket of its key. */
  lemma SweepIsInvisible(m: Buckets, ops: seq<Op>)
    requires NeverEarly(m, map[], ops)
    ensures Answers(m, ops) == Answers(m, WithoutSweeps(ops))
  {
    SweepsFrom(m, m, map[], ops);
  }

  lemma {:induction false} ShowsFrom(swept: Buckets, full: Buckets, gone: map<Key, int>, ops: seq<Op>)
    requires Lacks(swept, full, gone) && Positive(full)
    ensures Hits(swept, ops) == Hits(full, WithoutSweeps(ops)) <==> NeverEarly(swept, gone, ops)
    decreases ops
  {
    if ops != [] {
      var op, rest := ops[0], ops[1..];
      if op.Sweep? {
        LacksSweep(swept, full, gone, op.now);
        ShowsFrom(Step(swept, op), full, Removed(swept, gone, op), rest);
        assert [] + WithoutSweeps(rest) == WithoutSweeps(rest);
      } else {
        assert ([op] + WithoutSweeps(rest))[1..] == WithoutSweeps(rest);
        if op.key.Some? && op.key.value in gone && op.now < gone[op.key.value] {
          assert Hits(swept, ops)[0] != Hits(full, WithoutSweeps(ops))[0];
        } else {
          LacksRequest(swept, full, gone, op);
          ShowsFrom(Step(swept, op), Step(full, op), Removed(swept, gone, op), rest);
          SameHead(swept, full, op, rest);
        }
      }
    }
  }

  /** After one request that goes alike, the hits agree exactly if the rest of them do. */
  lemma SameHead(swept: Buckets, full: Buckets, op: Op, rest: seq<Op>)
    requires op.Request?
    requires op.key.Some? ==> Hit(swept, op.key.value, op.windowMs, op.now) == Hit(full, op.key.value, op.windowMs, op.now)
    ensures Hits(swept, [op] + rest) == Hits(full, [op] + WithoutSweeps(rest))
      <==> Hits(Step(swept, op), rest) == Hits(Step(full, op), WithoutSweeps(rest))
  {
    assert ([op] + rest)[1..] == rest && ([op] + WithoutSweeps(rest))[1..] == WithoutSweeps(rest);
    var a, b := Hits(Step(swept, op), rest), Hits(Step(full, op), WithoutSweeps(rest));
    if op.key.Some? {
      var h := [Hit(swept, op.key.value, op.windowMs, op.now)];
      assert (h + a)[1..] == a && (h + b)[1..] == b;
    } else {
      assert [] + a == a && [] + b == b;
    }
  }

  /** That condition is exact: the counts and the times to wait are those of a limiter that never sweeps if and only if it holds. */
  lemma SweepIsInvisibleExactly(m: Buckets, ops: seq<Op>)
    requires Positive(m)
    ensures Hits(m, ops) == Hits(m, WithoutSweeps(ops)) <==> NeverEarly(m, map[], ops)
  {
    ShowsFrom(m, m, map[], ops);
  }

  lemma MonotoneRest(ops: seq<Op>)
    requires Monotone(ops) && ops != []
    ensures Monotone(ops[1..]) && forall x | x in ops[1..] :: ops[0].now <= x.now
  {
    var rest := ops[1..];
    forall x | x in rest ensures ops[0].now <= x.now {
      var i :| 0 <= i < |rest| && rest[i] == x;
      assert ops[i + 1] == x;
    }
    assert forall i | 0 <= i < |rest| :: rest[i] == ops[i + 1];
  }

  /** A clock that never goes back meets the condition. */
  lemma {:induction false} MonotoneIsNeverEarly(m: Buckets, gone: map<Key, int>, ops: seq<Op>)
    requires Monotone(ops) && forall k, x | k in gone && x in ops :: gone[k] <= x.now
    ensures NeverEarly(m, gone, ops)
    decreases ops
  {
    if ops != [] {
      assert ops[0] in ops;
      MonotoneRest(ops);
      MonotoneIsNeverEarly(Step(m, ops[0]), Removed(m, gone, ops[0]), ops[1..]);
    }
  }

  /** A request that comes before that time can be let through only because of the sweep. */
  lemma SweepShowsIfClockGoesBack()
    ensures var first := Request(Some(1), 10, 1, 0);
      var ops := [first, Sweep(10), Request(Some(1), 10, 1, 5)];
      Answers(map[], ops) == [Next, Next] && Answers(map[], [first, ops[2]]) == [Next, TooMany(5)]
  {
    var a, b, c := Request(Some(1), 10, 1, 0), Sweep(10), Request(Some(1), 10, 1, 5);
    var m1: Buckets := map[1 := Bucket(1, 10)];
    assert Step(map[], a) == m1 && Step(m1, b) == map[];
    assert [a, b, c][1..] == [b, c] && [b, c][1..] == [c] && [a, c][1..] == [c] && [c][1..] == [];
    assert Answers(Step(map[], c), []) == [];
    assert Answers(map[], [c]) == [Next] && Answers(m1, [c]) == [TooMany(5)];
    assert Answers(m1, [b, c]) == [] + Answers(map[], [c]);
  }

  // ---------------------------------------------------------------------------------------
  // The bound on any sliding window.
  // ---------------------------------------------------------------------------------------

  predicate LetThrough(m: Buckets, op: Op, key: Key, a: int, b: int) {
    op.Request? && op.key == Some(key) && a <= op.now < b && Answered(m, op.key, op.windowMs, op.max, op.now) == Next
  }

  /** Requests of `key` let through at times in [a, b). */
  function Admitted(m: Buckets, ops: seq<Op>, key: Key, a: int, b: int): nat
    decreases ops
  {
    if ops == [] then 0
    else (if LetThrough(m, ops[0], key, a, b) then 1 else 0) + Admitted(Step(m, ops[0]), ops[1..], key, a, b)
  }

  /** One limiter guards the key. */
  predicate Guards(ops: seq<Op>, key: Key, windowMs: int, max: nat) {
    forall op | op in ops && op.Request? && op.key == Some(key) :: op.windowMs == windowMs && op.max == max
  }

  predicate From(ops: seq<Op>, t: int) {
    Monotone(ops) && forall op | op in ops :: t <= op.now
  }

  lemma RestFrom(ops: seq<Op>, t: int)
    requires ops != [] && From(ops, t)
    ensures t <= ops[0].now && From(ops[1..], ops[0].now)
  {
    var rest := ops[1..];
    assert ops[0] in ops;
    assert forall i | 0 <= i < |rest| :: rest[i] == ops[i + 1];
  }

  lemma Rest(ops: seq<Op>, t: int, key: Key, windowMs: int, max: nat)
    requires ops != [] && From(ops, t) && Guards(ops, key, windowMs, max)
    ensures t <= ops[0].now && From(ops[1..], ops[0].now) && Guards(ops[1..], key, windowMs, max)
  {
    RestFrom(ops, t);
    assert forall op | op in ops[1..] :: op in ops;
  }

  /** A live bucket that outlasts the interval lets through no more than it has left. */
  lemma {:induction false} WithinBucket(m: Buckets, ops: seq<Op>, key: Key, w: int, max: nat, a: int, b: int, t: int)
    requires From(ops, t) && Guards(ops, key, w, max) && key in m && b <= m[key].resetAt
    ensures Admitted(m, ops, key, a, b) <= if m[key].count <= max then max - m[key].count else 0
    decreases ops
  {
    if ops != [] {
      Rest(ops, t, key, w, max);
      assert ops[0] in ops;
      if ops[0].now >= b {
        NothingAfter(m, ops, key, a, b, ops[0].now);
      } else {
        WithinBucket(Step(m, ops[0]), ops[1..], key, w, max, a, b, ops[0].now);
      }
    }
  }

  lemma {:induction false} NothingAfter(m: Buckets, ops: seq<Op>, key: Key, a: int, b: int, t: int)
    requires From(ops, t) && b <= t
    ensures Admitted(m, ops, key, a, b) == 0
    decreases ops
  {
    if ops != [] {
      RestFrom(ops, t);
      NothingAfter(Step(m, ops[0]), ops[1..], key, a, b, ops[0].now);
    }
  }

  /** With no live bucket, the next one lasts to the end of an interval of the window's length. */
  lemma {:induction false} FreshBucket(m: Buckets, ops: seq<Op>, key: Key, w: int, max: nat, a: int, t: int)
    requires From(ops, t) && Guards(ops, key, w, max) && a <= t
    requires key in m ==> m[key].resetAt <= t
    ensures Admitted(m, ops, key, a, a + w) <= max
    decreases ops
  {
    if ops != [] {
      Rest(ops, t, key, w, max);
      assert ops[0] in ops;
      var m' := Step(m, ops[0]);
      if ops[0].Request? && ops[0].key == Some(key) {
        WithinBucket(m', ops[1..], key, w, max, a, a + w, ops[0].now);
      } else {
        FreshBucket(m', ops[1..], key, w, max, a, ops[0].now);
      }
    }
  }

  /** From inside the interval: what the current bucket has left, then at most one more bucket. */
  lemma {:induction false} TwoBuckets(m: Buckets, ops: seq<Op>, key: Key, w: int, max: nat, a: int, t: int)
    requires From(ops, t) && Guards(ops, key, w, max) && a <= t
    requires key in m && a <= m[key].resetAt
    ensures Admitted(m, ops, key, a, a + w) <= max + if m[key].count <= max then max - m[key].count else 0
    decreases ops
  {
    if ops != [] {
      Rest(ops, t, key, w, max);
      assert ops[0] in ops;
      if ops[0].now >= m[key].resetAt {
        FreshFrom(ops, ops[0].now);
        FreshBucket(m, ops, key, w, max, a, ops[0].now);
      } else {
        TwoBuckets(Step(m, ops[0]), ops[1..], key, w, max, a, ops[0].now);
      }
    }
  }

  lemma FreshFrom(ops: seq<Op>, t: int)
    requires ops != [] && Monotone(ops) && t == ops[0].now
    ensures From(ops, t)
  {
  }

  /** Every bucket was made by a hit. */
  predicate Counted(m: Buckets) {
    forall k | k in m :: m[k].count >= 1
  }

  /**
   Under a clock that never goes back, at most 2*max - 1 requests of a key are let through in any
   half-open interval of the window's length, sweeps and other keys notwithstanding.
   */
  lemma {:induction false} SlidingWindowBound(m: Buckets, ops: seq<Op>, key: Key, w: int, max: nat, a: int, t: int)
    requires Counted(m) && From(ops, t) && Guards(ops, key, w, max) && w > 0
    ensures Admitted(m, ops, key, a, a + w) <= if max == 0 then 0 else 2 * max - 1
    decreases ops
  {
    if ops != [] {
      Rest(ops, t, key, w, max);
      assert ops[0] in ops;
      FreshFrom(ops, ops[0].now);
      if ops[0].now < a {
        SlidingWindowBound(Step(m, ops[0]), ops[1..], key, w, max, a, ops[0].now);
      } else if key in m && ops[0].now < m[key].resetAt {
        TwoBucketsStrict(m, ops, key, w, max, a, ops[0].now);
      } else {
        FreshBucket(m, ops, key, w, max, a, ops[0].now);
      }
    }
  }

  lemma TwoBucketsStrict(m: Buckets, ops: seq<Op>, key: Key, w: int, max: nat, a: int, t: int)
    requires Counted(m) && From(ops, t) && Guards(ops, key, w, max) && a <= t
    requires key in m && t < m[key].resetAt
    ensures Admitted(m, ops, key, a, a + w) <= if max == 0 then 0 else 2 * max - 1
  {
    TwoBuckets(m, ops, key, w, max, a, t);
  }

  function Repeat(op: Op, n: nat): seq<Op> {
    if n == 0 then [] else [op] + Repeat(op, n - 1)
  }

  /** Hits at one moment on a live bucket with room: all of them pass. */
  lemma {:induction false} RoomForAll(m: Buckets, key: Key, w: int, max: nat, now: int, n: nat, more: seq<Op>, a: int)
    requires key in m && now < m[key].resetAt && m[key].count + n <= max && a <= now < a + w
    ensures var hit := Request(Some(key), w, max, now);
      var m' := m[key := Bucket(m[key].count + n, m[key].resetAt)];
      Admitted(m, Repeat(hit, n) + more, key, a, a + w) == n + Admitted(m', more, key, a, a + w)
  {
    var hit := Request(Some(key), w, max, now);
    if n == 0 {
      assert [] + more == more && m[key := Bucket(m[key].count, m[key].resetAt)] == m;
    } else {
      var next := m[key := Bucket(m[key].count + 1, m[key].resetAt)];
      assert Step(m, hit) == next;
      assert (Repeat(hit, n) + more)[1..] == Repeat(hit, n - 1) + more;
      RoomForAll(next, key, w, max, now, n - 1, more, a);
      assert next[key := Bucket(m[key].count + n, m[key].resetAt)] == m[key := Bucket(m[key].count + n, m[key].resetAt)];
    }
  }

  /** One hit opens the bucket, the rest of its room goes just before it elapses, and a whole new one just after. */
  function Burst(key: Key, w: int, max: nat): seq<Op>
    requires max >= 1
  {
    [Request(Some(key), w, max, 0)] + (Repeat(Request(Some(key), w, max, w - 1), max - 1)
    + ([Request(Some(key), w, max, w)] + (Repeat(Request(Some(key), w, max, w), max - 1) + [])))
  }

  lemma FirstHit(m: Buckets, key: Key, w: int, max: nat, now: int, more: seq<Op>, a: int)
    requires max >= 1 && (key in m ==> m[key].resetAt <= now)
    ensures Admitted(m, [Request(Some(key), w, max, now)] + more, key, a, a + w)
      == (if a <= now < a + w then 1 else 0) + Admitted(m[key := Bucket(1, now + w)], more, key, a, a + w)
  {
    assert ([Request(Some(key), w, max, now)] + more)[1..] == more;
  }

  /** The bound is reached, for every maximum and every window of at least two milliseconds. */
  lemma BoundIsTight(key: Key, w: int, max: nat)
    requires max >= 1 && w >= 2
    ensures Admitted(map[], Burst(key, w, max), key, w - 1, 2 * w - 1) == 2 * max - 1
  {
    var a := w - 1;
    var late, next := Request(Some(key), w, max, w - 1), Request(Some(key), w, max, w);
    var tail := Repeat(next, max - 1) + [];
    var m1: Buckets := map[key := Bucket(1, w)];
    var m2: Buckets := map[key := Bucket(max, w)];
    var m3: Buckets := map[key := Bucket(1, 2 * w)];
    var none: Buckets := map[];
    assert none[key := Bucket(1, 0 + w)] == m1;
    FirstHit(none, key, w, max, 0, Repeat(late, max - 1) + ([next] + tail), a);
    assert m1[key := Bucket(1 + (max - 1), w)] == m2;
    RoomForAll(m1, key, w, max, w - 1, max - 1, [next] + tail, a);
    assert m2[key := Bucket(1, w + w)] == m3;
    FirstHit(m2, key, w, max, w, tail, a);
    RoomForAll(m3, key, w, max, w, max - 1, [], a);
    assert a + w == 2 * w - 1;
  }
}

module RateLimitImpl {
  import opened Options
  import opened RateLimit

  class RateLimiter {
    var buckets: Buckets

    constructor ()
      ensures buckets == map[] && Counted(buckets)
    {
      buckets := map[];
    }

    method Hit(key: Key, windowMs: int, max: nat, now: int) returns (limited: bool, retryAfterMs: int)
      modifies this
      ensures buckets == Step(old(buckets), Request(Some(key), windowMs, max, now))
      ensures (if limited then TooMany(retryAfterMs) else Next) == Answered(old(buckets), Some(key), windowMs, max, now)
      ensures retryAfterMs == buckets[key].resetAt - now
    {
      if key !in buckets || now >= buckets[key].resetAt {
        buckets := buckets[key := Bucket(0, now + windowMs)];
      }
      var bucket := buckets[key];
      buckets := buckets[key := bucket.(count := bucket.count + 1)];
      limited := buckets[key].count > max;
      retryAfterMs := buckets[key].resetAt - now;
    }

    /** The middleware: a request without a key is never limited. */
    method Limit(key: Option<Key>, windowMs: int, max: nat, now: int) returns (answer: Answer)
      modifies this
      ensures buckets == Step(old(buckets), Request(key, windowMs, max, now))
      ensures answer == Answered(old(buckets), key, windowMs, max, now)
    {
      if key.None? {
        return Next;
      }
      var limited, retryAfterMs := Hit(key.value, windowMs, max, now);
      answer := if limited then TooMany(retryAfterMs) else Next;
    }

    /** The timer's loop over all buckets, deleting those that have elapsed. */
    method Sweep(now: int)
      modifies this
      ensures buckets == Step(old(buckets), Op.Sweep(now))
    {
      var todo := buckets.Keys;
      while todo != {}
        invariant todo <= old(buckets).Keys
        invariant buckets == map k | k in old(buckets) && (k in todo || now < old(buckets)[k].resetAt) :: old(buckets)[k]
        decreases todo
      {
        var key :| key in todo;
        if now >= buckets[key].resetAt {
          buckets := buckets - {key};
        }
        todo := todo - {key};
      }
    }
  }
}
